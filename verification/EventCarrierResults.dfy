/** What the Session Events carrier pair guarantees in every reachable state. */
module EventCarrierResults {
  import opened EventDelivery
  import opened EventCarrier
  import opened EventCarrierSafety

  /**
   * No identity check ever fires: in every run, with any interleaving of requests, closes, overflows,
   * terminations and failures, the client never meets an impossible, duplicate or excessive identity
   * and the server never meets a stale request or an impossible unsubscribe.
   */
  lemma NoFault(w: World, limit: nat)
    requires limit <= MAX_SUBSCRIPTION_CORRELATIONS && Reachable(w, limit)
    ensures !w.client.fault && !w.server.fault
  {
    ReachableSafe(w, limit);
  }

  /**
   * End to end: the events an author's listener was called with are, in order and without repetition
   * or gap, a beginning of the retained event and the events on the channels it asked for that the hub
   * routed since the subscription was installed.
   */
  lemma AuthorSeesPrefix(w: World, limit: nat, m: SubId)
    requires limit <= MAX_SUBSCRIPTION_CORRELATIONS && Reachable(w, limit) && m in w.client.handles
    ensures m in w.server.hub && w.server.hub[m].since <= |w.log|
    ensures w.server.hub[m].channels == w.client.handles[m].channels
    ensures w.client.handles[m].author <= Due(w.server.hub[m], w.log)
  {
    hide Reachable;
    ReachableSafe(w, limit);
    var h, hub := w.client.handles[m], w.server.hub[m];
    assert HandleOk(h, hub) && Valid(hub.delivery);
    assert h.author <= h.delivery.delivered <= h.delivery.offered <= hub.delivery.delivered <= hub.delivery.offered;
  }

  /** The subscription is established on both ends and nothing of it is on its way or waiting. */
  ghost predicate Quiet(w: World, m: SubId) {
    && w.up && w.client.live && m in w.client.subs && w.client.subs[m].Live? && m in w.client.handles
       && m in w.server.hub
    && var h, d := w.client.handles[m], w.server.hub[m].delivery;
    && h.gate.Exposed? && !h.inHand && !h.delivery.running && !h.delivery.scheduled && h.delivery.visible
    && d.active && d.visible && !d.running && !d.scheduled
    && Notices(m, w.toClient) == []
  }

  /** And nothing is lost: once a live subscription comes to rest, its author has seen every event due. */
  lemma AuthorSeesAll(w: World, limit: nat, m: SubId)
    requires limit <= MAX_SUBSCRIPTION_CORRELATIONS && Reachable(w, limit) && Quiet(w, m)
    ensures w.server.hub[m].since <= |w.log| && w.client.handles[m].author == Due(w.server.hub[m], w.log)
  {
    hide Reachable;
    ReachableSafe(w, limit);
    var h, d := w.client.handles[m], w.server.hub[m].delivery;
    assert HandleOk(h, w.server.hub[m]);
    IdleMeansDelivered(d);
    IdleMeansDelivered(h.delivery);
    assert Streams(h.delivery.offered, [], d.delivered, true);
    assert h.delivery.offered + [] == h.delivery.offered;
  }
}

# Verified models of the LoomRealm in-memory protocols

LoomRealm runs a game as several parties (Main, Renderer, Subsystem runners, a PWA Window) that talk over
message carriers. Most of its difficult code is protocol state kept correct across `await` points, timeouts,
aborts and late messages. The Dafny files here model that code and prove what it is for, over every run or on
every input. `dafny verify dfyconfig.toml` checks all of them.

## What is modelled

Composed protocols are transition systems: a datatype for the whole state, a function `Apply` for one step (the
code between two `await`s, or one environment event), `Run` for a sequence of steps, and an invariant `Safe`
proved of every run. Objects whose methods update their fields are classes with the same fields; their methods
are proved against functions on values. Loops of the source are loops here.

- `DataProvisioning.dfy`, `DataProvisioningSafety.dfy`, `DataProvisioningConvergence.dfy`,
  `DataProvisioningResults.dfy`, `DataProvisioningStarts.dfy`, `DataProvisioningProgress.dfy`,
  `DataEndpoints.dfy`: the PWA Data broker's install/commit/rollback transaction with the Window endpoint, the
  Runner endpoints and their two FIFO ports each. `DataEndpoints` has the endpoint and request-table classes and
  shows that each of their handlers does exactly what a step of the transition system does. What is safe in every
  run is in `Safety` and `Results`; that the broker gets to where it should is in `Progress`.
- `EventDelivery.dfy`, `EventCarrier.dfy`, `EventCarrierSafety.dfy`, `EventCarrierResults.dfy`,
  `EventCarrierOutcomes.dfy`, `EventCarrierOrigins.dfy`, `EventHub.dfy`, `HostLifecycle.dfy`, `EventClient.dfy`:
  Session Events, from the author's listener through the carrier pair with its two lanes to the hub's channel
  index, the bounded deliveries and the retained host lifecycle. `Outcomes` says how each request ends and that
  none is forgotten, `Origins` where subscriptions, the events due and their ends come from.
- `ControlHolder.dfy`: the Renderer's Data slots under changing control peers and snapshots.
- `RuntimeControl.dfy`, `RuntimeControlSafety.dfy`, `RuntimeControlOutcomes.dfy`: a pair of JSON-RPC connections
  with Main's and the Subsystem's status automata on top, and the outcome each request settles with.
- `SendQueue.dfy`, `LatestWins.dfy`: the compacting send queue and the senders that keep only the latest value.
- `Unicode.dfy`, `JsonText.dfy`, `JsonReading.dfy`, `GraphClone.dfy`: algorithms with an independent specification
  (order and length of UTF-8, explicit-stack serializing and measuring, cloning of object graphs). `JsonReading`
  is a reader after RFC 8259 with which what the serializers print is shown to be readable and unambiguous.
- `Controls.dfy`: the controls machine over keyboard, gamepads and custom input, and the directional tracker.

Four expectations turn out not to hold as a reader may take them from the code; each comes with a run that
shows it and with the condition, necessary and sufficient, under which the code does what is expected.

- A provision can start for an entry that the authority no longer lists, since the list is taken once
  (`StaleStartExists`). It does so exactly if the authority was replaced or closed since, at a moment when no
  operation was fenced, and its last view omits the entry (`StaleStartIff`). Replacing or closing it while an
  operation is fenced is safe: the pass starts nothing more and ends in failure (`ReplaceWhileFenced`). Nothing
  stale is ever committed (`CommitIsListed`).
- A frame request of the Subsystem ends the connection exactly when Main has already asked for the shutdown
  (`FrameRequestFailsIffIntent`, `RaceExists`). It is the only protocol-fatal end a conforming pair can reach.
- A snapshot published before the hello was answered is sent after the hello and then fails the Renderer's
  regression check exactly if it is not newer than the hello's snapshot (`FiresOnlyOnFirst`, and
  `PublishedBeforeHello` runs both peers to that point). It takes an owner of the peer that publishes before
  `acceptHello`. The repository's own Main does not: it publishes to a peer only from there on
  (packages/main/src/internal/main-session.ts:1501-1507 and 1368).
- The host lifecycle filter can discard snapshots of the host. It lets every one through exactly if the host's
  first one follows what the subscriber has seen so far, if anything, and the host tells nothing after a
  snapshot that a Runtime keyed "host" published with the host's next number (`HostPassesIff`, on the hub
  `SubscriberPassesIff`). `PosedRun` and `ReplacedRun` run the hub to the two ways it fails: such a Runtime, and
  a publisher that is replaced by one with another epoch while a subscriber stays. A subscriber whom only one
  publisher ever told anything sees all of it (`SubscriberSeesRun`).

## Model

| member | source | states |
|---|---|---|
| DataProvisioningSafety.ReachableSafe | apps/pwa/src/data-broker.ts:145-378 | The invariant over every run of broker, Window, Runners and ports: whatever an end holds or will get is the latest connection of its key and still fenced by a record that does not count that end as revoked; accepted revocations left their end clear, accepted installations are backed |
| DataProvisioningResults.EndsAgree | apps/pwa/src/data-broker.ts:66-73 | In every reachable state two ends that hold a Data connection for one key hold the same connection of the same tuple |
| DataProvisioningResults.CommittedIsBacked | apps/pwa/src/data-broker.ts:277-292 | A committed record means that the Window and the Runner, unless closed or dead, hold exactly that connection |
| DataProvisioningResults.ProvisionStartsClear | apps/pwa/src/data-broker.ts:228-251 | A new connection is only created for a key that no end holds anything of and no installation is on its way for |
| DataProvisioningResults.OutcomeIsFinal | apps/pwa/src/window-bridge.ts:32-86 | A request that settled by reply, timeout, abort or close never changes its outcome afterwards, late replies included |
| DataProvisioningConvergence.ReachableConverging | apps/pwa/src/data-broker.ts:145-234 | The invariant of the drain loop over every run that convergence and the origin of provisions follow from |
| DataProvisioningResults.SuccessfulReconcileConverges | apps/pwa/src/data-broker.ts:150-163 | A reconcile that ends successfully with `dirty` false leaves nothing fenced, and a key is current if and only if the authority lists an entry of it whose runtime has not terminated and has a provisioner; its record is committed and is that entry's |
| DataProvisioningResults.DivergenceIsNoticed | apps/pwa/src/data-broker.ts:145-179 | Whenever the books differ from what the authority, the terminated runtimes and the provisioners ask for, the broker is dirty, running or has a retry armed |
| DataProvisioningResults.ConvergedMeans | apps/pwa/src/data-broker.ts:195-202 | That the broker's own comparison finds nothing to do is the same as agreement stated from the authority's entries, the terminated runtimes and the provisioners alone |
| DataProvisioningConvergence.DesiredIs | apps/pwa/src/data-broker.ts:195-202 | The desired list fails if and only if an entry repeats the key of an earlier entry whose runtime has not terminated; else it has exactly the entries whose runtime has not |
| DataProvisioningProgress.PassSucceeds | apps/pwa/src/data-broker.ts:145-303 | With the broker open, no key listed twice and every end concerned serving, a pass never fails, whatever order its steps, the ends and their ports take |
| DataProvisioningProgress.CanSucceed | apps/pwa/src/data-broker.ts:145-303 | From every state of such a pass the steps of broker and ends alone lead to its success, with the books as the authority asks |
| DataProvisioningProgress.CalmConverges | apps/pwa/src/data-broker.ts:120-179 | The same from any reachable state in which the broker is scheduled, whatever was left over from before |
| DataProvisioningProgress.RevokedForCause | apps/pwa/src/data-broker.ts:213-226 | A committed connection is given up only by the broker's own pass, and only if something changed since or the authority no longer asks for it |
| DataProvisioningResults.StartIsListed | apps/pwa/src/data-broker.ts:228-233 | If the authority was not replaced since the list was taken, a provision starts for an entry of the current authority on a runtime that is not terminated |
| DataProvisioningResults.StaleStartExists | apps/pwa/src/data-broker.ts:228-233 | A reachable state in which a provision starts for an entry that the authority no longer lists |
| DataProvisioningStarts.StaleStartIff | apps/pwa/src/data-broker.ts:204-251 | In every run, a provision starts for an entry the authority does not list if and only if the authority was replaced or closed since the list was taken, at a moment with no operation fenced, and its last view omits the entry |
| DataProvisioningStarts.ReplaceWhileFenced | apps/pwa/src/data-broker.ts:228-303 | After a replacement or close that falls while an operation is fenced, whatever happens next, the pass starts no further provision from its list and can only end in failure |
| DataProvisioningStarts.StartAfterReplace | apps/pwa/src/data-broker.ts:96-104 | A replacement or close in the middle of the list decides nothing about the next start: it was due before if and only if it is due after, for the same entry, and then nothing is fenced |
| DataProvisioningResults.CommitIsListed | apps/pwa/src/data-broker.ts:204-211 | A commit happens only for the tuple and runtime of the entry the current authority lists first for the key, at its revision, with a live provisioner, the broker open and both ends backing the connection |
| DataEndpoints.WindowData.Acquire | apps/pwa/src/renderer-host.ts:100-111 | Hands out the installed carrier of exactly this tuple once, waits if no one else does, else refuses; the slots change by nothing else |
| DataEndpoints.WindowData.AbortWaiter | apps/pwa/src/renderer-host.ts:109 | An abort removes exactly the waiter it belongs to |
| DataEndpoints.WindowData.Install | apps/pwa/src/renderer-host.ts:113-121 | Succeeds if and only if open and unoccupied; a waiter for exactly this tuple gets the carrier at once and no other waiter does |
| DataEndpoints.WindowData.Revoke | apps/pwa/src/renderer-host.ts:123-130 | Drops the connection only if tuple and identity match; waiters and other slots stay |
| DataEndpoints.WindowData.Close | apps/pwa/src/renderer-host.ts:132-137 | Leaves nothing held and refuses from then on |
| DataEndpoints.WindowData.Handle | apps/pwa/src/window-product.ts:143-173 | One bridge message does to what is held, and answers, exactly what the transition system's end does; a repeated request identity changes nothing and is refused |
| DataEndpoints.RunnerData.Acquire | apps/pwa/src/worker-runner-entry.ts:37-46 | Hands out whatever is installed once, whatever its tuple, else waits, else refuses |
| DataEndpoints.RunnerData.Handle | apps/pwa/src/worker-runner-entry.ts:48-100 | One port message does exactly what the transition system's end does; a foreign key or a repeated identity changes nothing; an installation reaches the waiter exactly once |
| DataEndpoints.RequestTable.Ask | apps/pwa/src/runtime-hosting.ts:80-114 | A request is answered at once or left pending as the transition system admits it |
| DataEndpoints.RequestTable.GiveUp | apps/pwa/src/runtime-hosting.ts:95-104 | A timeout or abort rejects the request unless it settled before |
| DataEndpoints.RequestTable.OnReply | apps/pwa/src/runtime-hosting.ts:116-135 | A reply settles its request once; for a Runner only with the connection identity that was asked for; a late one is ignored |
| DataEndpoints.RequestTable.Close | apps/pwa/src/runtime-hosting.ts:67-78 | Everything pending is rejected and nothing is pending afterwards |
| DataEndpoints.PutSlot | apps/pwa/src/renderer-host.ts:84-121 | Replacing a slot, with or without a delivery, keeps the endpoint's invariant: each carrier is handed out at most once and no waiter waits for a carrier that is there for it |
| EventDelivery.SessionEventDelivery.Enqueue | packages/session-events/src/subscription.ts:37-50 | The new state is the specified one; the terminal callback runs exactly if this event overflowed the queue |
| EventDelivery.SessionEventDelivery.Terminate | packages/session-events/src/subscription.ts:63-71 | Ends once, with its first reason, dropping what is queued |
| EventDelivery.SessionEventDelivery.Fire | packages/session-events/src/subscription.ts:73-100 | The armed timer hands the listener the first waiting event if and only if the queue is live, visible, not running and not empty |
| EventDelivery.SessionEventDelivery.Settle | packages/session-events/src/subscription.ts:86-99 | When the listener's promise settles either way, the first waiting event is handed over if and only if there is one and the queue is live; else the loop is left |
| EventDelivery.TurnsDeliver | packages/session-events/src/subscription.ts:73-100 | After n turns of the drain the listener was called with exactly the first n waiting events, in order, of whatever size |
| EventDelivery.ComesToRest | packages/session-events/src/subscription.ts:73-100 | A visible live queue offered nothing more is at rest one turn after its last event, with everything offered delivered |
| EventDelivery.OfferedValid | packages/session-events/src/subscription.ts:37-50 | Offering keeps: delivered then queued is what was offered, limits are exact sums, and a waiting visible event has a drain running or armed |
| EventDelivery.FiredValid | packages/session-events/src/subscription.ts:82-100 | The same across the start of a drain |
| EventDelivery.SettledValid | packages/session-events/src/subscription.ts:86-99 | The same across one turn of a running drain |
| EventDelivery.IdleMeansDelivered | packages/session-events/src/subscription.ts:73-100 | A visible live queue at rest has delivered everything ever offered |
| EventDelivery.OverflowIsExact | packages/session-events/src/subscription.ts:37-46 | A queue overflows if and only if it holds the maximal number of events or the bytes would exceed the limit |
| EventCarrierSafety.RunSafe | packages/session-events/src/carrier.ts:173-486 | The invariant over both peers and both lanes in every run |
| EventCarrierResults.NoFault | packages/session-events/src/carrier.ts:267-317 | With a hub limit up to 320 no run meets an impossible response, event or terminal correlation, a duplicate or excessive identity, a stale request or an impossible unsubscribe |
| EventCarrierResults.AuthorSeesPrefix | packages/session-events/src/carrier.ts:283-294 | What an author's listener was called with is a beginning, in order, without gap or repetition, of the retained event and the matching events routed since the subscription was installed |
| EventCarrierResults.AuthorSeesAll | packages/session-events/src/carrier.ts:446-461 | Once a live subscription is at rest its author has seen every event due |
| EventCarrierOutcomes.NeverStuck | packages/session-events/src/carrier.ts:283-294 | Unless the author of an exposed live subscription has seen every event due, one of the drains, the ports or the two peers can go on |
| EventCarrierOutcomes.ResponsesAreTrue | packages/session-events/src/carrier.ts:437-473 | In every run a response tells what the server decided for that request: a publish done or failed as the binding answered, a subscription open only if its delivery was live then, refused only by a closed binding or at the limit, an unsubscribe released |
| EventCarrierOutcomes.NothingIsForgotten | packages/session-events/src/carrier.ts:270-282 | While both peers are up, each pending request is on its way to the server, in its hands, or its response is on its way back |
| EventCarrierOutcomes.AtRestAllIsAnswered | packages/session-events/src/carrier.ts:270-282 | Once lanes and server are idle no request is pending |
| EventCarrierOutcomes.SubscriptionsAreEstablished | packages/session-events/src/carrier.ts:337-357 | In every run the client's correlations are the handles it made; with no request pending they are exactly the active ones |
| EventCarrierOutcomes.AskedWithinLimits | packages/session-events/src/carrier.ts:198-230 | A request is sent with the next identity if and only if the client is live, fewer than 256 are pending and identities are left; else nothing changes |
| EventCarrierOrigins.DueIs | packages/session-events/src/hub.ts:262-281 | The events due to a subscription are what was retained for it and then, in order and once each, exactly the events routed from its installation on whose channel it asked for |
| EventCarrierOrigins.RoutingOffers | packages/session-events/src/hub.ts:262-281 | Routing is always possible, goes to the log, and offers the event to exactly the subscriptions of its channel |
| EventCarrierOrigins.SubscribedAt | packages/session-events/src/carrier.ts:443-454 | In every run each hub subscription was installed by a subscribe request the server took, with its channels, the event retained then if that is among them, and from that place in the log on |
| EventCarrierOrigins.EndsAreTrue | packages/session-events/src/carrier.ts:455-460 | In every run a terminal on its way to the client names a subscription that has ended, with that subscription's own reason |
| EventCarrierOrigins.EndsAreTold | packages/session-events/src/carrier.ts:455-460 | The server can always tell the end of an established subscription, and has then forgotten it |
| EventCarrierOrigins.EndsArrive | packages/session-events/src/carrier.ts:295-314 | A terminal that arrives ends the author's live subscription with the reason its hub subscription ended with, and the client asks for nothing |
| EventHub.WithIsRecomputed | packages/session-events/src/hub.ts:302-310 | Adding a subscription's buckets gives the index recomputed from all live subscriptions |
| EventHub.WithoutIsRecomputed | packages/session-events/src/hub.ts:342-349 | Removing a subscription that ended, dropping emptied buckets, gives the recomputed index |
| EventHub.NoEmptyBuckets | packages/session-events/src/hub.ts:347 | No bucket of the index is empty |
| EventHub.RoutedAll | packages/session-events/src/hub.ts:262-281 | Walking a snapshot of the bucket offers the event to exactly the subscriptions a scan of all bindings finds |
| EventHub.SessionEventHub.RemoveSubscription | packages/session-events/src/hub.ts:342-349 | The removal loop over a subscription's channels |
| EventHub.SessionEventHub.AddToIndex | packages/session-events/src/hub.ts:303-310 | The insertion loop over a subscription's channels |
| EventHub.SessionEventHub.Enqueue | packages/session-events/src/hub.ts:279 | Offering to one subscription keeps index and bindings right even if it overflows and leaves |
| EventHub.SessionEventHub.Route | packages/session-events/src/hub.ts:262-281 | Routing equals a full scan of the live subscriptions of all bindings, overflow on the way included |
| EventHub.SessionEventHub.CreateBinding | packages/session-events/src/hub.ts:170-175 | A fresh open binding, refused once terminal |
| EventHub.SessionEventHub.Subscribe | packages/session-events/src/hub.ts:283-323 | Refused on a closed binding, by its reason, or at 64 live subscriptions, and not otherwise; else a candidate that is offered the retained host state, if it asks for the channel and there is one, and nothing else |
| EventHub.SessionEventHub.Establish | packages/session-events/src/hub.ts:327-335 | Revealed if still live after the checkpoint, else failed with the reason's error |
| EventHub.SessionEventHub.Publish | packages/session-events/src/hub.ts:80-109 | Refused exactly on a closed binding; else offered, under the binding's key, to exactly the live subscriptions of the channel |
| EventHub.SessionEventHub.PublishAs | packages/session-events/src/hub.ts:177-199 | Refused exactly once terminal; else offered under the given source to exactly the live subscriptions of the channel, on the target key's bindings if one is given |
| EventHub.SessionEventHub.Terminalize | packages/session-events/src/hub.ts:127-136 | Ends exactly the live subscriptions of the binding with the reason and takes the binding out, once; later calls on it fail as hub-terminal if and only if that was the reason |
| EventHub.SessionEventHub.SelfTerminal | packages/session-events/src/hub.ts:358-366 | The first time, every live subscription ends as hub-terminal, every open binding is closed so, the index is empty and the host state is gone |
| EventHub.SessionEventHub.InstallHost | packages/session-events/src/hub.ts:201-220 | One publisher at a time, with an epoch of 1 to 1024 bytes; the sequence starts at 0 with an initial state and at -1 without |
| EventHub.SessionEventHub.PublishHost | packages/session-events/src/hub.ts:222-235 | A changed state gets the next number and is routed; an unchanged one is dropped |
| EventHub.SessionEventHub.CloseHost | packages/session-events/src/hub.ts:237-239 | Only the owner's close has an effect |
| EventHub.HostPublished | packages/session-events/src/hub.ts:222-235 | Publishing keeps that what the host told every live subscriber is a run ending at the retained state |
| HostLifecycle.HostPassesIff | packages/session-events/src/host-lifecycle.ts:71-80 | Whatever was told before and since the publisher was installed, the filter lets every host snapshot through if and only if it accepts the host's first one and the host tells nothing after a posed snapshot with its next number |
| HostLifecycle.SubscriberPassesIff | packages/session-events/src/host-lifecycle.ts:71-80 | The same for what the listener of any subscriber of the hub was called with, in every state with a publisher installed |
| HostLifecycle.FirstOfAll | packages/session-events/src/host-lifecycle.ts:71-80 | For a subscriber told first by the host, only a posed snapshot with the host's next number can make the filter discard one of the host's |
| HostLifecycle.NewPublisher | packages/session-events/src/host-lifecycle.ts:75 | For a subscriber who was told things by earlier publishers and nothing posed since, all of the new publisher's snapshots pass or the very first is discarded |
| HostLifecycle.SubscriberSeesRun | packages/session-events/src/host-lifecycle.ts:71-80 | Who was told things by the current publisher alone sees consecutive numbers with alternating states, from the state retained when it came or from number 0, and the filter discards none |
| HostLifecycle.PosedRun | packages/session-events/src/host-lifecycle.ts:46-80 | A run of the hub in which a Runtime keyed "host" publishes the next number and the host's own next snapshot is discarded |
| HostLifecycle.ReplacedRun | packages/session-events/src/hub.ts:201-239 | A run of the hub, without a Runtime keyed "host", in which a publisher with another epoch takes over and its snapshot is discarded |
| HostLifecycle.RunIsHeeded | packages/session-events/src/host-lifecycle.ts:74-79 | The filter lets every run through unchanged |
| HostLifecycle.HeededIsConsecutive | packages/session-events/src/host-lifecycle.ts:74-79 | Whatever it is fed, the filter lets through consecutive numbers of one epoch starting with the first snapshot |
| HostLifecycle.HostLifecycleSubscriber.OnEvent | packages/session-events/src/host-lifecycle.ts:71-80 | The author is called with the event's snapshot if and only if it is a well-formed one of the host and is the first or follows the last one let through; over all events so far that is what the filter lets through |
| EventClient.ReplaceableSessionEventClient.End | packages/session-events/src/client.ts:50-56 | A slot is given back by the first end of a subscription only, however often it is ended |
| EventClient.ReplaceableSessionEventClient.EndAll | packages/session-events/src/client.ts:95-97 | Exactly the established subscriptions of that generation end |
| EventClient.ReplaceableSessionEventClient.Detach | packages/session-events/src/client.ts:90-99 | No binding, no established subscription, and a new generation; exactly the established subscriptions ended |
| EventClient.ReplaceableSessionEventClient.Attach | packages/session-events/src/client.ts:78-88 | Refused exactly when terminal; else a new generation replaces the old one, whose subscriptions ended |
| EventClient.ReplaceableSessionEventClient.Terminate | packages/session-events/src/client.ts:101-111 | Every established subscription ended and nothing is attached |
| EventClient.ReplaceableSessionEventClient.BindingTerminated | packages/session-events/src/client.ts:226-237 | The end of a replaced binding changes nothing; that of the current one ends its subscriptions |
| EventClient.ReplaceableSessionEventClient.BeginSubscribe | packages/session-events/src/client.ts:165-177 | Admitted if and only if not terminal, bound and below the limit; then one more slot is held |
| EventClient.ReplaceableSessionEventClient.InnerArrives | packages/session-events/src/client.ts:182-193 | Kept if and only if its binding is still current; else its slot is given back |
| EventClient.ReplaceableSessionEventClient.SubscribeFails | packages/session-events/src/client.ts:205-213 | The listener can never be called and the slot is given back |
| EventClient.ReplaceableSessionEventClient.Expose | packages/session-events/src/client.ts:202-204 | From here the listener may be called exactly while the subscription is active and its binding current |
| EventClient.ReplaceableSessionEventClient.MayCallMeans | packages/session-events/src/client.ts:182-186 | Who may be called: exactly an exposed, active subscription whose generation is the attached one |
| ControlHolder.ControlHolder.Connect | packages/renderer/src/control.ts:405-420 | After a handshake every slot is newly acquiring, one for each authority of the snapshot, and every earlier attempt is aborted |
| ControlHolder.ControlHolder.Consume | packages/renderer/src/control.ts:432-442 | A snapshot of the current peer keeps what is still wanted, restarts what changed and drops the rest, aborting every acquire attempt given up; one of a replaced peer is ignored |
| ControlHolder.ControlHolder.ControlEnds | packages/renderer/src/control.ts:421-428 | The end of the current peer leaves no slot, publisher peer or gate entry; that of a replaced one changes nothing |
| ControlHolder.ControlHolder.Reconcile | packages/renderer/src/control.ts:444-503 | Afterwards the slots are exactly the snapshot's keys, each with exactly one of current, pending and failed, of the wanted identity |
| ControlHolder.ControlHolder.RetireMismatched | packages/renderer/src/control.ts:505-533 | Slots no longer listed go; the others keep only what has the new identity |
| ControlHolder.ControlHolder.ClearAll | packages/renderer/src/control.ts:912-928 | No slot, no attached peer, no gate entry is left |
| ControlHolder.ControlHolder.StartAcquire | packages/renderer/src/control.ts:535-557 | A fresh attempt becomes the slot's pending one |
| ControlHolder.ControlHolder.InstallAcquired | packages/renderer/src/control.ts:559-614 | A superseded attempt changes nothing; a current one fills or fails its slot, and publisher and gate follow |
| ControlHolder.ControlHolder.RejectAcquired | packages/renderer/src/control.ts:630-638 | Only a current attempt fails its slot |
| ControlHolder.ControlHolder.PeerEnds | packages/renderer/src/control.ts:614-627 | A slot that still holds the peer acquires the same identity again; publisher and gate lose exactly that peer |
| ControlHolder.Dropped | packages/renderer/src/control.ts:472-489 | Dropping a slot's connection takes exactly its peer from publisher and gate, so they remain exactly the current peers |
| ControlHolder.ControlHolder.SlotsAre | packages/renderer/src/control.ts:444-503 | In every state between calls each slot has exactly one of current, pending and failed, and is of an authority the snapshot lists |
| ControlHolder.ControlHolder.CurrentAttempts | packages/renderer/src/control.ts:892-899 | An attempt is current if and only if it is the pending one of its slot |
| ControlHolder.AllDone | packages/renderer/src/control.ts:449-502 | When every key of slots and snapshot has been reconciled, every slot is settled for the current snapshot |
| RuntimeControlSafety.ReachableSafe | packages/runtime-control/src/runtime.ts:103-475 | The invariant of both connections, both automata and both channels over every run |
| RuntimeControlOutcomes.SettlesOnce | packages/runtime-control/src/runtime.ts:137-266 | In every run a request is pending, or settled exactly once with the outcome of whichever came first while it was pending: the verdict of the reply read, a timeout at its deadline, the end of the side; nothing is pending once ended |
| RuntimeControlOutcomes.AnswersAreVerdicts | packages/runtime-control/src/runtime.ts:396-445 | A request settled by a reply settled with the verdict the other side's handler gave to that very request |
| RuntimeControlOutcomes.NothingIsForgotten | packages/runtime-control/src/runtime.ts:242-250 | While neither side has ended, each pending request is on its way to the other side, being handled there, or its reply is on its way back |
| RuntimeControlOutcomes.AtRestAllIsAnswered | packages/runtime-control/src/runtime.ts:267-290 | Once everything written was read and handled, nothing is pending |
| RuntimeControlOutcomes.NeverStuck | packages/runtime-control/src/runtime.ts:242-300 | While a request of a live pair is pending, one of the two sides can send, read, dispatch or finish, and the request's deadline can pass |
| RuntimeControlOutcomes.AskedWhen | packages/runtime-control/src/main-peer.ts:161-199 | Main asks for a frame or the shutdown exactly while operating and not yet intending it, the Subsystem for a frame exactly while connected, operating, with no frame request out and no shutdown received |
| RuntimeControlOutcomes.StatusMovesForward | packages/runtime-control/src/main-peer.ts:118-141 | A status is accepted if and only if it lies ahead of the phase, stopping only once the shutdown is intended |
| RuntimeControlOutcomes.PhaseMovesForward | packages/runtime-control/src/main-peer.ts:67-143 | Over every step Main's phase stays or moves ahead, and only when a status or the hello's acceptance moves it |
| RuntimeControlSafety.OnlyFrameRequestsFail | packages/runtime-control/src/main-peer.ts:105-143 | No invalid remote id, unsolicited response, refused status or second hello ever occurs; the only protocol-fatal end is Main's on a frame request and the Subsystem's in turn |
| RuntimeControlSafety.FrameRequestFailsIffIntent | packages/runtime-control/src/main-peer.ts:105-111 | A frame request Main dispatches fails if and only if Main already intends the shutdown |
| RuntimeControlSafety.NothingAfterShutdown | packages/runtime-control/src/subsystem-peer.ts:47-56 | Whatever a live Subsystem is about to dispatch, it is connected and has not received the shutdown |
| RuntimeControlSafety.RaceExists | packages/runtime-control/src/main-peer.ts:105-111 | A run in which a frame request crosses the shutdown and ends the connection |
| SendQueue.DataRuntime.Dequeue | packages/data/src/runtime.ts:127-146 | Takes the first waiting record; the array is at most twice the live records, and elements copied by compaction never exceed records taken out |
| SendQueue.DataRuntime.Drain | packages/data/src/runtime.ts:148-170 | The carrier is given the next record in call order, one at a time, and nothing waits while it is free |
| SendQueue.DataRuntime.Send | packages/data/src/runtime.ts:76-85 | Refused once terminal, failed alone if it cannot be encoded, else queued behind all earlier calls |
| SendQueue.DataRuntime.SendSucceeds | packages/data/src/runtime.ts:156-163 | Settles the call in flight as sent, even after the end, and starts the next |
| SendQueue.DataRuntime.SendFails | packages/data/src/runtime.ts:164-168 | Ends the peer unless it had ended; the waiting calls and the one in flight settle, each once |
| SendQueue.DataRuntime.Commit | packages/data/src/runtime.ts:181-189 | The first end settles every waiting call in order; a later one changes nothing |
| SendQueue.DataRuntime.SettleQueued | packages/data/src/runtime.ts:172-179 | Takes out and settles every waiting record |
| SendQueue.Gives | packages/data/src/runtime.ts:148-156 | Handing over the first waiting record keeps the FIFO order and that each call settles once |
| SendQueue.Lands | packages/data/src/runtime.ts:156-168 | Settling the call in flight keeps that each call settles at most once |
| SendQueue.Finishes | packages/data/src/runtime.ts:172-189 | Settling all waiting calls at the end keeps that each call settles exactly once |
| LatestWins.MainPeer.Publish | packages/renderer-control/src/main-peer.ts:47-56 | Accepted unless terminal; sent at once, or remembered in place of an older one; the sent ones are always an in-order selection of the published ones |
| LatestWins.MainPeer.HelloSent | packages/renderer-control/src/main-peer.ts:118-130 | The latest publish so far, if any, follows the hello |
| LatestWins.MainPeer.SendEnds | packages/renderer-control/src/main-peer.ts:147-156 | The latest remembered publish follows; at rest the last sent is the last published |
| LatestWins.RendererPeer.OnState | packages/renderer-control/src/renderer-peer.ts:57-81 | A state is handed on if and only if all so far stay in the session and increase past the hello snapshot |
| LatestWins.NeverFires | packages/renderer-control/src/renderer-peer.ts:76-80 | The regression check never fires on a stream if and only if it increases past the hello snapshot in its session |
| LatestWins.IncreasingPublishesPass | packages/renderer-control/src/renderer-peer.ts:76-80 | If Main's revisions increase past the hello snapshot, whatever selection of them is sent passes |
| LatestWins.FiresOnlyOnFirst | packages/renderer-control/src/main-peer.ts:50-53 | If they increase only among themselves, the check passes if and only if the first one sent is newer than the hello snapshot |
| LatestWins.PublishedBeforeHello | packages/renderer-control/src/main-peer.ts:47-53 | A run of both peers: what is published before the hello is accepted is sent first after it, and is a regression if and only if it is not newer than the hello's snapshot |
| LatestWins.ViewportLatestSender.SendState | packages/data/src/viewport-sender.ts:31-54 | Answers at once, follows the flight or waits, as the latest size demands; what is given on is an in-order selection without repetition |
| LatestWins.ViewportLatestSender.FlightEnds | packages/data/src/viewport-sender.ts:72-101 | The remembered size follows if it differs; at rest the last size given is the last asked for and no one waits |
| LatestWins.ViewportLatestSender.NoteTerminal | packages/data/src/viewport-sender.ts:22-29 | Every waiting call settles once, at the first end |
| LatestWins.WaitersSettle | packages/data/src/viewport-sender.ts:64-100 | Settling a group of waiters keeps that each call settles exactly once |
| Unicode.ScalarString | packages/data/src/validation-common.ts:26-47 | Accepts exactly well-formed UTF-16, empty only if allowed |
| Unicode.WellFormedMeansScalars | packages/data/src/validation-common.ts:33-44 | Well-formed means that all code points are scalar values |
| Unicode.PointsAreFaithful | packages/data/src/validation-common.ts:138-147 | Decoding to code points loses nothing: encoding them again gives the string |
| Unicode.PairsAreInOrder | packages/data/src/validation-common.ts:138-147 | Surrogate pairs in their order are the code points past 0xFFFF in theirs, each once (section 2 of RFC 2781) |
| Unicode.BytesDecode | packages/wire/src/limits.ts:4-26 | The bytes of a point are its only shortest form: the first byte tells their number and their bits put together are the point (section 3 of RFC 3629) |
| Unicode.PointOrderIsByteOrder | packages/data/src/validation-common.ts:136 | Code-point order is the byte order of the encodings (section 1 of RFC 3629) |
| Unicode.BeforeIsByteOrder | packages/data/src/validation-common.ts:136-150 | The same for strings |
| Unicode.BeforeIsStrictTotal | packages/data/src/validation-common.ts:136-150 | The order is irreflexive, total and transitive |
| Unicode.Utf8LexicalLess | packages/data/src/validation-common.ts:136-150 | True if and only if the UTF-8 bytes of the first are lexicographically below those of the second |
| Unicode.CompareCodePoints | apps/pwa/src/content-manifest.ts:8-19 | Negative, zero or positive as the order says; zero only on equal strings |
| Unicode.CodePointCompare | apps/desktop/src/content-service.ts:156-164 | The same, so the two comparators agree in sign on all UTF-16 strings |
| Unicode.Utf8ByteLength | packages/wire/src/limits.ts:4-26 | The number of UTF-8 bytes, a lone surrogate counting three |
| JsonText.SerializeManifestValue | apps/pwa/src/content-manifest.ts:21-60 | The explicit stack prints what the recursive `canonicalJson` prints, on every JSON value |
| JsonText.CanonicalForgetsOrder | apps/desktop/src/content-service.ts:166-179 | The canonical text is the same however object members are listed, at every depth |
| JsonReading.CanonicalReads | apps/pwa/src/content-manifest.ts:21-60 | A JSON reader gets from the canonical text, whatever follows it, the value with the members of every object in code-point order, and stops where the text ends |
| JsonReading.CanonicalIsFaithful | apps/desktop/src/content-service.ts:166-179 | Two values have the same canonical text if and only if they differ at most in how members are listed |
| JsonReading.CompactReads | packages/runtime-control/src/codec.ts:168-171 | A JSON reader gets from the compact text exactly the value, and stops where the text ends |
| JsonReading.CompactIsFaithful | packages/runtime-control/src/codec.ts:168-171 | Two values have the same compact text if and only if they are the same |
| JsonText.SortingForgetsOrder | apps/desktop/src/content-service.ts:172 | Two listings of the same distinct keys sort to the same list |
| JsonText.AnySortIsSorted | apps/pwa/src/content-manifest.ts:45 | Any arrangement a sort by either comparator may return is that list |
| JsonText.StringValue | packages/runtime-control/src/codec.ts:32-47 | Accepts exactly well-formed strings within the byte limit |
| JsonText.Measure | packages/runtime-control/src/codec.ts:99-161 | Returns exactly the byte length of the compact text, and returns if and only if that length, depth, item and member counts and string and key sizes are within limits |
| GraphClone.ClonePresentationJson | packages/renderer/src/control.ts:182-271 | Ends on every graph; returns if and only if no cycle and nothing unfit for JSON is reachable; then new frozen objects, one for each object reached, of the same kind with the same keys in order, the same primitives, and references to the copies |
| GraphClone.CloneFrom | packages/renderer/src/control.ts:234-270 | The same for an object root |
| GraphClone.CycleFound | packages/renderer/src/control.ts:258 | A reference to an active object is a cycle through the root's reachable objects |
| GraphClone.UnfitFound | packages/renderer/src/control.ts:257-264 | An unfit value or object met by the loop is reachable |
| GraphClone.CloneDone | packages/renderer/src/control.ts:243-270 | When the stack is empty, everything reachable was copied once, is frozen, and no path repeats an object |
| GraphClone.Descends | packages/renderer/src/control.ts:245-250 | Along finishing order no path comes back to an object |
| GraphClone.SnapshotJsonValue | packages/game-package/src/snapshot.ts:34-80 | Ends on every graph, cyclic or not, with an isomorphic graph of frozen objects |
| GraphClone.DefineMembers | packages/game-package/src/snapshot.ts:57-76 | One object's members are defined on a target that is not frozen, children copied at most once |
| GraphClone.SnapshotDone | packages/game-package/src/snapshot.ts:43-79 | When the stack is empty, everything reachable was copied once and is frozen |
| Controls.ControlsMachine.Keydown | game-libs/game-common-controls/src/controls-machine.ts:115-125 | Publishes a press exactly when the button becomes effectively down, a repeat only of a key no other source holds |
| Controls.ControlsMachine.Keyup | game-libs/game-common-controls/src/controls-machine.ts:126-130 | Publishes a release exactly when no source holds the button any more |
| Controls.ControlsMachine.ApplyGamepadFrame | game-libs/game-common-controls/src/controls-machine.ts:131-167 | The pads are the last samples of each index from 0 on; releases are exactly the removals, presses exactly the additions pressed on a pad known before, in button order; a state is published if and only if the union changed |
| Controls.ControlsMachine.ApplyCustomState | game-libs/game-common-controls/src/controls-machine.ts:168-182 | Presses and releases are exactly the additions and removals |
| Controls.ControlsMachine.SetWindowUsable | game-libs/game-common-controls/src/controls-machine.ts:183-198 | A transition empties every source but the baseline pads and always publishes the state |
| Controls.ControlsMachine.SetKeyboardCapture | game-libs/game-common-controls/src/controls-machine.ts:199-207 | Losing the capture drops the keyboard; a state is published if and only if the union changed |
| Controls.ComparePads | game-libs/game-common-controls/src/controls-machine.ts:139-156 | The two loops find exactly the presses on known pads and the releases on known or vanished ones |
| Controls.EventLoop | game-libs/game-common-controls/src/controls-machine.ts:159-165 | The events in button order |
| Controls.RemovalIsRelease | game-libs/game-common-controls/src/controls-machine.ts:164 | A button that is effectively released was physically released, so no removal goes without event |
| Controls.ListedInOrder | game-libs/game-common-controls/src/controls-machine.ts:106 | A published state lists each button once, in the order of the buttons |
| Controls.EdgesTell | game-libs/game-common-controls/src/controls-machine.ts:159-165 | The events are one press for each button pressed and one release for each released, in the order of the buttons |
| Controls.ListedIs | game-libs/game-common-controls/src/controls-machine.ts:106 | A published state lists exactly the set it stands for |
| Controls.DirectionalControlsTracker.AcceptState | game-libs/game-common-controls/src/directional-controls.ts:27-37 | The held order lists exactly the state's directions, each once, those still held first in their order |
| Controls.DirectionalControlsTracker.AcceptEvent | game-libs/game-common-controls/src/directional-controls.ts:38-47 | A press of a held direction makes it the latest, a release drops it, anything else changes nothing |
| Controls.DirectionalControlsTracker.Feed | game-libs/game-common-controls/src/directional-controls.ts:27-47 | Fed with a publication, state first, the held order is as a set the effective directions |
| Controls.Drive | game-libs/game-common-controls/src/controls-machine.ts:94-209 | Any input to the machine, its publication fed to the tracker, keeps the two in step, so over every run the held order is the effective directions |

## Left out

- DataProvisioningSafety.ReachableSafe: identities are fresh by construction (counters for the random UUIDs and ids of the source), and a runtime stands for its one provisioner.
- DataProvisioningSafety.ReachableSafe: a closed `RunnerDataProvisioner` means a dead worker; a provisioner closed while its worker lives on is not a step of the model.
- DataProvisioningResults.DivergenceIsNoticed: retry delays and the attempt counter are not modelled; an armed timer may fire at any time.
- DataProvisioningResults.StartIsListed: is the one direction for an authority that was not replaced; both directions for every run are `DataProvisioningStarts.StaleStartIff`.
- DataProvisioningStarts.StaleStartIff: the model allows other steps between taking the desired list and the first start, and between entries that need nothing, where the source does not await; `StaleStartExists` does not use that.
- DataProvisioningProgress.PassSucceeds: needs that no key is listed twice, that no runtime concerned has closed or died, and that each has a Runner of its own key; nothing is promised of a Runner under another key, or of a key listed again after an entry whose runtime terminated: `desired` lets both through and neither is ever committed.
- DataProvisioningProgress.CanSucceed: gives the steps that lead there; that the environment lets them happen is not modelled.
- EventCarrierOutcomes.NothingIsForgotten: is for peers that are up and a server whose identities are not exhausted; after an end everything pending is rejected.
- EventCarrierResults.NoFault: promise reactions that are already queued run before the next message is taken, and revealing a subscription and sending its subscribe response is one step, as the timer in subscription.ts makes them.
- EventCarrierResults.NoFault: shapes and sizes of messages are not modelled, so the checks concerned are those of identities; the size limit of a lane is a failure of the carrier.
- EventCarrierResults.AuthorSeesPrefix: is stated for the carrier pair with the hub as one server binding; that routing reaches exactly the right subscriptions is `SessionEventHub.Route`.
- HostLifecycle.SubscriberSeesRun: is for subscribers whom only one publisher told anything; what holds of all others is `SubscriberPassesIff`.
- EventHub.SessionEventHub.Subscribe: the shape and the lengths of subsystem keys and channels are not modelled.
- EventClient.ReplaceableSessionEventClient.BeginSubscribe: the mapping of publish outcomes to `OUTCOME_UNKNOWN` and other errors is not part of the client model.
- ControlHolder.ControlHolder.Connect: the render store, the viewport source and the frame gate appear only as the sets of peers they are given; presentation notifications are left out.
- RuntimeControlSafety.OnlyFrameRequestsFail: both peers are the ones in the repository and handlers may answer anything allowed; malformed messages, local failures and lost carriers are ends a side may take at any time.
- RuntimeControlSafety.OnlyFrameRequestsFail: the five frame methods Main calls, and the two the Subsystem calls, are one request kind each.
- SendQueue.DataRuntime.Dequeue: the source's loop skips missing records; none is ever missing, so the model's single turn is the loop's first.
- JsonText.SerializeManifestValue: the printed text of a number is part of the value, and the sort is any sort; descriptors that changed meanwhile are not modelled.
- JsonReading.CompactReads: a number's text is any run of the characters JSON numbers are made of, which includes all of them; the reader does not check the number grammar.
- JsonText.Measure: the check that the value is JSON at all (`assertJsonValue`) is not modelled.
- GraphClone.ClonePresentationJson: prototypes, descriptors, holes and symbols of one object are one flag; the text of primitives is opaque.
- Controls.ControlsMachine.ApplyGamepadFrame: non-integer pad indices, which the source skips like negative ones, are not modelled; nor is the analog press threshold.
- The broker, the two carrier ends and the two connections as objects: they are parts of one composed state value, since what is proved is about all parties together; update in place and object identity are not captured there.
- The Desktop Data broker: the same transaction with more physical plumbing.
- `RPGDialogue`, shared-state authority, Main's internals and the render store: not part of these models.
- Message ports, workers, storage, file system, hashing, WebSocket and HTTP servers, DOM and UI: carriers are FIFO sequences, the rest is absent.
- Field-by-field schema checks, manifest parsing, MIME tables and path filters: they would only add one-branch facts.

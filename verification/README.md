# rotor: a verified model of its core

rotor is an actor framework. Its core, apart from the event loops, is a set of message-driven
state machines over queues and maps. This project models those state machines in Dafny and
proves what they keep over every run.

Each component has a module of functions on values, in which the lemmas about runs are stated,
and objects whose methods update fields in place and loop as the source does. Every method is
proved to compute the function of the same step, so the lemmas hold of the objects.

| files | component |
|---|---|
| `LinkActor`, `LinkNet`, `LinkInvariant`, `LinkStale`, `LinkTheorems`, `LinkOrder`, `LinkEffects`, `LinkSteps`, `LinkRuns`, `LinkPlugins` | the link protocol between actors over FIFO channels: `link_client`, `link_server`, timeouts, shutdown votes |
| `Requests` | request ids, `request_map`, request timers, the outcome of a request |
| `Timers` | the sorted timer list of the thread backend, changed by callbacks while it is walked |
| `Delivery` | queues of localities, routing between supervisors, fan-out to handlers |
| `Subscriptions`, `SubscriptionRuns`, `SubscriptionMap` | the list of subscriptions and the index of handlers |
| `Registry` | the name registry and the promises waiting in it |
| `Lifecycle`, `LifecycleLaws`, `LifecycleActor` | the init and shutdown polls of plugins, and resource counters |
| `Children`, `ChildEffects`, `AddressMapping`, `ChildManager` | how a supervisor ends its children |
| `Sets` | one lemma about non-empty sets |

What the functions assert with `assert` in C++ is either proved never to fail (subscriptions,
address mapping, request map) or modelled as a step that changes nothing, as noted at each place.

## Findings

Where a property the code is meant to have does not hold in general, the code is modelled as it
is, a concrete run shows the failure, and the condition under which the property holds is proved
to be exact.

* Links. A client whose link to a server was dropped while the success of that link still
  waited in its queue, and which calls `link` again, takes the old success for the new one. It
  then counts on a server that has forgotten it and may be shut down
  (`LinkTheorems.CarelessLinkBetrays`). With no such success waiting the protocol is safe
  (`ServerOutlivesClient`). When the server does not have the caller in its map, a call is safe if
  and only if the next response of that server which the caller will hear is not such a success
  (`LinkIsSafeIff`); a failure in front of it erases the new record and makes it harmless
  (`LinkStale.HeardFailureIsSafe`). When the server has the caller, the call is safe if and only
  if that holds or nothing on its way makes the server forget the caller
  (`LinkIsSafeWhileKnownIff`).
* Postponed links. The loop of `handle_start` marks copies (src/rotor/plugin/link_server.cpp:127),
  so a client whose link was postponed stays PENDING (`LinkRuns.PostponedCompletes`). The shutdown
  of the server asks OPERATIONAL clients alone: a postponed one is never asked to unlink, and the
  server is not shut down before that client leaves by itself (`LinkRuns.PostponedIsNeverAsked`).
* Registry. After the first match, `on_reg` does not look for the name again
  (src/rotor/registry.cpp:42-45), so a promise can be answered with the address of another name
  (`RegistrationCanMislead`). It does what is meant if and only if everything behind the first
  match asks for the same name (`AsMeantIffContiguous`). The loop that searches again is modelled
  beside it and proved, over every run of registrations as they are meant, to answer each promise
  with the address of its own name (`AnswerNamed`, `MeantIsRight`).
* Subscriptions. `forget` removes the first info with the same handler object, which need not be
  the given one. If a handler object is subscribed twice, a later `update` through the unlisted
  info changes the index alone (`UnlistedReplacedLosesAgreement`), and an `update` through the
  second info loses the order (`SecondReplacedLosesOrder`). `StepKeepsBagsIff` and
  `StepKeepsOrderIff` give the exact conditions.
* Resources. `has_any` adds unsigned counters into an `int`: it is right if and only if the sum
  is zero or is between 1 and 2^31 - 1 modulo 2^32 (`HasAnyCanMiss`, `HasAnyIsRightIff`). A
  resource acquired by a plugin that is polled after the resources plugin does not hold up the
  phase that the same poll ends (`LateAcquisitionIsMissed`, `EndsUnheldIff`), and neither does one
  that is held when the resources plugin is deactivated (`DeactivationIsMissed`). In general, and
  so also past a deactivated resources plugin, a phase ends with a resource held if and only if,
  before the poll, one is held already or a plugin that reacts acquires one (`EndsHeldIff`).
* Children. A child created after the child manager has agreed to the shutdown of its supervisor
  need not be asked before the supervisor is shut down (`LateChildCanBeLeftBehind`) and can leave
  unanswered while the supervisor is still shutting down (`LateChildCanLeaveUnanswered`). A new
  child is never left behind if and only if the manager has not agreed when it is created
  (`NeverLeftBehindIff`). The shutdown can always still end, unless a child that has answered its
  request has set up another reply address since, which nobody takes down; that is exactly when it
  cannot (`ShutdownCanEndIff`).
* Delivery. An actor with `n` subscriptions for a message is called `n` times with it; it hears
  exactly what was sent if and only if it has one subscription for each message sent
  (`NothingIsLost`).
* docs/Design.md:196-204 promises that a server outlives its clients without the condition above;
  the model follows the code. A failed link during shutdown calls `do_shutdown`, which does
  nothing then (src/rotor/plugin/link_client.cpp:70-72).

## Model

| member | source | states |
|---|---|---|
| LinkTheorems.ServerOutlivesClient | src/rotor/plugin/link_server.cpp:41-124 | in every run with fresh links, over all interleavings, timeouts and lost messages, a server that a client records as OPERATIONAL has that client in its map, still reacts to shutdown and is not SHUT_DOWN |
| LinkTheorems.LinkIsSafeIff | src/rotor/plugin/link_client.cpp:45-79 | for a server without the caller in its map: no later run ends with a link the server does not know if and only if the next response of the server that the caller will hear is not an old success |
| LinkTheorems.LinkIsSafeWhileKnownIff | src/rotor/plugin/link_client.cpp:45-79 | for a server that has the caller in its map: no later run ends with a link the server does not know if and only if the next response of the server that the caller will hear is not an old success or nothing on its way makes the server forget the caller |
| LinkStale.HeardFailureIsSafe | src/rotor/plugin/link_client.cpp:54-79 | after a call of `link` behind which the next response heard is not an old success, every careful run has the actors of a run in which the invariant holds |
| LinkStale.RunMasks | src/rotor/plugin/link_client.cpp:54-79 | no run can tell old successes that wait behind a failure of the same server from failures |
| LinkStale.StepMasks | src/rotor/plugin/link_client.cpp:45-152 | nor can any single event |
| LinkTheorems.StaleSuccessBetraysLeaving | src/rotor/plugin/link_server.cpp:66-111 | an old success betrays the caller as soon as a notification, an unlink response or an awaited unlink reply is on its way to the server |
| LinkTheorems.StaleSuccessBetrays | src/rotor/plugin/link_client.cpp:45-79 | whenever an old success is the first response of a server that has dropped the caller, `link` followed by delivering responses leaves a dead link |
| LinkTheorems.DrainingBetrays | src/rotor/plugin/link_client.cpp:54-79 | delivering the queued responses of a caller reaches the dead link, wherever in the queue the old success is |
| LinkTheorems.CarelessLinkBetrays | src/rotor/plugin/link_client.cpp:91-111 | a concrete run, with every call of `link` but the last one fresh, ends with a client linked to a server that is SHUT_DOWN |
| LinkInvariant.RunKeeps | src/rotor/plugin/link_client.cpp:45-152 | the invariant of all actors, channels and queues holds after any run with fresh links |
| LinkInvariant.StepKeeps | src/rotor/plugin/link_server.cpp:41-134 | every event, whatever the votes of other plugins, keeps that invariant |
| LinkInvariant.LinkRequestKeeps | src/rotor/plugin/link_server.cpp:41-64 | a request refused, postponed or accepted keeps it |
| LinkInvariant.LinkResponseKeeps | src/rotor/plugin/link_client.cpp:54-79 | a response, late ones and timeouts included, keeps it |
| LinkInvariant.UnlinkNotifyKeeps | src/rotor/plugin/link_server.cpp:66-87 | a notification, also for a record that never existed, keeps it |
| LinkInvariant.UnlinkResponseKeeps | src/rotor/plugin/link_server.cpp:89-111 | an answered or timed out unlink request keeps it |
| LinkInvariant.UnlinkRequestKeeps | src/rotor/plugin/link_client.cpp:81-118 | an unlink request, answered, queued or kept back by the user, keeps it |
| LinkInvariant.LinkKeeps | src/rotor/plugin/link_client.cpp:45-52 | a fresh call of `link`, or one whose waiting success stands for a secure record, keeps it |
| LinkOrder.LinksDropInPathOrder | src/rotor/plugin/link_client.cpp:91-111 | after links are settled, along any chain of links a client that has dropped its link implies that every earlier client has dropped its own |
| LinkOrder.ShutDownInPathOrder | src/rotor/plugin/link_client.cpp:130-152 | when the server at the end of a chain is SHUT_DOWN, every link of the chain has been dropped |
| LinkOrder.DroppedBackwards | src/rotor/plugin/link_client.cpp:130-152 | the induction along the chain: a dropped link implies that the link before it has been dropped |
| LinkOrder.RunInOrder | src/rotor/plugin/link_server.cpp:113-124 | in every run without new links, of two successive links the second is dropped only after the first |
| LinkOrder.StepOnward | src/rotor/plugin/link_client.cpp:91-111 | without new links a step only removes servers, and only from an actor that has no client left |
| LinkRuns.SuccessOnlyWhenOperational | src/rotor/plugin/link_server.cpp:41-64 | in every run, the success of a link asked for with `operational_only` is posted only in a step after which the server is OPERATIONAL |
| LinkRuns.StartAnswersWaiting | src/rotor/plugin/link_server.cpp:126-134 | in every run, the start of an initialized actor posts exactly one success, under the id of the request, to each client that waits for it and nothing to anybody else |
| LinkRuns.PostponedIsNeverAsked | src/rotor/plugin/link_server.cpp:113-134 | as long as a client whose link was postponed does not leave by itself, its record stays PENDING, no unlink request is sent to it and the server is not shut down |
| LinkRuns.ShutDownIff | src/rotor/actor_base.cpp:124-143 | in every run, a shutdown poll ends the phase if and only if all other plugins agree and no client is recorded, whatever servers are |
| LinkRuns.InitializedIff | src/rotor/actor_base.cpp:100-120 | in every run, an initialization poll ends the phase if and only if the actor was asked, all other plugins agree and no server is LINKING |
| LinkRuns.ToldOnceEver | src/rotor/actor_base.cpp:72-97 | over every run an actor reports the end of its initialization at most once, has done so while it is initialized or operational and not before, and reports its shutdown at most once and only when it is shut down |
| LinkRuns.LinkCompletes | src/rotor/plugin/link_client.cpp:45-79 | a link asked of a server that can accept it is OPERATIONAL on both sides once three messages are delivered, with nothing left under way |
| LinkRuns.RefusedCompletes | src/rotor/plugin/link_server.cpp:41-54 | asked of a server that is shutting down or knows the client, it leaves no link and no change at the server |
| LinkRuns.PostponedCompletes | src/rotor/plugin/link_server.cpp:57-59 | asked with `operational_only` of an initialized server it waits, and the start of the server completes it, with the record of the server still PENDING |
| LinkRuns.UnlinkCompletes | src/rotor/plugin/link_server.cpp:89-124 | the request to shut down a server with one client ends, after three messages, with the server SHUT_DOWN, the client without the link, and both supervisors told |
| LinkSteps.EventIsFine | src/rotor/plugin/link_server.cpp:41-134 | of every event: a success is posted if and only if a request is accepted or one that waited is started, requests come from `link` alone under a new id, and only clients accepted at once are asked to unlink; records that wait stay as they are, and the supervisor hears of the end of a phase exactly when it ends |
| LinkEffects.LinkRequestIsAnswered | src/rotor/plugin/link_server.cpp:41-64 | delivering a link request: refused exactly when the server is shutting down or knows the client, kept without an answer and armed for the start exactly when it is for later, accepted otherwise; one answer, to the client |
| LinkEffects.LinkPosts | src/rotor/plugin/link_client.cpp:45-52 | calling `link` changes the records and posts one request |
| LinkEffects.LinkResponseRecords | src/rotor/plugin/link_client.cpp:54-79 | a response heard marks the record and polls, or drops the record and fails a pending initialization |
| LinkEffects.UnlinkRequestForgets | src/rotor/plugin/link_client.cpp:81-118 | an unlink request is kept back, queued behind own clients, or answered together with all queued ones, which ends in a poll or in the wish to shut down |
| LinkEffects.HeldForgets | src/rotor/plugin/link_client.cpp:81-89 | so is one that was kept back before |
| LinkEffects.NotifyDrops | src/rotor/plugin/link_server.cpp:66-87 | a notification drops this record with its timer and polls if the shutdown was requested |
| LinkEffects.UnlinkResponseDrops | src/rotor/plugin/link_server.cpp:89-111 | so does the response to an unlink request; an error is reported and drops nothing |
| LinkEffects.PollIsPolled | src/rotor/actor_base.cpp:124-143 | what a shutdown poll does to both halves: it is held up by clients as long as there are servers, says one word to each server left and to each client asked, and ends the phase exactly when nobody refuses |
| LinkEffects.OutcomesArrive | include/rotor/supervisor.h:454-466 | each reply to a pending request and each timeout is passed on once, as it is, and ends that request |
| LinkEffects.OthersStay | src/rotor/plugin/link_client.cpp:45-152 | an event touches one actor, the responses waiting for it and what it posts |
| LinkPlugins.Peer.AskLink | src/rotor/plugin/link_client.cpp:45-52 | records the server, and posts a request under a new id |
| LinkPlugins.Peer.HandleInit | src/rotor/plugin/link_client.cpp:120-128 | agrees exactly when no server is LINKING |
| LinkPlugins.Peer.LinkAnswered | src/rotor/plugin/link_client.cpp:54-79 | computes the step of a link response |
| LinkPlugins.Peer.AnswerQueue | src/rotor/plugin/link_client.cpp:94-102 | the loop answers each queued unlink request of a recorded server once and drops just those servers |
| LinkPlugins.Peer.TryForget | src/rotor/plugin/link_client.cpp:91-111 | computes `try_forget_links` with and without the attempt to shut down |
| LinkPlugins.Peer.Forget | src/rotor/plugin/link_client.cpp:81-89 | computes `forget_link`, and nothing for an unknown server |
| LinkPlugins.Peer.UnlinkAsked | src/rotor/plugin/link_client.cpp:113-118 | computes the step of an unlink request, for both answers of the user's reaction |
| LinkPlugins.Peer.LeaveAll | src/rotor/plugin/link_client.cpp:138-145 | the erasing loop notifies every server once, discards just the unanswered requests and empties the map |
| LinkPlugins.Peer.ClientVote | src/rotor/plugin/link_client.cpp:130-152 | computes the client half of a shutdown poll; it agrees exactly when no server is left |
| LinkPlugins.Peer.LinkAsked | src/rotor/plugin/link_server.cpp:41-64 | computes the four outcomes of a link request |
| LinkPlugins.Peer.UnlinkNotified | src/rotor/plugin/link_server.cpp:66-87 | drops the record and its unlink timer, and polls when shutting down |
| LinkPlugins.Peer.UnlinkAnswered | src/rotor/plugin/link_server.cpp:89-111 | drops the record on success; reports the error and keeps it on a timeout |
| LinkPlugins.Peer.ServerVote | src/rotor/plugin/link_server.cpp:113-124 | the loop asks each OPERATIONAL client once; it agrees exactly when no client is left |
| LinkPlugins.Peer.AnswerWaiting | src/rotor/plugin/link_server.cpp:126-134 | answers each PENDING client once and leaves the records as they are |
| LinkPlugins.Peer.ContinueShutdown | src/rotor/actor_base.cpp:124-143 | the poll asks the client half before the server half and ends at the first refusal |
| Requests.ExactlyOneOutcome | include/rotor/supervisor.h:442-470 | before ids wrap around, each request has exactly one of: one response to the one who asked, pending, dropped; nobody else gets a response |
| Requests.EveryRequestHasOneOutcome | src/rotor/supervisor.cpp:100-118 | requests sent are, as a multiset, the responses delivered, the pending and the dropped ones, in every run, wrapping ids included |
| Requests.LateEventsAreIgnored | include/rotor/supervisor.h:454-466 | after its outcome, a second reply or a discard changes nothing, and a timeout or cancellation sends nothing |
| Requests.RunKeepsCoupling | src/rotor/supervisor.cpp:100-118 | in every run the pending requests are exactly the request timers of the supervisor |
| Requests.IdsAreDistinctBeforeWrap | include/rotor/supervisor.h:289-295 | with fewer increments than there are ids, all ids handed out are different and one is always free |
| Requests.Increments | include/rotor/supervisor.h:289-295 | the counter finds the first unused id, within one more increment than there are pending requests |
| Requests.MetInUse | include/rotor/supervisor.h:289-295 | `k` increments that all meet used ids need `k` used ids, also across the wrap |
| Requests.StepKeepsBalance | src/rotor/supervisor.cpp:100-123 | each event keeps the balance of requests and outcomes |
| Requests.MessagesHaveCauses | include/rotor/supervisor.h:442-470 | in every run each answer delivered is the payload of a reply that arrived under its id, each timeout comes from an expired timer, and each request goes where its sender sent it |
| Requests.PendingIsConcluded | include/rotor/supervisor.h:454-466 | in every run the reply to a pending request appends its payload for the one who asked, the expiry appends the timeout, a cancellation or discard nothing, and each ends just that request |
| Requests.SendingAsks | include/rotor/supervisor.h:442-451 | sending puts one request to the destination under an id that is not in use and then is |
| Requests.PlainTimersAreSilent | include/rotor/supervisor.h:330-335 | plain timers have new ids and send nothing |
| Requests.FinishedIsQuiet | src/rotor/actor_base.cpp:87-89 | after the last step of shutdown no late event changes anything |
| Requests.HandedInTurn | include/rotor/supervisor.h:289-295 | in every run each id handed out is the first one behind the previous one, counting around, that no pending request has |
| Requests.Supervisor.NextRequestId | include/rotor/supervisor.h:289-295 | the loop terminates and hands out the first unused id |
| Requests.Supervisor.Request | include/rotor/supervisor.h:442-451 | enters the request and its timer and puts the message |
| Requests.Supervisor.StartTimer | include/rotor/supervisor.h:330-335 | starts a plain timer under a new id |
| Requests.Supervisor.RequestTrigger | src/rotor/supervisor.cpp:100-112 | a timeout answers the one who asked; a cancellation only removes the entry |
| Requests.Supervisor.TimerTrigger | src/rotor/actor_base.cpp:212-218 | runs the callback of the timer and removes it, and does nothing for an unknown id |
| Requests.Supervisor.Discard | src/rotor/supervisor.cpp:114-118 | removes the timer and the request without a message |
| Requests.Supervisor.ReplyArrived | include/rotor/supervisor.h:454-466 | passes a reply on once, and drops it when nothing is pending |
| Requests.Supervisor.FinishShutdown | src/rotor/actor_base.cpp:87-89 | the loop terminates with both maps empty, each pending request dropped once |
| Timers.PassFiresExactly | src/rotor/thread/system_context_thread.cpp:65-73 | a pass over the list, whatever its callbacks start and cancel, fires in list order exactly the timers due at entry that no callback has cancelled |
| Timers.FiredInOrder | src/rotor/thread/system_context_thread.cpp:65-86 | of two timers fired in a pass the first has the earlier deadline, or the same one and was started first |
| Timers.TickFiresOnlyOldTimers | src/rotor/thread/system_context_thread.cpp:65-73 | in any run a pass fires only timers that were started before it and not called yet, and leaves none that is due |
| Timers.EveryTimerIsCalledOnce | src/rotor/thread/system_context_thread.cpp:65-97 | in any run each timer started is either in the list, which is sorted and has the ids of the actors' maps, or has been called, exactly once |
| Timers.StartedFiresOnTime | src/rotor/thread/system_context_thread.cpp:75-86 | in every run a timer started with interval `d` and not called meanwhile fires in a pass if and only if the clock is then past the start by more than `d` and no callback of the pass cancels it |
| Timers.BegunFiresOnTime | src/rotor/thread/system_context_thread.cpp:65-86 | the same for a timer that a callback of an earlier pass has started, counting from the time of that pass |
| Timers.CancelCancels | src/rotor/thread/system_context_thread.cpp:88-97 | cancelling a waiting timer calls it first, as cancelled, runs its callback and removes it everywhere; cancelling any other changes nothing |
| Timers.CallbackDoesAll | src/rotor/actor_base.cpp:212-218 | a callback does all it has to do, one after the other |
| Timers.ClockOfLastTick | src/rotor/thread/system_context_thread.cpp:65-67 | the time is that of the last pass |
| Timers.ExecKeeps | src/rotor/thread/system_context_thread.cpp:75-97 | any callback, nested cancellations included, keeps the invariant and cancels what it removes |
| Timers.CancelKeeps | src/rotor/thread/system_context_thread.cpp:88-97 | so does cancelling a timer whose callback starts and cancels others |
| Timers.FireKeeps | src/rotor/thread/system_context_thread.cpp:69-71 | firing one node logs it, keeps the invariant and takes just it and what its callback cancels off the due timers |
| Timers.FiredStaysFirst | src/rotor/thread/system_context_thread.cpp:70-71 | after its callback the fired node is still the first, so the iterator erases the right node |
| Timers.InsertKeeps | src/rotor/thread/system_context_thread.cpp:79-85 | a timer goes behind all with the same deadline, and the list stays sorted |
| Timers.SystemContext.Start | src/rotor/thread/system_context_thread.cpp:75-86 | the search loop inserts the node where the function does |
| Timers.SystemContext.RunCallback | src/rotor/actor_base.cpp:212-218 | a callback that starts and cancels timers computes its script |
| Timers.SystemContext.Cancel | src/rotor/thread/system_context_thread.cpp:88-97 | finds the timer, calls it as cancelled and erases it |
| Timers.SystemContext.FireAt | src/rotor/thread/system_context_thread.cpp:69-71 | one round of the loop |
| Timers.SystemContext.Update | src/rotor/thread/system_context_thread.cpp:65-73 | the loop terminates and computes the pass |
| Delivery.PerSenderOrder | src/rotor/plugin/delivery.cpp:29-40 | over any number of localities, an actor subscribed once to each message that a sender sends to an address has heard a prefix of these messages, all kinds together, and one that is not subscribed has heard nothing |
| Delivery.HeardInOrder | include/rotor/supervisor.h:388-409 | in general, the calls of an actor's handlers are a prefix of the calls that the messages cause in the order of sending |
| Delivery.NothingIsLost | include/rotor/supervisor.h:388-409 | when all queues are empty every call has been made, and the actor has heard exactly what was sent if and only if it is subscribed once to each message |
| Delivery.RunKeepsOrder | include/rotor/supervisor.h:388-409 | the calls that what was sent causes are those made, then those under way, then those of the messages under way, in every run, for every sender, address and actor |
| Delivery.ReachedAsSentIff | src/rotor/plugin/delivery.cpp:29-40 | calls caused by messages repeat these messages if and only if the actor is subscribed once to each |
| Delivery.DeliverKeeps | src/rotor/plugin/delivery.cpp:29-40 | a delivery with external and internal handlers keeps that order |
| Delivery.ForwardKeeps | include/rotor/supervisor.h:405-407 | so does passing a message on to another locality |
| Delivery.CallKeeps | src/rotor/plugin/foreigners_support.cpp:46-50 | so does calling a handler for another supervisor |
| Delivery.CheckKeeps | src/rotor/thread/system_context_thread.cpp:54-61 | so does taking over what others have enqueued |
| Delivery.SendKeeps | include/rotor/supervisor.h:317-319 | so does sending |
| Delivery.DrainIsRun | include/rotor/supervisor.h:388-409 | draining the queue is a run of single rounds |
| Delivery.ProcessesAtHome | include/rotor/supervisor.h:388-409 | a locality calls only handlers of its own actors, takes from its own queue alone and only appends to what others take over |
| Delivery.CalledAtHome | src/rotor/plugin/foreigners_support.cpp:46-50 | in every run the handlers of an actor are called by the locality of its supervisor alone |
| Delivery.Network.Put | include/rotor/supervisor.h:167 | the message enters the queue of the sender's locality |
| Delivery.Network.Delivery | src/rotor/plugin/delivery.cpp:29-40 | both loops: external handlers get a wrapped message where they live, then internal ones are called |
| Delivery.Network.Process | include/rotor/supervisor.h:388-409 | the loop terminates and computes the draining of the queue |
| Delivery.Network.TakeOver | src/rotor/thread/system_context_thread.cpp:54-61 | moves the inbound queue behind the queue |
| SubscriptionRuns.IndexMatchesList | src/rotor/subscription.cpp:27-106 | in every run with handlers replaced through listed infos: for each address and message type index and list have the same handlers as multisets, no map keeps an empty entry, and none of the assertions fails |
| SubscriptionRuns.IndexMatchesListInOrder | src/rotor/subscription.cpp:27-106 | with no handler subscribed twice to an address they agree in order, and the list has exactly what was made and not forgotten |
| Subscriptions.StepKeepsBagsIff | src/rotor/subscription.cpp:50-65 | a step keeps the agreement as multisets if and only if it does not replace a handler through an unlisted info |
| Subscriptions.StepKeepsOrderIff | src/rotor/subscription.cpp:50-65 | subscribing and forgetting keep the order even with duplicates; replacing keeps it if and only if the first such handler of the list is replaced |
| SubscriptionRuns.UnlistedReplacedLosesAgreement | src/rotor/subscription.cpp:86-88 | a concrete run, subscribing a handler twice, forgetting one and replacing the handler of the other, after which index and list differ as multisets |
| SubscriptionRuns.SecondReplacedLosesOrder | src/rotor/subscription.cpp:60-62 | a concrete run, replacing the handler of the second of two subscriptions, after which they differ in order |
| Subscriptions.SwapAgrees | src/rotor/subscription.cpp:59-62 | replacing the first occurrence in the index and replacing at a position of the list agree if and only if that position is the first occurrence |
| Subscriptions.SelectWithout | src/rotor/subscription.cpp:86-102 | removing the first occurrence and selecting by type and locality can be exchanged |
| SubscriptionRuns.NullIffUnwanted | src/rotor/subscription.cpp:67-75 | the lookup gives null if and only if no live info matches |
| SubscriptionRuns.RecipientsAreLive | src/rotor/subscription.cpp:67-75 | in every careful run the lookup gives each handler as often as live infos have it, if it is for the message type, those of this supervisor as internal and the others as external |
| SubscriptionRuns.RecipientsAreInOrder | src/rotor/subscription.cpp:67-75 | with no handler subscribed twice both are in the order of subscribing |
| SubscriptionRuns.ForgettingAllEmptiesBoth | src/rotor/subscription.cpp:77-106 | when every info has been forgotten both maps are empty |
| SubscriptionRuns.MaterializeThenForget | src/rotor/subscription.cpp:27-106 | subscribing and forgetting restores the handlers up to order, and in order if and only if nothing else follows the first subscription of the same handler |
| SubscriptionRuns.MaterializeThenForgetRestores | src/rotor/subscription.cpp:27-106 | with a new handler both maps are exactly restored |
| SubscriptionRuns.NeverTrips | src/rotor/subscription.cpp:50-106 | the assertions of `update` and `forget` hold for every live info |
| SubscriptionMap.Map.Subscribe | src/rotor/subscription.cpp:27-48 | makes a new info and enters it into both maps |
| SubscriptionMap.Map.ReplaceHandler | src/rotor/subscription.cpp:50-65 | replaces the handler in the info and its first occurrence in the index |
| SubscriptionMap.Map.Recipients | src/rotor/subscription.cpp:67-75 | computes the lookup |
| SubscriptionMap.Map.Unsubscribe | src/rotor/subscription.cpp:77-106 | the searches and erasures in both maps |
| SubscriptionMap.FindHandler | src/rotor/subscription.cpp:60 | finds the first occurrence |
| Registry.RunKeepsInv | src/rotor/registry.cpp:26-68 | in every run the two maps are mirrors of each other and nobody waits for a registered name |
| Registry.DeregisterIsExact | src/rotor/registry.cpp:48-57 | the lookup in the reverse map succeeds, and dropping an address drops every name bound to it and no other |
| Registry.BoundIff | src/rotor/registry.cpp:26-68 | in every run a name is bound to an address if and only if it was registered for it while free and not dropped since |
| Registry.DiscoveryIsTrue | src/rotor/registry.cpp:70-80 | in every run a discovery finds an address if and only if the name is bound to it in that sense |
| Registry.AnswersAre | src/rotor/registry.cpp:26-105 | which answer each message gets: registered if and only if the name was free, found if and only if it is bound, a future at once if and only if it is bound |
| Registry.PromisesAreConserved | src/rotor/registry.cpp:82-105 | every promise received is pending once or has been answered once |
| Registry.StepConserves | src/rotor/registry.cpp:26-105 | each message keeps that balance |
| Registry.FuturesAreRightIffContiguous | src/rotor/registry.cpp:40-45 | the futures of a registration carry the address of their own name if and only if everything behind the first match asks for the new name |
| Registry.KeptAsMeantIffContiguous | src/rotor/registry.cpp:40-45 | promises for other names survive in order if and only if the same holds |
| Registry.AsMeantIffContiguous | src/rotor/registry.cpp:26-46 | the registration as written is the one meant if and only if everything behind the first match asks for the name |
| Registry.MeantIsRight | src/rotor/registry.cpp:26-105 | with registrations as they are meant, in every run the invariant holds, each promise waits once or has been answered once, and each address sent is the one registered at that moment under the name asked for |
| Registry.StepMeantIsRight | src/rotor/registry.cpp:40-45 | one message does so from any state with the invariant and the balance |
| Registry.MatchingNamed | src/rotor/registry.cpp:40-45 | what is meant to be answered are the promises for the name, what is kept are the others, and together they are all |
| Registry.Registry.AnswerNamed | src/rotor/registry.cpp:40-45 | the loop that searches again after each match answers all promises for the name in order and keeps the others in order |
| Registry.RegistrationCanMislead | src/rotor/registry.cpp:40-45 | a concrete run answers a promise with the address of another name |
| Registry.CancelTakesTheLast | src/rotor/registry.cpp:94-105 | the last match is answered and removed, the others stay in order |
| Registry.CancelUndoesPromise | src/rotor/registry.cpp:82-105 | cancelling right after asking restores the promises |
| Registry.RegisterThenDeregister | src/rotor/registry.cpp:34-68 | registering a name and dropping it restores the bindings |
| Registry.Registry.Register | src/rotor/registry.cpp:26-46 | computes a registration, the prefix kept and the whole suffix answered |
| Registry.Registry.AnswerFrom | src/rotor/registry.cpp:42-45 | the erase loop answers everything from the iterator on, in order |
| Registry.Registry.Deregister | src/rotor/registry.cpp:48-57 | the loop erases the names of the reverse set |
| Registry.Registry.DeregisterService | src/rotor/registry.cpp:59-68 | drops one name from both maps |
| Registry.Registry.Discover | src/rotor/registry.cpp:70-80 | answers with the address or an error |
| Registry.Registry.Await | src/rotor/registry.cpp:82-92 | answers at once or waits |
| Registry.Registry.Cancel | src/rotor/registry.cpp:94-105 | the backward search and the erasure |
| Lifecycle.AskedOnlyAfterYes | src/rotor/actor_base.cpp:100-143 | a plugin is asked only if all before it, in the order of the phase, have just said yes or do not react |
| Lifecycle.PhaseEndsIff | src/rotor/actor_base.cpp:100-143 | the phase ends if and only if nobody refuses, and then all plugins have been visited |
| Lifecycle.ReactionsBeyond | src/rotor/actor_base.cpp:51-143 | reactions of plugins not reached, and those for the other phase, are changed by what the handlers asked have done, deactivations, switches and acquisitions in order, and by nothing else |
| Lifecycle.ReactionsBeyondStay | src/rotor/actor_base.cpp:100-143 | those that no asked handler touches stay as they were |
| Lifecycle.HeldKeepsShutdownArmed | src/rotor/plugin/resources.cpp:48-63 | in every run with sums below 2^31, a held resource keeps the shutdown reaction on until the resources plugin is deactivated or the actor is shut down |
| Lifecycle.EndsUnheldIff | src/rotor/plugin/resources.cpp:40-82 | when a phase ends and nobody before the resources plugin has deactivated it, a resource is held if and only if, seen from the state before the poll, a plugin that reacts behind it acquires one |
| Lifecycle.EndsHeldIff | src/rotor/plugin/resources.cpp:40-82 | when a phase ends, also past a deactivated resources plugin, a resource is held if and only if, seen from the state before the poll, one is held already or a plugin that reacts acquires one |
| Lifecycle.QuietBehindIff | src/rotor/actor_base.cpp:105-139 | when handlers leave the reactions of others alone, that condition is read off the reactions before the poll |
| Lifecycle.AskForeseen | src/rotor/actor_base.cpp:105-139 | in a poll without refusal exactly the plugins foreseen from the state before it are asked |
| Lifecycle.LateAcquisitionIsMissed | src/rotor/plugin/resources.cpp:52-63 | a concrete run: initialization ends with a resource held that was acquired behind the resources plugin |
| Lifecycle.DeactivationIsMissed | src/rotor/plugin/plugin_base.cpp:31-36 | a concrete run: shutdown ends with a resource held whose plugin was deactivated |
| Lifecycle.AskArms | src/rotor/plugin/resources.cpp:40-63 | what a poll acquires, keeps armed and leaves held |
| Lifecycle.RunCounts | src/rotor/plugin/resources.cpp:52-82 | in every run with sums below 2^31 the counter of each resource is its acquisitions, in and outside polls, minus its releases |
| Lifecycle.IncrementCounts | src/rotor/plugin/resources.cpp:52-56 | acquiring raises the counter of this resource by one modulo 2^32 and of no other |
| Lifecycle.AcquireThenRelease | src/rotor/plugin/resources.cpp:52-82 | acquiring a resource and releasing it restores the counters of all |
| Lifecycle.ReleaseEndsIff | src/rotor/plugin/resources.cpp:65-82 | a release ends the phase if and only if nothing else is held and nobody refuses in the poll that follows |
| LifecycleLaws.AgreedReactsNoMore | src/rotor/actor_base.cpp:105-139 | a plugin that a poll passes or that says yes does not react any more, unless a handler asked later in the poll makes it react again |
| LifecycleLaws.AgreedIsPassed | src/rotor/actor_base.cpp:105-139 | so it is passed in the next poll, if none does |
| LifecycleLaws.PollEndsPhaseIff | src/rotor/actor_base.cpp:100-143 | a poll turns INITIALIZING into INITIALIZED and SHUTTING_DOWN into SHUT_DOWN exactly if nobody refuses |
| LifecycleLaws.LifeGoesOn | src/rotor/actor_base.cpp:70-97 | the life goes on one state after the other, each by its own events, and no handler changes it |
| LifecycleLaws.AcquireArms | src/rotor/plugin/resources.cpp:52-63 | acquiring switches on just the reaction of the resources plugin to the phase the life calls for |
| LifecycleLaws.ResourcesOnlyVote | src/rotor/plugin/resources.cpp:48-50 | in a poll for shutdown the resources plugin votes and does nothing else |
| Lifecycle.HasAnyIsRightIff | src/rotor/plugin/resources.cpp:90-93 | `has_any` tells whether a counter is positive if and only if the sum is 0 or 1 to 2^31 - 1 modulo 2^32 |
| Lifecycle.AccumulateIsTotal | src/rotor/plugin/resources.cpp:91 | the accumulated `int` is the sum modulo 2^32, taken as a signed number |
| Lifecycle.HasAnyCanMiss | src/rotor/plugin/resources.cpp:90-93 | a concrete counter that it misses |
| LifecycleActor.Actor.InitContinue | src/rotor/actor_base.cpp:100-120 | the loop with its counter and break computes the forward poll |
| LifecycleActor.Actor.ShutdownContinue | src/rotor/actor_base.cpp:124-143 | the loop computes the backward poll |
| LifecycleActor.Actor.DeactivatePlugin | src/rotor/plugin/plugin_base.cpp:31-36 | clears all reactions of a plugin |
| LifecycleActor.Actor.SwitchReaction | include/rotor/plugin/plugin_base.h:149-152 | switches one reaction of one plugin |
| LifecycleActor.Actor.AcquireResource | src/rotor/plugin/resources.cpp:52-63 | resizes, increments with wrap-around and arms by state |
| LifecycleActor.Actor.ReleaseResource | src/rotor/plugin/resources.cpp:65-82 | decrements, polls when nothing is left, and returns whether anything was |
| LifecycleActor.Actor.HasAnyResource | src/rotor/plugin/resources.cpp:90-93 | the accumulating loop decides by the sum modulo 2^32 |
| Children.AskedOnceLeavesOnce | src/rotor/plugin/child_manager.cpp:258-311 | in every run a child gets at most one shutdown request, answers at most once and leaves `actors_map` once |
| Children.LeavesAfterAnswerAndLastPoint | src/rotor/plugin/child_manager.cpp:209-232 | the step in which a child leaves, if it was created before the manager agreed, comes after the answer and when no reply address of it is left |
| Children.ShutDownAfterAllChildren | src/rotor/plugin/child_manager.cpp:248-256 | a supervisor is shut down only when every child created before the manager agreed has been asked, has answered or timed out, and has left |
| Children.NeverLeftBehindIff | src/rotor/plugin/child_manager.cpp:117-126 | no later run shuts the supervisor down with a new child still there, or lets the child leave unanswered, if and only if the manager has not agreed when the child is created |
| Children.LateChildCanLeaveUnanswered | src/rotor/plugin/lifetime.cpp:76-93 | from any state in which the manager has agreed and the supervisor is still shutting down, a child created later can leave unanswered, as the supervisor takes down all points |
| Children.LateIsLeftBehind | src/rotor/plugin/lifetime.cpp:49-93 | after a late creation the supervisor takes its points down one by one and then ends, with the child still there or gone unanswered |
| Children.LateChildCanBeLeftBehind | src/rotor/plugin/child_manager.cpp:117-126 | a concrete run in which a child created later is never asked |
| Children.UnsubscribedIsMapped | src/rotor/address_mapping.cpp:34-36 | the actor of a point being taken down is always found |
| Children.AnswerFindsChild | src/rotor/plugin/child_manager.cpp:209-211 | the child whose answer arrives is found, unless it was created late |
| Children.RunKeepsInv | src/rotor/plugin/child_manager.cpp:77-311 | the invariant of children, points and the supervisor itself holds in every run |
| ChildEffects.ShutdownCanEndIff | src/rotor/plugin/child_manager.cpp:209-256 | from a reachable state some run shuts the supervisor down if and only if its manager has agreed or no child that has answered has a point that is not being taken down |
| ChildEffects.ShutdownCanEnd | src/rotor/plugin/child_manager.cpp:209-311 | so in every run in which children send no requests after their answer the shutdown can still end |
| ChildEffects.PollAsksAll | src/rotor/plugin/child_manager.cpp:248-256 | a poll that reaches the manager asks all children not asked before, each once, and it agrees if and only if there is none left |
| ChildEffects.TriggerAsks | src/rotor/plugin/child_manager.cpp:186-190 | a trigger asks its child once; of a supervisor it asks all children and polls, or just marks it when it has a parent or is shutting down |
| ChildEffects.AnswerTakesDown | src/rotor/plugin/child_manager.cpp:209-232 | the first answer takes down exactly the points of the child, which leaves at once if it has none |
| ChildEffects.UnsubscribedEnds | src/rotor/plugin/child_manager.cpp:294-311 | a point taken down is gone, and its owner leaves if and only if it was the last one |
| ChildEffects.MapsAdds | src/rotor/address_mapping.cpp:13-17 | a point set up is added if its type is free, and nothing is replaced |
| ChildEffects.DeactivationLeaves | src/rotor/plugin/child_manager.cpp:68-75 | the supervisor leaves its own map if and only if its manager has agreed, no point is left and it is alone |
| ChildManager.Manager.RequestShutdown | src/rotor/plugin/child_manager.cpp:258-286 | sends a child its request once |
| ChildManager.Manager.RequestShutdownOfAll | src/rotor/plugin/child_manager.cpp:288-292 | the loop asks every child not asked before, once |
| ChildManager.Manager.HandleShutdown | src/rotor/plugin/child_manager.cpp:248-256 | asks all and agrees exactly when one actor is left |
| ChildManager.Manager.OnShutdownTrigger | src/rotor/plugin/child_manager.cpp:186-190 | the three branches for a child, for itself with and without a parent |
| ChildManager.Manager.StartOwnShutdown | src/rotor/plugin/child_manager.cpp:269-277 | a supervisor without parent starts its own shutdown |
| ChildManager.Manager.OnShutdownConfirm | src/rotor/plugin/child_manager.cpp:209-232 | takes down the child's points, or removes it when there are none |
| ChildManager.Manager.HandleUnsubscription | src/rotor/plugin/child_manager.cpp:294-311 | removes the point, and the child with its last point |
| ChildManager.Manager.RemoveChild | src/rotor/plugin/child_manager.cpp:77-106 | removes the entry |
| ChildManager.Manager.Deactivate | src/rotor/plugin/child_manager.cpp:68-75 | removes the supervisor itself when it is alone without points |
| ChildManager.Manager.CreateChild | src/rotor/plugin/child_manager.cpp:117-126 | enters a child that has not been asked |
| AddressMapping.RemoveIsExact | src/rotor/address_mapping.cpp:34-51 | exactly the given point goes |
| AddressMapping.SubscriptionsArePoints | src/rotor/address_mapping.cpp:60-63 | an actor has subscriptions as long as it has a point |
| AddressMapping.SetThenRemove | src/rotor/address_mapping.cpp:13-51 | setting a point up for a free type and removing it restores the mapping |
| AddressMapping.Mapping.SetPoint | src/rotor/address_mapping.cpp:13-17 | an existing point of the type is kept |
| AddressMapping.Mapping.GetMappedAddress | src/rotor/address_mapping.cpp:19-32 | the nested lookup |
| AddressMapping.Mapping.RemovePoint | src/rotor/address_mapping.cpp:34-51 | the search loop with its break, and the erasure of an empty entry |
| AddressMapping.Mapping.HasSubscriptions | src/rotor/address_mapping.cpp:60-63 | holds if and only if the actor has a point |

## Left out

- LinkTheorems.LinkIsSafeIff: is stated for a caller without unanswered requests to the server; with those, freshness is only proved sufficient.
- LinkTheorems.LinkIsSafeWhileKnownIff: leaves out, besides that, actors linked to themselves and an unlink reply that arrives after its timeout.
- LinkTheorems.CarelessLinkBetrays: the server of the run accepts links before it is initialized, as `on_link_request` does.
- LinkRuns.LinkCompletes: starts with no message under way between the two actors; so do the other three handshakes.
- LinkRuns.UnlinkCompletes: one client, and everybody agrees at once.
- LinkInvariant.StepKeeps: subscriptions that plugins give up one by one are modelled by lost messages and lost unlink responses, allowed to any actor that is shutting down, and by such an actor hearing no link response from some point on; an unlink request is represented by the address of the client, as a server has at most one under way for each.
- Requests.ExactlyOneOutcome: needs that ids have not wrapped around; after that an id names several requests and only the balance of `EveryRequestHasOneOutcome` holds.
- Requests.EveryRequestHasOneOutcome: after a wrap, a request whose id is still that of a running timer is not sent in the model.
- Requests.IdsAreDistinctBeforeWrap: `next_request_id` looks only at pending requests, so after a wrap the id of a plain timer, or of a timer of another supervisor of the locality, can be handed out again; the model then hands out nothing.
- Timers.PassFiresExactly: callbacks run with `intercepting` false, intervals are not negative, and a callback does not cancel its own timer.
- Delivery.RunKeepsOrder: subscriptions are fixed; what a handler sends during a delivery is a later step, which gives the same queues.
- Lifecycle.EndsUnheldIff: polls within polls: a handler asked in a poll may acquire resources and deactivate plugins but not release resources, which would poll again; the deactivation of all plugins in the vote of the init and shutdown plugin (src/rotor/plugin/init_shutdown.cpp:62), which can remove the supervisor's own entry and poll again (src/rotor/plugin/child_manager.cpp:72 and 103-105), clears reactions here without polling.
- Lifecycle.EndsHeldIff: leaves out the same polls within polls.
- Lifecycle.HeldKeepsShutdownArmed: says nothing once the resources plugin is deactivated, as it then has no reactions; acquiring through it is not meaningful in the source, which needs the actor.
- Children.ShutDownAfterAllChildren: what plugins polled after the child manager do is a parameter, and each nested call of `shutdown_continue` is a poll of its own that may come at any time.
- ChildManager.Manager.RemoveChild: leaves out the policies for a failed initialization, the cancelling of init requests, and the nested polls, which are events of their own.
- ChildManager.Manager.RequestShutdown: leaves out the cancelling of an init request.
- ChildManager.Manager.OnShutdownTrigger: leaves out the cancelling of an init request.
- ChildManager.Manager.OnShutdownConfirm: leaves out the report of an error; the poll that follows is an event of its own.
- ChildManager.Manager.HandleUnsubscription: leaves out the deactivation of the plugin when the mapping is empty, which does not change the maps.
- ChildManager.Manager.Deactivate: leaves out the base deactivation, which does not change the maps.
- ChildManager.Manager.CreateChild: leaves out the initialization of the child, the create message and the postponed init.
- The asio, ev and wx backends: event loops that are not part of rotor; enqueueing is appending to a FIFO queue.
- The mutex, condition variable and clock of the thread backend: moves under the lock are atomic, and the time is an input.
- Reference counts, plugin storage, configuration builders, message templates, error texts and the inspecting delivery: no hard property.
- Iterators into unordered maps during callbacks: maps are walked in an arbitrary order that the results do not depend on.
- Handlers that subscribe or unsubscribe on the key being delivered: they change the vector being walked.
- The unsubscription handshake between supervisors (`lifetime.cpp`, `plugin_base.cpp`): subscriptions are forgotten in one step.
- User callbacks of links, the registry client plugin, starter configuration, examples and tests: plumbing.
- Initialization of children (`on_init`, `has_initializing`, start): would add easy members.
- Liveness: with an unlink timeout the code reports an error and keeps the record, so shutdown need not end.

# Bandwidth upgrade: a verified model

A connection between two devices can move to a faster medium while it is in use. The initiator offers a medium, the
responder dials it and introduces itself on the new channel, both sides swap to that channel but hold it paused, say
LAST_WRITE on the old one, answer with SAFE_TO_CLOSE, drain and close the old channel and resume the new one. If a
medium cannot be brought up or joined, the initiator falls back to the next one of a preference list, or retries later.

This project models that machinery of `src/bwu` in Dafny and proves what it keeps over whole runs: for every
interleaving, every pattern of success and failure of its I/O, and every order in which a hash map lists its keys.

## How it is laid out

| part | files |
|---|---|
| vocabulary: service ids, mediums, channels, frames, the log of all I/O | `Wrappers.dfy`, `ServiceIds.dfy`, `Protocol.dfy` |
| the medium handlers and their bookkeeping: functions, and the classes that compute them | `Handlers.dfy`, `HandlerObjects.dfy` |
| the upgrade manager: functions on its state, whole runs, and the class with one method per operation | `BwuSpec.dfy`, `BwuManager.dfy` |
| what each operation leaves alone, and what each call brings about | `Frames.dfy`, `Effects.dfy`, `Refusals.dfy` |
| properties of one manager over all runs | `Chronicle.dfy`, `Isolation.dfy`, `Waiting.dfy`, `HeldUp.dfy`, `Failover.dfy`, `FailoverSearch.dfy`, `Parking.dfy`, `Conservation.dfy`, `Departures.dfy`, `Handover.dfy`, `Backoff.dfy`, `LanProtection.dfy`, `Layers.dfy`, `LayersRun.dfy` |
| the actor around the manager, and its timers | `Timers.dfy`, `Punctual.dfy`, `BwuActor.dfy` |
| two managers and the channels between them | `Handshake.dfy`, `HandshakeSafety.dfy`, `HandshakeConvergence.dfy`, `HandshakeRefinement.dfy`, `HandshakeDispatch.dfy`, `Duet.dfy`, `TwoManagers.dfy` |
| the framed channel: functions, classes for one thread, and a step system for many | `Framing.dfy`, `StreamChannel.dfy`, `ConcurrentFraming.dfy` |

Every observable action of the manager (a write and whether it worked, a pause, a close and its reason, a call on a
handler, a scheduled retry) is an event in one log. An environment decides how the n-th logged operation turns out and
in which order a hash map lists its keys; the properties hold for every environment. The manager's recursion
(initiate, failure, next best medium, initiate) is in tail position, so a call that returns is a finite sequence of
rounds; `BwuManager.dfy` carries those rounds as ghost arguments, and `Failover.dfy` says exactly when they exist. A write on a
paused channel waits until somebody else resumes or closes it; its event says how it then turned out, and `Waiting.dfy`
and `HeldUp.dfy` say exactly which calls wait.

Where comments in the source and its code differ, the model follows the code. The comment at
`src/bwu/stream_channel.rs:182-183` says that closing a channel releases paused writers; `pause` does not look at the
closed flag, so a pause after the close holds writers up again (the contract of `DoClose` says what a close does).

## Model

| member | source | states |
|---|---|---|
| `HandshakeSafety.SwapKeepsOrder` | src/bwu/manager.rs:418-626 | At every moment of every round, whatever writes, dials and reads fail: what either side got over both channels is a prefix of what the other sent, and no drain read threw a payload away. A round ends for a side that closes the old channel because its failure notice cannot be written; that close is not a step of it. |
| `TwoManagers.RunIsRound` | src/bwu/manager.rs:194-626 | Every run of two managers joined by the contents of the two channels, each handling the messages it takes and waiting in its blocking reads while the other goes on, is a run of the two-party round at each moment of it, from the clean state if neither has reported an upgrade of the endpoint before. |
| `TwoManagers.TwoManagersKeepOrder` | src/bwu/manager.rs:418-626 | So at every moment of such a run of two managers, what either application got over both channels is a prefix of what the other sent, and neither drain read took a payload. |
| `TwoManagers.NewOnlyAfterDrained` | src/bwu/manager.rs:537-541 | In such a run a payload is on the new channel only when that channel is registered and not paused and the peer has taken every payload written on the old one. |
| `TwoManagers.HalfExecutes` | src/bwu/manager.rs:194-626 | In such a run each manager is, at every moment, where a sequence of its own calls, of any kind, takes it. |
| `TwoManagers.OfferIsMet` | src/bwu/manager.rs:352-416 | Such runs exist: one in which an offer is made, taken up and swapped on. |
| `Duet.DeedGoes` | src/bwu/manager.rs:194-626 | Whatever one of the two managers does, a call or its end or something in between, is one step of the round on what its state and log show, with exactly the messages its log says it wrote; a call about other things does not show. |
| `HandshakeSafety.NewOnlyAfterDrained` | src/bwu/manager.rs:537-541 | A payload is on the new channel only after the peer has taken every payload that was written on the old one. |
| `HandshakeSafety.RoundKeeps` | src/bwu/manager.rs:530-626 | The invariant of the two-party round holds in every reachable state: in each direction the old channel carries payloads, then LAST_WRITE, SAFE_TO_CLOSE, DISCONNECTION as far as they went, each only after the message of the peer that licenses it. |
| `HandshakeSafety.GotIsPrefix` | src/bwu/manager.rs:596-626 | The invariant implies that nothing is reordered, duplicated or skipped. |
| `HandshakeSafety.SwapKeeps` | src/bwu/manager.rs:530-572 | Swapping keeps the invariant, provided an early LAST_WRITE of the peer was latched. |
| `HandshakeSafety.LastWriteKeeps` | src/bwu/manager.rs:574-594 | Answering, latching or giving up on LAST_WRITE keeps the invariant. |
| `HandshakeSafety.SafeToCloseKeeps` | src/bwu/manager.rs:596-612 | Saying goodbye on SAFE_TO_CLOSE keeps the invariant, whether the goodbye goes out or not. |
| `HandshakeSafety.DrainKeeps` | src/bwu/manager.rs:610-626 | The drain read takes at most the peer's goodbye, and resuming afterwards keeps the invariant. |
| `HandshakeConvergence.RoundSettles` | src/bwu/manager.rs:464-471 | If nothing fails and nothing can happen any more, both sides have the new channel registered and resumed, the old one closed as upgraded, nothing parked, latched or in progress, one success reported, and every payload delivered; for both acknowledgement modes and the early LAST_WRITE. |
| `HandshakeConvergence.NoDeadlock` | src/bwu/manager.rs:495-525 | If nothing fails, some side can move in every reachable state that is not settled, the blocking reads notwithstanding. |
| `HandshakeConvergence.RoundsAreFinite` | src/bwu/manager.rs:530-626 | A measure of the round decreases with every step of either side, also of rounds in which things fail, so a round takes at most 78 steps and three per payload. |
| `HandshakeConvergence.EarlyLastWriteHappens` | src/bwu/manager.rs:567-571 | Without an acknowledged introduction LAST_WRITE can overtake the socket and be latched. |
| `HandshakeRefinement.SwapRefines` | src/bwu/manager.rs:530-572 | The manager's converged protocol is the swap of the two-party round: same new state, same messages on the old channel. |
| `HandshakeRefinement.FramesRefine` | src/bwu/manager.rs:326-337 | LAST_WRITE and SAFE_TO_CLOSE frames do to the manager what they do in the round. |
| `HandshakeDispatch.OfferFollows` | src/bwu/manager.rs:233-255 | An initiation takes the round's first step: the offer is said and the upgrade in progress if the medium comes up and the offer is written, and otherwise, whatever the failover tries next, nothing is said and the state of the round stays as it was. |
| `HandshakeDispatch.MeetFollows` | src/bwu/manager.rs:352-474 | An offer frame takes the round's step for an offer, with the wait for the acknowledgement if that was promised: dial, introduction and acknowledgement fail in the round where they fail in the manager, and then the old channel is closed exactly if the peer cannot be told; where they work, both swap. |
| `HandshakeDispatch.SocketFollows` | src/bwu/manager.rs:490-526 | A socket takes the round's two steps for it, waiting for the introduction included: unreadable, unacknowledged or no longer wanted it changes nothing but what was said, and otherwise it is swapped to. |
| `HandshakeDispatch.ControlFollows` | src/bwu/manager.rs:574-626 | A LAST_WRITE or SAFE_TO_CLOSE frame takes the round's step for that message together with the drain read, whatever works. |
| `Failover.BestIsBest` | src/bwu/manager.rs:753-780 | The best medium of a list is the one on record if that is listed and usable, and then no other; with none on record it is the first usable one listed, and none exactly if no listed medium is usable. |
| `Failover.FailoverReturns` | src/bwu/manager.rs:663-748 | If, going from each failure to the medium tried next (behind the first copy of the name it is reported under), no listed medium comes back to one already attempted, every failover takes finitely many rounds, whatever fails: started by the caller, by a reported failure or by a due retry. If moreover the endpoint's registered channel is not paused, none of its offers waits, so it returns by itself. |
| `Failover.TailReturns` | src/bwu/manager.rs:692-704 | Over a sound list, one in which no usable medium follows the name its failure is reported under, the untried tail is the measure: from a tail of n mediums at most n more rounds follow. |
| `Failover.ReturnsIffNoReturn` | src/bwu/manager.rs:238-253 | Where no I/O works, every reported failure is handled in finitely many rounds if and only if no listed medium comes back in that way, or one medium is shared by several channels, so that no failure leads anywhere. No condition on the list: BLE_L2CAP, reported as the unknown medium, is followed to wherever that leads. Whether a round waits is a matter of `FinishesIffUnhindered`. |
| `Failover.FinishesIffUnhindered` | src/bwu/manager.rs:233-253 | Where no I/O works, every reported failure is handled in finitely many rounds without waiting for anybody if and only if no failure leads anywhere, or no listed medium comes back and not both the endpoint's registered channel is paused and some failure leads to a medium whose listener already stands, so that its offer is written. |
| `Failover.UnknownMediumRunsForEver` | src/bwu/manager.rs:249-252 | On the list unknown medium, BLE_L2CAP the failover never returns when nothing works. |
| `Failover.RepeatsMayReturn` | src/bwu/manager.rs:692-704 | On WebRtc, BLE_L2CAP, WebRtc, which is not sound, every failure returns. |
| `Failover.SoundNeverComesBack` | src/bwu/manager.rs:692-704 | Over a sound list no medium comes back. |
| `Failover.DistinctIsSound` | src/bwu/manager.rs:692-704 | Lists without repeats and without the unknown medium are sound. |
| `FailoverSearch.FailureIsSearch` | src/bwu/manager.rs:663-748 | If no listed medium comes back, and with a medium per endpoint or no second channel, handling a failure decides exactly what a walk along the mediums that the failures lead to decides: upgrade on the first that comes up and takes the offer, retry later, or give up on WIFI_LAN or without a channel; mediums are tried in that order, and each miss is cleaned up. |
| `FailoverSearch.FailoverIsSearch` | src/bwu/manager.rs:712-780 | The same for any point of the recursion, by induction over its rounds. |
| `FailoverSearch.InitiationIsSearch` | src/bwu/manager.rs:194-256 | The same for an initiation by the caller in whose way nothing stands (handler there, not barred, channel on another medium, no upgrade in progress): the walk is over its medium and those its failure leads to. |
| `FailoverSearch.AlarmIsSearch` | src/bwu/manager.rs:832-843 | The same for a due retry with no upgrade in progress: the walk is from the medium on record on, from the first usable one if none is on record, and over none if the one on record is not listed or not usable. |
| `FailoverSearch.SoundWalk` | src/bwu/manager.rs:753-780 | Over a sound list without the unknown medium that walk is one down the usable mediums in list order, except that nothing is tried behind BLE_L2CAP. |
| `FailoverSearch.BusyAlarmAttemptsNothing` | src/bwu/manager.rs:219-223 | A retry that comes due while an upgrade is in progress attempts nothing; at most it schedules another. |
| `FailoverSearch.SearchTriesInOrder` | src/bwu/manager.rs:753-780 | The walk tries a prefix of the candidates, stops at the first that works, and ends upgrading exactly then. |
| `FailoverSearch.InitiationUndone` | src/bwu/manager.rs:238-253 | Under the conditions of the search, an initiation that fails at the handler or at the write of its offer leaves its medium not held by the endpoint under the (non-empty) service id of its channel, whatever the rest of its failover does. |
| `FailoverSearch.UndoneExactly` | src/bwu/manager.rs:663-690 | After a failure on the medium on record was handled, the endpoint holds that medium for its channel's service exactly if it did before and either, with a medium per endpoint, the service id is empty, or, with one for all, several channels are in use. |
| `FailoverSearch.FailureTriesEachOnce` | src/bwu/manager.rs:663-748 | If no listed medium comes back, a reported failure, through all its rounds, brings up each medium at most once, and over a sound list at strictly increasing positions of it. |
| `FailoverSearch.InitiationTriesEachOnce` | src/bwu/manager.rs:194-256 | An initiation in whose way nothing stands brings up each medium at most once. |
| `FailoverSearch.AlarmTriesEachOnce` | src/bwu/manager.rs:832-843 | So does a due retry of a connected endpoint with no upgrade in progress. |
| `Waiting.FailureWaits` | src/bwu/manager.rs:233-253 | A reported failure changes neither the registry nor what is paused, and waits exactly if the endpoint's registered channel is paused and it gets to a medium that comes up. |
| `Waiting.InitiationWaits` | src/bwu/manager.rs:194-256 | The same for an initiation, whose own medium counts. |
| `Waiting.AlarmWaits` | src/bwu/manager.rs:832-843 | The same for a due retry. |
| `Waiting.RefusalWaits` | src/bwu/manager.rs:632-658 | A failure notice waits exactly if the registered channel is paused. |
| `Waiting.SwapWaits` | src/bwu/manager.rs:530-572 | A swap waits exactly if the channel it displaces is paused, or is the new one. |
| `HeldUp.CallWaits` | src/bwu/stream_channel.rs:184-189 | Each call of an orderly run, whatever its kind, has a write that waits exactly if `HeldUp.HeldUp` says so: an offer, a failure notice or a LAST_WRITE on a registered channel that is paused, or an answer on a parked one that is. |
| `HeldUp.RunWaits` | src/bwu/stream_channel.rs:184-189 | In every orderly run, no write so far had to wait exactly if no call was held up, and then no parked channel is paused. |
| `HeldUp.OnlyInFlight` | src/bwu/manager.rs:530-626 | In an orderly run in which nothing waited before, only a write on a registered channel in mid-upgrade can wait; SAFE_TO_CLOSE and DISCONNECTION on a parked channel never do. |
| `HeldUp.FailoverHeldUp` | src/bwu/manager.rs:663-748 | With everything working and a list without repeats, a failure reported while the swapped-in channel is still paused makes the failover write its next offer there, and wait. |
| `Chronicle.EveryEventJustified` | src/bwu/manager.rs:194-939 | In every run each thing done is justified by the log before it: an offer goes out on the channel in use, for the medium just brought up under its service; an introduction on the channel just dialled; LAST_WRITE on the channel that a new one, agreed on and paused first, has just replaced; SAFE_TO_CLOSE on the parked channel; DISCONNECTION after encryption went off; every close, resumption, listener and SoftAP in its place; and the registered and parked channels and the listeners are those the log tells of. |
| `Chronicle.SuccessNamesTheNewMedium` | src/bwu/manager.rs:601-625 | In every run each reported success names the medium of the channel registered last for the endpoint, and follows at once on the resumption of that very channel, which follows on the close of the displaced one as upgraded. |
| `Refusals.NoticeNamesTheOffer` | src/bwu/manager.rs:632-658 | Of all calls only one about an offer writes a failure notice, to the endpoint that made the offer and saying of it exactly what it said. |
| `Refusals.RefusedOfferGoesOn` | src/bwu/manager.rs:632-704 | Of two managers, the one whose offer is refused goes on along the mediums behind the one it offered, as if that had failed at home. |
| `Effects.OffersAreAnswered` | src/bwu/manager.rs:352-474 | An offer is refused if the endpoint is not connected, a WIFI_LAN connection is to be protected, another medium is on record, or the medium cannot be reached; it is ignored by the side that was called; a second one closes both channels; otherwise it is taken up. Each with its whole effect: told in so many words, a refusal gives the medium up under the service of the channel; if the notice fails the channel is closed and nothing else happens. |
| `Effects.DisconnectForgets` | src/bwu/manager.rs:864-929 | A disconnect takes the endpoint out of every collection, closes its parked channel, tells the handler, and gives its medium up under the service named, except with one medium for all and several channels in use. |
| `Effects.DisconnectGivesUp` | src/bwu/manager.rs:886-929 | With a medium per endpoint there is then no medium on record; an initiator's service is not held any more and, if nobody else held it, has no listener; for a responder's, WIFI_HOTSPOT and WIFI_DIRECT are told. |
| `Effects.RetryNeedsConnection` | src/bwu/manager.rs:832-843 | A retry that comes due changes nothing if it is not pending, and nothing but that if the endpoint is not connected: one round, nothing logged. |
| `Effects.InitiationAttempts` | src/bwu/manager.rs:194-231 | An initiation asks the handler of its medium, under the service of the channel in use, exactly if nothing stands in the way; what it leaves otherwise. |
| `Effects.AttemptOffers` | src/bwu/manager.rs:233-256 | Then its medium is on record and the pending retry superseded; if the offer goes out, the upgrade is in progress and the medium held, and otherwise it goes on as for a reported failure. |
| `Effects.NextIsRecorded` | src/bwu/manager.rs:746-747 | The medium a failover goes on with is on record, whatever becomes of it. |
| `Effects.FailureOfSharedMedium` | src/bwu/manager.rs:671-677 | While several channels share the one medium, a reported failure ends the upgrade and does nothing else. |
| `Effects.FailureGivesUp` | src/bwu/manager.rs:663-690 | Otherwise it gives the medium on record up as an initiator's, under the wrapped service of the channel in use. |
| `Effects.SocketsAreTaken` | src/bwu/manager.rs:490-572 | A socket that cannot be read or acknowledged is closed, one for nobody left alone; otherwise the pending retry of the endpoint it is for is dropped and the endpoint moves there: the new channel paused, registered, LAST_WRITE on the old one, that parked if it worked, an early LAST_WRITE answered. |
| `Effects.IdleFrames` | src/bwu/manager.rs:299-347 | Frames for endpoints that are not connected or not upgrading, and frames without contents, change nothing. |
| `Effects.LastWriteIsAnswered` | src/bwu/manager.rs:574-594 | LAST_WRITE is remembered while nothing is parked and answered on the parked channel otherwise, which is closed if that fails. |
| `Effects.SafeToCloseEnds` | src/bwu/manager.rs:596-626 | SAFE_TO_CLOSE: goodbye, drain and close of the parked channel, in that order, then resumption of the channel in use and the report of its medium; without one the upgrade stays in progress. |
| `Effects.ShutDownStops` | src/bwu/manager.rs:931-939 | A shutdown has handlers stop and closes no channel; registry, client, records and pauses stay. |
| `Effects.PlainCommands` | src/bwu/actor.rs:451-478 | Commands for the registry, and the reset, change the one thing they name. |
| `Effects.ClientCommands` | src/bwu/actor.rs:426-450 | So do those for the client. |
| `Effects.InitHolds` | src/bwu/handler.rs:127-146 | A handler has the endpoint hold the wrapped service exactly if the medium comes up: its listener stands, or all there is to start starts. |
| `Effects.RevertLetsGo` | src/bwu/handler.rs:161-182 | A revert lets go of that service for that endpoint alone, and takes the listener down and tells the medium exactly if it was the last holder. |
| `Isolation.RunIsolated` | src/bwu/manager.rs:194-256 | In every orderly run, with a medium per endpoint, each call but a shutdown, through every re-initiation, leaves the entries of all endpoints it does not concern in every collection, in the registry and in every handler as they were; a socket concerns the endpoint it names or the only one upgrading. With one medium for all the same holds for endpoints that hold none. |
| `Isolation.CallIsolated` | src/bwu/manager.rs:194-256 | The same for a call in any state in which no channel is shared and a socket is new. |
| `Isolation.RefusalTakesSharedMedium` | src/bwu/manager.rs:632-658 | With one medium for all, refusing an offer leaves the holdings of another endpoint alone exactly if there is no channel, the peer cannot be told, or the other holds nothing on the medium on record. |
| `Isolation.FailureTakesSharedMedium` | src/bwu/manager.rs:679-690 | With one medium for all, a reported failure leaves them alone exactly if several channels are in use or the other holds nothing on the medium on record. |
| `Isolation.DisconnectTakesSharedMedium` | src/bwu/manager.rs:880-891 | The same for a disconnect. |
| `Isolation.InitiateIsolated` | src/bwu/manager.rs:194-256 | The same for one round of an initiation. |
| `Isolation.DisconnectIsolated` | src/bwu/manager.rs:864-929 | The same for a disconnect. |
| `Isolation.IncomingIsolated` | src/bwu/manager.rs:508-525 | The same for an incoming socket. |
| `Parking.ParkedApart` | src/bwu/manager.rs:537-625 | In every orderly run a parked channel differs from the registered one, the registered one is paused, and no endpoint is both parked and latched. |
| `Conservation.ParkedChannelsConserved` | src/bwu/manager.rs:374-377 | In every orderly run each channel is parked at most once, by a successful LAST_WRITE, and is still parked exactly if it was neither closed nor let go of since; after it was parked it is never closed or let go of twice. |
| `Departures.ParkedChannelsLeaveProperly` | src/bwu/manager.rs:373-626 | In every orderly run, each call that finds a channel parked leaves it parked for the same endpoint, unless it is closed: as upgraded exactly on a SAFE_TO_CLOSE frame for an endpoint in progress, for an I/O error exactly on a LAST_WRITE frame whose SAFE_TO_CLOSE cannot be written, as unfinished exactly on a second offer, as shut down exactly on a disconnect; or let go of, exactly when the next channel is parked in its place or on shutdown. |
| `Departures.EveryExitHasItsCause` | src/bwu/manager.rs:373-626 | Conversely, each channel that was parked and is gone went in one such call, or in the call that parked it, when an early LAST_WRITE was on record and could not be answered. |
| `Handover.HandoversInOrder` | src/bwu/manager.rs:601-625 | In every run success is reported at most as often as a displaced channel was closed as upgraded, that at most as often as one was parked, and every such close follows encryption off, DISCONNECTION and the drain read, in that order. |
| `Backoff.RetriesFollowFormula` | src/bwu/manager.rs:787-809 | In every run the recorded delay is the term of the backoff formula for the number of retries scheduled since the last disconnect or shutdown, a pending retry has that delay, and unless the endpoint once accepted an offer no retry is pending while an upgrade is in progress. |
| `Backoff.NextDelayIsNextTerm` | src/bwu/manager.rs:798-809 | Doubling, or adding the first delay once more, and capping leads from one term of the formula to the next. |
| `Backoff.DefaultDelays` | src/bwu/manager.rs:120-141 | With the delays left open, retries come after 3 seconds, doubling up to 192 and then every 300; without exponential backoff after 5 and then every 10. |
| `Backoff.DelayGrows` | src/bwu/manager.rs:798-809 | If the first delay does not exceed the maximum, delays never shrink and never exceed it. |
| `LanProtection.LanIsProtected` | src/bwu/manager.rs:202-207 | In every run, nested re-initiations included, the hotspot handler is asked neither to initialize nor to create a channel while a registered channel is WIFI_LAN. |
| `LayersRun.LayersAlwaysAgree` | src/bwu/manager.rs:893-929 | In every run over channels with service ids, the services with a listener are those some endpoint holds, and the hotspot has one SoftAP running for each of them and none for any other. |
| `Layers.LayersAgree` | src/bwu/wifi_hotspot.rs:106-166 | The same for any sequence of calls on one handler. |
| `Layers.ReferenceCount` | src/bwu/handler.rs:126-182 | Over any sequence of calls no stored set is empty, every key is empty or marked, and the reverts passed on plus the one still owed equal the times the service was picked up. |
| `Layers.ResponderRevert` | src/bwu/handler.rs:184-187 | A responder's revert leaves the layers in step exactly if it does not concern the empty service id while that is held; with a proper id it tears nothing down. |
| `Layers.DropStopsAll` | src/bwu/wifi_hotspot.rs:96-103 | Once the hotspot handler is dropped, every SoftAP that started has stopped. |
| `ServiceIds.WrapIdempotent` | src/bwu/service_id.rs:21-26 | Wrapping a wrapped id changes nothing. |
| `ServiceIds.WrapAppends` | src/bwu/service_id.rs:11-26 | Initiators' ids are those ending in `_UPGRADE`, and wrapping appends that to every other proper id. |
| `ServiceIds.UnwrapWrap` | src/bwu/service_id.rs:29-37 | Unwrapping undoes wrapping exactly on ids without the postfix. |
| `ServiceIds.WrapUnwrap` | src/bwu/service_id.rs:29-37 | Wrapping undoes unwrapping exactly on the empty id and on ids wrapped once around a proper one. |
| `ServiceIds.WrapCollision` | src/bwu/service_id.rs:15-26 | Two ids share a key only if they are equal or one is the other's wrapped name. |
| `Timers.TimersAgree` | src/bwu/actor.rs:393-424 | At every loop head of every run the armed endpoints are those with a pending retry, and, if the first delay does not exceed the maximum, no deadline is later than the time the pending delay was first reconciled plus that delay. |
| `Timers.InTimeIffFirstDelayCapped` | src/bwu/actor.rs:393-424 | That bound holds in all runs if and only if the first delay does not exceed the maximum; otherwise two failures of a connected endpoint without mediums break it. |
| `Timers.BatchFindsAlarms` | src/bwu/actor.rs:525-538 | Every retry fired in a batch is still pending when its turn comes. |
| `Timers.NoSpin` | src/bwu/actor.rs:525-552 | After a batch no deadline is at or before the time it was taken for. |
| `Timers.CallRetries` | src/bwu/manager.rs:787-843 | No call, however far its failover goes, leaves a pending retry with a shorter delay than it had, or with none on record. |
| `Punctual.FiresExactlyTheDue` | src/bwu/actor.rs:525-538 | A turn of the timer fires the retries of those endpoints whose deadline has come, each once, and no other. |
| `Punctual.LaterStays` | src/bwu/actor.rs:525-552 | Who is armed for later keeps the pending retry, its delay and the deadline. |
| `Punctual.TurnArms` | src/bwu/actor.rs:540-552 | After any turn exactly the pending retries are armed, those armed before and not fired at their old deadline, the others for the end of the turn plus their delay. |
| `Punctual.NeverEarly` | src/bwu/actor.rs:525-552 | In every run, when a retry is fired at least the delay it had when it was first seen pending has passed since then, and it was armed for that deadline all the time. |
| `ConcurrentFraming.WireIsFrames` | src/bwu/stream_channel.rs:181-216 | For any interleaving of writers, readers, pauses and closes, the bytes ever appended are whole frames, one per write, in the order in which their writers got the lock, then at most one header without its payload; if the write of that header has returned, the stream is closed. |
| `ConcurrentFraming.ClosedForGood` | src/bwu/stream_channel.rs:336-355 | A closed stream stays closed, with not a byte added. |
| `ConcurrentFraming.SuccessMeansSent` | src/bwu/stream_channel.rs:181-216 | A write returns success only if the frame of its encoded data went out whole, and, unless that payload is empty, whenever it did. |
| `ConcurrentFraming.EmptyWriteFails` | src/bwu/stream_channel.rs:207-212 | The exception is real: an empty write can fail with its frame on the wire. |
| `ConcurrentFraming.ReadsFollowFrames` | src/bwu/stream_channel.rs:141-153 | The k-th successful raw read returns the payload of the k-th frame. |
| `ConcurrentFraming.PausedHoldsBack` | src/bwu/stream_channel.rs:184-189 | While the channel stays paused, a write that has not passed the gate does not pass it and has no byte on the wire. |
| `ConcurrentFraming.ReadsFailAtTheEnd` | src/bwu/stream_channel.rs:141-153 | A raw read fails only at the end of a closed stream all of which was taken; it never meets a bad length. |
| `Framing.AnyStream` | src/bwu/stream_channel.rs:141-179 | Whoever wrote the bytes, a reader finds frames in them until what is left begins with none, and of each returns what may be returned: under a cipher no frame gets through that neither decrypts to a message nor is a keep-alive. |
| `Framing.RawMeans` | src/bwu/stream_channel.rs:141-153 | A frame is read exactly if the bytes begin with it; a negative length is an I/O error, anything else too short. |
| `Framing.ToWireMeans` | src/bwu/stream_channel.rs:191-206 | What goes on the wire is the data, or what the cipher makes of it, unless it refuses or the frame is too long. |
| `Framing.LengthsOrderAsBytes` | src/bwu/stream_channel.rs:206-207 | The four bytes of a length order as the lengths do: the most significant comes first. |
| `Framing.CutStream` | src/bwu/stream_channel.rs:141-165 | Cut anywhere and closed, a stream of messages is read as exactly those whose frames are whole, and then as ended; also under a cipher whose decoding inverts its encoding, for non-empty messages. |
| `Framing.RoundTrip` | src/bwu/stream_channel.rs:141-216 | Uncut, every message comes back. |
| `Framing.FromToWire` | src/bwu/stream_channel.rs:155-165 | A message survives the trip exactly if it is non-empty or travels in the clear. |
| `Framing.DecodeEncodeLength` | src/bwu/stream_channel.rs:145-146 | Reading the four bytes of a length gives it back. |
| `Framing.EncodeDecodeLength` | src/bwu/stream_channel.rs:206-207 | Four bytes are the bytes of a length exactly if their first bit is off. |
| `Streams.Pipe.ReadExact` | src/bwu/stream_channel.rs:311-334 | What was taken followed by what is left is what there was; the call is full, at the end, or waiting with the stream drained. |
| `Streams.Pipe.WriteAll` | src/bwu/stream_channel.rs:336-344 | All bytes are appended unless the stream is closed. |
| `Streams.StreamChannel.ReadRawFrame` | src/bwu/stream_channel.rs:141-153 | The frame at the front of what the read had taken and the stream holds is taken, or the error the specification names; on an open stream that is too short the call waits with all it has taken, and goes on from there. |
| `Streams.StreamChannel.Read` | src/bwu/stream_channel.rs:141-179 | The same, and of the frame it returns the plaintext, unless that is empty; of frames that do not decrypt only a keep-alive, as it came; with the two error cases told apart. |
| `Streams.StreamChannel.Write` | src/bwu/stream_channel.rs:181-216 | Seen by one thread, the whole frame goes out or nothing does; a paused channel holds the call up. |
| `Streams.StreamChannel.DoClose` | src/bwu/stream_channel.rs:122-137 | Both flags are set and the first close lifts a pause; a second close changes nothing. |
| `Streams.StreamChannel.TryDecrypt` | src/bwu/stream_channel.rs:115-120 | The three results. |
| `Manager.BwuManager.constructor` | src/bwu/manager.rs:120-153 | A clean state, with zero delays resolved to the defaults of the backoff kind. |
| `Manager.BwuManager.InitiateBwuForEndpoint` | src/bwu/manager.rs:194-256 | The state after it is that after the last of its rounds. |
| `Manager.BwuManager.PrepareUpgrade` | src/bwu/manager.rs:202-231 | Goes on exactly if nothing bars the attempt, and leaves what each guard leaves. |
| `Manager.BwuManager.OfferUpgrade` | src/bwu/manager.rs:233-253 | Brings the medium up and writes the offer as specified; it waits exactly if the medium comes up and the registered channel is paused. |
| `Manager.BwuManager.ResetUpgradeForEndpoint` | src/bwu/manager.rs:271-273 | Only the in-progress mark goes. |
| `Manager.BwuManager.OnBwuNegotiationFrame` | src/bwu/manager.rs:299-347 | Dispatch, with the gate for endpoints that are not connected. |
| `Manager.BwuManager.ProcessBwuPathAvailableEvent` | src/bwu/manager.rs:352-416 | The responder's answer to an offer. |
| `Manager.BwuManager.CloseEverything` | src/bwu/manager.rs:373-388 | The answer to a second offer. |
| `Manager.BwuManager.ProcessBwuPathAvailableEventInternal` | src/bwu/manager.rs:418-474 | Dial, introduce, and wait for the acknowledgement if it was promised. |
| `Manager.BwuManager.OnIncomingConnection` | src/bwu/manager.rs:490-526 | The initiator's answer to a socket. |
| `Manager.BwuManager.TargetOf` | src/bwu/manager.rs:514-520 | The endpoint named, or else the only one upgrading. |
| `Manager.BwuManager.RunUpgradeProtocol` | src/bwu/manager.rs:530-572 | The swap; it waits exactly if the displaced channel is paused, or is the new one. |
| `Manager.BwuManager.ProcessLastWriteToPriorChannelEvent` | src/bwu/manager.rs:574-594 | SAFE_TO_CLOSE on the parked channel, or the latch; it waits exactly if the parked channel is paused. |
| `Manager.BwuManager.ProcessSafeToClosePriorChannelEvent` | src/bwu/manager.rs:596-626 | Goodbye, drain, close, resume, report of the new medium (`Effects.SafeToCloseEnds`); the goodbye waits exactly if the parked channel is paused. |
| `Manager.BwuManager.RunUpgradeFailedProtocol` | src/bwu/manager.rs:632-658 | Tell the peer what it offered and revert, or close if that fails (`Effects.OffersAreAnswered`); it waits exactly if the registered channel is paused. |
| `Manager.BwuManager.ProcessUpgradeFailureEvent` | src/bwu/manager.rs:663-705 | Revert and try what follows in the list; its state is that after the last of its rounds. |
| `Manager.BwuManager.DropTried` | src/bwu/manager.rs:692-704 | Exactly what follows the first copy of the failed medium is left to try. |
| `Manager.BwuManager.PickNextMedium` | src/bwu/manager.rs:712-747 | The medium to go on with, or the retry or the end instead. |
| `Manager.BwuManager.ChooseBestUpgradeMedium` | src/bwu/manager.rs:753-780 | With a medium on record that one, if listed and usable, else none; with none on record the first usable one listed, and none exactly if no listed medium is usable. |
| `Manager.BwuManager.StripOutUnavailableMediums` | src/bwu/manager.rs:774-780 | The usable mediums of the list in list order: a medium is kept exactly if it is listed and has a handler. |
| `Manager.BwuManager.RetryUpgradesAfterDelay` | src/bwu/manager.rs:787-793 | The retry and its delay are recorded. |
| `Manager.BwuManager.FireRetryAlarm` | src/bwu/manager.rs:832-843 | A cancelled alarm does nothing, a pending one is consumed and, if the endpoint is connected, starts over (`Effects.RetryNeedsConnection`). |
| `Manager.BwuManager.OnEndpointDisconnect` | src/bwu/manager.rs:864-891 | Everything about the endpoint is forgotten and its medium reverted (`Effects.DisconnectForgets`). |
| `Manager.BwuManager.RevertBwuMediumForEndpoint` | src/bwu/manager.rs:893-929 | Coarse, as initiator or as responder. |
| `Manager.BwuManager.ShutDownManager` | src/bwu/manager.rs:931-939 | Every handler is reverted, whatever the order of the map, and tracks nothing; nothing is in progress, parked, latched or pending; the recorded mediums stay. |
| `Frames.ShutDownClears` | src/bwu/manager.rs:931-939 | The same of the specification: each handler loses exactly the listeners of the services it tracked, and registry, client and recorded mediums are untouched. |
| `HandlerObjects.BaseBwuHandler.InitializeUpgradedMediumForEndpoint` | src/bwu/handler.rs:127-146 | The endpoint is tracked under the wrapped id exactly if the medium came up. |
| `HandlerObjects.BaseBwuHandler.RevertInitiatorState` | src/bwu/handler.rs:148-159 | Every tracked service is torn down, whatever the order of the map, and nothing is tracked; a listener of no tracked service stays. |
| `HandlerObjects.BaseBwuHandler.RevertInitiatorStateForEndpoint` | src/bwu/handler.rs:161-182 | Only the last endpoint of a service tears it down. |
| `HandlerObjects.BaseBwuHandler.RevertResponderState` | src/bwu/handler.rs:184-187 | Passed on as it is. |
| `HandlerObjects.WifiLanBwuHandler.HandleInitializeUpgradedMediumForEndpoint` | src/bwu/wifi_lan.rs:78-112 | A standing listener is reused with its address; otherwise one is started, or the call fails. |
| `HandlerObjects.WifiLanBwuHandler.Drop` | src/bwu/wifi_lan.rs:68-75 | No listener is left. |
| `HandlerObjects.WifiHotspotBwuHandler.HandleInitializeUpgradedMediumForEndpoint` | src/bwu/wifi_hotspot.rs:106-159 | The same with a SoftAP, which is stopped again if the listener does not start. |
| `HandlerObjects.WifiHotspotBwuHandler.HandleRevertInitiatorStateForService` | src/bwu/wifi_hotspot.rs:161-166 | Listener and SoftAP go together. |
| `HandlerObjects.WifiHotspotBwuHandler.Drop` | src/bwu/wifi_hotspot.rs:96-103 | No listener is left. |
| `ActorObject.BwuActor.Handle` | src/bwu/actor.rs:426-523 | Every command is the operation it names. |
| `ActorObject.BwuActor.FireDueRetries` | src/bwu/actor.rs:525-538 | Exactly the retries whose deadline has come are fired, one after the other (`Punctual.FiresExactlyTheDue`); who is armed for later stays armed for then, and the other pending retries are armed anew. |
| `ActorObject.BwuActor.ReconcileTimers` | src/bwu/actor.rs:544-552 | Newly pending retries are armed, others disarmed, standing deadlines kept. |

## Left out

- Protobuf encoding: frames are a datatype, and a frame that cannot be decoded appears only as the errors it leads to.
- `src/validator.rs`, medium enum conversions (except that BLE_L2CAP turns into the unknown medium in failure reports), channel names and types, disconnection analytics.
- Sockets, accept threads, the SoftAP itself and the credentials: an operation works or not, as the environment decides, and new channels are fresh. Dialling is one operation with one outcome.
- Tokio channels, replies and `BwuHandle`: commands are a sequence of operations and time is given with each turn; the loop of `run` is the relation `Timers.Takes`, its two arms are methods.
- Hash-map iteration orders are part of the environment; local endpoint ids and the encryption flag of a swap are dropped, since nothing here depends on them.
- The mode with one medium for all endpoints is modelled in every branch. What it does to other endpoints' holdings, to undo and to the search is stated with the exact condition in each place; while several channels share the medium a failure leads nowhere, and no walk is stated for it.
- FailoverSearch.FailureIsSearch: over lists on which a medium comes back, a failover need not return (`Failover.ReturnsIffNoReturn`), and a medium may be attempted twice with different luck; no walk is stated there.
- `Duration` is an unbounded number of milliseconds; its overflow is not modelled.
- Manager.BwuManager.OfferUpgrade: the handlers inside the manager are values of the functions that the classes of `HandlerObjects.dfy` compute, not those objects; the manager owns them alone, so nothing else could see the difference.
- A write that waits on a paused channel is logged when it goes on. The set of paused channels does not note that closing a channel lifts its pause, nor a resume by somebody other than the manager, which matters only after a call was held up (`HeldUp.RunWaits`). In the round, control messages go only to the old channel, which is never paused.
- TwoManagers.RunIsRound: the calls a manager makes about its endpoint during a round are those of the round: the upgrade started, the offer taken up or declined, the socket, LAST_WRITE and SAFE_TO_CLOSE; any other call must leave what the round shows as it is. A responder that cannot be told of a failure ends the run.
- HandshakeSafety.SwapKeepsOrder: one round, without a second offer or socket, reset, reported failure or disconnect in between; a dial or introduction that fails ends the round for that side, and so does the close of the old channel when the peer cannot be told (`HandshakeDispatch.MeetFollows`). The old channel has one reader at a time: while a manager is in its drain read, nobody else reads there. An application's send is atomic with respect to the swap. A failed write puts nothing on the channel, as `ConcurrentFraming.SuccessMeansSent` shows for non-empty frames.
- Parking.ParkedApart: orderly runs only, in which new channels are new and no channel is registered for an endpoint whose displaced channel is still parked; the registry would otherwise be changed behind the manager's back.
- `Streams.StreamChannel` is the channel as one thread sees it: waiting is a result. The interleavings are those of `ConcurrentFraming.dfy`, whose readers stop before decryption.
- Keep-alive frames let through undecrypted are whatever the given parser calls so.

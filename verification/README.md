# Verified models of OpenLess

This project models the parts of OpenLess whose correctness depends on the order of events or on tricky data,
and proves properties of them for all inputs, all runs and all interleavings. `dafny verify dfyconfig.toml`
checks everything.

## How it is built

Each protocol is a state with pure step functions, one step for what a method does between two suspension
points, and a run is any sequence of events that the surroundings may produce: answers in any order, failing
calls, stale timers, cancelled tasks. Beside it stands a class with the source's fields, whose methods are
proved to do exactly the step (`View() == Step(old(View()), ...)`) and to keep the invariant; the theorems are
about runs of the steps. What each step does is stated a second time, over the fields and the answers alone and
without the step's own helpers, as if-and-only-ifs (AccountEffects, AccountSends, ControlOutcomes, AudioGrants,
PipRecovery, RecordingDelivery, `RimeSessions.RequestServedIff`).

UUIDs are fresh numbers, the clock never runs backwards, and everything the system or
a library answers is an arbitrary parameter. Each algorithm is a method with the source's loops, proved against
a specification function, and the promises are proved of that function.

| part | files |
|---|---|
| GitHub device flow | AccountAnswers, AccountFlow, AccountSafety, AccountTheorems, AccountPacing, AccountSlowDown, AccountSignOut, AccountExpiry, AccountEpochs, AccountEffects, AccountSends, AccountSettings |
| control queue to Core | ControlQueue, ControlSafety, ControlOutcomes, CoreBridge |
| audio ownership | AudioOwnership, AudioSafety, AudioGrants, NoJumpAudioSession |
| picture-in-picture start, composed with audio | PipStart, PipSafety, PipRecovery, ExperimentalPiPKeepAlive |
| recording sessions | RecordingSession, RecordingSafety, RecordingDelivery, AppController |
| Rime input sessions and JSON printing | JsonText, RimeSessions, RimeEngine |
| text pager | TextPager |
| PDB and PE identities | SymbolPair, PeImage, PeLayout, PairValidation |
| Chinese continuations | Ranking, Predictions |
| dependency walk | DependencyWalk |
| bounded file copy | StyleArchiveImport |

## Where the code does not keep a promise

- A tick that drains an intent, is suspended, and finds its connection replaced goes on with the new connection's
  flow and may poll for an expired code (`AccountExpiry.ReconnectMayPollLate`). `PollsLateIff` and
  `RunPollsLateIff` say exactly when; without a reconnect it never happens (`NoPollAfterExpiry`).
- The comment at ExperimentalPiPKeepAlive.swift:49 promises one settlement for each successful prepare. There is
  never more than one, but a turn of the start sequence may return with its handle still set
  (`PipSafety.HandleIsStrandedIff`), and then only an outside event settles (`StrandedStays`, `StrandedRun`).
  `OwnTimersSettleIff` says exactly when the client's own turns and timeout settle everything.
- Rime's revision is an `unsigned long` that wraps: a stale request is accepted after a whole round of the
  counter, and only then (`RimeSessions.RevisionGuardIff`). A session created under an id whose entry was never
  erased inherits its text, revision and mode (`CreateIsFreshIff`). After a report that failed for want of a
  context, an `ack` may remove text that was never shown (`AckAfterFailedReport`), until the next good report
  and exactly if the session has gained text since the last one (`AckRemovesShownIff`).
- AppController.swift:1032 binds the active session to the Core session of any start request that runs, so a
  start request left in the queue by a cancelled session binds the next one to the old Core session; a text
  that one still brings goes to the new input field (`RecordingSafety.CancelledTextMayLeave`). `BindingBreaksIff` and
  `TextStraysIff` say exactly when; otherwise texts keep to their session (`TextsLeaveUnderTheirSession`).
- `StyleTextBudget.page` makes no progress at a scalar outside the basic plane when the limit is 1
  (`TextPager.StuckIff`); the limits in use are far larger.

## Model

| member | source | states |
|---|---|---|
| AccountSafety.StepKeepsInv | openless-all/ios/App/AccountSettings.swift:60-211 | every event, between any two awaits, keeps: at most one call of the current connection is suspended, `operation` names exactly that call, and a suspended poll or cancel still owns the flow it captured |
| AccountTheorems.SingleFlight | openless-all/ios/App/AccountSettings.swift:60-99 | on every run at most one request of the current connection is outstanding, `operation` is set exactly while it is, and it is the operation of that request, whose flow has been neither cleared nor replaced |
| AccountTheorems.FlowHasOneOrigin | openless-all/ios/App/AccountSettings.swift:107-157 | only the answer to the current connection's own sign-in request creates a flow; every other step keeps the flow's identity, code and expiry or ends it, and never shortens its interval |
| AccountEpochs.NonInterference | openless-all/ios/App/AccountSettings.swift:82-99 | two runs from a replacement on, whose environments differ only in what calls of replaced connections are answered, agree on every field of the object and on every call of the new connection |
| AccountEpochs.ReplacementForgets | openless-all/ios/App/AccountSettings.swift:60-65 | after a replacement any two histories with the same surroundings and the same calls under way are indistinguishable |
| AccountPacing.EveryRunIsPaced | openless-all/ios/App/AccountSettings.swift:107-163 | section 3.5 of RFC 8628 on every run: a poll is sent no earlier than the flow's birth, the previous poll's answer and the last explicit retry plus the interval it asks for, and that interval never decreases within a flow |
| AccountSlowDown.SlowDownIsObeyed | openless-all/ios/App/AccountSettings.swift:132-139 | after `slow_down`, every later poll of the flow asks for at least five seconds more than the answered poll did, capped at 3600, and is sent at least that long after the answer |
| AccountPacing.StepKeepsPace | openless-all/ios/App/AccountSettings.swift:107-163 | every single event keeps the pacing of the wire log and of the stored next poll time |
| AccountSignOut.ConfirmedSignOutGoesFirst | openless-all/ios/App/AccountSettings.swift:170-192 | after a sign-out is confirmed, the first request sent on that connection is the sign-out, ahead of any pending cancel, poll, load or start |
| AccountSignOut.SuccessfulSignOutIsFinal | openless-all/ios/App/AccountSettings.swift:180-192 | after a successful sign-out and any run that follows it, new requests, new answers and reconnects included, a late answer to a request sent before it, whatever it says, changes nothing that is shown |
| AccountSignOut.OnlyNewRequestsChangeStatus | openless-all/ios/App/AccountSettings.swift:180-192 | on every run from a successful sign-out the status stays signed out, or unknown after a reconnect, unless a request sent after it has been answered |
| AccountExpiry.NoPollAfterExpiry | openless-all/ios/App/AccountSettings.swift:71-78 | in runs without a reconnect no poll is sent at or after its code's expiry, even by a tick that suspends while it drains an intent |
| AccountExpiry.PollsLateIff | openless-all/ios/App/AccountSettings.swift:124-130 | a step sends a poll at or after its code's expiry exactly when it ends a tick that was suspended on a connection replaced since, and the new connection is visible, not blocked, its polling not failed, and its flow due and expired |
| AccountExpiry.RunPollsLateIff | openless-all/ios/App/AccountSettings.swift:124-130 | every poll of a run is in time exactly when no step of it is of that kind |
| AccountExpiry.ReconnectMayPollLate | openless-all/ios/App/AccountSettings.swift:124-130 | a concrete run in which such a tick does poll for an expired code |
| AccountEffects.SettledStatus | openless-all/ios/App/AccountSettings.swift:82-211 | whatever any call of the current connection is answered, the status afterwards is exactly the one the answer carries: the decoded status for a load, the nested verified state for a `signed_in` poll, the signed-out status for a confirmed sign-out, otherwise unchanged; a verified login, an expiry and a confirmed sign-out or cancel leave no flow and no code |
| AccountEffects.StatusIsLastCarried | openless-all/ios/App/AccountSettings.swift:60-211 | on every run the status shown is that of the last status-carrying answer to the connection of the moment, and none since a replacement without one |
| AccountEffects.SettledFlow | openless-all/ios/App/AccountSettings.swift:107-211 | the flow after any answer, from the answer's fields: the authorization's own flow, the captured flow with its interval and next poll time renewed, none at an end, otherwise unchanged; a code that comes after an intent is not shown |
| AccountEffects.SettledFailure | openless-all/ios/App/AccountSettings.swift:92-211 | every answer either does what its call was for or shows that call's failure, and polling is paused exactly after a failed poll, sign-out or cancel until a flow ends or begins |
| AccountSends.AsksSendIff | openless-all/ios/App/AccountSettings.swift:100-112 | a load and a sign-in are sent exactly when nothing is under way or asked for, the sign-in only without a flow, visible and in the foreground |
| AccountSends.TickSendsIff | openless-all/ios/App/AccountSettings.swift:124-130 | a tick sends a waiting sign-out, or a waiting cancel of the flow, or polls exactly when the poll is due, the code unexpired, the view visible in the foreground and polling not paused |
| AccountSends.IntentsSendIff | openless-all/ios/App/AccountSettings.swift:164-205 | a confirmed sign-out and an asked cancel go out at once exactly when nothing is under way |
| AccountSends.SettledSendsIff | openless-all/ios/App/AccountSettings.swift:95-99 | when a call of the current connection settles, exactly the intent that had to wait for it goes out, the sign-out before the cancel of the flow that is left |
| AccountSends.IntentRecordedIff | openless-all/ios/App/AccountSettings.swift:164-176 | an intent is recorded, and the code hidden, exactly when it may be |
| AccountSends.ExpiryIff | openless-all/ios/App/AccountSettings.swift:71-81 | ticks and visibility changes count the flow down to the second and end it exactly when its code has expired and no call or intent is under way |
| AccountSends.RetryResumesIff | openless-all/ios/App/AccountSettings.swift:158-163 | an explicit retry shows the code and resumes polling after the interval exactly when nothing is in the way |
| AccountClient.AccountSettings.ReplaceConnection | openless-all/ios/App/AccountSettings.swift:60-65 | the new state is the step's, and the invariant stays: leaves no trace of the old connection: no status, no flow, no intent, nothing under way |
| AccountClient.AccountSettings.SetActivityBusy | openless-all/ios/App/AccountSettings.swift:66 | the new state is the step's, and the invariant stays: one flag; the flow and the calls under way stay |
| AccountClient.AccountSettings.SetLifecycle | openless-all/ios/App/AccountSettings.swift:67-78 | the new state is the step's, and the invariant stays: both flags; sends nothing and at most ends the flow |
| AccountClient.AccountSettings.Load | openless-all/ios/App/AccountSettings.swift:100-106 | the new state is the step's, and the invariant stays: may send only the status request, only when nothing was under way, and changes neither flow nor status |
| AccountClient.AccountSettings.BeginSignIn | openless-all/ios/App/AccountSettings.swift:107-122 | the new state is the step's, and the invariant stays: may send only the sign-in request, only when nothing was under way and there was no flow |
| AccountClient.AccountSettings.Tick | openless-all/ios/App/AccountSettings.swift:124-131 | the new state is the step's, and the invariant stays: leaves the status alone and at most ends the flow |
| AccountClient.AccountSettings.RetryPolling | openless-all/ios/App/AccountSettings.swift:158-163 | the new state is the step's, and the invariant stays: keeps the flow and never moves its next poll forward |
| AccountClient.AccountSettings.CancelSignIn | openless-all/ios/App/AccountSettings.swift:164-169 | the new state is the step's, and the invariant stays: a fresh intent hides the code at once |
| AccountClient.AccountSettings.ConfirmSignOut | openless-all/ios/App/AccountSettings.swift:171-176 | the new state is the step's, and the invariant stays: the intent is recorded whenever the connection is ready |
| AccountClient.AccountSettings.Settle | openless-all/ios/App/AccountSettings.swift:82-211 | the new state is the step's, and the invariant stays: an answer to a replaced connection changes neither status, flow nor code; an answer to the current one leaves exactly the status it carries |
| ControlSafety.EveryControlIsServedOnce | openless-all/ios/App/CoreBridge.swift:156-207 | on every run, whatever sends fail and whatever late, duplicate or stray answers and timeouts come: each accepted control is resumed exactly once unless it still waits, a mutation notifies exactly once and before its resume, sending follows acceptance order one at a time, at most 32 wait, an open bridge with a queue is never idle, a closed one keeps nobody waiting |
| ControlSafety.StepKeepsSettled | openless-all/ios/App/CoreBridge.swift:156-238 | every event keeps that invariant; the mutual recursion of completing and sending ends even when every send fails |
| ControlSafety.TimeoutsServeEveryone | openless-all/ios/App/CoreBridge.swift:177-186 | no control starves: on an open bridge the timeouts of the controls in flight alone serve everyone in line |
| ControlOutcomes.OutcomesAreHonest | openless-all/ios/App/CoreBridge.swift:156-184 | on every run a control is resumed as answered only with an answer received for it, as timed out only when its own timeout fired, as cancelled only by a close, as unavailable only when Core refused it |
| ControlOutcomes.FirstDecides | openless-all/ios/App/CoreBridge.swift:156-184 | the first answer, timeout or close that finds a control waiting decides: it is resumed once, with that outcome, whatever comes before and after |
| ControlOutcomes.StepResumes | openless-all/ios/App/CoreBridge.swift:168-186 | everyone an event resumes was waiting or has just been accepted, and gets the outcome the event decides, or was refused by Core when its turn came |
| ControlOutcomes.AcceptedIff | openless-all/ios/App/CoreBridge.swift:187-207 | a control is accepted exactly while the bridge is open and fewer than 32 wait, and as a mutation exactly if asked for as one |
| CoreBridgeClass.CoreBridge.Receive | openless-all/ios/App/CoreBridge.swift:156-176 | the new state is the step's, and the invariant stays: a waiting control is resumed once, with the very answer, however many sends of its successors fail |
| CoreBridgeClass.CoreBridge.FireTimeout | openless-all/ios/App/CoreBridge.swift:177-184 | the new state is the step's, and the invariant stays: a waiting control whose timeout has fired is resumed once, as timed out |
| CoreBridgeClass.CoreBridge.Control | openless-all/ios/App/CoreBridge.swift:187-207 | the new state is the step's, and the invariant stays: the next number, or none when closed or when 32 wait |
| CoreBridgeClass.CoreBridge.Close | openless-all/ios/App/CoreBridge.swift:229-238 | the new state is the step's, and the invariant stays: whatever the order of cancelling, the bridge is closed and everyone who waited is resumed once, as cancelled |
| AudioSafety.OwnershipIsHonest | openless-all/ios/App/NoJumpAudioSession.swift:86-193 | on every run with arbitrary driver failures and system events: a session that may be active is owned, capture and playback tokens are never both live, and an owned session with no token and no picture-in-picture start is one whose last driver call was a failed release |
| AudioSafety.StepKeepsInv | openless-all/ios/App/NoJumpAudioSession.swift:57-214 | every method and every event keeps these rules and those of the delayed release |
| AudioSafety.HandleEventKeepsInv | openless-all/ios/App/NoJumpAudioSession.swift:254-299 | a system event keeps the rules even when the interruption callback releases the capture inside the handler |
| AudioSafety.SupersededWakesInVain | openless-all/ios/App/NoJumpAudioSession.swift:200-214 | a superseded retry task only returns: no driver call, and the newer task's handle stays |
| AudioSafety.SupersededForever | openless-all/ios/App/NoJumpAudioSession.swift:195-214 | once superseded, a retry task makes no driver call in any continuation |
| AudioSafety.RetryReleasesOnlyIdle | openless-all/ios/App/NoJumpAudioSession.swift:206-211 | a retry releases only as the current task, and only an owned session with no capture, playback or picture-in-picture start |
| AudioSafety.NewUseSupersedesRetries | openless-all/ios/App/NoJumpAudioSession.swift:90-167 | every new capture, playback or picture-in-picture start supersedes every retry task there is |
| AudioSafety.AtMostThreeAttempts | openless-all/ios/App/NoJumpAudioSession.swift:205-212 | no retry task of any run releases more than three times |
| AudioGrants.CaptureGrantedIff | openless-all/ios/App/NoJumpAudioSession.swift:119-144 | over the fields: a capture is granted exactly with permission, while nothing records or plays, the system allows it and the driver can be configured, in the foreground, to the system, or to a keyboard that names the generation in force on an unlocked device with background voice and no idle session to give back; the token is new; a refused request changes nothing |
| AudioGrants.GenerationLapsesForGood | openless-all/ios/App/NoJumpAudioSession.swift:68-77 | on every run, once a generation has been deactivated no request of a keyboard that names it changes anything, whatever is activated later |
| AudioGrants.TokenReturnsForGood | openless-all/ios/App/NoJumpAudioSession.swift:146-153 | on every run a capture's token is honoured once |
| AudioGrants.PlaybackGrantedIff | openless-all/ios/App/NoJumpAudioSession.swift:155-171 | a playback is granted exactly while nothing records or plays, the system allows it and the driver can be configured |
| AudioGrants.ActivatedIff | openless-all/ios/App/NoJumpAudioSession.swift:57-66 | activation takes effect exactly under its guard, with a new generation |
| AudioGrants.PreparedIff | openless-all/ios/App/NoJumpAudioSession.swift:86-101 | a picture-in-picture start gets the session exactly under its guard when the driver can be prepared, and needs nothing under a capture or playback |
| AudioGrants.NotificationsHandled | openless-all/ios/App/NoJumpAudioSession.swift:254-299 | each notification sets its own flag and no other, ends a start and offers the capture for release exactly when it takes the device, the route or the session away, and never ends a playback or the activation |
| AudioGrants.FlagsAreLastReported | openless-all/ios/App/NoJumpAudioSession.swift:254-284 | on every run the device counts as locked, the system as interrupted and the media services as gone exactly when the last report about each said so |
| AudioGrants.RetryCallsIff | openless-all/ios/App/NoJumpAudioSession.swift:204-213 | a waking retry calls the driver exactly as the current one, undisturbed, over an owned session that nobody uses |
| AudioGrants.FailedReleaseIsRetried | openless-all/ios/App/NoJumpAudioSession.swift:180-203 | a failed release leaves a retry under way with attempts left |
| NoJumpAudioSessionClass.NoJumpAudioSession.Activate | openless-all/ios/App/NoJumpAudioSession.swift:57-66 | the new state is the step's, and the invariant stays: touches no token and no ownership |
| NoJumpAudioSessionClass.NoJumpAudioSession.Deactivate | openless-all/ios/App/NoJumpAudioSession.swift:72-77 | the new state is the step's, and the invariant stays: no activation and no start remains |
| NoJumpAudioSessionClass.NoJumpAudioSession.PreparePiPStart | openless-all/ios/App/NoJumpAudioSession.swift:86-101 | the new state is the step's, and the invariant stays: a success without a capture or playback leaves an owned session with a start under way |
| NoJumpAudioSessionClass.NoJumpAudioSession.SettlePiPStart | openless-all/ios/App/NoJumpAudioSession.swift:103-107 | the new state is the step's, and the invariant stays: no start remains |
| NoJumpAudioSessionClass.NoJumpAudioSession.ForegroundChanged | openless-all/ios/App/NoJumpAudioSession.swift:114-117 | the new state is the step's, and the invariant stays: touches no token and no start |
| NoJumpAudioSessionClass.NoJumpAudioSession.AcquireCapture | openless-all/ios/App/NoJumpAudioSession.swift:119-144 | the new state is the step's, and the invariant stays: a token is returned exactly to who is entitled, as the field-level condition says, and then it is the one held, the session is owned and nothing plays |
| NoJumpAudioSessionClass.NoJumpAudioSession.ReleaseCapture | openless-all/ios/App/NoJumpAudioSession.swift:146-153 | the new state is the step's, and the invariant stays: the given token is not held afterwards, and playback is untouched |
| NoJumpAudioSessionClass.NoJumpAudioSession.AcquirePlayback | openless-all/ios/App/NoJumpAudioSession.swift:155-171 | the new state is the step's, and the invariant stays: a token is returned exactly when it is new, and then it is the one held, the session is owned and nothing records |
| NoJumpAudioSessionClass.NoJumpAudioSession.ReleasePlayback | openless-all/ios/App/NoJumpAudioSession.swift:173-178 | the new state is the step's, and the invariant stays: the given token is not held afterwards, and capture is untouched |
| NoJumpAudioSessionClass.NoJumpAudioSession.RetryTaskWoke | openless-all/ios/App/NoJumpAudioSession.swift:204-213 | the new state is the step's, and the invariant stays: a retry touches no token and no start |
| NoJumpAudioSessionClass.NoJumpAudioSession.HandleEvent | openless-all/ios/App/NoJumpAudioSession.swift:254-299 | the new state is the step's, and the invariant stays: whether or not the interruption callback releases the capture inside the handler, the flags, the tokens and the start are as the notification says |
| PipSafety.PreparesAreSettled | openless-all/ios/App/ExperimentalPiPKeepAlive.swift:210-237 | over every run of both machines, successful preparations minus settlements is 1 exactly while `audioPrepared` and 0 otherwise; the audio owner's start flag implies `audioPrepared`, which implies a start under way with a controller |
| PipSafety.QuietMeansReleased | openless-all/ios/App/AppController.swift:192-200 | both machines together: owned, no token and no start under way implies that the last driver call was a failed release |
| PipSafety.StepKeepsInv | openless-all/ios/App/ExperimentalPiPKeepAlive.swift:100-345 | every event of either machine, in any order, keeps the composed invariant |
| PipSafety.StoppingSettles | openless-all/ios/App/ExperimentalPiPKeepAlive.swift:153-159 | switching off, or locking, settles whatever was prepared and leaves no start under way |
| PipSafety.StartsAreBounded | openless-all/ios/App/ExperimentalPiPKeepAlive.swift:225-234 | a start handed to the system always has a live timeout, and that timeout settles it |
| PipSafety.StaleEventsAreInert | openless-all/ios/App/ExperimentalPiPKeepAlive.swift:301-345 | callbacks of other controllers, turns of cancelled sequences and cancelled timeouts change nothing |
| PipSafety.SequencesEnd | openless-all/ios/App/ExperimentalPiPKeepAlive.swift:116-130 | each turn of a start sequence uses up one of at most twenty, or ends it |
| PipSafety.OwnTimersSettleIff | openless-all/ios/App/ExperimentalPiPKeepAlive.swift:110-132 | while a sequence or a start's timeout lives, the client's own turns and timeout, in any surroundings, settle everything prepared within the turns left and two, exactly when no turn on the way strands while something is prepared |
| PipSafety.HandleIsStrandedIff | openless-all/ios/App/ExperimentalPiPKeepAlive.swift:116-122 | a turn strands, that is it returns and leaves `retryTask` set, exactly when the device is locked, or when the controller is active afterwards and this attempt neither started nor failed to prepare |
| PipSafety.StrandedStays | openless-all/ios/App/ExperimentalPiPKeepAlive.swift:110-112 | a handle so left blocks every later start and keeps what was prepared, until a stop, a lock, a callback or a new attachment |
| PipSafety.StrandedRun | openless-all/ios/App/ExperimentalPiPKeepAlive.swift:116-122 | a concrete run that ends so, with the audio session prepared and nobody left to settle it |
| PipRecovery.VisitStartsIff | openless-all/ios/App/ExperimentalPiPKeepAlive.swift:136-151 | a visit to the foreground begins a new start exactly when nothing is shown or under way on an enabled, supported client and an unlocked device whose system makes a controller; a start under way goes on; a new visit allows one more recovery |
| PipRecovery.UnlockStartsIff | openless-all/ios/App/ExperimentalPiPKeepAlive.swift:252-273 | an unlock begins a new start under the same conditions, elsewhere than in the foreground only for what was lost, and uses up what was remembered |
| PipRecovery.LockedSessionComesBackIff | openless-all/ios/App/ExperimentalPiPKeepAlive.swift:252-273 | locked and unlocked again without a visit: the client starts again exactly for a start that was under way, or a session shown and not handed to the system anew, that is no longer shown |
| PipRecovery.StopRecoversIff | openless-all/ios/App/ExperimentalPiPKeepAlive.swift:331-349 | after the system has stopped the controller the client starts again exactly without an error, in the foreground, enabled and unlocked, and not yet in this visit |
| PipRecovery.RecoversOncePerVisit | openless-all/ios/App/ExperimentalPiPKeepAlive.swift:331-349 | on every run without a new visit the client recovers from a stop at most once |
| PipRecovery.TurnStartsIff | openless-all/ios/App/ExperimentalPiPKeepAlive.swift:116-130 | a turn of the current sequence hands the start to the system exactly when nothing is shown, the device is unlocked, the view attached, the audio prepared or granted and the system willing |
| PipRecovery.AskedStartsIff | openless-all/ios/App/ExperimentalPiPKeepAlive.swift:110-132 | asked to start, the client begins a sequence of twenty turns exactly under its guard |
| ExperimentalPiPKeepAliveClass.ExperimentalPiPKeepAlive.Arm | openless-all/ios/App/ExperimentalPiPKeepAlive.swift:100-108 | the new state, in both objects, is the step's, and the invariant stays: enabled, and nothing prepared by it |
| ExperimentalPiPKeepAliveClass.ExperimentalPiPKeepAlive.StartIfPossible | openless-all/ios/App/ExperimentalPiPKeepAlive.swift:110-132 | the new state, in both objects, is the step's, and the invariant stays: nothing prepared or started before the first turn |
| ExperimentalPiPKeepAliveClass.ExperimentalPiPKeepAlive.SourceAttached | openless-all/ios/App/ExperimentalPiPKeepAlive.swift:84-90 | the new state, in both objects, is the step's, and the invariant stays: nothing happens unless enabled |
| ExperimentalPiPKeepAliveClass.ExperimentalPiPKeepAlive.TurnCame | openless-all/ios/App/ExperimentalPiPKeepAlive.swift:116-130 | the new state, in both objects, is the step's, and the invariant stays: a turn of a cancelled sequence or an earlier generation prepares, starts and settles nothing |
| ExperimentalPiPKeepAliveClass.ExperimentalPiPKeepAlive.TimedOut | openless-all/ios/App/ExperimentalPiPKeepAlive.swift:227-233 | the new state, in both objects, is the step's, and the invariant stays: the timeout is used up |
| ExperimentalPiPKeepAliveClass.ExperimentalPiPKeepAlive.ForegroundChanged | openless-all/ios/App/ExperimentalPiPKeepAlive.swift:136-151 | the new state, in both objects, is the step's, and the invariant stays: begins a new start exactly as stated for a visit; prepares and settles nothing unless enabled |
| ExperimentalPiPKeepAliveClass.ExperimentalPiPKeepAlive.ProtectedDataWillLock | openless-all/ios/App/ExperimentalPiPKeepAlive.swift:252-260 | the new state, in both objects, is the step's, and the invariant stays: nothing prepared, no start and no sequence remains |
| ExperimentalPiPKeepAliveClass.ExperimentalPiPKeepAlive.ProtectedDataDidUnlock | openless-all/ios/App/ExperimentalPiPKeepAlive.swift:260-273 | the new state, in both objects, is the step's, and the invariant stays: begins a new start exactly as stated for an unlock |
| ExperimentalPiPKeepAliveClass.ExperimentalPiPKeepAlive.Stop | openless-all/ios/App/ExperimentalPiPKeepAlive.swift:153-159 | the new state, in both objects, is the step's, and the invariant stays: nothing enabled, no controller, nothing prepared, no task and no timeout remains |
| ExperimentalPiPKeepAliveClass.ExperimentalPiPKeepAlive.HandleStarted | openless-all/ios/App/ExperimentalPiPKeepAlive.swift:318-329 | the new state, in both objects, is the step's, and the invariant stays: a start confirmed by the live controller leaves nothing prepared and no sequence |
| ExperimentalPiPKeepAliveClass.ExperimentalPiPKeepAlive.HandleStopped | openless-all/ios/App/ExperimentalPiPKeepAlive.swift:331-349 | the new state, in both objects, is the step's, and the invariant stays: a callback of another controller changes nothing; the live one's begins a new start exactly as stated for a stop |
| RecordingSafety.StepKeepsInv | openless-all/ios/App/AppController.swift:534-725 | every command, Core event, native request and resumed task keeps: a session and a deferred start never coexist, a preview belongs to the session in progress, a waiting loop holds the command that is deferred |
| RecordingSafety.OneSessionAtATime | openless-all/ios/App/AppController.swift:534-668 | `active` and `deferredKeyboardCommand` are never both set on any run, and the preview on screen is the active session's |
| RecordingSafety.CancelTakesHold | openless-all/ios/App/AppController.swift:534-888 | each caller of cancel, fail and the dropping of a deferred start, under its own guard, takes hold of the session in progress, begun or deferred: it is deferred no longer, and not active uncancelled |
| RecordingSafety.CancelledSessionsStaySilent | openless-all/ios/App/AppController.swift:694-725 | after any event whatever by which a session in progress ceases to be deferred or active uncancelled, no text is handed over for it on any continuation of Core events, native requests, confirmations, space work and new starts |
| RecordingSafety.EndedSessionsStaySilent | openless-all/ios/App/AppController.swift:996-1018 | the same for a session that Core has ended |
| RecordingSafety.TextsGoWhereTheyWereAsked | openless-all/ios/App/AppController.swift:1113-1126 | every insertion goes to the input target its session was started with, and no session stores more than one confirmed preview |
| RecordingSafety.BindingBreaksIff | openless-all/ios/App/AppController.swift:1024-1045 | a session in progress stays bound to a Core session of its own exactly until a queued start request of another one's Core session runs |
| RecordingSafety.TextStraysIff | openless-all/ios/App/AppController.swift:1113-1126 | a step hands a text over under a session other than the one whose Core session brought it exactly when it honours an insertion request while the active session is so bound |
| RecordingSafety.TextsLeaveUnderTheirSession | openless-all/ios/App/AppController.swift:1024-1126 | on every run in which the Core announces sessions truthfully and no such start request runs, every text a Core session brings leaves under its own session |
| RecordingSafety.CancelledTextMayLeave | openless-all/ios/App/AppController.swift:1024-1045 | a run with a truthful Core in which the text of a cancelled Core session goes to the next session's input field |
| RecordingSession.InsertText | openless-all/ios/App/AppController.swift:1113-1126 | at most one text is handed over, for the live uncancelled session; nothing else of that session changes hands |
| RecordingSession.ConfirmPreview | openless-all/ios/App/AppController.swift:1410-1435 | a preview is handed over only if none was before, and afterwards the session is over or marked |
| RecordingSession.SpaceWorkCame | openless-all/ios/App/AppController.swift:1454-1490 | finished space work hands its text over only to its own uncancelled session and target |
| RecordingDelivery.ConfirmationDeliversIff | openless-all/ios/App/AppController.swift:1410-1435 | under the guard on the state a confirmation hands over exactly the preview's text to its field; stored, it is shown as the insertion, the preview is cleared and the session marked and kept; not stored, the session ends; otherwise nothing changes |
| RecordingDelivery.InsertionDeliversIff | openless-all/ios/App/AppController.swift:1113-1126 | an `insert` request hands its text over exactly under its guard, to the field the session was started for, and shows it while no receipt has come |
| RecordingDelivery.SpaceWorkDeliversIff | openless-all/ios/App/AppController.swift:1454-1490 | finished space work hands its text over exactly under its guard and marks the session; a failure cancels the work's session |
| RecordingDelivery.OffersAreDeliveries | openless-all/ios/App/AppController.swift:1024-1490 | on every run the texts handed over are exactly those the three guards call for, in order: none left out, doubled or sent elsewhere |
| RecordingDelivery.StartBeginsIff | openless-all/ios/App/AppController.swift:534-631 | a start opens a fresh session, or is deferred, exactly under the guards on the state |
| RecordingDelivery.LoopBeginsIff | openless-all/ios/App/AppController.swift:633-656 | a waiting loop waits, begins or drops the command exactly under the guards on the state |
| RecordingDelivery.StopStopsIff | openless-all/ios/App/AppController.swift:669-693 | stopping drops a deferred start, cancels a session whose release was never chosen or that has heard nothing, and sends any other to be processed |
| RecordingDelivery.CancelCancelsIff | openless-all/ios/App/AppController.swift:694-725 | cancelling ends a session that Core is done with, marks any other for good, cancels its native requests and clears the screen |
| RecordingDelivery.KeyboardCancelsIff | openless-all/ios/App/AppController.swift:833-839 | a keyboard's cancel acts exactly on the deferred start or the session it names |
| RecordingDelivery.KeyboardStopsIff | openless-all/ios/App/AppController.swift:808-824 | a keyboard's stop acts exactly on what it names: records a fitting choice, cancels without a language, otherwise stops |
| RecordingDelivery.PreviewShownIff | openless-all/ios/App/AppController.swift:1375-1408 | a preview appears exactly for the composition the active session asked for, in its own field; any other ends the session |
| RecordingDelivery.ChoiceStartsWorkIff | openless-all/ios/App/AppController.swift:825-832 | the choice of a translation starts the space work exactly when Core has finished, the delivery has work and nothing works on the text yet |
| RecordingDelivery.CompletionStartsWorkIff | openless-all/ios/App/AppController.swift:939-995 | Core's first completion starts the space work exactly when the delivery has work to hand out |
| RecordingDelivery.ReceiptEndsIff | openless-all/ios/App/AppController.swift:849-868 | a receipt ends exactly the finished session whose insertion, field and id it names |
| AppControllerClass.AppController.StartAsked | openless-all/ios/App/AppController.swift:534-631 | the new state is the step's, and the invariant stays: never both an active and a deferred session |
| AppControllerClass.AppController.DeferredTurn | openless-all/ios/App/AppController.swift:633-656 | the new state is the step's, and the invariant stays: a waiting loop gives up, waits on, or begins with the very command deferred, and hands nothing over |
| AppControllerClass.AppController.CancelDeferredKeyboardStart | openless-all/ios/App/AppController.swift:659-668 | the new state is the step's, and the invariant stays: nothing deferred remains |
| AppControllerClass.AppController.Stop | openless-all/ios/App/AppController.swift:669-693 | the new state is the step's, and the invariant stays: nothing deferred remains, and an active session is stopping or cancelled |
| AppControllerClass.AppController.Cancel | openless-all/ios/App/AppController.swift:694-725 | the new state is the step's, and the invariant stays: nothing deferred remains, and an active session is cancelled |
| AppControllerClass.AppController.Fail | openless-all/ios/App/AppController.swift:726-733 | the new state is the step's, and the invariant stays: nothing deferred remains, and an active session is cancelled |
| AppControllerClass.AppController.NativeRequest | openless-all/ios/App/AppController.swift:1024-1126 | the new state is the step's, and the invariant stays: the task is used up, and exactly the text its guard calls for is handed over |
| AppControllerClass.AppController.AbortNative | openless-all/ios/App/AppController.swift:908-914 | the new state is the step's, and the invariant stays: the session and what was handed over stay |
| AppControllerClass.AppController.Started | openless-all/ios/App/AppController.swift:915-918 | the new state is the step's, and the invariant stays: the named session is bound to the Core session given |
| AppControllerClass.AppController.Level | openless-all/ios/App/AppController.swift:919-938 | the new state is the step's, and the invariant stays: recording, until the limit; hands nothing over |
| AppControllerClass.AppController.Completed | openless-all/ios/App/AppController.swift:939-995 | the new state is the step's, and the invariant stays: the terminal result, by kind of session; hands nothing over by itself |
| AppControllerClass.AppController.Ended | openless-all/ios/App/AppController.swift:996-1018 | the new state is the step's, and the invariant stays: the session that ended is not active afterwards |
| AppControllerClass.AppController.ConfirmGeneratedPreview | openless-all/ios/App/AppController.swift:1410-1435 | the new state is the step's, and the invariant stays: exactly the text the guard calls for is handed over, and then no preview remains |
| AppControllerClass.AppController.SpaceWorkCame | openless-all/ios/App/AppController.swift:1451-1490 | the new state is the step's, and the invariant stays: exactly the text the guard calls for is handed over, and the work's own session waits for no space work afterwards |
| AppControllerClass.AppController.CancelCommand | openless-all/ios/App/AppController.swift:833-839 | the new state is the step's, and the invariant stays: a cancel that names the active session cancels it |
| AppControllerClass.AppController.StopCommand | openless-all/ios/App/AppController.swift:808-824 | the new state is the step's, and the invariant stays: a keyboard's stop hands nothing over; whether its choice is accepted and whether work is ready are separate answers |
| AppControllerClass.AppController.FinishSpaceTranslation | openless-all/ios/App/AppController.swift:825-832 | the new state is the step's, and the invariant stays: a chosen translation, accepted or not, with work ready or not, hands nothing over |
| AppControllerClass.AppController.InsertionReceipt | openless-all/ios/App/AppController.swift:849-868 | the new state is the step's, and the invariant stays: a receipt hands nothing over, and leaves the session alone or ends it |
| AppControllerClass.AppController.DetachPreviousKeyboardDelivery | openless-all/ios/App/AppController.swift:878-888 | the new state is the step's, and the invariant stays: a session with a target whose Core session has finished is cancelled when another keyboard takes over |
| AppControllerClass.AppController.PreviewExpired | openless-all/ios/App/AppController.swift:1400-1406 | the new state is the step's, and the invariant stays: a session whose preview has waited three minutes is cancelled |
| JsonText.Quote | openless-all/app/mobile-ime/rime_engine.cpp:25-34 | the loop prints exactly the escaped form, byte by byte |
| JsonText.QuoteRoundTrip | openless-all/app/mobile-ime/rime_engine.cpp:25-34 | on all byte strings, whatever follows: a reader of section 7 of RFC 8259 stops at the printer's closing quote with the original bytes |
| JsonText.QuoteIsPrefixFree | openless-all/app/mobile-ime/rime_engine.cpp:25-34 | printing is injective, and no printed string begins another |
| JsonText.InnerIsClean | openless-all/app/mobile-ime/rime_engine.cpp:25-34 | between the outer quotes there is no bare quote, bare backslash or control byte |
| JsonText.ListRoundTrip | openless-all/app/mobile-ime/rime_engine.cpp:68-72 | a printed candidate list reads back as the list |
| JsonText.ExpandedCandidates | openless-all/app/mobile-ime/rime_engine.cpp:53-66 | the bounded list holds exactly the candidates from the offset, at most the limit, and says `more` exactly when there are more |
| RimeSessions.ServeKeepsInv | openless-all/app/mobile-ime/rime_engine.cpp:96-226 | every request keeps: removed text plus pending is all the text gained, the revision counts accepted changes modulo its range, and the last report, unless it failed, showed what is pending |
| RimeSessions.TextIsConserved | openless-all/app/mobile-ime/rime_engine.cpp:35-43 | on every run, text removed by ack or clear followed by `pending` is everything drained and every accepted external text, in order |
| RimeSessions.TextIsTheRequests | openless-all/app/mobile-ime/rime_engine.cpp:170-226 | the text of a living session grows by exactly the external texts and commits of the requests served for it, in order |
| RimeSessions.RevisionGuardIff | openless-all/app/mobile-ime/rime_engine.cpp:180-224 | a selection, external text or further page that relies on an earlier report is accepted exactly when nothing else is wrong and the number of changes accepted since is a multiple of the counter's range |
| RimeSessions.StaleRequestsAreRefused | openless-all/app/mobile-ime/rime_engine.cpp:204-220 | short of a whole round of the counter, it is refused once any state-changing request has been accepted since the report |
| RimeSessions.CreateIsFreshIff | openless-all/app/mobile-ime/rime_engine.cpp:156-168 | a created session reports no text, revision 0 and the asked mode exactly when no entry, or an identical one, is kept under the id the engine chose |
| RimeSessions.AckRemovesShownIff | openless-all/app/mobile-ime/rime_engine.cpp:35-43 | from a report that showed all that was pending, over any stretch in which the session lives without a good report or a removal: an ack removes exactly the text shown if and only if the requests served meanwhile brought no text |
| RimeSessions.AckRemovesShownText | openless-all/app/mobile-ime/rime_engine.cpp:192 | when the session's last report did not fail, an ack removes exactly the text it showed |
| RimeSessions.AckAfterFailedReport | openless-all/app/mobile-ime/rime_engine.cpp:42-43 | a concrete run in which an ack after a failed report removes text never shown |
| RimeSessions.RequestServedIff | openless-all/app/mobile-ime/rime_engine.cpp:170-226 | each request to a session, over the fields: served exactly when no text waits for its acknowledgement, where it acts on the composition, and the revision and argument are right; then the text and the revision are as stated and reported, and otherwise nothing changes |
| RimeSessions.NothingActsBeforeAck | openless-all/app/mobile-ime/rime_engine.cpp:195 | over any stretch without `ack` and `clear`, while text waits no request that changes state is accepted, the revision stays and the text only grows |
| RimeSessions.CreateAndDestroyServed | openless-all/app/mobile-ime/rime_engine.cpp:156-176 | creating keeps an entry that is there and adds the commit; destroying forgets exactly one session |
| RimeEngineClass.RimeEngine.Create | openless-all/app/mobile-ime/rime_engine.cpp:156-169 | the new state and the response are the step's, and the invariant stays: what is reported is what is kept |
| RimeEngineClass.RimeEngine.Destroy | openless-all/app/mobile-ime/rime_engine.cpp:174-176 | the new state and the response are the step's, and the invariant stays: done means forgotten |
| RimeEngineClass.RimeEngine.OnSession | openless-all/app/mobile-ime/rime_engine.cpp:170-225 | the new state and the response are the step's, and the invariant stays: what is reported is what is kept, and a request that is not served changes nothing |
| RimeEngineClass.RimeEngine.Redeploy | openless-all/app/mobile-ime/rime_engine.cpp:125-135 | the new state and the response are the step's, and the invariant stays: no session remains |
| RimeEngineClass.RimeEngine.ExportDictionary | openless-all/app/mobile-ime/rime_engine.cpp:136-148 | the new state and the response are the step's, and the invariant stays: no session remains once a path is given |
| RimeEngineClass.RimeEngine.ImportDictionary | openless-all/app/mobile-ime/rime_engine.cpp:149-155 | the new state and the response are the step's, and the invariant stays: no session remains once a path is given |
| TextPager.Page | openless-all/ios/App/StyleLibraryView.swift:615-633 | the loop returns the page that the text's greedy page function gives, its text and whether there is more |
| TextPager.PageIsLongest | openless-all/ios/App/StyleLibraryView.swift:621-631 | a page holds at most `limit` UTF-16 units and nothing after its `lines`-th break, and a piece from the same start fits exactly when it ends within the page |
| TextPager.StuckIff | openless-all/ios/App/StyleLibraryView.swift:624 | paging makes no progress exactly at a scalar longer than the limit, so never when the limit is at least 2 |
| TextPager.PagesPartition | openless-all/ios/App/StyleLibraryView.swift:615-633 | the pages of a text are not empty, fit, and concatenate to the text |
| TextPager.NoSplitIsShorter | openless-all/ios/App/StyleLibraryView.swift:615-633 | no split of the text within the same bounds has fewer parts |
| TextPager.Summary | openless-all/ios/App/StyleLibraryView.swift:611-614 | the whole text if it fits, else its longest beginning that fits and an ellipsis |
| TextPager.PageOnScreen | openless-all/ios/App/StyleLibraryView.swift:512-536 | with a valid stack of starts, the page shown is the one whose number is shown, and `Next` is offered exactly before the last page |
| TextPager.StylePagedText.Current | openless-all/ios/App/StyleLibraryView.swift:512-536 | shows the page of the partition that the stack of starts stands for and enables the two buttons accordingly |
| TextPager.StylePagedText.Next | openless-all/ios/App/StyleLibraryView.swift:536 | pushes the start of the next page, and nothing else changes |
| TextPager.StylePagedText.Previous | openless-all/ios/App/StyleLibraryView.swift:531 | takes back what the last `Next` pushed |
| SymbolPair.PdbIdentity | openless-all/app/scripts/windows-symbol-pair.py:49-79 | the reader with its loops is the loop-free parse, and no input falls through to the error after the loop |
| SymbolPair.StreamOneIsRead | openless-all/app/scripts/windows-symbol-pair.py:49-79 | for every MSF 7.00 file with a one-block directory map, wherever directory and streams lie and whatever stream 0 is: the GUID bytes and age of stream 1, or a refusal exactly when stream 1 is missing or too short |
| SymbolPair.HeaderErrors | openless-all/app/scripts/windows-symbol-pair.py:49-57 | on arbitrary bytes the header errors say exactly what is wrong: the magic text, the block size and count, or a directory map of more than one block |
| SymbolPair.AnswersComeFromInside | openless-all/app/scripts/windows-symbol-pair.py:59-77 | on arbitrary bytes an answer comes only from blocks wholly inside the file |
| PeImage.PeIdentity | openless-all/app/scripts/windows-symbol-pair.py:22-46 | the nested loops are the recursive scan of sections and debug entries |
| PeImage.FirstRsdsIsRead | openless-all/app/scripts/windows-symbol-pair.py:36-46 | the record of the first RSDS entry in section and directory order is returned |
| PeImage.AnswersAreFirst | openless-all/app/scripts/windows-symbol-pair.py:36-46 | on arbitrary bytes nothing else is ever returned |
| PeLayout.FirstCodeViewIsRead | openless-all/app/scripts/windows-symbol-pair.py:22-46 | for every PE image of either format, laid out by explicit offsets, whatever sections precede the one with the debug directory: the GUID bytes and age of the directory's first CodeView record, or that the identity is missing exactly when there is none |
| PeLayout.HeaderErrors | openless-all/app/scripts/windows-symbol-pair.py:22-33 | on arbitrary bytes the header errors say exactly which signature or magic is wrong |
| PairValidation.GuidTextIsRead | openless-all/app/scripts/windows-symbol-pair.py:18-19 | a reader of the text form of RFC 4122 gets the sixteen bytes back from what is printed |
| PairValidation.GuidTextIsInjective | openless-all/app/scripts/windows-symbol-pair.py:18-19 | two GUIDs print alike only if their sixteen bytes are equal |
| PairValidation.ValidatePair | openless-all/app/scripts/windows-symbol-pair.py:92-98 | a pair is accepted exactly when both files can be read and GUID bytes and ages are equal, and what is returned reads back as that identity; otherwise the error is the file's own, the image's first, or the mismatch |
| Predictions.BuildTable | openless-all/ios/scripts/build-predictions.py:109-116 | the nested loops leave exactly the scan of all phrases: each continuation with its score, and nothing else |
| Predictions.ScoreIsLargest | openless-all/ios/scripts/build-predictions.py:116 | a continuation is there exactly when some Han phrase so continues, with the largest such frequency, at least zero |
| Predictions.TopIff | openless-all/ios/scripts/build-predictions.py:117-118 | of a context exactly those continuations are kept that fewer than eight others precede, by falling frequency and then in the order of Python's strings |
| Predictions.StoreAnswersLikeScan | openless-all/ios/scripts/build-predictions.py:117-119 | the stored rows answer every query as the eight best continuations of a direct scan |
| Predictions.ChineseCandidates | openless-all/ios/Keyboard/KeyboardPredictionEngine.swift:135-154 | the loops return the first `limit` distinct words, longest context first |
| Predictions.CandidatesAreSearched | openless-all/ios/Keyboard/KeyboardPredictionEngine.swift:135-154 | for any phrases and any text before the cursor: the answer is the first `limit` distinct words of the direct search over contexts of four to one Han characters |
| Predictions.BuildAndAsk | openless-all/ios/Keyboard/KeyboardPredictionEngine.swift:129-154 | builder, stored rows and keyboard joined: if the query reads the rows written from the table just built, the answer is the direct search over the phrases |
| Predictions.TailOf | openless-all/ios/Keyboard/KeyboardPredictionEngine.swift:137-140 | the longest run of single Han scalars at the end of the text, at most four |
| DependencyWalk.Collector.Visit | openless-all/ios/scripts/collect-rust-licenses.py:17-23 | the recursive visit adds only packages the root reaches, keeps the set closed but for the visits under way, and ends on cycles |
| DependencyWalk.Collector.Collect | openless-all/ios/scripts/collect-rust-licenses.py:24 | from the empty set: exactly the packages the root reaches by dependencies with some non-dev kind, or a failure exactly when it reaches a package that is not a node |
| DependencyWalk.ReachedIsLeast | openless-all/ios/scripts/collect-rust-licenses.py:16-24 | reachability is the least closed set: every closed set that holds the root holds what it reaches |
| ArchiveCopy.StageArchive | openless-all/ios/App/StyleArchiveImport.swift:27-81 | the nested loops over the buffer are the copy function, with checks before and clean-up after |
| ArchiveCopy.CopyIsFaithful | openless-all/ios/App/StyleArchiveImport.swift:55-74 | success means end of file was reached and the copy equals all that was obtained, within the limit; never more than limit + 1 bytes are obtained |
| ArchiveCopy.CopySucceedsIff | openless-all/ios/App/StyleArchiveImport.swift:55-74 | when no write fails, however short or interrupted the calls: success exactly when the source ends without failure or cancellation and gives at most `limit` bytes |
| ArchiveCopy.CopyEndsAsSource | openless-all/ios/App/StyleArchiveImport.swift:55-74 | when no write fails the copy ends as the source first does: too long, failed, cancelled, or with success at the end of the file |
| ArchiveCopy.StagingEndsIff | openless-all/ios/App/StyleArchiveImport.swift:27-81 | when no write fails, success exactly for a readable regular ZIP file within both bounds and a usable directory, and every failure exactly for what failed first, over the fields of the request |
| ArchiveCopy.StagingIsFaithful | openless-all/ios/App/StyleArchiveImport.swift:27-81 | success only with a copy equal to all the source gave, at most 512 KiB and the policy's bound; every failure leaves no file or reports cleanupFailed, and that only when a started copy's file could not be unlinked |

## Left out

- AVFoundation, AVKit, ActivityKit, librime, SQLite, the C calls of Core, the mailbox and HTTP: every answer they give is an arbitrary parameter of the step that asks.
- Views, sounds, haptics, localisation, logging and the `onChange` callbacks: they change no modelled field.
- JSON decoding of Core's answers: an answer is what each decoder makes of it, or that it throws. `AccountStatus.sync` is not read by the flow and is not modelled.
- The account clock is read once in each step; two readings within one step of the source are taken to be equal.
- System audio events: the session counts as ended from the moment its notification is handled. `didBecomeInactive` is modelled on systems that have it.
- The deadline and lease timers of a recording, the background-time handler and every other caller of stop, cancel and fail in `AppController` are the events `StopCalled`, `CancelCalled`, `FailCalled` and `DeferredDropped`, which may come at any time; host return, live activities, publishing, history and developer reload are not modelled.
- `KeyboardInsertionDelivery`, `SpaceVoiceDeliveryState` and `VoiceCommand.rejection`: abstract, one free boolean at each use.
- Recording sessions: the ids a keyboard chooses are assumed new; ids of starts without an input field may repeat, as the source lets them.
- `initialize` and the C wrapper of the Rime engine, and the parsing of its numeric arguments: a request carries the parsed number and revision, or that it had another form.
- Endless interruption of reads or writes in the file copy: scripts are finite. Descriptors, file modes and security scopes are not modelled; whether the staged file could be opened is one answer.
- Python's recursion limit in the dependency walk, and the licence files that are collected afterwards.
- English candidates and supplementary words of the keyboard: Unicode folding and system completions decide them. Splitting text into characters is done by the caller of `TailOf`.
- The hash sums and the manifest that are written beside an accepted EXE and PDB pair.
- `StyleLibrary`, `ProductLibrary`, `VocabularyBridge`: the same epochs and single flight as the account flow in an easier form.

/** What every run of the composed machines keeps. */
module PipSafety {
  import opened Options
  import opened PipStart
  import A = AudioOwnership
  import AudioSafety

  ghost predicate TasksInv(v: Waits, generation: nat, next: nat) {
    && (forall id | id in v.tasks :: id < next && v.tasks[id].left <= TURNS)
    && (forall id | id in v.tasks && !v.tasks[id].cancelled ::
          v.retryTask == Some(id) && v.tasks[id].generation == generation)
    && (v.retryTask.Some? ==> v.retryTask.value < next)
    && (v.retryTask.Some? && v.retryTask.value in v.tasks ==>
          !v.tasks[v.retryTask.value].cancelled && v.tasks[v.retryTask.value].generation == generation)
  }

  ghost predicate TimeoutsInv(v: Waits, generation: nat, next: nat) {
    && (forall id | id in v.timeouts :: id < next)
    && (forall id | id in v.timeouts && !v.timeouts[id].cancelled :: v.startTimeout == Some(id))
    && (v.startTimeout.Some? ==>
          v.startTimeout.value in v.timeouts && v.timeouts[v.startTimeout.value] == TimeoutTask(generation, false))
  }

  // What holds even while a method is about to settle.
  ghost predicate PipCore(p: Pip) {
    && p.generation < p.next
    && TasksInv(p.waits, p.generation, p.next) && TimeoutsInv(p.waits, p.generation, p.next)
    && (p.starting <==> p.waits.startTimeout.Some?)
    && (p.starting ==> p.waits.retryTask.None?)
    && (p.starting || p.waits.retryTask.Some? ==> p.controller.Some?)
    && (p.controller.Some? ==> p.enabled && p.controller.value < p.next)
  }

  ghost predicate PipInv(p: Pip) {
    PipCore(p) && (p.prepared ==> IsRecovering(p))
  }

  // How the two machines hang together.
  ghost predicate Linked(s: System) {
    && AudioSafety.Inv(s.audio)
    && (s.audio.preparing ==> s.pip.prepared)
    && s.prepares == s.settles + if s.pip.prepared then 1 else 0
  }

  ghost predicate Inv(s: System) {
    PipInv(s.pip) && Linked(s)
  }

  // ---- the client's own steps ----

  lemma CancelRetryKeeps(p: Pip)
    requires PipCore(p)
    ensures PipCore(p.(waits := CancelRetry(p.waits)))
  {}

  lemma CancelTimeoutKeeps(p: Pip)
    requires PipCore(p)
    ensures PipCore(p.(starting := false, waits := CancelTimeout(p.waits)))
  {}

  // Disposing cancels every task there is, so none belongs to the new generation.
  lemma DisposeKeeps(p: Pip)
    requires PipCore(p)
    ensures PipCore(Dispose(p)) && !IsRecovering(Dispose(p)) && Dispose(p).controller.None?
  {
    CancelRetryKeeps(p);
    CancelTimeoutKeeps(p.(waits := CancelRetry(p.waits)));
  }

  lemma BeginKeeps(p: Pip)
    requires PipCore(p) && p.controller.Some? && !p.starting
    ensures PipInv(BeginStart(p))
  {
    CancelRetryKeeps(p);
  }

  lemma MakeKeeps(p: Pip, w: World)
    requires PipInv(p)
    ensures PipInv(MakeControllerIfNeeded(p, w)) && MakeControllerIfNeeded(p, w).waits == p.waits
    ensures IsRecovering(MakeControllerIfNeeded(p, w)) == IsRecovering(p)
  {}

  lemma StartKeeps(p: Pip, w: World)
    requires PipInv(p)
    ensures PipInv(StartIfPossible(p, w))
  {
    MakeKeeps(p, w);
  }

  lemma ReturnKeeps(p: Pip, id: nat)
    requires PipInv(p)
    ensures PipInv(ReturnTask(p, id))
  {}

  lemma CountKeeps(p: Pip, id: nat)
    requires PipInv(p) && id in p.waits.tasks && p.waits.tasks[id].left > 0
    ensures PipInv(CountTurn(p, id))
  {}

  lemma ExhaustKeeps(p: Pip, id: nat)
    requires PipCore(p) && id in p.waits.tasks && !p.waits.tasks[id].cancelled
    ensures PipCore(Exhaust(p, id))
  {}

  // ---- the two calls across ----

  lemma SettleKeepsInv(s: System, works: nat -> bool)
    requires PipCore(s.pip) && Linked(s)
    ensures Inv(SettleAudio(s, works)) && !SettleAudio(s, works).pip.prepared
    ensures SettleAudio(s, works).pip == s.pip.(prepared := false)
  {
    hide AudioSafety.Inv, A.SettlePipStart;
    if s.pip.prepared { SettlingIsSafe(s.audio, works); }
  }

  lemma SettlingIsSafe(audio: A.Audio, works: nat -> bool)
    requires AudioSafety.Inv(audio)
    ensures AudioSafety.Inv(A.SettlePipStart(audio, works)) && !A.SettlePipStart(audio, works).preparing
  {
    AudioSafety.ReleaseSettles(audio.(preparing := false), works);
  }

  lemma PreparingIsSafe(audio: A.Audio, w: A.World, works: nat -> bool)
    requires AudioSafety.Inv(audio)
    ensures AudioSafety.Inv(A.PreparePipStart(audio, w, works).0)
    ensures !A.PreparePipStart(audio, w, works).1 ==> A.PreparePipStart(audio, w, works).0.preparing == audio.preparing
  {
    AudioSafety.PrepareKeepsInv(audio, w, works);
  }

  lemma PrepareKeepsInv(s: System, w: World, works: nat -> bool)
    requires Inv(s) && s.pip.waits.retryTask.Some?
    ensures Inv(Prepare(s, w, works))
  {
    hide AudioSafety.Inv, A.PreparePipStart;
    PreparingIsSafe(s.audio, w.audio, works);
    CancelRetryKeeps(s.pip);
  }

  lemma AttemptKeepsInv(s: System, w: World, works: nat -> bool)
    requires Inv(s) && s.pip.waits.retryTask.Some?
    ensures Inv(AttemptStart(s, w, works))
  {
    hide AudioSafety.Inv, A.PreparePipStart, PipCore;
    if MayAttempt(s.pip, w) {
      PrepareKeepsInv(s, w, works);
      if Prepare(s, w, works).pip.prepared && w.possible { BeginKeeps(Prepare(s, w, works).pip); }
    }
  }

  lemma DisposeKeepsInv(s: System, works: nat -> bool)
    requires PipCore(s.pip) && Linked(s)
    ensures Inv(DisposeController(s, works)) && !DisposeController(s, works).pip.prepared
    ensures DisposeController(s, works).pip == Dispose(s.pip).(prepared := false)
  {
    hide PipCore, AudioSafety.Inv;
    DisposeKeeps(s.pip);
    SettleKeepsInv(s.(pip := Dispose(s.pip)), works);
  }

  // ---- every event ----

  lemma TurnKeepsInv(s: System, id: nat, w: World, works: nat -> bool)
    requires Inv(s) && id in s.pip.waits.tasks
    ensures Inv(TakeTurn(s, id, w, works))
  {
    hide AudioSafety.Inv, AttemptStart, SettleAudio, PipCore, TasksInv, TimeoutsInv;
    var task := s.pip.waits.tasks[id];
    var mine := !task.cancelled && s.pip.generation == task.generation;
    if task.left == 0 && mine {
      ExhaustKeeps(s.pip, id);
      SettleKeepsInv(s.(pip := Exhaust(s.pip, id)), works);
    } else if task.left == 0 || !mine || !s.pip.enabled || s.pip.locked {
      ReturnKeeps(s.pip, id);
    } else {
      TurnHasHandle(s.pip, id);
      AttemptKeepsInv(s, w, works);
      var t := AttemptStart(s, w, works);
      ReturnKeeps(t.pip, id);
      CountKeeps(t.pip, id);
    }
  }

  lemma TurnHasHandle(p: Pip, id: nat)
    requires PipCore(p) && id in p.waits.tasks && !p.waits.tasks[id].cancelled
    ensures p.waits.retryTask == Some(id)
  {}

  lemma DropTimeoutKeeps(p: Pip, id: nat)
    requires PipInv(p) && id in p.waits.timeouts
    ensures var q := p.(waits := p.waits.(timeouts := p.waits.timeouts - {id}));
            if p.waits.timeouts[id].cancelled then PipInv(q) else PipCore(Dispose(q)) && p.starting
  {}

  lemma TimeoutKeepsInv(s: System, id: nat, works: nat -> bool)
    requires Inv(s) && id in s.pip.waits.timeouts
    ensures Inv(StartTimedOut(s, id, works))
  {
    hide AudioSafety.Inv, SettleAudio, Dispose, IsRecovering;
    DropTimeoutKeeps(s.pip, id);
    var q := s.pip.(waits := s.pip.waits.(timeouts := s.pip.waits.timeouts - {id}));
    if !s.pip.waits.timeouts[id].cancelled {
      DisposeFrame(q);
      SettleKeepsInv(s.(pip := Dispose(q)), works);
    }
  }

  lemma DisposeFrame(p: Pip)
    ensures Dispose(p).prepared == p.prepared
  {}

  lemma ArmKeeps(p: Pip, w: World)
    requires PipInv(p)
    ensures PipInv(Arm(p, w))
  {
    if !p.enabled { MakeKeeps(p.(enabled := true, recovery := Fresh, locked := !w.audio.unlocked), w); }
  }

  lemma AttachedKeepsInv(s: System, w: World, works: nat -> bool)
    requires Inv(s)
    ensures Inv(SourceAttached(s, w, works))
  {
    hide AudioSafety.Inv, AttemptStart, PipCore;
    MakeKeeps(s.pip, w);
    var t := s.(pip := MakeControllerIfNeeded(s.pip, w));
    if s.pip.enabled && t.pip.waits.retryTask.Some? { AttemptKeepsInv(t, w, works); }
  }

  lemma StopKeepsInv(s: System, works: nat -> bool)
    requires Inv(s)
    ensures Inv(Stop(s, works))
    ensures !Stop(s, works).pip.enabled && !Stop(s, works).pip.prepared
  {
    hide AudioSafety.Inv, SettleAudio;
    DisabledDisposeKeeps(s.pip);
    SettleKeepsInv(s.(pip := Dispose(s.pip.(enabled := false, recovery := Fresh))), works);
  }

  lemma DisabledDisposeKeeps(p: Pip)
    requires PipCore(p)
    ensures PipCore(Dispose(p.(enabled := false, recovery := Fresh)))
  {
    DisposeKeeps(p);
  }

  lemma RestartKeepsInv(s: System, w: World, works: nat -> bool)
    requires Inv(s)
    ensures Inv(Restart(s, w, works))
  {
    hide AudioSafety.Inv, PipCore, Dispose, DisposeController, StartIfPossible;
    if !IsRecovering(s.pip) && s.pip.controller.Some? { DisposeKeepsInv(s, works); }
    var t := if !IsRecovering(s.pip) && s.pip.controller.Some? then DisposeController(s, works) else s;
    StartKeeps(t.pip, w);
    StartFrame(t.pip, w);
  }

  lemma StartFrame(p: Pip, w: World)
    ensures StartIfPossible(p, w).prepared == p.prepared
  {}

  // `locked`, `recovery` and the two foreground flags do not matter to the rules.
  ghost predicate SameButFlags(p: Pip, q: Pip) {
    q == p.(locked := q.locked, recovery := q.recovery, inForeground := q.inForeground, stopRecoveryUsed := q.stopRecoveryUsed)
  }

  lemma FlagsDoNotMatter(p: Pip, q: Pip)
    requires SameButFlags(p, q)
    ensures PipCore(p) ==> PipCore(q)
    ensures PipInv(p) ==> PipInv(q)
  {}

  lemma ForegroundKeepsInv(s: System, foreground: bool, w: World, works: nat -> bool)
    requires Inv(s)
    ensures Inv(ForegroundChanged(s, foreground, w, works))
  {
    hide AudioSafety.Inv, PipInv, Restart, StartIfPossible;
    var p := MoveTo(s.pip, foreground);
    var q := p.(locked := !w.audio.unlocked);
    FlagsDoNotMatter(s.pip, p);
    FlagsDoNotMatter(s.pip, q);
    RestartKeepsInv(s.(pip := q), w, works);
    StartKeeps(p, w);
    StartFrame(p, w);
  }

  lemma LockedKeepsInv(s: System, w: World, works: nat -> bool)
    requires Inv(s)
    ensures Inv(DeviceLocked(s, w, works)) && !DeviceLocked(s, w, works).pip.prepared
  {
    hide AudioSafety.Inv, PipCore, SettleAudio, DisposeController, Dispose, CancelRetry;
    CancelRetryKeeps(s.pip);
    var q := LockDown(s.pip, w);
    FlagsDoNotMatter(s.pip.(waits := CancelRetry(s.pip.waits)), q);
    var t := s.(pip := q);
    if q.starting { DisposeKeepsInv(t, works); }
    SettleKeepsInv(if q.starting then DisposeController(t, works) else t, works);
  }

  lemma UnlockedKeepsInv(s: System, w: World, works: nat -> bool)
    requires Inv(s)
    ensures Inv(DeviceUnlocked(s, w, works))
  {
    hide AudioSafety.Inv, PipInv, Restart;
    FlagsDoNotMatter(s.pip, s.pip.(locked := false, recovery := Fresh));
    RestartKeepsInv(s.(pip := s.pip.(locked := false, recovery := Fresh)), w, works);
  }

  lemma StartedKeepsInv(s: System, controller: nat, works: nat -> bool)
    requires Inv(s)
    ensures Inv(HandleStarted(s, controller, works))
  {
    hide AudioSafety.Inv, PipCore, SettleAudio, CancelRetry, CancelTimeout;
    CancelRetryKeeps(s.pip);
    CancelTimeoutKeeps(s.pip.(waits := CancelRetry(s.pip.waits)));
    SettleKeepsInv(s.(pip := s.pip.(starting := false, waits := CancelTimeout(CancelRetry(s.pip.waits)))), works);
  }

  lemma StoppedKeepsInv(s: System, controller: nat, failed: bool, w: World, works: nat -> bool)
    requires Inv(s)
    ensures Inv(HandleStopped(s, controller, failed, w, works))
  {
    hide AudioSafety.Inv, PipCore, DisposeController, Dispose, StartIfPossible;
    var recovery := if s.pip.enabled then DidStop(s.pip.recovery, s.pip.generation) else s.pip.recovery;
    var q := s.pip.(recovery := recovery);
    FlagsDoNotMatter(s.pip, q);
    DisposeKeepsInv(s.(pip := q), works);
    var t := DisposeController(s.(pip := q), works);
    FlagsDoNotMatter(t.pip, t.pip.(stopRecoveryUsed := true));
    StartKeeps(t.pip.(stopRecoveryUsed := true), w);
    StartFrame(t.pip.(stopRecoveryUsed := true), w);
  }

  // Nothing but a start raises the audio owner's flag.
  lemma OnlyStartsPrepare(audio: A.Audio, e: A.Event, w: A.World, works: nat -> bool)
    requires A.Possible(audio, e) && !e.PipPrepared?
    ensures A.Step(audio, e, w, works).preparing ==> audio.preparing
  {
    hide A.ReleaseIdle, A.React, A.Attempt, A.Moves;
    if e.SystemNotified? { ReactingDoesNotPrepare(A.Ended(audio, e.notification), e.notification, e.callbackReleases, works); }
    if e.RetryTaskWoke? { AttemptDoesNotPrepare(audio, e.id, works); }
  }

  lemma ReactingDoesNotPrepare(audio: A.Audio, n: A.Notification, callbackReleases: bool, works: nat -> bool)
    ensures A.React(audio, n, callbackReleases, works).preparing ==> audio.preparing
  {
    hide A.ReleaseIdle, A.Moves;
  }

  lemma AttemptDoesNotPrepare(audio: A.Audio, id: nat, works: nat -> bool)
    requires id in audio.retry.tasks
    ensures A.Attempt(audio, id, works).preparing == audio.preparing
  {
    hide A.ReleaseIdle;
  }

  lemma StepKeepsInv(s: System, e: Event, w: World, works: nat -> bool)
    requires Inv(s) && Possible(s, e)
    ensures Inv(Step(s, e, w, works))
  {
    hide AudioSafety.Inv, PipCore, IsRecovering, A.Step, Arm, StartIfPossible, SourceAttached, TakeTurn,
      StartTimedOut, DeviceLocked, DeviceUnlocked,
      ForegroundChanged, Stop, HandleStarted, HandleStopped;
    match e
    case Armed => ArmKeeps(s.pip, w); ArmFrame(s.pip, w);
    case StartAsked => StartKeeps(s.pip, w); StartFrame(s.pip, w);
    case Attached => AttachedKeepsInv(s, w, works);
    case TurnCame(id) => TurnKeepsInv(s, id, w, works);
    case TimedOut(id) => TimeoutKeepsInv(s, id, works);
    case Locked => LockedKeepsInv(s, w, works);
    case Unlocked => UnlockedKeepsInv(s, w, works);
    case ForegroundMoved(foreground) => ForegroundKeepsInv(s, foreground, w, works);
    case Stopped => StopKeepsInv(s, works);
    case ControllerStarted(controller) => StartedKeepsInv(s, controller, works);
    case ControllerStopped(controller, failed) => StoppedKeepsInv(s, controller, failed, w, works);
    case AudioMoved(event) =>
      AudioSafety.StepKeepsInv(s.audio, event, w.audio, works);
      OnlyStartsPrepare(s.audio, event, w.audio, works);
  }

  lemma ArmFrame(p: Pip, w: World)
    ensures Arm(p, w).prepared == p.prepared
  {}

  // ---- runs ----

  datatype Moment = Moment(event: Event, world: World)

  ghost predicate Admissible(s: System, es: seq<Moment>, works: nat -> bool)
    decreases |es|
  {
    es == [] || (Possible(s, es[0].event) && Admissible(Step(s, es[0].event, es[0].world, works), es[1..], works))
  }

  ghost function Run(s: System, es: seq<Moment>, works: nat -> bool): System
    requires Admissible(s, es, works)
    decreases |es|
  {
    if es == [] then s else Run(Step(s, es[0].event, es[0].world, works), es[1..], works)
  }

  lemma RunKeepsInv(s: System, es: seq<Moment>, works: nat -> bool)
    requires Inv(s) && Admissible(s, es, works)
    ensures Inv(Run(s, es, works))
    decreases |es|
  {
    hide Step, Inv;
    if es != [] {
      StepKeepsInv(s, es[0].event, es[0].world, works);
      RunKeepsInv(Step(s, es[0].event, es[0].world, works), es[1..], works);
    }
  }

  /** Over every run of the two machines, every successful preparation of the audio owner is settled
      exactly once: the difference is one exactly while a preparation is outstanding, which it is only
      while a start is under way; and the audio owner believes in a start only while one is outstanding. */
  lemma PreparesAreSettled(es: seq<Moment>, works: nat -> bool)
    requires Admissible(Initial, es, works)
    ensures var s := Run(Initial, es, works);
            && s.prepares - s.settles == (if s.pip.prepared then 1 else 0)
            && (s.audio.preparing ==> s.pip.prepared)
            && (s.pip.prepared ==> IsRecovering(s.pip) && s.pip.controller.Some?)
  {
    RunKeepsInv(Initial, es, works);
  }

  /** With both machines together: when neither a capture nor a playback is live and no start is under
      way, the session is still owned only if the driver's last call was a release that failed. */
  lemma QuietMeansReleased(es: seq<Moment>, works: nat -> bool)
    requires Admissible(Initial, es, works)
    ensures var s := Run(Initial, es, works);
            s.audio.owns && s.audio.capture.None? && s.audio.playback.None? && !IsRecovering(s.pip)
            ==> AudioSafety.ReleaseFailedLast(s.audio.calls)
  {
    RunKeepsInv(Initial, es, works);
  }

  /** Switching the client off, or locking the device, ends the preparation whatever it was doing. */
  lemma StoppingSettles(s: System, w: World, works: nat -> bool)
    requires Inv(s)
    ensures var t := Stop(s, works);
            t.prepares == t.settles && !t.audio.preparing && t.pip.controller.None? && !IsRecovering(t.pip)
    ensures var t := DeviceLocked(s, w, works); t.prepares == t.settles && !t.audio.preparing && !IsRecovering(t.pip)
  {
    hide AudioSafety.Inv, A.SettlePipStart;
    StopKeepsInv(s, works);
    LockedKeepsInv(s, w, works);
  }

  /** A start that has been handed to the system always has a live timeout, and that timeout ends it. */
  lemma StartsAreBounded(s: System, works: nat -> bool)
    requires Inv(s) && s.pip.starting
    ensures s.pip.waits.startTimeout.Some? && s.pip.waits.startTimeout.value in s.pip.waits.timeouts
    ensures var t := StartTimedOut(s, s.pip.waits.startTimeout.value, works);
            !t.pip.starting && !t.pip.prepared && !IsRecovering(t.pip) && t.prepares == t.settles
  {
    hide AudioSafety.Inv, A.SettlePipStart;
    TimeoutKeepsInv(s, s.pip.waits.startTimeout.value, works);
  }

  /** What belongs to an earlier controller or an earlier generation changes nothing: callbacks of other
      controllers, turns of cancelled sequences and cancelled timeouts only return. */
  lemma StaleEventsAreInert(s: System, c: nat, failed: bool, id: nat, w: World, works: nat -> bool)
    requires Inv(s)
    ensures s.pip.controller != Some(c) ==> HandleStarted(s, c, works) == s && HandleStopped(s, c, failed, w, works) == s
    ensures id in s.pip.waits.tasks && s.pip.waits.retryTask != Some(id) ==>
              TakeTurn(s, id, w, works) == s.(pip := ReturnTask(s.pip, id))
    ensures id in s.pip.waits.timeouts && s.pip.waits.startTimeout != Some(id) ==>
              StartTimedOut(s, id, works)
              == s.(pip := s.pip.(waits := s.pip.waits.(timeouts := s.pip.waits.timeouts - {id})))
  {
    hide AudioSafety.Inv;
  }

  /** A turn of the current sequence uses up a turn or ends the sequence, and so does the last one. */
  lemma SequencesEnd(s: System, id: nat, w: World, works: nat -> bool)
    requires Inv(s) && id in s.pip.waits.tasks
    ensures var t := TakeTurn(s, id, w, works);
            id in t.pip.waits.tasks ==> t.pip.waits.tasks[id].left < s.pip.waits.tasks[id].left <= TURNS
  {
    hide AudioSafety.Inv, AttemptStart, SettleAudio, TimeoutsInv;
  }

  // The turn finds the device locked, or ends without having started or failed while the system already
  // shows the controller as active.
  predicate Strands(s: System, w: World, works: nat -> bool) {
    || s.pip.locked
    || (w.activeAfter
        && (!MayAttempt(s.pip, w)
            || (!w.possible && (s.pip.prepared || A.PreparePipStart(s.audio, w.audio, works).1))))
  }

  /** A turn of the current sequence returns and leaves its handle behind exactly when it so strands. */
  lemma HandleIsStrandedIff(s: System, id: nat, w: World, works: nat -> bool)
    requires Inv(s) && s.pip.waits.retryTask == Some(id)
    requires id in s.pip.waits.tasks && s.pip.waits.tasks[id].left > 0
    ensures var t := TakeTurn(s, id, w, works);
            (t.pip.waits.retryTask == Some(id) && id !in t.pip.waits.tasks) <==> Strands(s, w, works)
  {
    hide AudioSafety.Inv, A.PreparePipStart;
  }

  // ---- the client's own timers ----

  predicate SequenceLives(p: Pip) {
    p.waits.retryTask.Some? && p.waits.retryTask.value in p.waits.tasks
  }

  predicate TimeoutLives(p: Pip) {
    p.starting && p.waits.startTimeout.Some? && p.waits.startTimeout.value in p.waits.timeouts
  }

  predicate Alive(p: Pip) {
    SequenceLives(p) || TimeoutLives(p)
  }

  // How many turns and timeouts of its own the client has left.
  function Budget(p: Pip): nat {
    if TimeoutLives(p) then 1 else if SequenceLives(p) then p.waits.tasks[p.waits.retryTask.value].left + 2 else 0
  }

  // The next thing that comes by itself: the timeout of the start, or a turn of the current sequence.
  function OwnTimer(s: System, w: World, works: nat -> bool): System {
    if TimeoutLives(s.pip) then StartTimedOut(s, s.pip.waits.startTimeout.value, works)
    else if SequenceLives(s.pip) then TakeTurn(s, s.pip.waits.retryTask.value, w, works)
    else s
  }

  function OwnTimers(s: System, ws: seq<World>, works: nat -> bool): System
    decreases |ws|
  {
    if ws == [] || !Alive(s.pip) then s else OwnTimers(OwnTimer(s, ws[0], works), ws[1..], works)
  }

  // A turn that strands while something is prepared, before it or by it.
  predicate StrandsHolding(s: System, w: World, works: nat -> bool) {
    && !TimeoutLives(s.pip) && SequenceLives(s.pip) && s.pip.waits.tasks[s.pip.waits.retryTask.value].left > 0
    && Strands(s, w, works) && (s.pip.prepared || (!s.pip.locked && MayAttempt(s.pip, w)))
  }

  ghost predicate SomeStrandsHolding(s: System, ws: seq<World>, works: nat -> bool)
    decreases |ws|
  {
    ws != [] && Alive(s.pip)
    && (StrandsHolding(s, ws[0], works) || SomeStrandsHolding(OwnTimer(s, ws[0], works), ws[1..], works))
  }

  lemma TimeoutEnds(s: System, works: nat -> bool)
    requires Inv(s) && TimeoutLives(s.pip)
    ensures var t := StartTimedOut(s, s.pip.waits.startTimeout.value, works);
            Inv(t) && !Alive(t.pip) && !t.pip.prepared
  {
    hide AudioSafety.Inv, A.SettlePipStart;
    TimeoutKeepsInv(s, s.pip.waits.startTimeout.value, works);
  }

  lemma LastTurnEnds(s: System, w: World, works: nat -> bool)
    requires Inv(s) && SequenceLives(s.pip) && s.pip.waits.tasks[s.pip.waits.retryTask.value].left == 0
    ensures var t := TakeTurn(s, s.pip.waits.retryTask.value, w, works);
            Inv(t) && !Alive(t.pip) && !t.pip.prepared
  {
    hide AudioSafety.Inv, A.SettlePipStart;
    TurnKeepsInv(s, s.pip.waits.retryTask.value, w, works);
  }

  lemma TurnShortens(s: System, w: World, works: nat -> bool)
    requires Inv(s) && SequenceLives(s.pip) && s.pip.waits.tasks[s.pip.waits.retryTask.value].left > 0
    ensures var t := TakeTurn(s, s.pip.waits.retryTask.value, w, works);
            && Inv(t) && Budget(t.pip) < Budget(s.pip)
            && (!Alive(t.pip) ==> (t.pip.prepared <==> StrandsHolding(s, w, works)))
            && (StrandsHolding(s, w, works) ==> !Alive(t.pip))
  {
    hide AudioSafety.Inv, A.PreparePipStart;
    TurnKeepsInv(s, s.pip.waits.retryTask.value, w, works);
  }

  /** Whether what a start prepared is settled by the client itself. Let nothing come but its own timers, in
      any surroundings: after at most the turns left and two, everything prepared is settled, exactly when no
      turn on the way strands while something is prepared. */
  lemma OwnTimersSettleIff(s: System, ws: seq<World>, works: nat -> bool)
    requires Inv(s) && (Alive(s.pip) || !s.pip.prepared) && Budget(s.pip) <= |ws|
    ensures var t := OwnTimers(s, ws, works);
            && Inv(t) && !Alive(t.pip)
            && (t.prepares == t.settles && !t.audio.preparing <==> !SomeStrandsHolding(s, ws, works))
    decreases |ws|
  {
    hide AudioSafety.Inv, PipCore, TakeTurn, StartTimedOut, Strands;
    if Alive(s.pip) {
      var t := OwnTimer(s, ws[0], works);
      if TimeoutLives(s.pip) {
        TimeoutEnds(s, works);
      } else if s.pip.waits.tasks[s.pip.waits.retryTask.value].left == 0 {
        LastTurnEnds(s, ws[0], works);
      } else {
        TurnShortens(s, ws[0], works);
      }
      if Alive(t.pip) || !t.pip.prepared { OwnTimersSettleIff(t, ws[1..], works); }
    }
  }

  // ---- stranded ----

  ghost predicate Stranded(p: Pip) {
    p.waits.retryTask.Some? && p.waits.retryTask.value !in p.waits.tasks
  }

  /** A stranded handle blocks every new start, and what was prepared stays prepared: only stopping,
      locking, a callback of the controller or the source view being attached again can end it. */
  lemma StrandedStays(s: System, e: Event, w: World, works: nat -> bool)
    requires Inv(s) && Stranded(s.pip) && Possible(s, e)
    requires e.StartAsked? || e.Unlocked? || e.ForegroundMoved? || e.TurnCame? || e.TimedOut? || e.AudioMoved? || e.Armed?
    ensures var t := Step(s, e, w, works);
            Stranded(t.pip) && t.pip.waits.retryTask == s.pip.waits.retryTask
            && t.pip.prepared == s.pip.prepared && t.settles == s.settles && t.prepares == s.prepares
  {
    hide AudioSafety.Inv, A.Step, A.PreparePipStart, A.SettlePipStart;
  }

  // The system reports the controller active before it says that a start is possible.
  function Early(): World {
    World(A.World(true, true, true, false), true, false, true, true, false, true, false)
  }

  lemma StrandedSteps(works: nat -> bool)
    requires forall k: nat :: works(k)
    ensures var s1 := Step(Initial, AudioMoved(A.Activated), Early(), works);
            var s2 := Step(s1, Armed, Early(), works);
            var s3 := Step(s2, StartAsked, Early(), works);
            && 2 in s3.pip.waits.tasks
            && var s4 := Step(s3, TurnCame(2), Early(), works);
               Stranded(s4.pip) && s4.pip.prepared
  {
    hide A.ReleaseIdle, A.React, A.Attempt, A.TakeCapture, A.TakePlayback;
    var s1 := Step(Initial, AudioMoved(A.Activated), Early(), works);
    assert s1 == Initial.(audio := A.Asleep.(activation := Some(0), issued := 1));
    var s2 := Step(s1, Armed, Early(), works);
    assert s2 == s1.(pip := Off.(enabled := true, controller := Some(1), next := 2));
    var s3 := Step(s2, StartAsked, Early(), works);
    assert s3.pip.waits.tasks == map[2 := StartTask(0, TURNS, false)];
  }

  /** It happens: keyboard voice is armed, the start sequence prepares the session, and the system
      reports the controller active before it says a start is possible. */
  lemma StrandedRun()
    ensures exists es, works ::
              Admissible(Initial, es, works) && Stranded(Run(Initial, es, works).pip) && Run(Initial, es, works).pip.prepared
  {
    var w := Early();
    var works := (k: nat) => true;
    StrandedSteps(works);
    var s1 := Step(Initial, AudioMoved(A.Activated), w, works);
    var s2 := Step(s1, Armed, w, works);
    var s3 := Step(s2, StartAsked, w, works);
    var s4 := Step(s3, TurnCame(2), w, works);
    hide Step, Stranded;
    RunFirst(s3, Moment(TurnCame(2), w), [], works);
    RunFirst(s2, Moment(StartAsked, w), [Moment(TurnCame(2), w)], works);
    RunFirst(s1, Moment(Armed, w), [Moment(StartAsked, w)] + [Moment(TurnCame(2), w)], works);
    var rest := [Moment(Armed, w)] + ([Moment(StartAsked, w)] + [Moment(TurnCame(2), w)]);
    RunFirst(Initial, Moment(AudioMoved(A.Activated), w), rest, works);
    var es := [Moment(AudioMoved(A.Activated), w)] + rest;
    assert Admissible(Initial, es, works) && Run(Initial, es, works) == s4;
  }

  lemma RunFirst(s: System, m: Moment, rest: seq<Moment>, works: nat -> bool)
    requires Possible(s, m.event) && Admissible(Step(s, m.event, m.world, works), rest, works)
    ensures Admissible(s, [m] + rest, works)
    ensures Run(s, [m] + rest, works) == Run(Step(s, m.event, m.world, works), rest, works)
  {
    hide Step;
    assert ([m] + rest)[1..] == rest;
  }
}

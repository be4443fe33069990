/** When picture in picture is started, and started again: by hand, on a visit to the foreground, on an unlock
    and after the system has stopped it. Everything is read off the fields of the client. */
module PipRecovery {
  import opened Options
  import opened PipStart
  import opened PipSafety
  import A = AudioOwnership
  import AudioGrants
  import AudioSafety

  // A new sequence of twenty turns is under way, for a controller there is.
  ghost predicate Began(p: Pip, q: Pip) {
    && q.waits.retryTask.Some? && p.next <= q.waits.retryTask.value && q.waits.retryTask.value in q.waits.tasks
    && q.waits.tasks[q.waits.retryTask.value] == StartTask(q.generation, 20, false) && q.controller.Some?
  }

  predicate Shown(p: Pip, w: World) {
    p.controller.Some? && w.active
  }

  // A start is under way: handed to the system, or still waiting for its turn.
  predicate UnderWay(p: Pip) {
    p.starting || p.waits.retryTask.Some?
  }

  lemma NextIsNew(s: System)
    requires Inv(s)
    ensures s.pip.waits.retryTask.Some? ==> s.pip.waits.retryTask.value < s.pip.next
  {}

  /** Asked to start, the client begins a sequence exactly when it is enabled and supported, nothing is shown
      or under way, the device is unlocked and there is a controller or one can be made. */
  lemma AskedStartsIff(s: System, w: World, works: nat -> bool)
    requires Inv(s)
    ensures Began(s.pip, Step(s, StartAsked, w, works).pip) <==>
            && s.pip.enabled && w.supported && !Shown(s.pip, w) && !UnderWay(s.pip) && !s.pip.locked && w.audio.unlocked
            && (s.pip.controller.Some? || w.makes)
  {
    hide AudioSafety.Inv;
  }

  // What every new start needs once an idle controller has been thrown away.
  predicate MayRestart(p: Pip, w: World) {
    p.enabled && w.supported && !Shown(p, w) && !UnderWay(p) && w.audio.unlocked && w.makes
  }

  lemma RestartBegins(s: System, w: World, works: nat -> bool)
    requires Inv(s) && s.pip.enabled && !Shown(s.pip, w)
    ensures Began(s.pip, Restart(s, w, works).pip) <==> MayRestart(s.pip, w) && !s.pip.locked
    ensures UnderWay(s.pip) ==> Restart(s, w, works) == s
  {
    hide AudioSafety.Inv, A.SettlePipStart, SettleAudio;
    if s.pip.controller.Some? { DisposeFrame(s.pip); }
  }

  lemma RestartKeepsFlags(s: System, w: World, works: nat -> bool)
    ensures var p, q := s.pip, Restart(s, w, works).pip;
            && q.enabled == p.enabled && q.locked == p.locked && q.recovery == p.recovery
            && q.inForeground == p.inForeground && q.stopRecoveryUsed == p.stopRecoveryUsed
  {
    hide SettleAudio;
  }

  // A visit ends when the application leaves the foreground; a new one allows one more recovery.
  function UsedAfter(p: Pip, foreground: bool): bool {
    p.stopRecoveryUsed && (p.inForeground || !foreground)
  }

  // The client on arriving in the foreground, before it may start.
  function Arrived(s: System, w: World): System {
    s.(pip := s.pip.(inForeground := true, stopRecoveryUsed := UsedAfter(s.pip, true), locked := !w.audio.unlocked))
  }

  lemma ArrivedIsInv(s: System, w: World)
    requires Inv(s)
    ensures Inv(Arrived(s, w))
  {
    hide AudioSafety.Inv, PipInv;
    FlagsDoNotMatter(s.pip, Arrived(s, w).pip);
  }

  lemma VisitIsRestart(s: System, w: World, works: nat -> bool)
    requires s.pip.enabled
    ensures Step(s, ForegroundMoved(true), w, works)
            == if Shown(s.pip, w) then Arrived(s, w) else Restart(Arrived(s, w), w, works)
  {
    hide Restart;
  }

  /** A visit to the foreground begins a new start exactly when nothing is shown or under way, on an enabled,
      supported client and an unlocked device whose system makes a controller; a start under way goes on. */
  lemma VisitStartsIff(s: System, w: World, works: nat -> bool)
    requires Inv(s)
    ensures var t := Step(s, ForegroundMoved(true), w, works);
            && (Began(s.pip, t.pip) <==> MayRestart(s.pip, w))
            && (UnderWay(s.pip) ==> t.pip.waits == s.pip.waits && t.pip.starting == s.pip.starting)
            && t.pip.inForeground && t.pip.stopRecoveryUsed == UsedAfter(s.pip, true)
            && (s.pip.enabled ==> t.pip.locked == !w.audio.unlocked)
  {
    hide Inv, Restart;
    NextIsNew(s);
    if s.pip.enabled {
      VisitIsRestart(s, w, works);
      ArrivedIsInv(s, w);
      RestartKeepsFlags(Arrived(s, w), w, works);
      if !Shown(s.pip, w) { RestartBegins(Arrived(s, w), w, works); }
    }
  }

  // What the client remembers of a lock calls for a start: the start that was under way, or the session that
  // was shown, is gone.
  predicate Lost(p: Pip) {
    p.recovery.interrupted || (p.recovery.locked && p.recovery.activeGeneration == Some(p.generation))
  }

  /** An unlock begins a new start exactly under the same conditions, in the foreground always, elsewhere only
      for what was lost; and what was remembered is used up, whatever comes of it. */
  lemma UnlockStartsIff(s: System, w: World, works: nat -> bool)
    requires Inv(s)
    ensures var t := Step(s, Unlocked, w, works);
            && (Began(s.pip, t.pip) <==> MayRestart(s.pip, w) && (w.audio.foreground || Lost(s.pip)))
            && !t.pip.locked && t.pip.recovery == LockRecovery(false, None, false)
  {
    hide Inv, Restart;
    NextIsNew(s);
    var u := s.(pip := s.pip.(locked := false, recovery := LockRecovery(false, None, false)));
    UnlockedFlags(s, u);
    RestartKeepsFlags(u, w, works);
    if s.pip.enabled && !Shown(s.pip, w) { RestartBegins(u, w, works); }
  }

  lemma UnlockedFlags(s: System, u: System)
    requires Inv(s) && u == s.(pip := s.pip.(locked := false, recovery := LockRecovery(false, None, false)))
    ensures Inv(u)
  {
    hide AudioSafety.Inv, PipInv;
    FlagsDoNotMatter(s.pip, u.pip);
  }

  /** What is remembered on locking: the session shown, by its generation, or that a start was under way. */
  lemma LockRemembers(s: System, w: World, works: nat -> bool)
    requires Inv(s)
    ensures var t := Step(s, Locked, w, works);
            && t.pip.locked && !UnderWay(t.pip)
            && (!s.pip.recovery.locked ==>
                  t.pip.recovery == LockRecovery(true, if Shown(s.pip, w) then Some(s.pip.generation) else None,
                                                 s.pip.enabled && UnderWay(s.pip)))
            && (t.pip.generation == s.pip.generation <==> !s.pip.starting)
  {
    hide AudioSafety.Inv, A.SettlePipStart;
  }

  /** Locked and unlocked again without a visit: the client starts again exactly for a start that was under
      way, or a session that was shown and was not handed to the system anew, which is no longer shown. */
  lemma LockedSessionComesBackIff(s: System, w: World, v: World, works: nat -> bool)
    requires Inv(s) && !s.pip.recovery.locked && !v.audio.foreground
    ensures var t := Step(s, Locked, w, works);
            Began(t.pip, Step(t, Unlocked, v, works).pip) <==>
            && MayRestart(t.pip, v) && ((s.pip.enabled && UnderWay(s.pip)) || (Shown(s.pip, w) && !s.pip.starting))
  {
    LockRemembers(s, w, works);
    LockedKeepsInv(s, w, works);
    hide Inv, DeviceLocked, DeviceUnlocked, MayRestart;
    UnlockStartsIff(Step(s, Locked, w, works), v, works);
  }

  // ---- recovery after a stop ----

  predicate MayRecover(p: Pip, failed: bool, w: World) {
    && !failed && p.enabled && w.audio.foreground && !p.stopRecoveryUsed
    && w.supported && !p.locked && w.audio.unlocked && w.makes
  }

  /** After the system has stopped the controller the client starts again exactly without an error, in the
      foreground, on an enabled and unlocked client whose system makes a controller, and once in a visit. */
  lemma StopRecoversIff(s: System, controller: nat, failed: bool, w: World, works: nat -> bool)
    requires Inv(s) && s.pip.controller == Some(controller)
    ensures var t := Step(s, ControllerStopped(controller, failed), w, works);
            && (UnderWay(t.pip) <==> MayRecover(s.pip, failed, w))
            && (UnderWay(t.pip) ==> Began(s.pip, t.pip) && t.pip.stopRecoveryUsed)
  {
    hide AudioSafety.Inv, A.SettlePipStart, SettleAudio;
  }

  predicate Recovers(s: System, e: Event, w: World, works: nat -> bool)
    requires Possible(s, e)
  {
    e.ControllerStopped? && s.pip.controller == Some(e.controller) && UnderWay(Step(s, e, w, works).pip)
  }

  ghost function Recoveries(s: System, es: seq<Moment>, works: nat -> bool): nat
    requires Admissible(s, es, works)
    decreases |es|
  {
    if es == [] then 0
    else (if Recovers(s, es[0].event, es[0].world, works) then 1 else 0)
         + Recoveries(Step(s, es[0].event, es[0].world, works), es[1..], works)
  }

  // No new visit to the foreground on the run.
  ghost predicate NoVisit(s: System, es: seq<Moment>, works: nat -> bool)
    requires Admissible(s, es, works)
    decreases |es|
  {
    es == []
    || (!(es[0].event == ForegroundMoved(true) && !s.pip.inForeground)
        && NoVisit(Step(s, es[0].event, es[0].world, works), es[1..], works))
  }

  lemma AttemptKeepsFlags(s: System, w: World, works: nat -> bool)
    ensures AttemptStart(s, w, works).pip.stopRecoveryUsed == s.pip.stopRecoveryUsed
  {}

  lemma StartKeepsUsed(p: Pip, w: World)
    ensures StartIfPossible(p, w).stopRecoveryUsed == p.stopRecoveryUsed
    ensures MakeControllerIfNeeded(p, w).stopRecoveryUsed == p.stopRecoveryUsed
  {}

  lemma StoppedKeepsUsed(s: System, controller: nat, failed: bool, w: World, works: nat -> bool)
    ensures s.pip.stopRecoveryUsed ==> HandleStopped(s, controller, failed, w, works).pip.stopRecoveryUsed
  {
    hide SettleAudio, StartIfPossible;
  }

  lemma UsedStays(s: System, e: Event, w: World, works: nat -> bool)
    requires Inv(s) && Possible(s, e) && !(e == ForegroundMoved(true) && !s.pip.inForeground)
    ensures s.pip.stopRecoveryUsed ==> Step(s, e, w, works).pip.stopRecoveryUsed
  {
    hide Inv, SettleAudio, Restart, AttemptStart, StartIfPossible, MakeControllerIfNeeded, HandleStopped, A.Step;
    match e
    case ForegroundMoved(foreground) =>
      if foreground { VisitStartsIff(s, w, works); } else { StartKeepsUsed(MoveTo(s.pip, false), w); }
    case Unlocked => RestartKeepsFlags(s.(pip := s.pip.(locked := false, recovery := Fresh)), w, works);
    case TurnCame(_) => AttemptKeepsFlags(s, w, works);
    case Attached => StartKeepsUsed(s.pip, w); AttemptKeepsFlags(s.(pip := MakeControllerIfNeeded(s.pip, w)), w, works);
    case StartAsked => StartKeepsUsed(s.pip, w);
    case Armed => StartKeepsUsed(s.pip.(enabled := true, recovery := Fresh, locked := !w.audio.unlocked), w);
    case ControllerStopped(_, _) => StoppedKeepsUsed(s, e.controller, e.failed, w, works);
    case _ =>
  }

  /** Without a new visit to the foreground the client recovers from a stop at most once, however often the
      system stops it and whatever else happens. */
  lemma {:induction false} RecoversOncePerVisit(s: System, es: seq<Moment>, works: nat -> bool)
    requires Inv(s) && Admissible(s, es, works) && NoVisit(s, es, works)
    ensures Recoveries(s, es, works) <= if s.pip.stopRecoveryUsed then 0 else 1
    decreases |es|
  {
    if es != [] {
      var e, w := es[0].event, es[0].world;
      var t := Step(s, e, w, works);
      StepKeepsInv(s, e, w, works);
      UsedStays(s, e, w, works);
      if e.ControllerStopped? && s.pip.controller == Some(e.controller) {
        StopRecoversIff(s, e.controller, e.failed, w, works);
      }
      hide Inv, Step, UnderWay, Began;
      RecoversOncePerVisit(t, es[1..], works);
    }
  }

  // ---- the turn that starts ----

  // The audio owner grants a start, or needs to do nothing for it.
  predicate Granted(s: A.Audio, w: A.World, works: nat -> bool) {
    && s.activation.Some? && w.permission && w.unlocked && !s.locked && !s.interrupted && s.mediaServices
    && (s.capture.Some? || s.playback.Some? || works(|s.calls|))
  }

  /** A turn of the current sequence hands the start to the system exactly when nothing is shown, the device
      is unlocked, the view is attached, the audio owner has been or is prepared and the system is willing. */
  lemma TurnStartsIff(s: System, id: nat, w: World, works: nat -> bool)
    requires Inv(s) && s.pip.waits.retryTask == Some(id)
    requires id in s.pip.waits.tasks && s.pip.waits.tasks[id].left > 0
    ensures Step(s, TurnCame(id), w, works).pip.starting <==>
            && !Shown(s.pip, w) && !s.pip.locked && w.audio.unlocked && w.attached && w.possible
            && (s.pip.prepared || Granted(s.audio, w.audio, works))
  {
    AudioGrants.PreparedIff(s.audio, w.audio, works);
    hide AudioSafety.Inv, A.PreparePipStart;
  }
}

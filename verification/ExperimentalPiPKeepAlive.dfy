/** The class of ios/App/ExperimentalPiPKeepAlive.swift with the audio owner it prepares and settles.
    `TurnCame` and `TimedOut` are the resumptions of its two delayed tasks. */
module ExperimentalPiPKeepAliveClass {
  import opened Options
  import A = AudioOwnership
  import P = PipStart
  import opened PipSafety
  import R = PipRecovery
  import opened NoJumpAudioSessionClass

  class ExperimentalPiPKeepAlive {
    var controller: Option<nat>
    var retryTask: Option<nat>
    var startTimeout: Option<nat>
    var enabled: bool
    var starting: bool
    var protectedDataUnavailable: bool
    var lockRecovery: P.LockRecovery
    var audioPrepared: bool
    var inForeground: bool
    var foregroundStopRecoveryUsed: bool
    var generation: nat
    // The tasks that have not returned and the next fresh number.
    var tasks: map<nat, P.StartTask>
    var timeouts: map<nat, P.TimeoutTask>
    var next: nat
    const audio: NoJumpAudioSession
    ghost var prepares: nat
    ghost var settles: nat

    ghost function Pip(): P.Pip
      reads this
    {
      P.Pip(enabled, controller, starting, protectedDataUnavailable, audioPrepared, generation,
            P.Waits(retryTask, tasks, startTimeout, timeouts), lockRecovery, inForeground,
            foregroundStopRecoveryUsed, next)
    }

    ghost function View(): P.System
      reads this, audio
    {
      P.System(Pip(), audio.View(), prepares, settles)
    }

    ghost predicate Valid()
      reads this, audio
    {
      Inv(View()) && audio.Valid()
    }

    constructor (audio: NoJumpAudioSession)
      requires audio.Valid() && audio.View() == A.Asleep
      ensures Valid() && View() == P.Initial && this.audio == audio
    {
      controller, retryTask, startTimeout, enabled, starting := None, None, None, false, false;
      protectedDataUnavailable, lockRecovery, audioPrepared := false, P.Fresh, false;
      inForeground, foregroundStopRecoveryUsed, generation := false, false, 0;
      tasks, timeouts, next := map[], map[], 1;
      this.audio := audio;
      prepares, settles := 0, 0;
    }

    predicate IsActive(w: P.World)
      reads this
    {
      controller.Some? && w.active
    }

    predicate IsRecovering()
      reads this
    {
      enabled && (starting || retryTask.Some?)
    }

    method CancelRetry()
      modifies this`retryTask, this`tasks
      ensures Pip() == old(Pip()).(waits := P.CancelRetry(old(Pip().waits)))
    {
      if retryTask.Some? && retryTask.value in tasks {
        tasks := tasks[retryTask.value := tasks[retryTask.value].(cancelled := true)];
      }
      retryTask := None;
    }

    method CancelTimeout()
      modifies this`startTimeout, this`timeouts
      ensures Pip() == old(Pip()).(waits := P.CancelTimeout(old(Pip().waits)))
    {
      if startTimeout.Some? && startTimeout.value in timeouts {
        timeouts := timeouts[startTimeout.value := timeouts[startTimeout.value].(cancelled := true)];
      }
      startTimeout := None;
    }

    method CancelBoth()
      modifies this`retryTask, this`tasks, this`startTimeout, this`timeouts
      ensures Pip() == old(Pip()).(waits := P.CancelTimeout(P.CancelRetry(old(Pip().waits))))
    {
      CancelRetry();
      CancelTimeout();
    }

    method MakeControllerIfNeeded(w: P.World)
      modifies this`controller, this`next
      ensures Pip() == P.MakeControllerIfNeeded(old(Pip()), w)
    {
      if controller.None? && enabled && w.supported && w.makes {
        controller := Some(next);
        next := next + 1;
      }
    }

    method StartTask()
      modifies this`retryTask, this`tasks, this`next
      ensures Pip() == old(Pip()).(waits := old(Pip().waits).(retryTask := Some(old(next)),
                tasks := old(tasks)[old(next) := P.StartTask(old(generation), P.TURNS, false)]), next := old(next) + 1)
    {
      retryTask := Some(next);
      tasks := tasks[next := P.StartTask(generation, P.TURNS, false)];
      next := next + 1;
    }

    method StartWhenPossible(w: P.World)
      modifies this`controller, this`retryTask, this`tasks, this`next
      ensures Pip() == P.StartIfPossible(old(Pip()), w)
    {
      hide Inv, NoJumpAudioSession.View, NoJumpAudioSession.Valid;
      if enabled && w.supported && !IsActive(w) && !IsRecovering() && !protectedDataUnavailable && w.audio.unlocked {
        MakeControllerIfNeeded(w);
        if controller.Some? { StartTask(); }
      }
    }

    method SettleAudio(w: P.World)
      requires audio.Valid()
      modifies this`audioPrepared, this`settles, audio
      ensures audio.Valid() && View() == P.SettleAudio(old(View()), audio.works)
    {
      hide A.SettlePipStart, A.ReleaseIdle;
      if audioPrepared {
        audioPrepared := false;
        settles := settles + 1;
        audio.SettlePiPStart(w.audio);
      }
    }

    method DisposeController(w: P.World)
      requires audio.Valid()
      modifies this, audio
      ensures audio.Valid() && View() == P.DisposeController(old(View()), audio.works)
    {
      hide A.SettlePipStart, P.SettleAudio;
      Dispose();
      SettleAudio(w);
    }

    method Dispose()
      modifies this
      ensures Pip() == P.Dispose(old(Pip())) && prepares == old(prepares) && settles == old(settles)
    {
      generation := next;
      next := next + 1;
      CancelBoth();
      starting := false;
      controller := None;
    }

    method Prepare(w: P.World)
      requires audio.Valid()
      modifies this`audioPrepared, this`prepares, this`retryTask, this`tasks, audio
      ensures audio.Valid() && View() == P.Prepare(old(View()), w, audio.works)
    {
      hide A.PreparePipStart;
      if !audioPrepared {
        var ok := audio.PreparePiPStart(w.audio);
        if ok {
          audioPrepared := true;
          prepares := prepares + 1;
        } else {
          CancelRetry();
        }
      }
    }

    method BeginStart()
      modifies this
      ensures Pip() == P.BeginStart(old(Pip())) && prepares == old(prepares) && settles == old(settles)
    {
      CancelRetry();
      starting := true;
      startTimeout := Some(next);
      timeouts := timeouts[next := P.TimeoutTask(generation, false)];
      next := next + 1;
    }

    method AttemptStart(w: P.World)
      requires audio.Valid()
      modifies this, audio
      ensures audio.Valid() && View() == P.AttemptStart(old(View()), w, audio.works)
    {
      hide P.Prepare, P.BeginStart;
      if !enabled || starting || IsActive(w) || protectedDataUnavailable || !w.audio.unlocked || controller.None?
         || !w.attached { return; }
      Prepare(w);
      // A refusal returns from the source's method.
      if audioPrepared && w.possible { BeginStart(); }
    }

    lemma Keeps(e: P.Event, w: P.World)
      requires Valid() && P.Possible(View(), e)
      ensures Inv(P.Step(View(), e, w, audio.works))
    {
      StepKeepsInv(View(), e, w, audio.works);
    }

    method Arm(w: P.World)
      requires Valid()
      modifies this
      ensures Valid() && View() == P.Step(old(View()), P.Armed, w, audio.works)
      ensures enabled && audioPrepared == old(audioPrepared)
    {
      hide Inv, NoJumpAudioSession.View, NoJumpAudioSession.Valid;
      Keeps(P.Armed, w);
      if enabled { return; }
      enabled := true;
      lockRecovery := P.Fresh;
      protectedDataUnavailable := !w.audio.unlocked;
      MakeControllerIfNeeded(w);
    }

    method StartIfPossible(w: P.World)
      requires Valid()
      modifies this
      ensures Valid() && View() == P.Step(old(View()), P.StartAsked, w, audio.works)
      ensures audioPrepared == old(audioPrepared) && starting == old(starting)
    {
      hide Inv, NoJumpAudioSession.View, NoJumpAudioSession.Valid, P.StartIfPossible;
      Keeps(P.StartAsked, w);
      StartWhenPossible(w);
    }

    method SourceAttached(w: P.World)
      requires Valid()
      modifies this, audio
      ensures Valid() && View() == P.Step(old(View()), P.Attached, w, audio.works)
      ensures !old(enabled) ==> View() == old(View())
    {
      hide Inv, NoJumpAudioSession.View, NoJumpAudioSession.Valid, P.AttemptStart, P.MakeControllerIfNeeded;
      Keeps(P.Attached, w);
      if !enabled { return; }
      MakeControllerIfNeeded(w);
      if retryTask.Some? { AttemptStart(w); }
    }

    // One turn of the start sequence.
    method TurnCame(id: nat, w: P.World)
      requires Valid() && id in tasks
      modifies this, audio
      ensures Valid() && View() == P.Step(old(View()), P.TurnCame(id), w, audio.works)
      ensures old(tasks[id].cancelled || tasks[id].generation != generation) ==>
                audioPrepared == old(audioPrepared) && starting == old(starting) && audio.View() == old(audio.View())
    {
      hide Inv, NoJumpAudioSession.View, NoJumpAudioSession.Valid, P.AttemptStart, P.SettleAudio;
      Keeps(P.TurnCame(id), w);
      var mine := !tasks[id].cancelled && generation == tasks[id].generation;
      if tasks[id].left == 0 {
        ReturnTask(id);
        if mine {
          retryTask := None;
          SettleAudio(w);
        }
      } else if !mine || !enabled || protectedDataUnavailable {
        ReturnTask(id);
      } else {
        AttemptStart(w);
        if starting || (controller.Some? && w.activeAfter) { ReturnTask(id); } else { CountTurn(id); }
      }
    }

    method ReturnTask(id: nat)
      modifies this`tasks
      ensures Pip() == P.ReturnTask(old(Pip()), id)
    {
      tasks := tasks - {id};
    }

    method CountTurn(id: nat)
      requires id in tasks && tasks[id].left > 0
      modifies this`tasks
      ensures Pip() == P.CountTurn(old(Pip()), id)
    {
      tasks := tasks[id := tasks[id].(left := tasks[id].left - 1)];
    }

    method TimedOut(id: nat, w: P.World)
      requires Valid() && id in timeouts
      modifies this, audio
      ensures Valid() && View() == P.Step(old(View()), P.TimedOut(id), w, audio.works)
      ensures id !in timeouts
    {
      hide Inv, NoJumpAudioSession.View, NoJumpAudioSession.Valid, P.DisposeController;
      Keeps(P.TimedOut(id), w);
      var task := timeouts[id];
      timeouts := timeouts - {id};
      if !task.cancelled && generation == task.generation && starting { DisposeController(w); }
    }

    method Stop(w: P.World)
      requires Valid()
      modifies this, audio
      ensures Valid() && View() == P.Step(old(View()), P.Stopped, w, audio.works)
      ensures !enabled && controller.None? && !audioPrepared && retryTask.None? && startTimeout.None?
    {
      hide Inv, NoJumpAudioSession.View, NoJumpAudioSession.Valid, P.DisposeController;
      Keeps(P.Stopped, w);
      enabled := false;
      lockRecovery := P.Fresh;
      DisposeController(w);
    }

    method Restart(w: P.World)
      requires audio.Valid()
      modifies this, audio
      ensures audio.Valid() && View() == P.Restart(old(View()), w, audio.works)
    {
      hide P.DisposeController, P.StartIfPossible;
      if !IsRecovering() && controller.Some? { DisposeController(w); }
      StartWhenPossible(w);
    }

    method ForegroundChanged(foreground: bool, w: P.World)
      requires Valid()
      modifies this, audio
      ensures Valid() && View() == P.Step(old(View()), P.ForegroundMoved(foreground), w, audio.works)
      ensures !old(enabled) ==> audioPrepared == old(audioPrepared) && audio.View() == old(audio.View())
      ensures foreground ==> (R.Began(old(Pip()), Pip()) <==> R.MayRestart(old(Pip()), w))
    {
      R.VisitStartsIff(View(), w, audio.works);
      hide R.Began, R.MayRestart;
      hide Inv, NoJumpAudioSession.View, NoJumpAudioSession.Valid, P.Visited, P.StartIfPossible, P.MoveTo;
      Keeps(P.ForegroundMoved(foreground), w);
      MoveTo(foreground);
      if !enabled { return; }
      if foreground { Visited(w); } else if !w.inBackground { StartWhenPossible(w); }
    }

    method MoveTo(foreground: bool)
      modifies this`inForeground, this`foregroundStopRecoveryUsed
      ensures Pip() == P.MoveTo(old(Pip()), foreground)
    {
      if foreground && !inForeground { foregroundStopRecoveryUsed := false; }
      inForeground := foreground;
    }

    method Visited(w: P.World)
      requires audio.Valid()
      modifies this, audio
      ensures audio.Valid() && View() == P.Visited(old(View()), w, audio.works)
    {
      hide NoJumpAudioSession.View, NoJumpAudioSession.Valid, P.Restart;
      protectedDataUnavailable := !w.audio.unlocked;
      if !IsActive(w) { Restart(w); }
    }

    method ProtectedDataWillLock(w: P.World)
      requires Valid()
      modifies this, audio
      ensures Valid() && View() == P.Step(old(View()), P.Locked, w, audio.works)
      ensures protectedDataUnavailable && !audioPrepared && !starting && retryTask.None?
    {
      hide Inv, NoJumpAudioSession.View, NoJumpAudioSession.Valid, P.DisposeController, P.SettleAudio,
        P.CancelRetry, P.CancelTimeout, P.LockDown;
      Keeps(P.Locked, w);
      LockDown(w);
      if starting { DisposeController(w); }
      SettleAudio(w);
    }

    method LockDown(w: P.World)
      modifies this`protectedDataUnavailable, this`lockRecovery, this`retryTask, this`tasks
      ensures Pip() == P.LockDown(old(Pip()), w) && retryTask.None? && protectedDataUnavailable
    {
      protectedDataUnavailable := true;
      lockRecovery := P.DidLock(lockRecovery, generation, IsActive(w), IsRecovering());
      CancelRetry();
    }

    method ProtectedDataDidUnlock(w: P.World)
      requires Valid()
      modifies this, audio
      ensures Valid() && View() == P.Step(old(View()), P.Unlocked, w, audio.works)
      ensures !old(enabled) ==> !protectedDataUnavailable && audio.View() == old(audio.View())
      ensures R.Began(old(Pip()), Pip()) <==> old(R.MayRestart(Pip(), w) && (w.audio.foreground || R.Lost(Pip())))
    {
      R.UnlockStartsIff(View(), w, audio.works);
      hide R.Began, R.MayRestart, R.Lost;
      hide Inv, NoJumpAudioSession.View, NoJumpAudioSession.Valid, P.Restart;
      Keeps(P.Unlocked, w);
      protectedDataUnavailable := false;
      var recover := P.NeedsRecovery(lockRecovery, generation, IsActive(w));
      lockRecovery := P.Fresh;
      if enabled && !IsActive(w) && (recover || w.audio.foreground) { Restart(w); }
    }

    method HandleStarted(identity: nat, w: P.World)
      requires Valid()
      modifies this, audio
      ensures Valid() && View() == P.Step(old(View()), P.ControllerStarted(identity), w, audio.works)
      ensures old(controller) == Some(identity) && old(enabled) ==> !starting && !audioPrepared && retryTask.None?
    {
      hide Inv, NoJumpAudioSession.View, NoJumpAudioSession.Valid, P.SettleAudio, P.CancelRetry, P.CancelTimeout;
      Keeps(P.ControllerStarted(identity), w);
      if controller != Some(identity) || !enabled { return; }
      starting := false;
      CancelBoth();
      SettleAudio(w);
    }

    method HandleStopped(identity: nat, failed: bool, w: P.World)
      requires Valid()
      modifies this, audio
      ensures Valid() && View() == P.Step(old(View()), P.ControllerStopped(identity, failed), w, audio.works)
      ensures old(controller) != Some(identity) ==> View() == old(View())
      ensures old(controller) == Some(identity) ==> (R.UnderWay(Pip()) <==> R.MayRecover(old(Pip()), failed, w))
    {
      if controller == Some(identity) {
        R.StopRecoversIff(View(), identity, failed, w, audio.works);
      } else {
        StaleEventsAreInert(View(), identity, failed, 0, w, audio.works);
      }
      hide R.UnderWay, R.MayRecover, R.Began;
      hide Inv, NoJumpAudioSession.View, NoJumpAudioSession.Valid, P.HandleStopped;
      Keeps(P.ControllerStopped(identity, failed), w);
      if controller == Some(identity) { EndStopped(identity, failed, w); }
    }

    method EndStopped(identity: nat, failed: bool, w: P.World)
      requires audio.Valid() && controller == Some(identity)
      modifies this, audio
      ensures audio.Valid() && View() == P.HandleStopped(old(View()), identity, failed, w, audio.works)
    {
      hide NoJumpAudioSession.View, NoJumpAudioSession.Valid, P.DisposeController, P.RecoverOnce;
      if enabled { lockRecovery := P.DidStop(lockRecovery, generation); }
      DisposeController(w);
      if !failed { RecoverOnce(w); }
    }

    method RecoverOnce(w: P.World)
      modifies this
      ensures Pip() == P.RecoverOnce(old(Pip()), w) && prepares == old(prepares) && settles == old(settles)
    {
      hide P.StartIfPossible;
      if enabled && w.audio.foreground && !foregroundStopRecoveryUsed {
        foregroundStopRecoveryUsed := true;
        StartWhenPossible(w);
      }
    }
  }
}

/** The class of ios/App/NoJumpAudioSession.swift. `RetryTask` wake-ups are the turns of its delayed
    release loop; the driver is `works`, which says how each successive call ends. */
module NoJumpAudioSessionClass {
  import opened Options
  import opened A = AudioOwnership
  import opened AudioSafety
  import Grants = AudioGrants

  class NoJumpAudioSession {
    var activationGeneration: Option<nat>
    var captureToken: Option<nat>
    var playbackToken: Option<nat>
    var releaseTask: Option<nat>
    var releaseRevision: nat
    var preparingPiP: bool
    var systemInterrupted: bool
    var protectedDataUnavailable: bool
    var mediaServicesAvailable: bool
    var ownsAudioSession: bool
    // The retry tasks that have not returned, the next fresh numbers, and the driver's history.
    var tasks: map<nat, RetryTask>
    var nextTask: nat
    var issued: nat
    ghost var calls: seq<Call>
    ghost var mayBeActive: bool
    const works: nat -> bool
    var made: nat

    ghost function Delayed(): Retry
      reads this
    {
      Retry(releaseTask, releaseRevision, tasks, nextTask)
    }

    ghost function View(): Audio
      reads this
    {
      Audio(activationGeneration, captureToken, playbackToken, preparingPiP, systemInterrupted,
            protectedDataUnavailable, mediaServicesAvailable, ownsAudioSession, Delayed(), issued, calls, mayBeActive)
    }

    ghost predicate Valid()
      reads this
    {
      Inv(View()) && Counting()
    }

    ghost predicate Counting()
      reads this
    {
      made == |calls|
    }

    constructor (works: nat -> bool)
      ensures Valid() && View() == Asleep && this.works == works
    {
      activationGeneration, captureToken, playbackToken, releaseTask, releaseRevision := None, None, None, None, 0;
      preparingPiP, systemInterrupted, protectedDataUnavailable, mediaServicesAvailable := false, false, false, true;
      ownsAudioSession, tasks, nextTask, issued, calls, mayBeActive, made := false, map[], 1, 0, [], false, 0;
      this.works := works;
    }

    predicate Idle()
      reads this
    {
      captureToken.None? && playbackToken.None? && !preparingPiP
    }

    method Drive(kind: CallKind, ghost caller: Option<nat>) returns (ok: bool)
      requires Counting()
      modifies this`calls, this`mayBeActive, this`made
      ensures Counting() && (View(), ok) == A.Drive(old(View()), kind, caller, works)
    {
      ok := works(made);
      made := made + 1;
      mayBeActive := if kind == Release then mayBeActive && !ok else true;
      calls := calls + [Call(kind, ok, caller)];
    }

    method CancelIdleRelease()
      modifies this`releaseRevision, this`releaseTask, this`tasks, this`nextTask
      ensures View() == A.CancelIdleRelease(old(View()))
    {
      releaseRevision := nextTask;
      nextTask := nextTask + 1;
      if releaseTask.Some? && releaseTask.value in tasks {
        tasks := tasks[releaseTask.value := tasks[releaseTask.value].(cancelled := true)];
      }
      releaseTask := None;
    }

    method ScheduleIdleRelease()
      modifies this`releaseTask, this`tasks, this`nextTask
      ensures View() == old(View()).(retry := ScheduleRetry(old(Delayed())))
    {
      if releaseTask.Some? { return; }
      tasks := tasks[nextTask := RetryTask(releaseRevision, 0, false)];
      releaseTask := Some(nextTask);
      nextTask := nextTask + 1;
    }

    method ReleaseIdleAudio(scheduleRetry: bool, ghost caller: Option<nat>)
      requires Counting() && (scheduleRetry <==> caller.None?)
      modifies this
      ensures Counting() && View() == A.ReleaseIdle(old(View()), caller, works)
    {
      if !Idle() || !ownsAudioSession { return; }
      var ok := Drive(Release, caller);
      if ok {
        ownsAudioSession := false;
        CancelIdleRelease();
      } else if scheduleRetry {
        ScheduleIdleRelease();
      }
    }

    method Activate(w: World)
      requires Valid()
      modifies this
      ensures Valid() && View() == A.Step(old(View()), Activated, w, works)
      ensures captureToken == old(captureToken) && playbackToken == old(playbackToken)
      ensures ownsAudioSession == old(ownsAudioSession)
    {
      KeepsInv(Activated, w);
      if w.foreground && w.permission && w.unlocked && !protectedDataUnavailable && !systemInterrupted
         && mediaServicesAvailable && captureToken.None? && playbackToken.None? && activationGeneration.None?
      {
        activationGeneration := Some(issued);
        issued := issued + 1;
      }
    }

    lemma KeepsInv(e: Event, w: World)
      requires Valid() && Possible(View(), e)
      ensures Inv(A.Step(View(), e, w, works))
    {
      StepKeepsInv(View(), e, w, works);
    }

    method Deactivate(w: World)
      requires Valid()
      modifies this
      ensures Valid() && View() == A.Step(old(View()), Deactivated, w, works)
      ensures activationGeneration.None? && !preparingPiP
    {
      KeepsInv(Deactivated, w);
      activationGeneration := None;
      preparingPiP := false;
      ReleaseIdleAudio(true, None);
    }

    method TakePiP() returns (ok: bool)
      requires Counting()
      modifies this
      ensures Counting() && (View(), ok) == A.TakePip(old(View()), works)
    {
      hide A.ReleaseIdle, A.Moves;
      CancelIdleRelease();
      ok := Drive(PreparePip, None);
      ownsAudioSession := true;
      if ok { preparingPiP := true; } else { ReleaseIdleAudio(true, None); }
    }

    method PreparePiPStart(w: World) returns (ok: bool)
      requires Valid()
      modifies this
      ensures Valid() && (View(), ok) == A.PreparePipStart(old(View()), w, works)
      ensures ok && captureToken.None? && playbackToken.None? ==> preparingPiP && ownsAudioSession
    {
      hide Inv, A.Moves, A.TakePip;
      KeepsInv(PipPrepared, w);
      if activationGeneration.None? || !w.permission || !w.unlocked || protectedDataUnavailable
         || systemInterrupted || !mediaServicesAvailable { return false; }
      if captureToken.Some? || playbackToken.Some? { return true; }
      ok := TakePiP();
    }

    method SettlePiPStart(w: World)
      requires Valid()
      modifies this
      ensures Valid() && View() == A.Step(old(View()), PipSettled, w, works)
      ensures !preparingPiP
    {
      KeepsInv(PipSettled, w);
      preparingPiP := false;
      ReleaseIdleAudio(true, None);
    }

    method ForegroundChanged(w: World)
      requires Valid()
      modifies this
      ensures Valid() && View() == A.Step(old(View()), ForegroundMoved, w, works)
      ensures captureToken == old(captureToken) && playbackToken == old(playbackToken) && preparingPiP == old(preparingPiP)
    {
      KeepsInv(ForegroundMoved, w);
      if !preparingPiP { ReleaseIdleAudio(true, None); }
    }

    method TakeCapture() returns (token: Option<nat>)
      requires Counting() && captureToken.None? && playbackToken.None?
      modifies this
      ensures Counting() && View() == A.TakeCapture(old(View()), works)
      ensures token == captureToken
    {
      hide A.ReleaseIdle, A.Moves;
      CancelIdleRelease();
      var ok := Drive(ConfigureCapture, None);
      ownsAudioSession := true;
      if ok {
        preparingPiP := false;
        captureToken, issued := Some(issued), issued + 1;
      } else {
        ReleaseIdleAudio(true, None);
      }
      token := captureToken;
    }

    method AcquireCapture(admission: Admission, w: World) returns (token: Option<nat>)
      requires Valid()
      modifies this
      ensures Valid() && View() == A.Step(old(View()), CaptureAsked(admission), w, works)
      ensures token.Some? <==> captureToken != old(captureToken)
      ensures token.Some? ==> token == captureToken && ownsAudioSession && playbackToken.None?
      ensures token.Some? <==> old(Grants.Free(View()) && Grants.Entitled(View(), w, admission) && works(|calls|)) && w.permission
    {
      Grants.CaptureGrantedIff(View(), admission, w, works);
      hide Inv, A.Activate, A.Deactivate, A.PreparePipStart, A.SettlePipStart, A.ReleaseCapture, A.AcquirePlayback,
        A.ReleasePlayback, A.HandleEvent, A.RetryWoke, A.TakeCapture, A.TakePlayback, A.Moves;
      KeepsInv(CaptureAsked(admission), w);
      if captureToken.Some? || playbackToken.Some? || !w.permission || systemInterrupted
         || !mediaServicesAvailable || !IsAdmitted(admission, w) { return None; }
      token := TakeCapture();
    }

    predicate IsAdmitted(admission: Admission, w: World)
      reads this
      ensures IsAdmitted(admission, w) <==> A.Admits(View(), w, admission)
    {
      match admission
      case Foreground => w.foreground
      case System => true
      case Keyboard(generation) => Some(generation) == activationGeneration && IsReady(w) && w.background
    }

    predicate IsReady(w: World)
      reads this
      ensures IsReady(w) <==> A.Ready(View(), w)
    {
      activationGeneration.Some? && w.permission && w.unlocked && !protectedDataUnavailable
      && !systemInterrupted && mediaServicesAvailable && playbackToken.None?
      && !(ownsAudioSession && captureToken.None? && !preparingPiP)
      && (w.foreground || w.background)
    }

    method ReleaseCapture(token: nat, w: World)
      requires Valid()
      modifies this
      ensures Valid() && View() == A.Step(old(View()), CaptureReleased(token), w, works)
      ensures captureToken != Some(token) && playbackToken == old(playbackToken)
    {
      KeepsInv(CaptureReleased(token), w);
      DropCapture(token);
    }

    method DropCapture(token: nat)
      requires Counting()
      modifies this
      ensures Counting() && View() == A.ReleaseCapture(old(View()), token, works)
    {
      if captureToken != Some(token) { return; }
      captureToken := None;
      preparingPiP := false;
      ReleaseIdleAudio(true, None);
    }

    method TakePlayback() returns (token: Option<nat>)
      requires Counting() && captureToken.None? && playbackToken.None?
      modifies this
      ensures Counting() && View() == A.TakePlayback(old(View()), works)
      ensures token == playbackToken
    {
      hide A.ReleaseIdle, A.Moves;
      CancelIdleRelease();
      var ok := Drive(ConfigurePlayback, None);
      ownsAudioSession := true;
      if ok {
        preparingPiP := false;
        playbackToken, issued := Some(issued), issued + 1;
      } else {
        ReleaseIdleAudio(true, None);
      }
      token := playbackToken;
    }

    method AcquirePlayback(w: World) returns (token: Option<nat>)
      requires Valid()
      modifies this
      ensures Valid() && View() == A.Step(old(View()), PlaybackAsked, w, works)
      ensures token.Some? <==> playbackToken != old(playbackToken)
      ensures token.Some? ==> token == playbackToken && ownsAudioSession && captureToken.None?
      ensures token.Some? <==> old(Grants.Free(View()) && works(|calls|))
    {
      Grants.PlaybackGrantedIff(View(), w, works);
      hide Inv, A.Activate, A.Deactivate, A.PreparePipStart, A.SettlePipStart, A.AcquireCapture, A.ReleaseCapture,
        A.ReleasePlayback, A.HandleEvent, A.RetryWoke, A.TakeCapture, A.TakePlayback, A.Moves;
      KeepsInv(PlaybackAsked, w);
      if captureToken.Some? || playbackToken.Some? || systemInterrupted || !mediaServicesAvailable { return None; }
      token := TakePlayback();
    }

    method ReleasePlayback(token: nat, w: World)
      requires Valid()
      modifies this
      ensures Valid() && View() == A.Step(old(View()), PlaybackReleased(token), w, works)
      ensures playbackToken != Some(token) && captureToken == old(captureToken)
    {
      KeepsInv(PlaybackReleased(token), w);
      if playbackToken != Some(token) { return; }
      playbackToken := None;
      ReleaseIdleAudio(true, None);
    }

    // The callback is the application's; it may call back into `ReleaseCapture`.
    method InterruptCapture(callbackReleases: bool)
      requires Counting()
      modifies this
      ensures Counting() && View() == A.InterruptCapture(old(View()), callbackReleases, works)
    {
      preparingPiP := false;
      if captureToken.Some? && callbackReleases { DropCapture(captureToken.value); }
    }

    method HandleEvent(n: Notification, callbackReleases: bool, w: World)
      requires Valid()
      modifies this
      ensures Valid() && View() == A.Step(old(View()), SystemNotified(n, callbackReleases), w, works)
      ensures playbackToken == old(playbackToken) && activationGeneration == old(activationGeneration)
    {
      KeepsInv(SystemNotified(n, callbackReleases), w);
      Grants.NotificationSparesTokens(View(), n, callbackReleases, w, works);
      HandleNow(n, callbackReleases);
    }

    method HandleNow(n: Notification, callbackReleases: bool)
      requires Counting()
      modifies this
      ensures Counting() && View() == A.HandleEvent(old(View()), n, callbackReleases, works)
    {
      hide A.React, A.Moves, A.ReleaseIdle;
      if n == BecameInactive(true) { return; }
      if n == MediaServicesReset || n == BecameInactive(false) { mayBeActive := false; }
      React(n, callbackReleases);
      if !preparingPiP { ReleaseIdleAudio(true, None); }
    }

    method React(n: Notification, callbackReleases: bool)
      requires Counting()
      modifies this
      ensures Counting() && View() == A.React(old(View()), n, callbackReleases, works)
    {
      hide A.InterruptCapture, A.Moves;
      match n {
        case DidUnlock => protectedDataUnavailable := false;
        case InterruptionEnded => systemInterrupted := false;
        case RouteChanged(disruptive) =>
          if disruptive { InterruptCapture(callbackReleases); }
        case Unrelated =>
        case _ => ReactToLoss(n, callbackReleases);
      }
    }

    // The notifications that interrupt a capture and set a flag.
    method ReactToLoss(n: Notification, callbackReleases: bool)
      requires Counting() && A.Interrupts(n) && !n.RouteChanged?
      modifies this
      ensures Counting() && View() == A.React(old(View()), n, callbackReleases, works)
    {
      hide A.InterruptCapture, A.Moves;
      match n {
        case WillLock => protectedDataUnavailable := true;
        case MediaServicesLost => mediaServicesAvailable := false;
        case InterruptionBegan => systemInterrupted := true;
        case BecameInactive(_) => ownsAudioSession := false;
        case _ =>
      }
      InterruptCapture(callbackReleases);
      if n == MediaServicesReset { mediaServicesAvailable, systemInterrupted, ownsAudioSession := true, false, false; }
    }

    method Attempt(id: nat, revision: nat)
      requires Counting() && id in tasks && tasks[id].revision == revision
      modifies this
      ensures Counting() && View() == A.Attempt(old(View()), id, works)
    {
      hide A.ReleaseIdle, A.Moves;
      ReleaseIdleAudio(false, Some(id));
      var attempts := tasks[id].attempts + 1;
      tasks := tasks[id := tasks[id].(attempts := attempts)];
      if !ownsAudioSession || attempts == MAX_ATTEMPTS { ReturnFrom(id, revision); }
    }

    // One turn of the delayed release, from the end of its sleep to the next sleep or its return.
    method RetryTaskWoke(id: nat, threw: bool, w: World)
      requires Valid() && Possible(View(), Event.RetryTaskWoke(id, threw))
      modifies this
      ensures Valid() && View() == A.Step(old(View()), Event.RetryTaskWoke(id, threw), w, works)
      ensures captureToken == old(captureToken) && playbackToken == old(playbackToken) && preparingPiP == old(preparingPiP)
    {
      hide Inv, A.Activate, A.Deactivate, A.PreparePipStart, A.SettlePipStart, A.AcquireCapture, A.ReleaseCapture,
        A.AcquirePlayback, A.ReleasePlayback, A.HandleEvent, A.Attempt, A.Moves;
      KeepsInv(Event.RetryTaskWoke(id, threw), w);
      var revision := tasks[id].revision;
      if threw || releaseRevision != revision || !Idle() || !ownsAudioSession {
        ReturnFrom(id, revision);
        return;
      }
      Attempt(id, revision);
    }

    method ReturnFrom(id: nat, revision: nat)
      requires id in tasks && tasks[id].revision == revision
      modifies this`releaseTask, this`tasks
      ensures View() == old(View()).(retry := Return(old(Delayed()), id))
    {
      if releaseRevision == revision { releaseTask := None; }
      tasks := tasks - {id};
    }
  }
}

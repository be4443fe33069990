/** What every run of the audio owner keeps, whatever fails and whatever the system reports. */
module AudioSafety {
  import opened Options
  import opened AudioOwnership

  // The retry machine: only the task behind the handle is current, and it is neither cancelled nor
  // superseded; every other task that has not returned is both.
  ghost predicate RetryInv(r: Retry) {
    && r.revision < r.next
    && (forall id | id in r.tasks :: id < r.next && r.tasks[id].revision < r.next && r.tasks[id].attempts < MAX_ATTEMPTS)
    && (r.handle.Some? ==>
          r.handle.value in r.tasks && r.tasks[r.handle.value].revision == r.revision
          && !r.tasks[r.handle.value].cancelled)
    && (forall id | id in r.tasks && r.handle != Some(id) ::
          r.tasks[id].cancelled && r.tasks[id].revision != r.revision)
  }

  // How many releases a retry task has made.
  function CallsBy(calls: seq<Call>, id: nat): nat {
    if calls == [] then 0
    else CallsBy(calls[..|calls| - 1], id) + if calls[|calls| - 1].caller == Some(id) then 1 else 0
  }

  // Every live task has made the attempts it has counted, and no task ever makes more than three.
  ghost predicate Counted(r: Retry, calls: seq<Call>) {
    && (forall id | id in r.tasks :: CallsBy(calls, id) == r.tasks[id].attempts)
    && (forall id: nat :: CallsBy(calls, id) <= MAX_ATTEMPTS)
    && (forall id: nat | r.next <= id :: CallsBy(calls, id) == 0)
  }

  ghost predicate ReleaseFailedLast(calls: seq<Call>) {
    calls != [] && calls[|calls| - 1].kind == Release && !calls[|calls| - 1].ok
  }

  // What holds even inside a method that is about to release an idle session.
  ghost predicate Core(s: Audio) {
    && (s.mayBeActive ==> s.owns)
    && (s.capture.None? || s.playback.None?)
    && RetryInv(s.retry) && Counted(s.retry, s.calls)
    && (s.retry.handle.Some? ==> s.Idle())
  }

  ghost predicate Inv(s: Audio) {
    Core(s) && (s.owns && s.Idle() ==> ReleaseFailedLast(s.calls))
  }

  lemma ScheduleKeepsRetry(r: Retry)
    requires RetryInv(r)
    ensures RetryInv(ScheduleRetry(r))
  {}

  lemma CountCall(calls: seq<Call>, call: Call)
    ensures forall id: nat :: CallsBy(calls + [call], id) == CallsBy(calls, id) + if call.caller == Some(id) then 1 else 0
  {
    assert (calls + [call])[..|calls|] == calls;
  }

  lemma CancelKeepsCore(s: Audio)
    requires Core(s)
    ensures Core(CancelIdleRelease(s)) && CancelIdleRelease(s).retry.handle.None?
  {}

  // Configuring or preparing: no retry is under way, and the session is owned from then on.
  lemma DriveKeepsCore(s: Audio, kind: CallKind, works: nat -> bool)
    requires Core(s) && kind != Release
    ensures Core(Drive(s, kind, None, works).0.(owns := true))
  {
    CountCall(s.calls, Call(kind, works(|s.calls|), None));
  }

  /** The release that ends every method: from a state whose rules hold up to an idle session, it
      either gives the session up or leaves a failed release as the driver's last call. */
  lemma ReleaseSettles(s: Audio, works: nat -> bool)
    requires Core(s)
    ensures Inv(ReleaseIdle(s, None, works))
  {
    if s.Idle() && s.owns {
      CountCall(s.calls, Call(Release, works(|s.calls|), None));
      var (t, ok) := Drive(s, Release, None, works);
      if ok {
        CancelKeepsCore(t.(owns := false));
      } else {
        ScheduleKeepsRetry(t.retry);
      }
    }
  }

  lemma PrepareKeepsInv(s: Audio, w: World, works: nat -> bool)
    requires Inv(s)
    ensures Inv(PreparePipStart(s, w, works).0)
  {
    CancelKeepsCore(s);
    DriveKeepsCore(CancelIdleRelease(s), PreparePip, works);
    ReleaseSettles(Drive(CancelIdleRelease(s), PreparePip, None, works).0.(owns := true), works);
  }

  lemma AcquireCaptureKeepsInv(s: Audio, admission: Admission, w: World, works: nat -> bool)
    requires Inv(s)
    ensures Inv(AcquireCapture(s, admission, w, works))
  {
    CancelKeepsCore(s);
    DriveKeepsCore(CancelIdleRelease(s), ConfigureCapture, works);
    ReleaseSettles(Drive(CancelIdleRelease(s), ConfigureCapture, None, works).0.(owns := true), works);
  }

  lemma AcquirePlaybackKeepsInv(s: Audio, works: nat -> bool)
    requires Inv(s)
    ensures Inv(AcquirePlayback(s, works))
  {
    CancelKeepsCore(s);
    DriveKeepsCore(CancelIdleRelease(s), ConfigurePlayback, works);
    ReleaseSettles(Drive(CancelIdleRelease(s), ConfigurePlayback, None, works).0.(owns := true), works);
  }

  lemma ReleaseCaptureKeepsCore(s: Audio, token: nat, works: nat -> bool)
    requires Core(s)
    ensures Core(ReleaseCapture(s, token, works))
    ensures Inv(s) ==> Inv(ReleaseCapture(s, token, works))
  {
    if s.capture == Some(token) { ReleaseSettles(s.(capture := None, preparing := false), works); }
  }

  lemma InterruptKeepsCore(s: Audio, callbackReleases: bool, works: nat -> bool)
    requires Core(s)
    ensures Core(InterruptCapture(s, callbackReleases, works))
    ensures !s.owns ==> !InterruptCapture(s, callbackReleases, works).owns
    ensures !s.mayBeActive ==> !InterruptCapture(s, callbackReleases, works).mayBeActive
  {
    var t := s.(preparing := false);
    if t.capture.Some? && callbackReleases { ReleaseCaptureKeepsCore(t, t.capture.value, works); }
  }

  lemma ReactKeepsCore(s: Audio, n: Notification, callbackReleases: bool, works: nat -> bool)
    requires Core(s) && (n == MediaServicesReset || n == BecameInactive(false) ==> !s.mayBeActive)
    requires n != BecameInactive(true)
    ensures Core(React(s, n, callbackReleases, works))
  {
    hide InterruptCapture, RetryInv, Counted;
    InterruptKeepsCore(Flagged(s, n), callbackReleases, works);
  }

  /** A system event may find the session in any state: its handler ends with a release attempt that
      restores the rules, even when the interruption callback has released the capture inside it. */
  lemma HandleEventKeepsInv(s: Audio, n: Notification, callbackReleases: bool, works: nat -> bool)
    requires Inv(s)
    ensures Inv(HandleEvent(s, n, callbackReleases, works))
  {
    hide React, ReleaseIdle, RetryInv, Counted;
    if n != BecameInactive(true) {
      ReactKeepsCore(Ended(s, n), n, callbackReleases, works);
      ReleaseSettles(React(Ended(s, n), n, callbackReleases, works), works);
    }
  }

  lemma ReturnKeepsCore(s: Audio, id: nat)
    requires Core(s) && id in s.retry.tasks
    ensures Core(s.(retry := Return(s.retry, id)))
  {}

  // A retry task that still has attempts left has failed to release, and says so in the history.
  lemma FailedAttemptKeepsInv(s: Audio, id: nat)
    requires Inv(s) && s.retry.handle == Some(id) && s.owns
    ensures var r := s.retry.(tasks := s.retry.tasks[id := s.retry.tasks[id].(attempts := s.retry.tasks[id].attempts + 1)]);
            var t := s.(calls := s.calls + [Call(Release, false, Some(id))], retry := r);
            Inv(if r.tasks[id].attempts == MAX_ATTEMPTS then t.(retry := Return(r, id)) else t)
  {
    CountCall(s.calls, Call(Release, false, Some(id)));
  }

  lemma LastAttemptKeepsInv(s: Audio, id: nat)
    requires Inv(s) && s.retry.handle == Some(id) && s.owns
    ensures var r := CancelRetry(s.retry);
            Inv(s.(calls := s.calls + [Call(Release, true, Some(id))], mayBeActive := false, owns := false,
                   retry := r.(tasks := r.tasks - {id})))
  {
    CountCall(s.calls, Call(Release, true, Some(id)));
  }

  lemma AttemptKeepsInv(s: Audio, id: nat, works: nat -> bool)
    requires Inv(s) && s.retry.handle == Some(id) && s.owns
    ensures Inv(Attempt(s, id, works))
  {
    if works(|s.calls|) {
      LastAttemptKeepsInv(s, id);
      AttemptReleases(s, id, works);
    } else {
      FailedAttemptKeepsInv(s, id);
    }
  }

  lemma AttemptReleases(s: Audio, id: nat, works: nat -> bool)
    requires Inv(s) && s.retry.handle == Some(id) && s.owns && works(|s.calls|)
    ensures var r := CancelRetry(s.retry);
            Attempt(s, id, works)
            == s.(calls := s.calls + [Call(Release, true, Some(id))], mayBeActive := false, owns := false,
                  retry := r.(tasks := r.tasks - {id}))
  {
    var r := CancelRetry(s.retry);
    assert r.tasks[id := r.tasks[id].(attempts := s.retry.tasks[id].attempts + 1)] - {id} == r.tasks - {id};
  }

  lemma RetryKeepsInv(s: Audio, id: nat, threw: bool, works: nat -> bool)
    requires Inv(s) && Possible(s, RetryTaskWoke(id, threw))
    ensures Inv(RetryWoke(s, id, threw, works))
  {
    hide Attempt, Counted;
    if threw || s.retry.tasks[id].revision != s.retry.revision || !s.Idle() || !s.owns {
      ReturnKeepsCore(s, id);
    } else {
      AttemptKeepsInv(s, id, works);
    }
  }

  lemma StepKeepsInv(s: Audio, e: Event, w: World, works: nat -> bool)
    requires Inv(s) && Possible(s, e)
    ensures Inv(Step(s, e, w, works))
  {
    hide RetryInv, Counted, ReleaseIdle, PreparePipStart, AcquireCapture, AcquirePlayback, ReleaseCapture,
      HandleEvent, RetryWoke;
    match e
    case Activated =>
    case Deactivated => ReleaseSettles(s.(activation := None, preparing := false), works);
    case PipPrepared => PrepareKeepsInv(s, w, works);
    case PipSettled => ReleaseSettles(s.(preparing := false), works);
    case ForegroundMoved => ReleaseSettles(s, works);
    case CaptureAsked(admission) => AcquireCaptureKeepsInv(s, admission, w, works);
    case CaptureReleased(token) => ReleaseCaptureKeepsCore(s, token, works);
    case PlaybackAsked => AcquirePlaybackKeepsInv(s, works);
    case PlaybackReleased(token) => if s.playback == Some(token) { ReleaseSettles(s.(playback := None), works); }
    case SystemNotified(notification, callbackReleases) => HandleEventKeepsInv(s, notification, callbackReleases, works);
    case RetryTaskWoke(id, threw) => RetryKeepsInv(s, id, threw, works);
  }

  // ---- runs ----

  // One event with what the surroundings answer while it is handled.
  datatype Moment = Moment(event: Event, world: World)

  ghost predicate Admissible(s: Audio, es: seq<Moment>, works: nat -> bool)
    decreases |es|
  {
    es == [] || (Possible(s, es[0].event) && Admissible(Step(s, es[0].event, es[0].world, works), es[1..], works))
  }

  ghost function Run(s: Audio, es: seq<Moment>, works: nat -> bool): Audio
    requires Admissible(s, es, works)
    decreases |es|
  {
    if es == [] then s else Run(Step(s, es[0].event, es[0].world, works), es[1..], works)
  }

  lemma RunKeepsInv(s: Audio, es: seq<Moment>, works: nat -> bool)
    requires Inv(s) && Admissible(s, es, works)
    ensures Inv(Run(s, es, works))
    decreases |es|
  {
    hide Step, Inv;
    if es != [] {
      StepKeepsInv(s, es[0].event, es[0].world, works);
      RunKeepsInv(Step(s, es[0].event, es[0].world, works), es[1..], works);
    }
  }

  /** On every run, whatever driver calls fail and whatever the system reports: a session that may be
      active is owned, capture and playback are never both live, and an owned session that nobody uses
      is one whose release failed last. */
  lemma OwnershipIsHonest(es: seq<Moment>, works: nat -> bool)
    requires Admissible(Asleep, es, works)
    ensures var s := Run(Asleep, es, works);
            && (s.mayBeActive ==> s.owns)
            && !(s.capture.Some? && s.playback.Some?)
            && (s.owns && s.Idle() ==> ReleaseFailedLast(s.calls))
  {
    RunKeepsInv(Asleep, es, works);
  }

  // ---- the delayed release ----

  // The task is of an older revision than the current one, or has returned.
  ghost predicate Superseded(s: Audio, id: nat) {
    id < s.retry.next && (id in s.retry.tasks ==> s.retry.tasks[id].revision != s.retry.revision)
  }

  /** Waking a superseded task changes nothing but the list of tasks: no driver call, and the handle of
      the newer task stays. */
  lemma SupersededWakesInVain(s: Audio, id: nat, threw: bool, works: nat -> bool)
    requires Inv(s) && Possible(s, RetryTaskWoke(id, threw)) && Superseded(s, id)
    ensures RetryWoke(s, id, threw, works) == s.(retry := s.retry.(tasks := s.retry.tasks - {id}))
  {}

  /** A retry releases only in the name of the current handle, and only an owned session without a
      capture, a playback or a picture-in-picture start. */
  lemma RetryReleasesOnlyIdle(s: Audio, id: nat, threw: bool, works: nat -> bool)
    requires Inv(s) && Possible(s, RetryTaskWoke(id, threw))
    requires RetryWoke(s, id, threw, works).calls != s.calls
    ensures s.retry.handle == Some(id) && s.capture.None? && s.playback.None? && !s.preparing && s.owns && !threw
    ensures RetryWoke(s, id, threw, works).calls == s.calls + [Call(Release, works(|s.calls|), Some(id))]
  {}

  lemma CaptureSupersedes(s: Audio, works: nat -> bool, id: nat)
    requires Inv(s) && s.capture.None? && s.playback.None? && id in s.retry.tasks
    ensures TakeCapture(s, works).capture.Some? ==> Superseded(TakeCapture(s, works), id)
  {
    hide ReleaseIdle;
  }

  lemma PlaybackSupersedes(s: Audio, works: nat -> bool, id: nat)
    requires Inv(s) && s.capture.None? && s.playback.None? && id in s.retry.tasks
    ensures TakePlayback(s, works).playback.Some? ==> Superseded(TakePlayback(s, works), id)
  {
    hide ReleaseIdle;
  }

  lemma PipSupersedes(s: Audio, works: nat -> bool, id: nat)
    requires Inv(s) && !s.preparing && id in s.retry.tasks
    ensures TakePip(s, works).0.preparing ==> Superseded(TakePip(s, works).0, id)
  {
    hide ReleaseIdle;
  }

  /** Every new use of the session supersedes all the tasks there are. */
  lemma NewUseSupersedesRetries(s: Audio, admission: Admission, w: World, works: nat -> bool, id: nat)
    requires Inv(s) && id in s.retry.tasks
    ensures AcquireCapture(s, admission, w, works).capture != s.capture ==> Superseded(AcquireCapture(s, admission, w, works), id)
    ensures AcquirePlayback(s, works).playback != s.playback ==> Superseded(AcquirePlayback(s, works), id)
    ensures PreparePipStart(s, w, works).0.preparing && s.Idle() ==> Superseded(PreparePipStart(s, w, works).0, id)
  {
    hide Inv, Superseded, TakeCapture, TakePlayback, TakePip, Moves;
    if s.capture.None? && s.playback.None? {
      CaptureSupersedes(s, works, id);
      PlaybackSupersedes(s, works, id);
    }
    if s.Idle() { PipSupersedes(s, works, id); }
  }

  lemma MovesKeepSuperseded(s: Audio, t: Audio, id: nat)
    requires Inv(s) && Superseded(s, id) && Moves(s, t, None)
    ensures Superseded(t, id) && CallsBy(t.calls, id) == CallsBy(s.calls, id)
  {
    OthersCall(s.calls, t.calls, id);
  }

  lemma OthersCall(before: seq<Call>, after: seq<Call>, id: nat)
    requires before <= after && forall i | |before| <= i < |after| :: after[i].caller != Some(id)
    ensures CallsBy(after, id) == CallsBy(before, id)
    decreases |after|
  {
    if |after| > |before| {
      OthersCall(before, after[..|after| - 1], id);
    } else {
      assert after == before;
    }
  }

  lemma StepKeepsSuperseded(s: Audio, e: Event, w: World, works: nat -> bool, id: nat)
    requires Inv(s) && Possible(s, e) && Superseded(s, id)
    ensures Superseded(Step(s, e, w, works), id)
    ensures CallsBy(Step(s, e, w, works).calls, id) == CallsBy(s.calls, id)
  {
    hide Inv, ReleaseIdle, PreparePipStart, AcquireCapture, AcquirePlayback, ReleaseCapture, ReleasePlayback, HandleEvent;
    if e.RetryTaskWoke? {
      WakeKeepsSuperseded(s, e.id, e.threw, works, id);
    } else {
      MovesKeepSuperseded(s, Step(s, e, w, works), id);
    }
  }

  lemma WakeKeepsSuperseded(s: Audio, woken: nat, threw: bool, works: nat -> bool, id: nat)
    requires Inv(s) && Possible(s, RetryTaskWoke(woken, threw)) && Superseded(s, id)
    ensures Superseded(RetryWoke(s, woken, threw, works), id)
    ensures CallsBy(RetryWoke(s, woken, threw, works).calls, id) == CallsBy(s.calls, id)
  {
    if Superseded(s, woken) {
      SupersededWakesInVain(s, woken, threw, works);
    } else {
      OthersCall(s.calls, RetryWoke(s, woken, threw, works).calls, id);
    }
  }

  /** Superseded is for good: in no continuation does such a task call the driver again. */
  lemma SupersededForever(s: Audio, es: seq<Moment>, works: nat -> bool, id: nat)
    requires Inv(s) && Admissible(s, es, works) && Superseded(s, id)
    ensures Superseded(Run(s, es, works), id) && CallsBy(Run(s, es, works).calls, id) == CallsBy(s.calls, id)
    decreases |es|
  {
    hide Step, Inv;
    if es != [] {
      StepKeepsInv(s, es[0].event, es[0].world, works);
      StepKeepsSuperseded(s, es[0].event, es[0].world, works, id);
      SupersededForever(Step(s, es[0].event, es[0].world, works), es[1..], works, id);
    }
  }

  /** No retry task, of all those that ever run, calls the driver more than three times. */
  lemma AtMostThreeAttempts(es: seq<Moment>, works: nat -> bool, id: nat)
    requires Admissible(Asleep, es, works)
    ensures CallsBy(Run(Asleep, es, works).calls, id) <= MAX_ATTEMPTS
  {
    RunKeepsInv(Asleep, es, works);
  }
}

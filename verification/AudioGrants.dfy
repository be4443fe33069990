/** Who may use the microphone and the speaker, and what the system's reports do, read off the fields of
    ios/App/NoJumpAudioSession.swift. */
module AudioGrants {
  import opened Options
  import opened AudioOwnership
  import opened AudioSafety

  // Nothing records or plays, and the system allows it.
  predicate Free(s: Audio) {
    s.capture.None? && s.playback.None? && !s.interrupted && s.mediaServices
  }

  // Who asks, and on what terms. A keyboard must name the generation of the activation, on an unlocked device
  // whose background voice is available, and no idle session may be waiting to be given back.
  predicate Entitled(s: Audio, w: World, admission: Admission) {
    match admission
    case Foreground => w.foreground
    case System => true
    case Keyboard(generation) =>
      && s.activation == Some(generation) && w.unlocked && !s.locked && w.background
      && !(s.owns && s.capture.None? && !s.preparing)
  }

  /** A capture is granted exactly to who is entitled, with permission, while nothing records or plays, the
      system allows it and the driver can be configured. The token is a new number and ends a start under
      way; whoever is not entitled changes nothing. */
  lemma CaptureGrantedIff(s: Audio, admission: Admission, w: World, works: nat -> bool)
    ensures var t := Step(s, CaptureAsked(admission), w, works);
            var asks := Free(s) && w.permission && Entitled(s, w, admission);
            && (t.capture != s.capture <==> asks && works(|s.calls|))
            && (t.capture != s.capture ==>
                  t.capture == Some(s.issued) && t.owns && !t.preparing
                  && t.calls == s.calls + [Call(ConfigureCapture, true, None)])
            && (!asks ==> t == s)
  {
    hide ReleaseIdle, Moves;
  }

  /** So is a playback, which needs no activation and no permission. */
  lemma PlaybackGrantedIff(s: Audio, w: World, works: nat -> bool)
    ensures var t := Step(s, PlaybackAsked, w, works);
            && (t.playback != s.playback <==> Free(s) && works(|s.calls|))
            && (t.playback != s.playback ==>
                  t.playback == Some(s.issued) && t.owns && !t.preparing
                  && t.calls == s.calls + [Call(ConfigurePlayback, true, None)])
            && (!Free(s) ==> t == s)
  {
    hide ReleaseIdle, Moves;
  }

  /** Activation takes effect exactly in the foreground of an unlocked device, with permission, while nothing
      is in use and none is in force; its generation is a new number. */
  lemma ActivatedIff(s: Audio, w: World, works: nat -> bool)
    ensures Step(s, Activated, w, works)
            == if w.foreground && w.permission && w.unlocked && !s.locked && Free(s) && s.activation.None?
               then s.(activation := Some(s.issued), issued := s.issued + 1) else s
  {}

  /** A picture-in-picture start gets the session exactly on an unlocked device with permission and an
      activation in force, while the system allows it and the driver can be prepared; under a capture or a
      playback it needs nothing. */
  lemma PreparedIff(s: Audio, w: World, works: nat -> bool)
    ensures var (t, ok) := PreparePipStart(s, w, works);
            var may := s.activation.Some? && w.permission && w.unlocked && !s.locked && !s.interrupted && s.mediaServices;
            && (ok <==> may && (s.capture.Some? || s.playback.Some? || works(|s.calls|)))
            && (t.preparing == (s.preparing || (may && Free(s) && works(|s.calls|))))
            && (!may || !Free(s) ==> t == s)
  {
    hide ReleaseIdle, Moves;
  }

  // ---- what the system reports ----

  predicate EndsUse(n: Notification) {
    n in {WillLock, MediaServicesLost, MediaServicesReset, InterruptionBegan, RouteChanged(true), BecameInactive(false)}
  }

  function LockedAfter(locked: bool, e: Event): bool {
    if e.SystemNotified? && e.notification == WillLock then true
    else if e.SystemNotified? && e.notification == DidUnlock then false
    else locked
  }

  function InterruptedAfter(interrupted: bool, e: Event): bool {
    if e.SystemNotified? && e.notification == InterruptionBegan then true
    else if e.SystemNotified? && e.notification in {InterruptionEnded, MediaServicesReset} then false
    else interrupted
  }

  function ServedAfter(served: bool, e: Event): bool {
    if e.SystemNotified? && e.notification == MediaServicesLost then false
    else if e.SystemNotified? && e.notification == MediaServicesReset then true
    else served
  }

  predicate SameFlags(s: Audio, t: Audio) {
    t.locked == s.locked && t.interrupted == s.interrupted && t.mediaServices == s.mediaServices
  }

  lemma ReleasingKeepsFlags(s: Audio, caller: Option<nat>, works: nat -> bool)
    ensures var t := ReleaseIdle(s, caller, works); SameFlags(s, t) && t.activation == s.activation
  {
    hide Moves;
  }

  lemma InterruptingKeepsFlags(s: Audio, callbackReleases: bool, works: nat -> bool)
    ensures var t := InterruptCapture(s, callbackReleases, works);
            && SameFlags(s, t) && t.activation == s.activation && t.issued == s.issued && t.playback == s.playback
            && !t.preparing && t.capture == (if callbackReleases then None else s.capture)
  {
    hide Moves, ReleaseIdle;
    ReleasingKeepsFlags(s.(capture := None, preparing := false), None, works);
  }

  // The whole effect of a notification, but for the ownership and the retry.
  ghost predicate Handled(s: Audio, t: Audio, n: Notification, callbackReleases: bool) {
    var e := SystemNotified(n, callbackReleases);
    && t.locked == LockedAfter(s.locked, e) && t.interrupted == InterruptedAfter(s.interrupted, e)
    && t.mediaServices == ServedAfter(s.mediaServices, e)
    && t.capture == (if EndsUse(n) && callbackReleases then None else s.capture)
    && t.preparing == (s.preparing && !EndsUse(n))
    && t.playback == s.playback && t.activation == s.activation && t.issued == s.issued
  }

  lemma ReactHandles(s: Audio, n: Notification, callbackReleases: bool, works: nat -> bool)
    requires n != BecameInactive(true)
    ensures Handled(s, React(s, n, callbackReleases, works), n, callbackReleases)
  {
    hide Moves, InterruptCapture;
    InterruptingKeepsFlags(Flagged(s, n), callbackReleases, works);
  }

  /** A notification sets its own flag and no other. It ends a picture-in-picture start, and offers the
      capture to its owner for release, exactly when it takes the device, the route or the session away;
      it never ends a playback or the activation. */
  lemma NotificationsHandled(s: Audio, n: Notification, callbackReleases: bool, w: World, works: nat -> bool)
    ensures Handled(s, Step(s, SystemNotified(n, callbackReleases), w, works), n, callbackReleases)
  {
    hide Moves, React, ReleaseIdle;
    if n != BecameInactive(true) {
      ReactHandles(Ended(s, n), n, callbackReleases, works);
      ReleasingKeepsFlags(React(Ended(s, n), n, callbackReleases, works), None, works);
    }
  }

  lemma NotificationSparesTokens(s: Audio, n: Notification, callbackReleases: bool, w: World, works: nat -> bool)
    ensures var t := Step(s, SystemNotified(n, callbackReleases), w, works);
            && t.playback == s.playback && t.activation == s.activation
            && t.capture == if EndsUse(n) && callbackReleases then None else s.capture
  {
    NotificationsHandled(s, n, callbackReleases, w, works);
    hide Step;
  }

  lemma AttemptKeepsFlags(s: Audio, id: nat, works: nat -> bool)
    requires id in s.retry.tasks
    ensures var t := Attempt(s, id, works); SameFlags(s, t) && t.activation == s.activation && t.issued == s.issued
  {
    hide Moves, ReleaseIdle;
    ReleasingKeepsFlags(s, Some(id), works);
  }

  // Numbers are given out once: what is in force afterwards was before, or is new.
  predicate Renews(before: Option<nat>, after: Option<nat>, issued: nat, next: nat) {
    after.None? || after == before || issued <= after.value < next
  }

  predicate Numbers(s: Audio, t: Audio) {
    && s.issued <= t.issued && Renews(s.activation, t.activation, s.issued, t.issued)
    && Renews(s.capture, t.capture, s.issued, t.issued) && Renews(s.playback, t.playback, s.issued, t.issued)
  }

  // After the driver refused a use: the session counts as owned.
  ghost function Refused(s: Audio, kind: CallKind): Audio {
    CancelIdleRelease(s).(calls := s.calls + [Call(kind, false, None)], mayBeActive := true, owns := true)
  }

  lemma CaptureKeeps(s: Audio, admission: Admission, w: World, works: nat -> bool)
    ensures var t := AcquireCapture(s, admission, w, works); SameFlags(s, t) && Numbers(s, t)
  {
    hide Moves, ReleaseIdle, Admits;
    ReleasingKeepsFlags(Refused(s, ConfigureCapture), None, works);
  }

  lemma PlaybackKeeps(s: Audio, works: nat -> bool)
    ensures var t := AcquirePlayback(s, works); SameFlags(s, t) && Numbers(s, t)
  {
    hide Moves, ReleaseIdle;
    ReleasingKeepsFlags(Refused(s, ConfigurePlayback), None, works);
  }

  lemma PreparingKeeps(s: Audio, w: World, works: nat -> bool)
    ensures var t := PreparePipStart(s, w, works).0; SameFlags(s, t) && Numbers(s, t)
  {
    hide Moves, ReleaseIdle;
    ReleasingKeepsFlags(Refused(s, PreparePip), None, works);
  }

  lemma EndsKeep(s: Audio, token: nat, works: nat -> bool)
    ensures var t := Deactivate(s, works); SameFlags(s, t) && Numbers(s, t)
    ensures var t := SettlePipStart(s, works); SameFlags(s, t) && Numbers(s, t)
    ensures var t := ReleaseCapture(s, token, works); SameFlags(s, t) && Numbers(s, t)
    ensures var t := ReleasePlayback(s, token, works); SameFlags(s, t) && Numbers(s, t)
  {
    hide Moves, ReleaseIdle;
    ReleasingKeepsFlags(s.(activation := None, preparing := false), None, works);
    ReleasingKeepsFlags(s.(preparing := false), None, works);
    ReleasingKeepsFlags(s.(capture := None, preparing := false), None, works);
    ReleasingKeepsFlags(s.(playback := None), None, works);
  }

  lemma StepKeepsNumbers(s: Audio, e: Event, w: World, works: nat -> bool)
    requires Possible(s, e)
    ensures Numbers(s, Step(s, e, w, works))
    ensures !e.SystemNotified? ==> SameFlags(s, Step(s, e, w, works))
  {
    hide Moves, ReleaseIdle, Attempt, AcquireCapture, AcquirePlayback, PreparePipStart, Deactivate, SettlePipStart,
      ReleaseCapture, ReleasePlayback, HandleEvent;
    match e
    case PipPrepared => PreparingKeeps(s, w, works);
    case CaptureAsked(admission) => CaptureKeeps(s, admission, w, works);
    case PlaybackAsked => PlaybackKeeps(s, works);
    case CaptureReleased(token) => EndsKeep(s, token, works);
    case PlaybackReleased(token) => EndsKeep(s, token, works);
    case SystemNotified(n, callbackReleases) => NotificationsHandled(s, n, callbackReleases, w, works);
    case RetryTaskWoke(id, _) => AttemptKeepsFlags(s, id, works);
    case _ => EndsKeep(s, 0, works); ReleasingKeepsFlags(s, None, works);
  }

  // ---- whole runs ----

  ghost function FlagsAfter(es: seq<Moment>, locked: bool, interrupted: bool, served: bool): (bool, bool, bool)
    decreases |es|
  {
    if es == [] then (locked, interrupted, served)
    else
      var e := es[0].event;
      FlagsAfter(es[1..], LockedAfter(locked, e), InterruptedAfter(interrupted, e), ServedAfter(served, e))
  }

  /** On every run the object holds the device locked, the system interrupted and the media services gone
      exactly when the last report about each said so. */
  lemma {:induction false} FlagsAreLastReported(s: Audio, es: seq<Moment>, works: nat -> bool)
    requires Admissible(s, es, works)
    ensures var t := Run(s, es, works);
            (t.locked, t.interrupted, t.mediaServices) == FlagsAfter(es, s.locked, s.interrupted, s.mediaServices)
    decreases |es|
  {
    if es != [] {
      var e, w := es[0].event, es[0].world;
      if e.SystemNotified? { NotificationsHandled(s, e.notification, e.callbackReleases, w, works); }
      else { StepKeepsNumbers(s, e, w, works); }
      hide Step, Numbers;
      FlagsAreLastReported(Step(s, e, w, works), es[1..], works);
    }
  }

  // Every number in force was given out.
  predicate Issued(s: Audio) {
    && (s.activation.Some? ==> s.activation.value < s.issued) && (s.capture.Some? ==> s.capture.value < s.issued)
    && (s.playback.Some? ==> s.playback.value < s.issued)
  }

  lemma RunKeepsIssued(s: Audio, es: seq<Moment>, works: nat -> bool)
    requires Issued(s) && Admissible(s, es, works)
    ensures Issued(Run(s, es, works))
    decreases |es|
  {
    if es != [] {
      StepKeepsNumbers(s, es[0].event, es[0].world, works);
      hide Step;
      RunKeepsIssued(Step(s, es[0].event, es[0].world, works), es[1..], works);
    }
  }

  // A generation or a token that was given out and is in force no more.
  predicate Lapsed(s: Audio, generation: nat) {
    generation < s.issued && s.activation != Some(generation)
  }

  predicate Returned(s: Audio, token: nat) {
    token < s.issued && s.capture != Some(token) && s.playback != Some(token)
  }

  lemma RunKeepsEnded(s: Audio, es: seq<Moment>, works: nat -> bool, n: nat)
    requires Admissible(s, es, works)
    ensures Lapsed(s, n) ==> Lapsed(Run(s, es, works), n)
    ensures Returned(s, n) ==> Returned(Run(s, es, works), n)
    decreases |es|
  {
    if es != [] {
      StepKeepsNumbers(s, es[0].event, es[0].world, works);
      hide Step;
      RunKeepsEnded(Step(s, es[0].event, es[0].world, works), es[1..], works, n);
    }
  }

  /** A generation that was deactivated is never in force again: in no continuation, new activations
      included, does a keyboard that names it get anything. */
  lemma GenerationLapsesForGood(before: seq<Moment>, w: World, after: seq<Moment>, works: nat -> bool,
                                generation: nat, later: World)
    requires Admissible(Asleep, before, works) && Run(Asleep, before, works).activation == Some(generation)
    requires Admissible(Step(Run(Asleep, before, works), Deactivated, w, works), after, works)
    ensures var u := Run(Step(Run(Asleep, before, works), Deactivated, w, works), after, works);
            u.activation != Some(generation) && Step(u, CaptureAsked(Keyboard(generation)), later, works) == u
  {
    var s := Run(Asleep, before, works);
    RunKeepsIssued(Asleep, before, works);
    ReleasingKeepsFlags(s.(activation := None, preparing := false), None, works);
    StepKeepsNumbers(s, Deactivated, w, works);
    var t := Step(s, Deactivated, w, works);
    RunKeepsEnded(t, after, works, generation);
    CaptureGrantedIff(Run(t, after, works), Keyboard(generation), later, works);
    hide Step;
  }

  /** A capture's token is honoured once: in no continuation does giving it back again do anything. */
  lemma TokenReturnsForGood(before: seq<Moment>, w: World, after: seq<Moment>, works: nat -> bool, token: nat, later: World)
    requires Admissible(Asleep, before, works) && Run(Asleep, before, works).capture == Some(token)
    requires Admissible(Step(Run(Asleep, before, works), CaptureReleased(token), w, works), after, works)
    ensures var u := Run(Step(Run(Asleep, before, works), CaptureReleased(token), w, works), after, works);
            u.capture != Some(token) && Step(u, CaptureReleased(token), later, works) == u
  {
    var s := Run(Asleep, before, works);
    RunKeepsInv(Asleep, before, works);
    RunKeepsIssued(Asleep, before, works);
    var t := Step(s, CaptureReleased(token), w, works);
    StepKeepsNumbers(s, CaptureReleased(token), w, works);
    ReleasingKeepsFlags(s.(capture := None, preparing := false), None, works);
    hide ReleaseIdle, RetryInv, Counted, Moves;
    RunKeepsEnded(t, after, works, token);
  }

  // ---- the retry works ----

  lemma ReleaseCalls(s: Audio, caller: Option<nat>, works: nat -> bool)
    requires s.Idle() && s.owns
    ensures ReleaseIdle(s, caller, works).calls == s.calls + [Call(Release, works(|s.calls|), caller)]
  {
    hide Moves;
  }

  lemma AttemptCalls(s: Audio, id: nat, works: nat -> bool)
    requires id in s.retry.tasks
    ensures s.Idle() && s.owns ==> Attempt(s, id, works).calls == s.calls + [Call(Release, works(|s.calls|), Some(id))]
  {
    hide Moves, ReleaseIdle, Audio.Idle;
    if s.Idle() && s.owns { ReleaseCalls(s, Some(id), works); }
  }

  /** A retry that wakes as the current one, undisturbed, over an owned session that nobody uses, calls the
      driver; no other does. */
  lemma RetryCallsIff(s: Audio, id: nat, threw: bool, w: World, works: nat -> bool)
    requires Possible(s, RetryTaskWoke(id, threw))
    ensures var t := Step(s, RetryTaskWoke(id, threw), w, works);
            var calls := !threw && s.retry.tasks[id].revision == s.retry.revision && s.owns
                         && s.capture.None? && s.playback.None? && !s.preparing;
            t.calls == if calls then s.calls + [Call(Release, works(|s.calls|), Some(id))] else s.calls
  {
    hide Moves, Attempt;
    AttemptCalls(s, id, works);
  }

  /** When a method leaves an owned session idle behind a failed release, a retry is under way. */
  lemma FailedReleaseIsRetried(s: Audio, works: nat -> bool)
    requires Inv(s) && s.Idle() && s.owns && !works(|s.calls|)
    ensures var t := ReleaseIdle(s, None, works);
            && t.owns && t.retry.handle.Some? && t.retry.handle.value in t.retry.tasks
            && t.retry.tasks[t.retry.handle.value].attempts < MAX_ATTEMPTS
  {
    ReleaseSettles(s, works);
  }
}

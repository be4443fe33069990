/** Who owns the audio session: ios/App/NoJumpAudioSession.swift as a state machine over a driver that
    may fail at every call. Tokens, generations, revisions and tasks are numbered by fresh counters. */
module AudioOwnership {
  import opened Options

  datatype CallKind = PreparePip | ConfigureCapture | ConfigurePlayback | Release

  // One call of the driver; `caller` names the retry task that made it, if one did.
  datatype Call = Call(kind: CallKind, ok: bool, caller: Option<nat>)

  // A delayed release under way: the revision it was scheduled for and the attempts it has made.
  datatype RetryTask = RetryTask(revision: nat, attempts: nat, cancelled: bool)

  // `releaseTask`, `releaseRevision`, the tasks that have not returned yet, and the next fresh number.
  datatype Retry = Retry(handle: Option<nat>, revision: nat, tasks: map<nat, RetryTask>, next: nat)

  // The fields of the class. `calls` is the history of the driver; `mayBeActive` is true from the
  // first moment a call may have activated the session until a release or the system ends it.
  datatype Audio = Audio(
    activation: Option<nat>,
    capture: Option<nat>,
    playback: Option<nat>,
    preparing: bool,
    interrupted: bool,
    locked: bool,
    mediaServices: bool,
    owns: bool,
    retry: Retry,
    issued: nat,
    calls: seq<Call>,
    mayBeActive: bool)
  {
    predicate Idle() {
      capture.None? && playback.None? && !preparing
    }
  }

  // What the surroundings answer when a method asks.
  datatype World = World(permission: bool, unlocked: bool, foreground: bool, background: bool)

  datatype Admission = Foreground | System | Keyboard(generation: nat)

  const MAX_ATTEMPTS := 3

  const Asleep := Audio(None, None, None, false, false, false, true, false, Retry(None, 0, map[], 1), 0, [], false)

  // `works` tells for each driver call, counted from the start, whether it succeeds.
  function Drive(s: Audio, kind: CallKind, caller: Option<nat>, works: nat -> bool): (r: (Audio, bool))
    ensures Moves(s, r.0, caller)
  {
    var ok := works(|s.calls|);
    (s.(calls := s.calls + [Call(kind, ok, caller)],
        mayBeActive := if kind == Release then s.mayBeActive && !ok else true), ok)
  }

  // Numbers are never reused: revisions only move to fresh ones, tasks keep theirs, and every new
  // driver call is made on behalf of `caller`.
  ghost predicate Moves(s: Audio, t: Audio, caller: Option<nat>) {
    && s.retry.next <= t.retry.next
    && (t.retry.revision == s.retry.revision || s.retry.next <= t.retry.revision)
    && (forall id | id in t.retry.tasks && id < s.retry.next ::
          id in s.retry.tasks && t.retry.tasks[id].revision == s.retry.tasks[id].revision)
    && s.calls <= t.calls && (forall i | |s.calls| <= i < |t.calls| :: t.calls[i].caller == caller)
  }

  // ---- the delayed release ----

  function CancelRetry(r: Retry): Retry {
    Retry(None, r.next,
          if r.handle.Some? && r.handle.value in r.tasks
          then r.tasks[r.handle.value := r.tasks[r.handle.value].(cancelled := true)] else r.tasks,
          r.next + 1)
  }

  function ScheduleRetry(r: Retry): Retry {
    if r.handle.Some? then r
    else Retry(Some(r.next), r.revision, r.tasks[r.next := RetryTask(r.revision, 0, false)], r.next + 1)
  }

  // The task returns; its `defer` clears the handle only while its revision is the current one.
  function Return(r: Retry, id: nat): Retry
    requires id in r.tasks
  {
    Retry(if r.tasks[id].revision == r.revision then None else r.handle, r.revision, r.tasks - {id}, r.next)
  }

  function CancelIdleRelease(s: Audio): (t: Audio)
    ensures Moves(s, t, None)
  {
    s.(retry := CancelRetry(s.retry))
  }

  function ReleaseIdle(s: Audio, caller: Option<nat>, works: nat -> bool): (r: Audio)
    ensures Moves(s, r, caller) && (s.preparing ==> r == s)
    ensures r.capture == s.capture && r.playback == s.playback && r.preparing == s.preparing && r.issued == s.issued
    ensures forall id | id in s.retry.tasks && (caller.Some? || id < s.retry.next) ::
              id in r.retry.tasks && r.retry.tasks[id].revision == s.retry.tasks[id].revision
              && r.retry.tasks[id].attempts == s.retry.tasks[id].attempts
  {
    if !s.Idle() || !s.owns then s
    else
      var (t, ok) := Drive(s, Release, caller, works);
      if ok then CancelIdleRelease(t.(owns := false))
      else if caller.None? then t.(retry := ScheduleRetry(t.retry))
      else t
  }

  // The task releases once, and returns when that worked or was its third attempt.
  function Attempt(s: Audio, id: nat, works: nat -> bool): (r: Audio)
    requires id in s.retry.tasks
    ensures r.capture == s.capture && r.playback == s.playback && r.preparing == s.preparing
  {
    var t := ReleaseIdle(s, Some(id), works);
    var attempts := s.retry.tasks[id].attempts + 1;
    var u := t.(retry := t.retry.(tasks := t.retry.tasks[id := t.retry.tasks[id].(attempts := attempts)]));
    if !u.owns || attempts == MAX_ATTEMPTS then u.(retry := Return(u.retry, id)) else u
  }

  // One wake-up of a retry task. Its sleep may throw only if it was cancelled; a cancelled task may
  // also have slept to the end before it noticed.
  function RetryWoke(s: Audio, id: nat, threw: bool, works: nat -> bool): Audio
    requires id in s.retry.tasks
  {
    var task := s.retry.tasks[id];
    if threw || task.revision != s.retry.revision || !s.Idle() || !s.owns
    then s.(retry := Return(s.retry, id))
    else Attempt(s, id, works)
  }

  // ---- the methods ----

  predicate Ready(s: Audio, w: World) {
    s.activation.Some? && w.permission && w.unlocked && !s.locked
    && !s.interrupted && s.mediaServices && s.playback.None?
    && !(s.owns && s.capture.None? && !s.preparing)
    && (w.foreground || w.background)
  }

  predicate Admits(s: Audio, w: World, admission: Admission) {
    match admission
    case Foreground => w.foreground
    case System => true
    case Keyboard(generation) => Some(generation) == s.activation && Ready(s, w) && w.background
  }

  function Activate(s: Audio, w: World): Audio {
    if !w.foreground || !w.permission || !w.unlocked || s.locked || s.interrupted || !s.mediaServices
       || s.capture.Some? || s.playback.Some? || s.activation.Some? then s
    else s.(activation := Some(s.issued), issued := s.issued + 1)
  }

  function Deactivate(s: Audio, works: nat -> bool): (t: Audio)
    ensures Moves(s, t, None)
  {
    ReleaseIdle(s.(activation := None, preparing := false), None, works)
  }

  function TakePip(s: Audio, works: nat -> bool): (r: (Audio, bool))
    ensures Moves(s, r.0, None) && (r.1 ==> r.0.preparing && r.0.owns)
  {
    var (t, ok) := Drive(CancelIdleRelease(s), PreparePip, None, works);
    if ok then (t.(owns := true, preparing := true), true)
    else (ReleaseIdle(t.(owns := true), None, works), false)
  }

  // The second component tells whether the method returned normally.
  function PreparePipStart(s: Audio, w: World, works: nat -> bool): (r: (Audio, bool))
    ensures Moves(s, r.0, None)
  {
    if s.activation.None? || !w.permission || !w.unlocked || s.locked || s.interrupted || !s.mediaServices
    then (s, false)
    else if s.capture.Some? || s.playback.Some? then (s, true)
    else TakePip(s, works)
  }

  function SettlePipStart(s: Audio, works: nat -> bool): (t: Audio)
    ensures Moves(s, t, None)
  {
    ReleaseIdle(s.(preparing := false), None, works)
  }

  function ForegroundChanged(s: Audio, works: nat -> bool): (t: Audio)
    ensures Moves(s, t, None)
  {
    ReleaseIdle(s, None, works)
  }

  // Hands out a new token, or gives the session back when the driver cannot be configured.
  function TakeCapture(s: Audio, works: nat -> bool): (t: Audio)
    requires s.capture.None? && s.playback.None?
    ensures Moves(s, t, None)
    ensures t.capture == None || (t.capture == Some(s.issued) && t.owns)
    ensures t.playback == None
  {
    var (t, ok) := Drive(CancelIdleRelease(s), ConfigureCapture, None, works);
    if ok then t.(owns := true, preparing := false, capture := Some(t.issued), issued := t.issued + 1)
    else ReleaseIdle(t.(owns := true), None, works)
  }

  function AcquireCapture(s: Audio, admission: Admission, w: World, works: nat -> bool): (t: Audio)
    ensures Moves(s, t, None)
  {
    if s.capture.Some? || s.playback.Some? || !w.permission || s.interrupted || !s.mediaServices
       || !Admits(s, w, admission) then s
    else TakeCapture(s, works)
  }

  function ReleaseCapture(s: Audio, token: nat, works: nat -> bool): (t: Audio)
    ensures Moves(s, t, None)
  {
    if s.capture != Some(token) then s
    else ReleaseIdle(s.(capture := None, preparing := false), None, works)
  }

  // Hands out a new token, or gives the session back when the driver cannot be configured.
  function TakePlayback(s: Audio, works: nat -> bool): (t: Audio)
    requires s.capture.None? && s.playback.None?
    ensures Moves(s, t, None)
    ensures t.playback == None || (t.playback == Some(s.issued) && t.owns)
    ensures t.capture == None
  {
    var (t, ok) := Drive(CancelIdleRelease(s), ConfigurePlayback, None, works);
    if ok then t.(owns := true, preparing := false, playback := Some(t.issued), issued := t.issued + 1)
    else ReleaseIdle(t.(owns := true), None, works)
  }

  function AcquirePlayback(s: Audio, works: nat -> bool): (t: Audio)
    ensures Moves(s, t, None)
  {
    if s.capture.Some? || s.playback.Some? || s.interrupted || !s.mediaServices then s
    else TakePlayback(s, works)
  }

  function ReleasePlayback(s: Audio, token: nat, works: nat -> bool): (t: Audio)
    ensures Moves(s, t, None)
  {
    if s.playback != Some(token) then s
    else ReleaseIdle(s.(playback := None), None, works)
  }

  // ---- system events ----

  datatype Notification =
    | WillLock
    | DidUnlock
    | MediaServicesLost
    | MediaServicesReset
    | InterruptionBegan
    | InterruptionEnded
    | RouteChanged(disruptive: bool)
    | BecameInactive(byApp: bool)
    | Unrelated

  // The interruption callback runs inside the handler and may itself release the capture.
  function InterruptCapture(s: Audio, callbackReleases: bool, works: nat -> bool): (t: Audio)
    ensures Moves(s, t, None)
  {
    var t := s.(preparing := false);
    if t.capture.Some? && callbackReleases then ReleaseCapture(t, t.capture.value, works) else t
  }

  // When the system reports a reset or an inactive session, the session is no longer active.
  function Ended(s: Audio, n: Notification): Audio {
    if n == MediaServicesReset || n == BecameInactive(false) then s.(mayBeActive := false) else s
  }

  // The handler's assignments before the capture is interrupted and, for a reset and for what interrupts
  // nothing, after it.
  function Flagged(s: Audio, n: Notification): Audio {
    match n
    case WillLock => s.(locked := true)
    case MediaServicesLost => s.(mediaServices := false)
    case InterruptionBegan => s.(interrupted := true)
    case BecameInactive(_) => s.(owns := false)
    case _ => s
  }

  predicate Interrupts(n: Notification) {
    n.WillLock? || n.MediaServicesLost? || n.MediaServicesReset? || n.InterruptionBegan? || n.BecameInactive?
    || n == RouteChanged(true)
  }

  function Cleared(s: Audio, n: Notification): Audio {
    match n
    case DidUnlock => s.(locked := false)
    case MediaServicesReset => s.(mediaServices := true, interrupted := false, owns := false)
    case InterruptionEnded => s.(interrupted := false)
    case _ => s
  }

  function React(s: Audio, n: Notification, callbackReleases: bool, works: nat -> bool): (t: Audio)
    ensures Moves(s, t, None)
  {
    Cleared(if Interrupts(n) then InterruptCapture(Flagged(s, n), callbackReleases, works) else s, n)
  }

  function HandleEvent(s: Audio, n: Notification, callbackReleases: bool, works: nat -> bool): (t: Audio)
    ensures Moves(s, t, None)
  {
    if n == BecameInactive(true) then s
    else ReleaseIdle(React(Ended(s, n), n, callbackReleases, works), None, works)
  }

  // ---- runs ----

  // `PipPrepared` and `PipSettled` are the two calls the picture-in-picture client makes.
  datatype Event =
    | Activated
    | Deactivated
    | PipPrepared
    | PipSettled
    | ForegroundMoved
    | CaptureAsked(admission: Admission)
    | CaptureReleased(token: nat)
    | PlaybackAsked
    | PlaybackReleased(token: nat)
    | SystemNotified(notification: Notification, callbackReleases: bool)
    | RetryTaskWoke(id: nat, threw: bool)

  // A sleep throws only in a cancelled task.
  predicate Possible(s: Audio, e: Event) {
    e.RetryTaskWoke? ==> e.id in s.retry.tasks && (e.threw ==> s.retry.tasks[e.id].cancelled)
  }

  function Step(s: Audio, e: Event, w: World, works: nat -> bool): Audio
    requires Possible(s, e)
  {
    match e
    case Activated => Activate(s, w)
    case Deactivated => Deactivate(s, works)
    case PipPrepared => PreparePipStart(s, w, works).0
    case PipSettled => SettlePipStart(s, works)
    case ForegroundMoved => ForegroundChanged(s, works)
    case CaptureAsked(admission) => AcquireCapture(s, admission, w, works)
    case CaptureReleased(token) => ReleaseCapture(s, token, works)
    case PlaybackAsked => AcquirePlayback(s, works)
    case PlaybackReleased(token) => ReleasePlayback(s, token, works)
    case SystemNotified(notification, callbackReleases) => HandleEvent(s, notification, callbackReleases, works)
    case RetryTaskWoke(id, threw) => RetryWoke(s, id, threw, works)
  }
}

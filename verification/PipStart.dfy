/** Starting picture in picture: ios/App/ExperimentalPiPKeepAlive.swift composed with the audio owner as
    ios/App/AppController.swift wires them. Every event of either side may come at any time. */
module PipStart {
  import opened Options
  import A = AudioOwnership

  // One delayed start sequence: the generation it belongs to and the turns it has left.
  datatype StartTask = StartTask(generation: nat, left: nat, cancelled: bool)

  datatype TimeoutTask = TimeoutTask(generation: nat, cancelled: bool)

  // ios/App/PiPLockRecovery.swift: one unlock recovery for what was seen when the device locked.
  datatype LockRecovery = LockRecovery(locked: bool, activeGeneration: Option<nat>, interrupted: bool)

  // The two handles and the tasks that have not returned.
  datatype Waits = Waits(
    retryTask: Option<nat>,
    tasks: map<nat, StartTask>,
    startTimeout: Option<nat>,
    timeouts: map<nat, TimeoutTask>)

  datatype Pip = Pip(
    enabled: bool,
    controller: Option<nat>,
    starting: bool,
    locked: bool,
    prepared: bool,
    generation: nat,
    waits: Waits,
    recovery: LockRecovery,
    inForeground: bool,
    stopRecoveryUsed: bool,
    next: nat)

  // Both machines, and how often the audio owner was prepared for a start and told that it settled.
  datatype System = System(pip: Pip, audio: A.Audio, prepares: nat, settles: nat)

  // What AVKit and the application answer during one event. `activeAfter` is asked again at the end of
  // a turn of the start sequence.
  datatype World = World(audio: A.World, supported: bool, active: bool, activeAfter: bool, attached: bool,
                         possible: bool, makes: bool, inBackground: bool)

  const TURNS := 20

  const Fresh := LockRecovery(false, None, false)

  const Off := Pip(false, None, false, false, false, 0, Waits(None, map[], None, map[]), Fresh, false, false, 1)

  const Initial := System(Off, A.Asleep, 0, 0)

  predicate IsActive(p: Pip, w: World) {
    p.controller.Some? && w.active
  }

  predicate IsRecovering(p: Pip) {
    p.enabled && (p.starting || p.waits.retryTask.Some?)
  }

  // ---- handles ----

  function CancelRetry(v: Waits): (r: Waits)
    ensures r.retryTask.None? && r.startTimeout == v.startTimeout
  {
    v.(retryTask := None,
       tasks := if v.retryTask.Some? && v.retryTask.value in v.tasks
                then v.tasks[v.retryTask.value := v.tasks[v.retryTask.value].(cancelled := true)] else v.tasks)
  }

  function CancelTimeout(v: Waits): (r: Waits)
    ensures r.startTimeout.None? && r.retryTask == v.retryTask
  {
    v.(startTimeout := None,
       timeouts := if v.startTimeout.Some? && v.startTimeout.value in v.timeouts
                   then v.timeouts[v.startTimeout.value := v.timeouts[v.startTimeout.value].(cancelled := true)]
                   else v.timeouts)
  }

  // ---- the client ----

  function MakeControllerIfNeeded(p: Pip, w: World): Pip {
    if p.controller.Some? || !p.enabled || !w.supported || !w.makes then p
    else p.(controller := Some(p.next), next := p.next + 1)
  }

  function StartIfPossible(p: Pip, w: World): Pip {
    if !p.enabled || !w.supported || IsActive(p, w) || IsRecovering(p) || p.locked || !w.audio.unlocked then p
    else
      var q := MakeControllerIfNeeded(p, w);
      if q.controller.None? then q
      else q.(waits := q.waits.(retryTask := Some(q.next),
                                tasks := q.waits.tasks[q.next := StartTask(q.generation, TURNS, false)]),
              next := q.next + 1)
  }

  function SettleAudio(s: System, works: nat -> bool): (r: System)
    ensures r.pip == s.pip.(prepared := false)
  {
    if !s.pip.prepared then s
    else s.(pip := s.pip.(prepared := false), audio := A.SettlePipStart(s.audio, works), settles := s.settles + 1)
  }

  function Dispose(p: Pip): Pip {
    p.(generation := p.next, next := p.next + 1, waits := CancelTimeout(CancelRetry(p.waits)),
       starting := false, controller := None)
  }

  function DisposeController(s: System, works: nat -> bool): (r: System)
    ensures r.pip == Dispose(s.pip).(prepared := false)
  {
    SettleAudio(s.(pip := Dispose(s.pip)), works)
  }

  function BeginStart(p: Pip): Pip {
    var v := CancelRetry(p.waits);
    p.(waits := v.(startTimeout := Some(p.next), timeouts := v.timeouts[p.next := TimeoutTask(p.generation, false)]),
       starting := true, next := p.next + 1)
  }

  predicate MayAttempt(p: Pip, w: World) {
    p.enabled && !p.starting && !IsActive(p, w) && !p.locked && w.audio.unlocked && p.controller.Some? && w.attached
  }

  // The audio owner is asked once; a refusal ends the start sequence.
  function Prepare(s: System, w: World, works: nat -> bool): System {
    if s.pip.prepared then s
    else
      var (audio, ok) := A.PreparePipStart(s.audio, w.audio, works);
      if ok then s.(pip := s.pip.(prepared := true), audio := audio, prepares := s.prepares + 1)
      else s.(pip := s.pip.(waits := CancelRetry(s.pip.waits)), audio := audio)
  }

  function AttemptStart(s: System, w: World, works: nat -> bool): (t: System)
    ensures forall id | id in s.pip.waits.tasks ::
              id in t.pip.waits.tasks && t.pip.waits.tasks[id].left == s.pip.waits.tasks[id].left
  {
    if !MayAttempt(s.pip, w) then s
    else
      var t := Prepare(s, w, works);
      if t.pip.prepared && w.possible then t.(pip := BeginStart(t.pip)) else t
  }

  function ReturnTask(p: Pip, id: nat): Pip {
    p.(waits := p.waits.(tasks := p.waits.tasks - {id}))
  }

  // The sequence has run out of turns.
  function Exhaust(p: Pip, id: nat): Pip {
    p.(waits := p.waits.(tasks := p.waits.tasks - {id}, retryTask := None))
  }

  // One turn of the start sequence, from the end of one sleep to the next sleep or to its return.
  function TakeTurn(s: System, id: nat, w: World, works: nat -> bool): System
    requires id in s.pip.waits.tasks
  {
    var task := s.pip.waits.tasks[id];
    var mine := !task.cancelled && s.pip.generation == task.generation;
    if task.left == 0 then
      if mine then SettleAudio(s.(pip := Exhaust(s.pip, id)), works)
      else s.(pip := ReturnTask(s.pip, id))
    else if !mine || !s.pip.enabled || s.pip.locked then s.(pip := ReturnTask(s.pip, id))
    else
      var t := AttemptStart(s, w, works);
      if t.pip.starting || (t.pip.controller.Some? && w.activeAfter) then t.(pip := ReturnTask(t.pip, id))
      else t.(pip := CountTurn(t.pip, id))
  }

  function CountTurn(p: Pip, id: nat): Pip
    requires id in p.waits.tasks && p.waits.tasks[id].left > 0
  {
    p.(waits := p.waits.(tasks := p.waits.tasks[id := p.waits.tasks[id].(left := p.waits.tasks[id].left - 1)]))
  }

  function StartTimedOut(s: System, id: nat, works: nat -> bool): System
    requires id in s.pip.waits.timeouts
  {
    var task := s.pip.waits.timeouts[id];
    var p := s.pip.(waits := s.pip.waits.(timeouts := s.pip.waits.timeouts - {id}));
    if !task.cancelled && task.generation == s.pip.generation && s.pip.starting
    then DisposeController(s.(pip := p), works)
    else s.(pip := p)
  }

  function Arm(p: Pip, w: World): Pip {
    if p.enabled then p
    else MakeControllerIfNeeded(p.(enabled := true, recovery := Fresh, locked := !w.audio.unlocked), w)
  }

  function SourceAttached(s: System, w: World, works: nat -> bool): System {
    if !s.pip.enabled then s
    else
      var t := s.(pip := MakeControllerIfNeeded(s.pip, w));
      if t.pip.waits.retryTask.Some? then AttemptStart(t, w, works) else t
  }

  function Stop(s: System, works: nat -> bool): System {
    DisposeController(s.(pip := s.pip.(enabled := false, recovery := Fresh)), works)
  }

  // An idle controller is thrown away before a new start.
  function Restart(s: System, w: World, works: nat -> bool): System {
    var t := if !IsRecovering(s.pip) && s.pip.controller.Some? then DisposeController(s, works) else s;
    t.(pip := StartIfPossible(t.pip, w))
  }

  function MoveTo(p: Pip, foreground: bool): Pip {
    p.(stopRecoveryUsed := p.stopRecoveryUsed && !(foreground && !p.inForeground), inForeground := foreground)
  }

  function Visited(s: System, w: World, works: nat -> bool): System {
    var t := s.(pip := s.pip.(locked := !w.audio.unlocked));
    if IsActive(t.pip, w) then t else Restart(t, w, works)
  }

  function ForegroundChanged(s: System, foreground: bool, w: World, works: nat -> bool): System {
    var t := s.(pip := MoveTo(s.pip, foreground));
    if !t.pip.enabled then t
    else if foreground then Visited(t, w, works)
    else if !w.inBackground then t.(pip := StartIfPossible(t.pip, w))
    else t
  }

  function DidLock(r: LockRecovery, generation: nat, active: bool, recovering: bool): LockRecovery {
    if r.locked then r else LockRecovery(true, if active then Some(generation) else None, recovering)
  }

  function DidStop(r: LockRecovery, generation: nat): LockRecovery {
    if r.locked && r.activeGeneration == Some(generation) then r.(interrupted := true) else r
  }

  predicate NeedsRecovery(r: LockRecovery, generation: nat, active: bool) {
    !active && (r.interrupted || (r.locked && r.activeGeneration == Some(generation)))
  }

  function LockDown(p: Pip, w: World): Pip {
    p.(locked := true, recovery := DidLock(p.recovery, p.generation, IsActive(p, w), IsRecovering(p)),
       waits := CancelRetry(p.waits))
  }

  function DeviceLocked(s: System, w: World, works: nat -> bool): System {
    var t := s.(pip := LockDown(s.pip, w));
    SettleAudio(if t.pip.starting then DisposeController(t, works) else t, works)
  }

  function DeviceUnlocked(s: System, w: World, works: nat -> bool): System {
    var recover := NeedsRecovery(s.pip.recovery, s.pip.generation, IsActive(s.pip, w));
    var t := s.(pip := s.pip.(locked := false, recovery := Fresh));
    if t.pip.enabled && !IsActive(t.pip, w) && (recover || w.audio.foreground) then Restart(t, w, works) else t
  }

  function HandleStarted(s: System, controller: nat, works: nat -> bool): System {
    if s.pip.controller != Some(controller) || !s.pip.enabled then s
    else SettleAudio(s.(pip := s.pip.(starting := false, waits := CancelTimeout(CancelRetry(s.pip.waits)))), works)
  }

  // At most one recovery in each foreground visit.
  function RecoverOnce(p: Pip, w: World): Pip {
    if p.enabled && w.audio.foreground && !p.stopRecoveryUsed
    then StartIfPossible(p.(stopRecoveryUsed := true), w)
    else p
  }

  function HandleStopped(s: System, controller: nat, failed: bool, w: World, works: nat -> bool): System {
    if s.pip.controller != Some(controller) then s
    else
      var recovery := if s.pip.enabled then DidStop(s.pip.recovery, s.pip.generation) else s.pip.recovery;
      var t := DisposeController(s.(pip := s.pip.(recovery := recovery)), works);
      if !failed then t.(pip := RecoverOnce(t.pip, w)) else t
  }

  // ---- runs ----

  datatype Event =
    | Armed
    | StartAsked
    | Attached
    | TurnCame(id: nat)
    | TimedOut(id: nat)
    | Locked
    | Unlocked
    | ForegroundMoved(foreground: bool)
    | Stopped
    | ControllerStarted(controller: nat)
    | ControllerStopped(controller: nat, failed: bool)
    | AudioMoved(event: A.Event)

  // Nobody but the start machine prepares or settles; everything else the audio owner may meet at any time.
  predicate Possible(s: System, e: Event) {
    match e
    case TurnCame(id) => id in s.pip.waits.tasks
    case TimedOut(id) => id in s.pip.waits.timeouts
    case AudioMoved(event) => !event.PipPrepared? && !event.PipSettled? && A.Possible(s.audio, event)
    case _ => true
  }

  function Step(s: System, e: Event, w: World, works: nat -> bool): System
    requires Possible(s, e)
  {
    match e
    case Armed => s.(pip := Arm(s.pip, w))
    case StartAsked => s.(pip := StartIfPossible(s.pip, w))
    case Attached => SourceAttached(s, w, works)
    case TurnCame(id) => TakeTurn(s, id, w, works)
    case TimedOut(id) => StartTimedOut(s, id, works)
    case Locked => DeviceLocked(s, w, works)
    case Unlocked => DeviceUnlocked(s, w, works)
    case ForegroundMoved(foreground) => ForegroundChanged(s, foreground, w, works)
    case Stopped => Stop(s, works)
    case ControllerStarted(controller) => HandleStarted(s, controller, works)
    case ControllerStopped(controller, failed) => HandleStopped(s, controller, failed, w, works)
    case AudioMoved(event) => s.(audio := A.Step(s.audio, event, w.audio, works))
  }
}

/** One recording session at a time: the slice of ios/App/AppController.swift that begins, defers, stops
    and cancels a session and hands its text to the keyboard. Events of the Core, native requests, commands
    of the keyboard and delayed tasks may come in any order. Session, request and insertion ids are numbers. */
module RecordingSession {
  import opened Options

  datatype Phase = Inactive | Ready | Starting | Recording | Processing | AwaitingInsertion | Done | Cancelled | Error

  datatype Session = Session(
    client: nat,
    target: Option<nat>,
    help: bool,
    activation: Option<nat>,
    space: bool,
    decided: bool,
    coreFinished: bool,
    generated: Option<nat>,
    coreID: Option<nat>,
    cancelled: bool,
    stopping: bool)

  // What a caller asks `begin` for. Only a keyboard's command can be deferred; `command` is its number.
  datatype Start = Start(client: nat, target: Option<nat>, command: Option<nat>, activation: Option<nat>,
                         space: bool, help: bool)

  datatype Text = Text(session: nat, target: nat)

  datatype Screen = Screen(phase: Phase, captureReady: bool, insertion: Option<Text>, preview: Option<Text>)

  datatype Operation = CaptureStart | SpeechStart | Insert | OtherOperation

  datatype Native = Native(operation: Operation, coreID: nat, cancelled: bool)

  datatype SpaceWork = SpaceWork(client: nat, target: nat, cancelled: bool)

  // The tasks that have not returned: native requests, waiting loops of deferred starts, space work.
  datatype Tasks = Tasks(native: map<nat, Native>, loops: map<nat, Start>, spaces: map<nat, SpaceWork>,
                         spaceTask: Option<nat>, next: nat)

  // The three places that hand text to the keyboard.
  datatype Route = Requested | Confirmed | Spoken

  // `core` is the Core session whose request brought the text, if one did.
  datatype Offer = Offer(session: nat, target: nat, route: Route, core: Option<nat>)

  // What has happened: the sessions asked for, the target each was asked for with, the texts handed over.
  datatype History = History(seen: set<nat>, targets: map<nat, nat>, offers: seq<Offer>)

  datatype State = State(active: Option<Session>, deferred: Option<Start>, screen: Screen, tasks: Tasks, history: History)

  // The guards of one event that depend on the rest of the application.
  datatype World = World(
    idle: bool,              // coreReady, not restarting, system admission free or its own, a Core
    prepared: bool,          // speechPrepared and not preparing
    preparing: bool,         // preparing or keyboardPreparationPending
    controlsPending: bool,   // core.hasPendingControls
    intentValid: bool,
    placeAllowed: bool,      // foreground, system admission or background voice ready
    spaceSupported: bool,
    commandSent: bool,
    ready: bool,             // the space delivery has work to hand out
    accepted: bool,          // the abstract delivery, confirmation or choice says yes
    empty: bool,             // no usable text
    throws: bool)            // the mailbox or the Core fails

  const Quiet := State(None, None, Screen(Inactive, false, None, None), Tasks(map[], map[], map[], None, 0),
                       History({}, map[], []))

  function Offered(s: State, client: nat, target: nat, route: Route, core: Option<nat>): State {
    s.(history := s.history.(offers := s.history.offers + [Offer(client, target, route, core)]))
  }

  // ---- what a step may do to the session in progress ----

  // The same session, further on: `cancelled` and `generated` are never taken back.
  predicate Continues(a: Session, b: Session) {
    b.client == a.client && b.target == a.target && (a.cancelled ==> b.cancelled) && (a.generated.Some? ==> b.generated.Some?)
  }

  // Nothing is handed over and nothing begins.
  ghost predicate Calm(s: State, t: State) {
    && t.history == s.history
    && (t.deferred == s.deferred || t.deferred.None?)
    && (t.active.Some? ==> s.active.Some? && Continues(s.active.value, t.active.value))
    && (t.screen.preview.Some? ==>
          t.screen.preview == s.screen.preview
          || (t.active.Some? && t.screen.preview == PreviewOf(t.active.value)))
    && s.tasks.next <= t.tasks.next
    && (forall id | id in t.tasks.loops :: id in s.tasks.loops && t.tasks.loops[id] == s.tasks.loops[id])
  }

  // If a session is in progress, it was before, and is bound to the same Core session.
  ghost predicate KeepsCore(s: State, t: State) {
    t.active.Some? ==>
      s.active.Some? && t.active.value.client == s.active.value.client && t.active.value.coreID == s.active.value.coreID
  }

  function PreviewOf(a: Session): Option<Text> {
    if a.target.Some? then Some(Text(a.client, a.target.value)) else None
  }

  // At most one text is handed over, for the session in progress. A confirmed preview is handed over only
  // once in a session.
  ghost predicate Moves(s: State, t: State) {
    && Calm(s, t.(history := s.history))
    && t.history.seen == s.history.seen && t.history.targets == s.history.targets
    && (t.history.offers == s.history.offers
        || (&& s.active.Some? && !s.active.value.cancelled
            && |t.history.offers| > 0 && t.history.offers == s.history.offers + [t.history.offers[|t.history.offers| - 1]]
            && MayOffer(s, s.active.value, t.history.offers[|t.history.offers| - 1])
            && (t.history.offers[|t.history.offers| - 1].route == Confirmed ==>
                  s.active.value.generated.None? && (t.active.Some? ==> t.active.value.generated.Some?))))
  }

  predicate MayOffer(s: State, a: Session, o: Offer) {
    && o.session == a.client
    && (if o.route == Confirmed then s.screen.preview.Some? && o.target == s.screen.preview.value.target
        else Some(o.target) == a.target)
    && (o.route == Requested ==> o.core.Some? && o.core == a.coreID)
  }

  // ---- deferring ----

  function Defer(s: State, start: Start): State {
    if s.deferred.Some? || start.command.None? then s
    else s.(deferred := Some(start), screen := s.screen.(phase := Starting, captureReady := false),
            tasks := s.tasks.(loops := s.tasks.loops[s.tasks.next := start], next := s.tasks.next + 1))
  }

  function CancelDeferred(s: State, failed: bool): (r: State)
    ensures Calm(s, r) && KeepsCore(s, r)
    ensures r.deferred.None? && r.active == s.active
  {
    if s.deferred.None? then s
    else s.(deferred := None, screen := s.screen.(captureReady := false, phase := if failed then Error else Cancelled))
  }

  // ---- begin ----

  function Opened(start: Start): Session {
    Session(start.client, start.target, start.help, start.activation, start.space, false, false, None, None, false, false)
  }

  function Begin(s: State, start: Start, w: World): State {
    if s.active.Some? || s.deferred.Some? || !w.idle then s
    else if !w.prepared then (if w.preparing then Defer(s, start) else s)
    else if w.controlsPending then
      if start.command.Some? then Defer(s, start) else s.(screen := s.screen.(phase := Error))
    else if start.command.Some? && !w.intentValid then s.(screen := s.screen.(phase := Error))
    else if !w.placeAllowed then s.(screen := s.screen.(phase := Inactive))
    else if start.space
            && (start.command.None? || start.target.None? || start.activation.Some? || start.help || !w.spaceSupported)
    then s
    else s.(active := if w.commandSent then Some(Opened(start)) else None,
            screen := Screen(if w.commandSent then Starting else Error, false, None, None))
  }

  // A waiting loop wakes up, finds its own command still deferred, and gives up, waits on or begins.
  function DeferredTurn(s: State, id: nat, expired: bool, w: World): State
    requires id in s.tasks.loops
  {
    var start := s.tasks.loops[id];
    var t := s.(tasks := s.tasks.(loops := s.tasks.loops - {id}));
    if s.deferred.None? || s.deferred.value.command != start.command then t
    else if expired || s.active.Some? || !w.idle then CancelDeferred(t, true)
    else if w.preparing then s
    else if !w.prepared then CancelDeferred(t, true)
    else if w.controlsPending then s
    else Begin(t.(deferred := None), start, w)
  }

  // ---- cancel and stop ----

  function CancelSpaceTask(v: Tasks): Tasks {
    v.(spaceTask := None,
       spaces := if v.spaceTask.Some? && v.spaceTask.value in v.spaces
                 then v.spaces[v.spaceTask.value := v.spaces[v.spaceTask.value].(cancelled := true)] else v.spaces)
  }

  function CancelNative(v: Tasks): Tasks {
    v.(native := map id | id in v.native :: v.native[id].(cancelled := true))
  }

  function Cancel(s: State): (r: State)
    ensures Calm(s, r) && KeepsCore(s, r)
  {
    var t := s.(tasks := CancelSpaceTask(s.tasks));
    if t.deferred.Some? then CancelDeferred(t, false)
    else if t.active.None? || t.active.value.cancelled then t
    else if t.active.value.coreFinished then
      t.(active := None, screen := t.screen.(insertion := None, preview := None, phase := Cancelled))
    else
      t.(active := Some(t.active.value.(cancelled := true)), tasks := CancelNative(t.tasks),
         screen := Screen(Cancelled, false, None, None))
  }

  function Fail(s: State): (r: State)
    ensures Calm(s, r) && KeepsCore(s, r)
  {
    var t := Cancel(s);
    t.(screen := t.screen.(phase := Error))
  }

  function Stop(s: State): (r: State)
    ensures Calm(s, r) && KeepsCore(s, r)
  {
    if s.deferred.Some? then CancelDeferred(s, false)
    else if s.active.None? || s.active.value.stopping || s.active.value.cancelled then s
    else if s.active.value.space && !s.active.value.decided then Cancel(s)
    else if s.screen.phase == Starting && !s.screen.captureReady then Cancel(s)
    else s.(active := Some(s.active.value.(stopping := true)),
            screen := s.screen.(captureReady := false, phase := Processing))
  }

  // ---- the three hand-overs ----

  // An `insert` request of the Core. It has no suspension point.
  function InsertText(s: State, native: Native, w: World): (r: State)
    ensures Moves(s, r) && KeepsCore(s, r)
  {
    if s.active.None? || s.active.value.space || s.active.value.coreID != Some(native.coreID)
       || s.active.value.cancelled || native.cancelled || s.active.value.target.None? || w.empty then s
    else
      var a := s.active.value;
      var t := Offered(s, a.client, a.target.value, Requested, Some(native.coreID));
      if w.throws || w.accepted then t
      else t.(screen := t.screen.(insertion := Some(Text(a.client, a.target.value)), phase := AwaitingInsertion))
  }

  function NativeRan(s: State, id: nat, w: World): (r: State)
    requires id in s.tasks.native
    ensures Moves(s, r)
  {
    var native := s.tasks.native[id];
    var t := s.(tasks := s.tasks.(native := s.tasks.native - {id}));
    match native.operation
    case Insert => InsertText(t, native, w)
    case OtherOperation => t
    case _ =>
      // A capture or a recognition is about to start.
      if t.active.None? || t.active.value.cancelled || native.cancelled then t
      else t.(active := Some(t.active.value.(coreID := Some(native.coreID))))
  }

  function ConfirmPreview(s: State, w: World): (r: State)
    ensures Moves(s, r) && KeepsCore(s, r)
  {
    if s.active.None? || !s.active.value.coreFinished || s.active.value.cancelled || s.active.value.generated.Some?
       || s.screen.preview.None? || !w.accepted then s
    else
      var a := s.active.value;
      var t := Offered(s, a.client, s.screen.preview.value.target, Confirmed, None);
      if w.throws then t.(active := None, screen := t.screen.(preview := None, insertion := None, phase := Error))
      else
        t.(active := Some(a.(generated := Some(t.tasks.next))), tasks := t.tasks.(next := t.tasks.next + 1),
           screen := t.screen.(preview := None, insertion := Some(Text(a.client, s.screen.preview.value.target)),
                               phase := AwaitingInsertion))
  }

  function CompleteSpace(s: State, w: World): (r: State)
    ensures Calm(s, r) && KeepsCore(s, r)
  {
    if s.active.None? || !s.active.value.coreFinished || s.active.value.cancelled || s.tasks.spaceTask.Some?
       || s.active.value.target.None? || !s.active.value.space || !w.ready then s
    else if w.empty then Cancel(s)
    else
      var v := s.tasks;
      s.(tasks := v.(spaceTask := Some(v.next), next := v.next + 1,
                     spaces := v.spaces[v.next := SpaceWork(s.active.value.client, s.active.value.target.value, false)]))
  }

  predicate SameClient(s: State, client: nat) {
    s.active.Some? && s.active.value.client == client
  }

  function FinishSpaceTask(s: State, client: nat): (r: State)
    ensures Calm(s, r) && KeepsCore(s, r)
  {
    if SameClient(s, client) then s.(tasks := s.tasks.(spaceTask := None)) else s
  }

  // The work has been waited for; a cancelled task throws here.
  function SpaceWorkCame(s: State, id: nat, w: World): (r: State)
    requires id in s.tasks.spaces
    ensures Moves(s, r) && KeepsCore(s, r)
  {
    var work := s.tasks.spaces[id];
    var t := s.(tasks := s.tasks.(spaces := s.tasks.spaces - {id}));
    if work.cancelled || !SameClient(t, work.client) || t.active.value.cancelled
       || t.active.value.target != Some(work.target) || !w.accepted || w.empty
    then FinishSpaceTask(if SameClient(t, work.client) then Fail(t) else t, work.client)
    else
      var u := Offered(t, work.client, work.target, Spoken, None);
      if w.throws then FinishSpaceTask(Fail(u), work.client)
      else
        FinishSpaceTask(
          u.(active := Some(u.active.value.(generated := Some(u.tasks.next))), tasks := u.tasks.(next := u.tasks.next + 1),
             screen := u.screen.(insertion := Some(Text(work.client, work.target)), phase := AwaitingInsertion)),
          work.client)
  }

  // ---- events of the Core ----

  function ClientOf(s: State): Option<nat> {
    if s.active.Some? then Some(s.active.value.client) else None
  }

  function CoreIDOf(s: State): Option<nat> {
    if s.active.Some? then s.active.value.coreID else None
  }

  function Started(s: State, client: nat, coreID: Option<nat>): (r: State)
    ensures Calm(s, r)
  {
    if !SameClient(s, client) then s else s.(active := Some(s.active.value.(coreID := coreID)))
  }

  function Level(s: State, coreID: Option<nat>, limitReached: bool): (r: State)
    ensures Calm(s, r) && KeepsCore(s, r)
  {
    if s.active.None? || s.active.value.cancelled || s.active.value.stopping || coreID != s.active.value.coreID then s
    else
      var t := s.(screen := s.screen.(captureReady := true, phase := Recording));
      if limitReached then Stop(t) else t
  }

  datatype Disposition = Plain | Preview(coreID: nat)

  // `w.accepted` says that the preview answers this session's request and is usable; `w.throws` that the
  // snapshot that carries it is too large to share.
  function ReceivePreview(s: State, coreID: nat, w: World): (r: State)
    ensures Calm(s, r) && KeepsCore(s, r)
  {
    if s.active.None? || s.active.value.cancelled || !s.active.value.help || s.active.value.target.None?
       || s.active.value.coreID != Some(coreID) || !w.accepted
    then s.(active := None, screen := s.screen.(phase := Error))
    else if w.throws
    then s.(active := None, screen := Screen(Error, false, None, None))
    else
      s.(active := Some(s.active.value.(coreFinished := true)),
         screen := Screen(AwaitingInsertion, false, None, Some(Text(s.active.value.client, s.active.value.target.value))))
  }

  // The text of an activation goes back through the activation, not to a keyboard. `w.accepted` says that
  // the activation is still the one on screen, `w.throws` that a composed text was missing.
  function FinishActivation(s: State, w: World): (r: State)
    ensures Calm(s, r) && KeepsCore(s, r)
  {
    if s.active.None? || !w.accepted then s
    else if s.active.value.help && w.throws then s.(active := None, screen := s.screen.(phase := Error))
    else s.(active := None, screen := s.screen.(captureReady := false, phase := if w.empty then Error else Done))
  }

  function Completed(s: State, client: Option<nat>, disposition: Disposition, w: World): (r: State)
    ensures Calm(s, r) && KeepsCore(s, r)
  {
    if client != ClientOf(s) then s
    else if s.active.Some? && s.active.value.space && s.active.value.coreFinished then s
    else if s.active.None? || s.active.value.cancelled then s.(active := None, screen := Screen(Cancelled, false, None, None))
    else if s.active.value.space then
      CompleteSpace(s.(active := Some(s.active.value.(coreFinished := true)),
                       screen := s.screen.(captureReady := false, phase := Processing)), w)
    else if s.active.value.activation.Some? then FinishActivation(s, w)
    else if disposition.Preview? then ReceivePreview(s, disposition.coreID, w)
    else if s.active.value.help then s.(active := None, screen := s.screen.(phase := Error))
    else s.(active := None, screen := s.screen.(captureReady := false, phase := Done))
  }

  function Ended(s: State, client: Option<nat>): (r: State)
    ensures Calm(s, r) && KeepsCore(s, r)
  {
    if client != ClientOf(s) then s
    else
      var wasCancelled := s.active.Some? && s.active.value.cancelled;
      s.(active := None, screen := s.screen.(preview := None, captureReady := false,
                                             phase := if wasCancelled then Cancelled else Error))
  }

  function AbortNative(s: State, coreID: Option<nat>, id: nat): (r: State)
    ensures Calm(s, r) && KeepsCore(s, r)
  {
    if coreID != CoreIDOf(s) || id !in s.tasks.native then s
    else s.(tasks := s.tasks.(native := s.tasks.native[id := s.tasks.native[id].(cancelled := true)]))
  }

  // ---- commands of the keyboard ----

  predicate IsDeferred(s: State, session: Option<nat>, target: Option<nat>) {
    && session == (if s.deferred.Some? then Some(s.deferred.value.client) else None)
    && target == (if s.deferred.Some? then s.deferred.value.target else None)
  }

  predicate IsActive(s: State, session: Option<nat>, target: Option<nat>) {
    && s.active.Some? && session == Some(s.active.value.client)
    && (s.active.value.target == target || s.active.value.activation == session)
  }

  function CancelCommand(s: State, session: Option<nat>, target: Option<nat>): (r: State)
    ensures Calm(s, r) && KeepsCore(s, r)
  {
    if IsDeferred(s, session, target) then CancelDeferred(s, false)
    else if IsActive(s, session, target) then Cancel(s)
    else s
  }

  // `noLanguage` says that a translation was chosen and the session has no target language.
  function StopCommand(s: State, session: Option<nat>, target: Option<nat>, noLanguage: bool, w: World): (r: State)
    ensures Calm(s, r) && KeepsCore(s, r)
  {
    if IsDeferred(s, session, target) then CancelDeferred(s, false)
    else if !IsActive(s, session, target) then s
    else if s.active.value.space && !w.accepted then s
    else
      var t := if s.active.value.space then s.(active := Some(s.active.value.(decided := true))) else s;
      if noLanguage then Cancel(t) else CompleteSpace(Stop(t), w)
  }

  function FinishTranslation(s: State, session: Option<nat>, target: Option<nat>, w: World): (r: State)
    ensures Calm(s, r) && KeepsCore(s, r)
  {
    if s.active.None? || session != Some(s.active.value.client) || s.active.value.target != target
       || !s.active.value.space || !w.accepted then s
    else CompleteSpace(s.(active := Some(s.active.value.(decided := true))), w)
  }

  function Receipt(s: State, session: nat, target: nat, insertion: nat, w: World): (r: State)
    ensures Calm(s, r) && KeepsCore(s, r)
  {
    if s.active.None? || !s.active.value.coreFinished || s.active.value.generated != Some(insertion)
       || s.active.value.client != session || s.active.value.target != Some(target) || !w.accepted then s
    else s.(active := None, screen := s.screen.(insertion := None, preview := None,
                                                phase := if w.throws then Error else Done))
  }

  // Another keyboard has taken the input field over.
  function DetachPrevious(s: State): (r: State)
    ensures Calm(s, r) && KeepsCore(s, r)
  {
    if s.active.None? || s.active.value.target.None? then s
    else if s.active.value.coreFinished then Cancel(s)
    else if s.screen.insertion.Some? && s.screen.insertion.value.session == s.active.value.client
    then s.(screen := s.screen.(insertion := None))
    else s
  }

  // ---- runs ----

  // `StopCalled`, `CancelCalled`, `FailCalled` and `DeferredDropped` stand for every other caller: the
  // buttons, deadlines, the keyboard lease, interruptions, moving to the background.
  datatype Event =
    | StartAsked(start: Start)
    | LoopWoke(id: nat, expired: bool)
    | StopCalled
    | CancelCalled
    | FailCalled
    | DeferredDropped(failed: bool)
    | ExpiryCame(client: nat)
    | NativeArrived(operation: Operation, coreID: nat)
    | NativeStarted(id: nat)
    | NativeAborted(core: Option<nat>, id: nat)
    | CoreStarted(client: nat, core: Option<nat>)
    | CoreLevel(core: Option<nat>, limitReached: bool)
    | CoreCompleted(finished: Option<nat>, disposition: Disposition)
    | CoreEnded(finished: Option<nat>)
    | SpaceCame(id: nat)
    | CancelAsked(session: Option<nat>, target: Option<nat>)
    | StopAsked(session: Option<nat>, target: Option<nat>, noLanguage: bool)
    | TranslationAsked(session: Option<nat>, target: Option<nat>)
    | ConfirmAsked
    | ReceiptCame(client: nat, field: nat, insertion: nat)
    | TakenOver

  // A keyboard numbers its sessions anew; the application's own starts, which have no input field, may
  // repeat an id. Commands are numbered in the order they come.
  predicate Possible(s: State, e: Event) {
    match e
    case StartAsked(start) =>
      (start.target.Some? ==> start.client !in s.history.seen) && (start.command.Some? ==> start.command.value == s.tasks.next)
    case LoopWoke(id, _) => id in s.tasks.loops
    case NativeStarted(id) => id in s.tasks.native
    case SpaceCame(id) => id in s.tasks.spaces
    case _ => true
  }

  // The history notes the session and uses up the command's number.
  function Asked(s: State, start: Start): State {
    s.(history := s.history.(seen := s.history.seen + {start.client},
                             targets := if start.target.Some? then s.history.targets[start.client := start.target.value]
                                        else s.history.targets),
       tasks := s.tasks.(next := s.tasks.next + 1))
  }

  function Arrive(s: State, operation: Operation, coreID: nat): (r: State)
    ensures Calm(s, r) && KeepsCore(s, r)
  {
    s.(tasks := s.tasks.(native := s.tasks.native[s.tasks.next := Native(operation, coreID, false)], next := s.tasks.next + 1))
  }

  function Step(s: State, e: Event, w: World): State
    requires Possible(s, e)
  {
    match e
    case StartAsked(start) => Begin(Asked(s, start), start, w)
    case LoopWoke(id, expired) => DeferredTurn(s, id, expired, w)
    case StopCalled => Stop(s)
    case CancelCalled => Cancel(s)
    case FailCalled => Fail(s)
    case DeferredDropped(failed) => CancelDeferred(s, failed)
    case ExpiryCame(client) => if SameClient(s, client) then Cancel(s) else s
    case NativeArrived(operation, coreID) => Arrive(s, operation, coreID)
    case NativeStarted(id) => NativeRan(s, id, w)
    case NativeAborted(core, id) => AbortNative(s, core, id)
    case CoreStarted(client, core) => Started(s, client, core)
    case CoreLevel(core, limitReached) => Level(s, core, limitReached)
    case CoreCompleted(finished, disposition) => Completed(s, finished, disposition, w)
    case CoreEnded(finished) => Ended(s, finished)
    case SpaceCame(id) => SpaceWorkCame(s, id, w)
    case CancelAsked(session, target) => CancelCommand(s, session, target)
    case StopAsked(session, target, noLanguage) => StopCommand(s, session, target, noLanguage, w)
    case TranslationAsked(session, target) => FinishTranslation(s, session, target, w)
    case ConfirmAsked => ConfirmPreview(s, w)
    case ReceiptCame(client, field, insertion) => Receipt(s, client, field, insertion, w)
    case TakenOver => DetachPrevious(s)
  }
}

/** The device-flow client of ios/App/AccountSettings.swift as a state machine. A step is what one
    method does between two suspension points; `requests` holds the suspended calls. */
module AccountFlow {
  import opened Options
  import opened AccountAnswers

  datatype Operation = Loading | Starting | Polling | Cancelling | SigningOut

  datatype Notice = CodeExpired | SignedIn | CancelPending | SignOutPending | SignOutDone | CancelDone

  datatype Failure = LoadFailed | StartFailed | PollFailed | SignOutUnconfirmed | CancelUnconfirmed

  datatype Flow = Flow(id: string, code: string, expiresAt: real, interval: int, nextPollAt: real)

  // What the suspended method still does once its intent has been drained.
  datatype Resume = Return | RestOfTick

  // A suspended call: the operation it carries out, the connection that sent it, the flow captured
  // by the method, and the method's continuation.
  datatype Request = Request(operation: Operation, connection: nat, flow: Option<Flow>, resume: Resume)

  // What can be observed on the wire. A request is named by the position of its `Sent` entry.
  datatype Entry =
    | Sent(request: Request, at: real)
    | Answered(operation: Operation, connection: nat, at: real)
    | Retried(connection: nat, at: real)

  // The fields of the class, and the latest reading of its clock.
  datatype Settings = Settings(
    status: Option<AccountStatus>,
    operation: Option<Operation>,
    userCode: Option<string>,
    secondsRemaining: int,
    pollingInterval: int,
    activityBusy: bool,
    notice: Option<Notice>,
    error: Option<Failure>,
    cancelRequested: bool,
    signOutRequested: bool,
    flow: Option<Flow>,
    ready: bool,
    connection: nat,
    visible: bool,
    foreground: bool,
    pollFailed: bool,
    clock: real)
  {
    predicate Blocked() {
      !ready || activityBusy || operation.Some? || cancelRequested || signOutRequested
    }

    predicate HasFlow() {
      flow.Some? || operation == Some(Starting)
    }

    predicate CanCancel() {
      ready && HasFlow() && !cancelRequested && !signOutRequested
    }

    function ClearFlow(): Settings {
      this.(flow := None, userCode := None, secondsRemaining := 0, pollingInterval := 0, pollFailed := false)
    }
  }

  datatype State = State(a: Settings, requests: map<nat, Request>, log: seq<Entry>)

  function Initial(ready: bool, clock: real): State {
    State(Settings(None, None, None, 0, 0, false, None, None, false, false, None, ready, 0, false, false, false, clock),
          map[], [])
  }

  function CeilOrZero(x: real): int {
    if x <= 0.0 then 0 else -((-x).Floor)
  }

  function Min(a: int, b: int): int {
    if a <= b then a else b
  }

  function Later(a: real, b: real): real {
    if a <= b then b else a
  }

  // ---- what the methods do to the fields ----

  ghost predicate SameIntents(a: Settings, b: Settings) {
    b.cancelRequested == a.cancelRequested && b.signOutRequested == a.signOutRequested
  }

  // The epoch of the fields: the connection, its presence and the time.
  ghost predicate SameEpoch(a: Settings, b: Settings) {
    b.connection == a.connection && b.ready == a.ready && b.clock == a.clock
  }

  // The flow after a step, if there is one, is the flow before it, with an interval at least as long.
  ghost predicate FlowGoesOn(a: Settings, b: Settings) {
    b.flow.None?
    || (a.flow.Some? && b.flow.value.id == a.flow.value.id && b.flow.value.code == a.flow.value.code
        && b.flow.value.expiresAt == a.flow.value.expiresAt
        && a.flow.value.interval <= b.flow.value.interval)
  }

  function Expire(a: Settings): (b: Settings)
    ensures SameEpoch(a, b) && SameIntents(a, b) && (b.flow == a.flow || b.flow.None?)
    ensures b.status == a.status && b.operation == a.operation
  {
    if a.flow.None? then a
    else
      var left := CeilOrZero(a.flow.value.expiresAt - a.clock);
      var b := a.(secondsRemaining := left, userCode := if left == 0 then None else a.userCode);
      if left == 0 && a.operation.None? && !a.cancelRequested && !a.signOutRequested
      then b.ClearFlow().(notice := Some(CodeExpired)) else b
  }

  function Reset(a: Settings, ready: bool): Settings {
    a.(connection := a.connection + 1, ready := ready, status := None, operation := None, flow := None,
       userCode := None, secondsRemaining := 0, pollingInterval := 0, pollFailed := false,
       cancelRequested := false, signOutRequested := false, notice := None, error := None)
  }

  function Resumed(a: Settings): (b: Settings)
    requires a.flow.Some?
    ensures SameEpoch(a, b) && FlowGoesOn(a, b)
  {
    var flow := a.flow.value;
    a.(pollFailed := false, error := None, userCode := Some(flow.code),
       flow := Some(flow.(nextPollAt := Later(flow.nextPollAt, a.clock + flow.interval as real))))
  }

  function Loaded(a: Settings, answer: Answer): (b: Settings)
    ensures SameEpoch(a, b) && SameIntents(a, b) && b.flow == a.flow && b.pollFailed == a.pollFailed
  {
    if answer.Reply? && answer.status.Some? then a.(status := answer.status)
    else a.(error := Some(LoadFailed))
  }

  function Adopted(a: Settings, x: AccountAuthorization): Settings {
    a.(flow := Some(Flow(x.authorizationSessionID, x.userCode, a.clock + x.expiresIn as real, x.interval,
                         a.clock + x.interval as real)),
       pollingInterval := x.interval, secondsRemaining := x.expiresIn,
       userCode := if a.cancelRequested || a.signOutRequested then None else Some(x.userCode),
       pollFailed := false)
  }

  function Begun(a: Settings, answer: Answer): (b: Settings)
    ensures SameEpoch(a, b) && SameIntents(a, b)
    ensures b.flow == a.flow
            || (b.flow.Some? && 1 <= b.flow.value.interval <= 3600
                && b.flow.value.nextPollAt == a.clock + b.flow.value.interval as real)
  {
    if answer.Reply? && answer.authorization.Some? && answer.authorization.value.Valid() then
      Adopted(a, answer.authorization.value)
    else a.(error := Some(StartFailed))
  }

  // What a poll reply says, once every decoder and guard has been applied.
  datatype Verdict = Pending(slowDown: bool) | LoggedIn(state: AccountStatus) | Expired | Rejected

  function PollVerdict(answer: Answer): Verdict {
    if answer.Thrown? || answer.poll.None? then Rejected
    else
      var poll := answer.poll.value;
      if poll.status == "pending" then
        if poll.slowDown.Some? then Pending(poll.slowDown.value) else Rejected
      else if poll.status == "signed_in" then
        if answer.state.Some? && answer.state.value.Authentication().VerifiedLogin?
        then LoggedIn(answer.state.value) else Rejected
      else if poll.status == "expired" then Expired
      else Rejected
  }

  function Slowed(interval: int, slowDown: bool): int {
    if slowDown then Min(3600, interval + 5) else interval
  }

  function Polled(a: Settings, flow: Flow, answer: Answer): (b: Settings)
    ensures SameEpoch(a, b) && SameIntents(a, b)
    ensures b.flow.None? || (b.flow == a.flow && b.pollFailed)
            || (PollVerdict(answer).Pending?
                && b.flow == Some(flow.(interval := b.flow.value.interval, nextPollAt := b.flow.value.nextPollAt))
                && b.flow.value.interval == Slowed(flow.interval, PollVerdict(answer).slowDown)
                && b.flow.value.nextPollAt == a.clock + b.flow.value.interval as real)
  {
    match PollVerdict(answer)
    case Pending(slowDown) =>
      var interval := Slowed(flow.interval, slowDown);
      a.(flow := Some(flow.(interval := interval, nextPollAt := a.clock + interval as real)),
         pollingInterval := interval)
    case LoggedIn(state) => a.(status := Some(state)).ClearFlow().(notice := Some(SignedIn))
    case Expired => a.ClearFlow().(notice := Some(CodeExpired))
    case Rejected => a.(pollFailed := true, error := Some(PollFailed))
  }

  function SignedOff(a: Settings, answer: Answer): (b: Settings)
    ensures SameEpoch(a, b) && b.operation.None? && (b.flow.None? || (b.flow == a.flow && b.pollFailed))
  {
    if answer.Reply? && answer.status.Some? && answer.status.value.Authentication() == SignedOut
    then a.(status := answer.status).ClearFlow().(cancelRequested := false, notice := Some(SignOutDone),
                                                  signOutRequested := false, operation := None)
    else a.(pollFailed := true, notice := None, error := Some(SignOutUnconfirmed),
            signOutRequested := false, operation := None)
  }

  function Cancelled(a: Settings, answer: Answer): (b: Settings)
    ensures b.signOutRequested == a.signOutRequested && b.status == a.status
    ensures SameEpoch(a, b) && b.operation.None? && (b.flow.None? || (b.flow == a.flow && b.pollFailed))
  {
    if answer.Reply? && answer.cancelled == Some(true)
    then a.ClearFlow().(notice := Some(CancelDone), cancelRequested := false, operation := None)
    else a.(pollFailed := true, notice := None, error := Some(CancelUnconfirmed),
            cancelRequested := false, operation := None)
  }

  // ---- the methods, up to their first suspension ----

  function Send(s: State, operation: Operation, flow: Option<Flow>, resume: Resume): State {
    var request := Request(operation, s.a.connection, flow, resume);
    State(s.a.(operation := Some(operation)),
          s.requests[|s.log| := request],
          s.log + [Sent(request, s.a.clock)])
  }

  // Draining changes only the operation, the wire and the cancel intent, and sends at most one request.
  ghost predicate Drained(s: State, t: State) {
    t.a == s.a.(operation := t.a.operation, cancelRequested := t.a.cancelRequested)
    && (t.log == s.log || (exists request :: t.log == s.log + [Sent(request, s.a.clock)]))
  }

  // `drainIntent` up to its first suspension, and then, when it does not suspend, what follows it.
  function Drain(s: State, resume: Resume): (t: State)
    ensures Drained(s, t)
  {
    if !s.a.ready || s.a.activityBusy || s.a.operation.Some? then Continue(s, resume)
    else if s.a.signOutRequested then Send(s, SigningOut, None, resume)
    else if s.a.cancelRequested then
      if s.a.flow.None? then Continue(DropCancel(s), resume)
      else Send(s, Cancelling, s.a.flow, resume)
    else Continue(s, resume)
  }

  function Continue(s: State, resume: Resume): (t: State)
    ensures Drained(s, t)
  {
    if resume == RestOfTick && !s.a.Blocked() && s.a.visible && s.a.foreground && !s.a.pollFailed
       && s.a.flow.Some? && s.a.clock >= s.a.flow.value.nextPollAt
    then Send(s, Polling, s.a.flow, Return) else s
  }

  function At(s: State, clock: real): State { s.(a := s.a.(clock := clock)) }

  function Idle(s: State): State { s.(a := s.a.(operation := None)) }

  function DropCancel(s: State): State { s.(a := s.a.(cancelRequested := false)) }

  function NoError(s: State): State { s.(a := s.a.(error := None)) }

  function Cleared(s: State): State { s.(a := s.a.(error := None, notice := None)) }

  function Busy(s: State, value: bool): State { s.(a := s.a.(activityBusy := value)) }

  function Lives(s: State, visible: bool, foreground: bool): State {
    s.(a := s.a.(visible := visible, foreground := foreground))
  }

  function AskCancel(s: State): State {
    s.(a := s.a.(cancelRequested := true, userCode := None, error := None, notice := Some(CancelPending)))
  }

  function AskSignOut(s: State): State {
    s.(a := s.a.(signOutRequested := true, userCode := None, error := None, notice := Some(SignOutPending)))
  }

  function UpdateExpiry(s: State): State { s.(a := Expire(s.a)) }

  function Replace(s: State, ready: bool): State { s.(a := Reset(s.a, ready)) }

  function Load(s: State): (t: State)
    ensures SameEpoch(s.a, t.a) && FlowGoesOn(s.a, t.a)
  {
    if s.a.Blocked() then s else Send(NoError(s), Loading, None, Return)
  }

  function BeginSignIn(s: State): (t: State)
    ensures SameEpoch(s.a, t.a) && FlowGoesOn(s.a, t.a)
  {
    if s.a.Blocked() || s.a.HasFlow() || !s.a.visible || !s.a.foreground then s
    else Send(Cleared(s), Starting, None, Return)
  }

  function Tick(s: State): (t: State)
    ensures SameEpoch(s.a, t.a) && FlowGoesOn(s.a, t.a)
  {
    Drain(UpdateExpiry(s), RestOfTick)
  }

  function RetryPolling(s: State): (t: State)
    ensures SameEpoch(s.a, t.a) && FlowGoesOn(s.a, t.a)
  {
    if s.a.Blocked() || s.a.flow.None? then s
    else State(Resumed(s.a), s.requests, s.log + [Retried(s.a.connection, s.a.clock)])
  }

  function CancelSignIn(s: State): (t: State)
    ensures SameEpoch(s.a, t.a) && FlowGoesOn(s.a, t.a)
  {
    if !s.a.CanCancel() then s else Drain(AskCancel(s), Return)
  }

  function ConfirmSignOut(s: State): (t: State)
    ensures SameEpoch(s.a, t.a) && FlowGoesOn(s.a, t.a)
  {
    if !s.a.ready || s.a.signOutRequested then s else Drain(AskSignOut(s), Return)
  }

  // ---- the methods, from an answer to their next suspension ----

  function LoadAnswered(s: State, answer: Answer): State { s.(a := Loaded(s.a, answer)) }

  function BeginAnswered(s: State, answer: Answer): State { s.(a := Begun(s.a, answer)) }

  function PollAnswered(s: State, flow: Flow, answer: Answer): State { s.(a := Polled(s.a, flow, answer)) }

  function SignOutAnswered(s: State, answer: Answer): State { s.(a := SignedOff(s.a, answer)) }

  function CancelAnswered(s: State, answer: Answer): State { s.(a := Cancelled(s.a, answer)) }

  function Finish(s: State): State {
    Drain(Idle(s), Return)
  }

  function Deliver(s: State, request: Request, answer: Answer): (t: State)
    requires request.operation == Polling ==> request.flow.Some?
    ensures SameEpoch(s.a, t.a)
  {
    match request.operation
    case Loading => Finish(LoadAnswered(s, answer))
    case Starting => Finish(BeginAnswered(s, answer))
    case Polling => Finish(PollAnswered(s, request.flow.value, answer))
    case SigningOut => Continue(SignOutAnswered(s, answer), request.resume)
    case Cancelling =>
      var t := CancelAnswered(s, answer);
      if t.a.signOutRequested then Drain(t, request.resume) else Continue(t, request.resume)
  }

  // The answer to a call of a replaced connection is dropped; its method only runs to its end.
  predicate Stale(s: State, id: nat)
    requires id in s.requests
  {
    s.requests[id].connection != s.a.connection
  }

  function Settle(s: State, id: nat, answer: Answer): (r: State)
    requires id in s.requests
    requires s.requests[id].operation == Polling ==> s.requests[id].flow.Some?
    ensures SameEpoch(s.a, r.a)
  {
    var request := s.requests[id];
    var t := s.(requests := s.requests - {id},
                log := s.log + [Answered(request.operation, request.connection, s.a.clock)]);
    if Stale(s, id) then Continue(t, request.resume) else Deliver(t, request, answer)
  }

  // ---- runs ----

  datatype Event =
    | ConnectionReplaced(ready: bool)
    | ActivityBusy(value: bool)
    | Lifecycle(visible: bool, foreground: bool)
    | LoadAsked
    | SignInAsked
    | Ticked
    | RetryAsked
    | CancelAsked
    | SignOutConfirmed
    | Settled(id: nat, answer: Answer)

  datatype Timed = Timed(event: Event, at: real)

  predicate WellFormed(s: State) {
    forall id | id in s.requests :: s.requests[id].operation == Polling ==> s.requests[id].flow.Some?
  }

  function Step(s: State, e: Timed): (r: State)
    requires WellFormed(s)
    ensures r.a.clock == e.at
  {
    var t := At(s, e.at);
    match e.event
    case ConnectionReplaced(ready) => Replace(t, ready)
    case ActivityBusy(value) => Busy(t, value)
    case Lifecycle(visible, foreground) => UpdateExpiry(Lives(t, visible, foreground))
    case LoadAsked => Load(t)
    case SignInAsked => BeginSignIn(t)
    case Ticked => Tick(t)
    case RetryAsked => RetryPolling(t)
    case CancelAsked => CancelSignIn(t)
    case SignOutConfirmed => ConfirmSignOut(t)
    case Settled(id, answer) => if id in t.requests then Settle(t, id, answer) else t
  }
}

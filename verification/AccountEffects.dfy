/** What the answers of the account service do to what the device flow shows, read off the answers' own fields,
    step by step and over whole runs. */
module AccountEffects {
  import opened Options
  import opened AccountAnswers
  import opened AccountFlow
  import opened AccountSafety
  import opened AccountTheorems
  import opened AccountSignOut

  // ---- what an answer says ----

  predicate SaysSignedOut(answer: Answer) {
    answer.Reply? && answer.status.Some? && answer.status.value.Authentication() == SignedOut
  }

  // A poll that reports a login, with a nested account state that verifies it.
  predicate SaysLoggedIn(answer: Answer) {
    && answer.Reply? && answer.poll.Some? && answer.poll.value.status == "signed_in"
    && answer.state.Some? && answer.state.value.Authentication().VerifiedLogin?
  }

  predicate SaysWait(answer: Answer) {
    answer.Reply? && answer.poll.Some? && answer.poll.value.status == "pending" && answer.poll.value.slowDown.Some?
  }

  predicate SaysExpired(answer: Answer) {
    answer.Reply? && answer.poll.Some? && answer.poll.value.status == "expired"
  }

  predicate SaysAuthorized(answer: Answer) {
    answer.Reply? && answer.authorization.Some? && answer.authorization.value.Valid()
  }

  // The account status that the answer to a call carries.
  function Carried(operation: Operation, answer: Answer): Option<AccountStatus> {
    match operation
    case Loading => if answer.Reply? then answer.status else None
    case Polling => if SaysLoggedIn(answer) then answer.state else None
    case SigningOut => if SaysSignedOut(answer) then answer.status else None
    case Starting => None
    case Cancelling => None
  }

  // The answer does what its call was for; any other answer is a failure.
  predicate Confirms(operation: Operation, answer: Answer) {
    match operation
    case Loading => answer.Reply? && answer.status.Some?
    case Starting => SaysAuthorized(answer)
    case Polling => SaysWait(answer) || SaysLoggedIn(answer) || SaysExpired(answer)
    case SigningOut => SaysSignedOut(answer)
    case Cancelling => answer.Reply? && answer.cancelled == Some(true)
  }

  // The answer ends the flow.
  predicate EndsFlow(operation: Operation, answer: Answer) {
    || (operation == Polling && (SaysLoggedIn(answer) || SaysExpired(answer)))
    || (operation in {SigningOut, Cancelling} && Confirms(operation, answer))
  }

  function FailureOf(operation: Operation): Failure {
    match operation
    case Loading => LoadFailed
    case Starting => StartFailed
    case Polling => PollFailed
    case SigningOut => SignOutUnconfirmed
    case Cancelling => CancelUnconfirmed
  }

  // ---- one answer of the current connection ----

  // The fields that a drained intent does not touch.
  ghost predicate SameShown(a: Settings, b: Settings) {
    b == a.(operation := b.operation, cancelRequested := b.cancelRequested)
  }

  lemma DrainShowsTheSame(s: State, resume: Resume)
    ensures SameShown(s.a, Drain(s, resume).a) && SameShown(s.a, Continue(s, resume).a)
  {
    hide Continue, Drain;
  }

  // The fields as the answer leaves them, before the next intent is drained.
  function Taken(a: Settings, request: Request, answer: Answer): Settings
    requires request.operation == Polling ==> request.flow.Some?
  {
    match request.operation
    case Loading => Loaded(a, answer)
    case Starting => Begun(a, answer)
    case Polling => Polled(a, request.flow.value, answer)
    case SigningOut => SignedOff(a, answer)
    case Cancelling => Cancelled(a, answer)
  }

  lemma DeliveredShows(s: State, request: Request, answer: Answer)
    requires request.operation == Polling ==> request.flow.Some?
    ensures SameShown(Taken(s.a, request, answer), Deliver(s, request, answer).a)
  {
    hide Loaded, Begun, Polled, SignedOff, Cancelled, Drain, Continue;
    var u := s.(a := Taken(s.a, request, answer));
    DrainShowsTheSame(Idle(u), Return);
    DrainShowsTheSame(u, request.resume);
  }

  lemma SettledShows(s: State, id: nat, answer: Answer, at: real)
    requires Inv(s) && Current(s, id)
    ensures SameShown(Taken(s.a.(clock := at), s.requests[id], answer), Step(s, Timed(Settled(id, answer), at)).a)
  {
    hide Taken, Deliver, Inv;
    var request := s.requests[id];
    var t := At(s, at).(requests := s.requests - {id},
                        log := s.log + [Entry.Answered(request.operation, request.connection, at)]);
    CurrentIsWellFormed(s);
    DeliveredShows(t, request, answer);
  }

  lemma CurrentIsWellFormed(s: State)
    requires Inv(s)
    ensures WellFormed(s)
  {}

  // The flow after an answer that was captured with `request`, read off the answer's fields.
  function FlowThen(flow: Option<Flow>, request: Request, answer: Answer, at: real): Option<Flow>
    requires request.operation == Polling ==> request.flow.Some?
  {
    if EndsFlow(request.operation, answer) then None
    else if request.operation == Starting && SaysAuthorized(answer) then
      var x := answer.authorization.value;
      Some(Flow(x.authorizationSessionID, x.userCode, at + x.expiresIn as real, x.interval, at + x.interval as real))
    else if request.operation == Polling && SaysWait(answer) then
      var f := request.flow.value;
      var interval := if answer.poll.value.slowDown == Some(true) then Min(3600, f.interval + 5) else f.interval;
      Some(f.(interval := interval, nextPollAt := at + interval as real))
    else flow
  }

  // Polling pauses after a failed poll, sign-out or cancel; a new flow and the end of one clear the pause.
  function PausedThen(paused: bool, operation: Operation, answer: Answer): bool {
    if Confirms(operation, answer) then
      paused && !EndsFlow(operation, answer) && operation != Starting
    else paused || operation in {Polling, SigningOut, Cancelling}
  }

  // All that an answer does to the status, the flow, the error and the pause.
  ghost predicate Effects(a: Settings, b: Settings, request: Request, answer: Answer)
    requires request.operation == Polling ==> request.flow.Some?
  {
    var operation := request.operation;
    && b.status == (if Carried(operation, answer).Some? then Carried(operation, answer) else a.status)
    && b.flow == FlowThen(a.flow, request, answer, a.clock)
    && (EndsFlow(operation, answer) ==> b.userCode.None? && b.secondsRemaining == 0)
    && (operation == Starting && SaysAuthorized(answer) ==>
          b.userCode == if a.cancelRequested || a.signOutRequested then None else Some(answer.authorization.value.userCode))
    && b.error == (if Confirms(operation, answer) then a.error else Some(FailureOf(operation)))
    && b.pollFailed == PausedThen(a.pollFailed, operation, answer)
    && (operation == Polling && SaysLoggedIn(answer) ==> b.notice == Some(SignedIn))
    && (operation == SigningOut && SaysSignedOut(answer) ==> b.notice == Some(SignOutDone))
  }

  lemma LoadTaken(a: Settings, request: Request, answer: Answer)
    requires request.operation == Loading
    ensures Effects(a, Loaded(a, answer), request, answer)
  {
    hide SaysLoggedIn, SaysExpired, SaysWait, SaysSignedOut, SaysAuthorized;
  }

  lemma BeginTaken(a: Settings, request: Request, answer: Answer)
    requires request.operation == Starting
    ensures Effects(a, Begun(a, answer), request, answer)
  {
    hide AccountAuthorization.Valid, Adopted, Effects;
    if SaysAuthorized(answer) { AdoptTaken(a, request, answer); } else { StartFails(a, request, answer); }
  }

  lemma AdoptTaken(a: Settings, request: Request, answer: Answer)
    requires request.operation == Starting && SaysAuthorized(answer)
    ensures Effects(a, Adopted(a, answer.authorization.value), request, answer)
  {
    hide AccountAuthorization.Valid, SaysLoggedIn, SaysExpired, SaysWait, SaysSignedOut;
  }

  lemma StartFails(a: Settings, request: Request, answer: Answer)
    requires request.operation == Starting && !SaysAuthorized(answer)
    ensures Effects(a, a.(error := Some(StartFailed)), request, answer)
  {
    hide AccountAuthorization.Valid, SaysAuthorized, SaysLoggedIn, SaysExpired, SaysWait, SaysSignedOut;
  }

  lemma SignOutTaken(a: Settings, request: Request, answer: Answer)
    requires request.operation == SigningOut
    ensures Effects(a, SignedOff(a, answer), request, answer)
  {
    hide AccountStatus.Authentication, SaysLoggedIn, SaysExpired, SaysWait, SaysAuthorized, Settings.ClearFlow, Effects;
    if SaysSignedOut(answer) { SignOutConfirmed(a, request, answer); } else { IntentFails(a, request, answer); }
  }

  lemma CancelTaken(a: Settings, request: Request, answer: Answer)
    requires request.operation == Cancelling
    ensures Effects(a, Cancelled(a, answer), request, answer)
  {
    hide SaysLoggedIn, SaysExpired, SaysWait, SaysAuthorized, SaysSignedOut, Settings.ClearFlow, Effects;
    if answer.Reply? && answer.cancelled == Some(true) { CancelConfirmed(a, request, answer); }
    else { IntentFails(a, request, answer); }
  }

  lemma SignOutConfirmed(a: Settings, request: Request, answer: Answer)
    requires request.operation == SigningOut && SaysSignedOut(answer)
    ensures Effects(a, SignedOff(a, answer), request, answer)
  {
    hide AccountStatus.Authentication, SaysLoggedIn, SaysExpired, SaysWait, SaysAuthorized;
  }

  lemma CancelConfirmed(a: Settings, request: Request, answer: Answer)
    requires request.operation == Cancelling && answer.Reply? && answer.cancelled == Some(true)
    ensures Effects(a, Cancelled(a, answer), request, answer)
  {
    hide SaysLoggedIn, SaysExpired, SaysWait, SaysAuthorized, SaysSignedOut;
  }

  lemma IntentFails(a: Settings, request: Request, answer: Answer)
    requires (request.operation == SigningOut || request.operation == Cancelling) && !Confirms(request.operation, answer)
    ensures Effects(a, if request.operation == SigningOut then SignedOff(a, answer) else Cancelled(a, answer), request, answer)
  {
    hide AccountStatus.Authentication, SaysLoggedIn, SaysExpired, SaysWait, SaysAuthorized, Settings.ClearFlow;
  }

  lemma PollTaken(a: Settings, request: Request, answer: Answer)
    requires request.operation == Polling && request.flow.Some?
    ensures Effects(a, Polled(a, request.flow.value, answer), request, answer)
  {
    VerdictSays(answer);
    hide AccountStatus.Authentication, PollVerdict, SaysLoggedIn, SaysExpired, SaysWait, SaysAuthorized, SaysSignedOut;
  }

  // A poll's answer is of one kind.
  lemma VerdictSays(answer: Answer)
    ensures SaysWait(answer) || SaysLoggedIn(answer) || SaysExpired(answer) ==> answer.Reply?
    ensures SaysWait(answer) <==> PollVerdict(answer).Pending?
    ensures SaysWait(answer) ==> answer.poll.Some? && answer.poll.value.slowDown == Some(PollVerdict(answer).slowDown)
    ensures SaysLoggedIn(answer) <==> PollVerdict(answer).LoggedIn?
    ensures SaysLoggedIn(answer) ==> answer.state == Some(PollVerdict(answer).state)
    ensures SaysExpired(answer) <==> PollVerdict(answer) == Expired
  {
    hide AccountStatus.Authentication;
    if answer.Reply? && answer.poll.Some? {
      var status := answer.poll.value.status;
      assert !(status == "pending" && status == "signed_in") && !(status == "expired" && status == "pending")
             && !(status == "expired" && status == "signed_in") by {
        assert |"pending"| == 7 && |"signed_in"| == 9 && "pending"[0] != "expired"[0];
      }
    }
  }

  lemma TakenHasEffects(a: Settings, request: Request, answer: Answer)
    requires request.operation == Polling ==> request.flow.Some?
    ensures Effects(a, Taken(a, request, answer), request, answer)
  {
    hide Effects, Loaded, Begun, Polled, SignedOff, Cancelled;
    match request.operation
    case Loading => LoadTaken(a, request, answer);
    case Starting => BeginTaken(a, request, answer);
    case Polling => PollTaken(a, request, answer);
    case SigningOut => SignOutTaken(a, request, answer);
    case Cancelling => CancelTaken(a, request, answer);
  }

  /** What any answer to a call of the current connection does to the status: a load and a poll that reports
      a verified login show the status they carry, a confirmed sign-out shows its signed-out status, and
      nothing else changes it. A verified login and a confirmed sign-out leave no flow and no code behind. */
  lemma SettledStatus(s: State, id: nat, answer: Answer, at: real)
    requires Inv(s) && Current(s, id)
    ensures var operation := s.requests[id].operation;
            var t := Step(s, Timed(Settled(id, answer), at));
            && t.a.status == (if Carried(operation, answer).Some? then Carried(operation, answer) else s.a.status)
            && (EndsFlow(operation, answer) ==> t.a.flow.None? && t.a.userCode.None? && t.a.secondsRemaining == 0)
            && (operation == Polling && SaysLoggedIn(answer) ==> t.a.notice == Some(SignedIn))
            && (operation == SigningOut && SaysSignedOut(answer) ==> t.a.notice == Some(SignOutDone))
  {
    CurrentIsWellFormed(s);
    hide Inv, Step, Taken, Carried, SaysLoggedIn, SaysSignedOut, PausedThen;
    SettledShows(s, id, answer, at);
    TakenHasEffects(s.a.(clock := at), s.requests[id], answer);
  }

  /** What any answer to a call of the current connection does to the flow: an authorization begins the one
      it describes, a poll told to wait waits its interval anew, five seconds longer when told to slow down,
      an end ends it, and nothing else changes it. A code is not shown when it comes after an intent. */
  lemma SettledFlow(s: State, id: nat, answer: Answer, at: real)
    requires Inv(s) && Current(s, id)
    ensures s.requests[id].operation == Polling ==> s.requests[id].flow.Some?
    ensures var t := Step(s, Timed(Settled(id, answer), at));
            && t.a.flow == FlowThen(s.a.flow, s.requests[id], answer, at)
            && (s.requests[id].operation == Starting && SaysAuthorized(answer) ==>
                  t.a.userCode == if s.a.cancelRequested || s.a.signOutRequested then None
                                  else Some(answer.authorization.value.userCode))
  {
    CurrentIsWellFormed(s);
    hide Inv, Step, Taken, FlowThen, PausedThen, Carried, AccountAuthorization.Valid;
    SettledShows(s, id, answer, at);
    TakenHasEffects(s.a.(clock := at), s.requests[id], answer);
  }

  /** Every answer to a call of the current connection either does what the call was for or shows the
      failure of that call, and after a failed poll, sign-out or cancel polling pauses. */
  lemma SettledFailure(s: State, id: nat, answer: Answer, at: real)
    requires Inv(s) && Current(s, id)
    ensures var operation := s.requests[id].operation;
            var t := Step(s, Timed(Settled(id, answer), at));
            && t.a.error == (if Confirms(operation, answer) then s.a.error else Some(FailureOf(operation)))
            && t.a.pollFailed == PausedThen(s.a.pollFailed, operation, answer)
  {
    CurrentIsWellFormed(s);
    hide Inv, Step, Taken, Confirms, PausedThen;
    SettledShows(s, id, answer, at);
    TakenHasEffects(s.a.(clock := at), s.requests[id], answer);
  }

  // ---- the status on a whole run ----

  // The status the run has shown last: of the answers to calls of the connection of the moment the last that
  // carried one; nothing after a replacement.
  ghost function LastCarried(s: State, es: seq<Timed>, shown: Option<AccountStatus>): Option<AccountStatus>
    requires Inv(s) && Ordered(s.a.clock, es)
    decreases |es|
  {
    if es == [] then shown
    else
      StepKeepsInv(s, es[0]);
      LastCarried(Step(s, es[0]), es[1..],
        match es[0].event
        case ConnectionReplaced(_) => None
        case Settled(id, answer) =>
          if Current(s, id) && Carried(s.requests[id].operation, answer).Some?
          then Carried(s.requests[id].operation, answer) else shown
        case _ => shown)
  }

  lemma QuietStepKeepsStatus(s: State, e: Timed)
    requires Inv(s) && !(e.event.Settled? && Current(s, e.event.id)) && !e.event.ConnectionReplaced?
    ensures Step(s, e).a.status == s.a.status
  {
    hide Expire, Load, BeginSignIn, Tick, RetryPolling, CancelSignIn, ConfirmSignOut, Settle;
    if e.event.Settled? { StaleAnswerShowsNothing(s, e.event.id, e.event.answer, e.at); } else { AskKeepsStatus(At(s, e.at)); }
  }

  lemma ReplacedStatus(s: State, e: Timed)
    requires Inv(s) && e.event.ConnectionReplaced?
    ensures Step(s, e).a.status.None?
  {}

  /** On every run the status shown is the one that the last status-carrying answer to the connection of the
      moment carried, and none since a replacement without one. */
  lemma {:induction false} StatusIsLastCarried(s: State, es: seq<Timed>)
    requires Inv(s) && Ordered(s.a.clock, es)
    ensures Run(s, es).a.status == LastCarried(s, es, s.a.status)
    decreases |es|
  {
    if es != [] {
      var e := es[0];
      StepKeepsInv(s, e);
      if e.event.Settled? && Current(s, e.event.id) { SettledStatus(s, e.event.id, e.event.answer, e.at); }
      else if e.event.ConnectionReplaced? { ReplacedStatus(s, e); }
      else { QuietStepKeepsStatus(s, e); }
      hide Step, Carried, Current;
      StatusIsLastCarried(Step(s, e), es[1..]);
    }
  }
}

/** When the device flow sends a request and which, and what the events that send nothing show, read off the
    fields of the object. */
module AccountSends {
  import opened Options
  import opened AccountAnswers
  import opened AccountFlow
  import opened AccountSafety
  import opened AccountEffects

  // ---- what is sent ----

  // Exactly one request was sent, for this operation and flow; or none.
  ghost predicate SendsOnly(s: State, t: State, operation: Option<Operation>, flow: Option<Flow>) {
    if operation.None? then forall i | |s.log| <= i < |t.log| :: !t.log[i].Sent?
    else
      && |s.log| < |t.log| && t.log[|t.log| - 1].Sent?
      && t.log[|t.log| - 1].request.operation == operation.value && t.log[|t.log| - 1].request.flow == flow
      && (forall i | |s.log| <= i < |t.log| - 1 :: !t.log[i].Sent?)
  }

  // Nothing is under way or asked for, and Core is there.
  predicate Unblocked(a: Settings) {
    a.ready && !a.activityBusy && a.operation.None? && !a.cancelRequested && !a.signOutRequested
  }

  /** Loading and signing in send their request exactly when nothing is in the way. */
  lemma AsksSendIff(s: State, at: real)
    requires Inv(s)
    ensures SendsOnly(s, Step(s, Timed(LoadAsked, at)), if Unblocked(s.a) then Some(Loading) else None, None)
    ensures SendsOnly(s, Step(s, Timed(SignInAsked, at)),
                      if Unblocked(s.a) && s.a.flow.None? && s.a.visible && s.a.foreground then Some(Starting) else None, None)
  {}

  // What a drained intent sends, or nothing: a sign-out before a cancel.
  function IntentSends(a: Settings): Option<Operation> {
    if !a.ready || a.activityBusy || a.operation.Some? then None
    else if a.signOutRequested then Some(SigningOut)
    else if a.cancelRequested && a.flow.Some? then Some(Cancelling)
    else None
  }

  // What a tick at `at` sends: an intent that waits, or else the poll that is due and not expired.
  function TickSends(a: Settings, at: real): Option<Operation> {
    if IntentSends(a).Some? then IntentSends(a)
    else if Unblocked(a) && a.visible && a.foreground && !a.pollFailed && a.flow.Some?
            && a.flow.value.nextPollAt <= at < a.flow.value.expiresAt
    then Some(Polling)
    else None
  }

  lemma CeilIsZeroIff(x: real)
    ensures CeilOrZero(x) == 0 <==> x <= 0.0
  {}

  /** A tick sends a waiting sign-out, or a waiting cancel of the flow, or polls exactly when the poll is due,
      the code has not expired, the view is visible in the foreground and polling is not paused. */
  lemma TickSendsIff(s: State, at: real)
    requires Inv(s)
    ensures SendsOnly(s, Step(s, Timed(Ticked, at)), TickSends(s.a, at),
                      if TickSends(s.a, at) in {Some(Cancelling), Some(Polling)} then s.a.flow else None)
  {
    if s.a.flow.Some? { CeilIsZeroIff(s.a.flow.value.expiresAt - at); }
    hide CeilOrZero;
  }

  /** Confirming a sign-out or asking for a cancel sends its request at once when nothing is under way. */
  lemma IntentsSendIff(s: State, at: real)
    requires Inv(s)
    ensures SendsOnly(s, Step(s, Timed(SignOutConfirmed, at)),
                      if s.a.ready && !s.a.signOutRequested then IntentSends(s.a.(signOutRequested := true)) else None, None)
    ensures var may := s.a.ready && !s.a.cancelRequested && !s.a.signOutRequested
                       && (s.a.flow.Some? || s.a.operation == Some(Starting));
            var sends := if may then IntentSends(s.a.(cancelRequested := true)) else None;
            SendsOnly(s, Step(s, Timed(CancelAsked, at)), sends, if sends.Some? then s.a.flow else None)
  {}

  // ---- what the other events show ----

  lemma CeilBounds(x: real)
    ensures CeilOrZero(x) as real >= x && (x > 0.0 ==> CeilOrZero(x) as real < x + 1.0)
    ensures CeilOrZero(x) == 0 <==> x <= 0.0
  {}

  // The countdown of the flow is right, and an expired code is not shown.
  ghost predicate CountsDown(a: Settings, b: Settings, at: real)
    requires a.flow.Some?
  {
    var left := a.flow.value.expiresAt - at;
    if left <= 0.0 then b.userCode.None? && b.secondsRemaining == 0
    else b.userCode == a.userCode && b.flow == a.flow && left <= b.secondsRemaining as real < left + 1.0
  }

  predicate Ends(a: Settings, at: real) {
    && a.flow.Some? && a.flow.value.expiresAt <= at && a.operation.None?
    && !a.cancelRequested && !a.signOutRequested
  }

  lemma ExpireCounts(a: Settings)
    ensures Expire(a).flow == (if Ends(a, a.clock) then None else a.flow)
    ensures Ends(a, a.clock) ==> Expire(a).notice == Some(CodeExpired)
    ensures a.flow.Some? ==> CountsDown(a, Expire(a), a.clock)
  {
    if a.flow.Some? { CeilBounds(a.flow.value.expiresAt - a.clock); }
    hide CeilOrZero;
  }

  /** A tick, or a change of visibility, counts the flow down to the second and ends it exactly when its code
      has expired and neither a call nor an intent is under way; then it says so. */
  lemma ExpiryIff(s: State, e: Timed)
    requires Inv(s) && (e.event.Ticked? || e.event.Lifecycle?)
    ensures var t := Step(s, e);
            && t.a.flow == (if Ends(s.a, e.at) then None else s.a.flow)
            && (Ends(s.a, e.at) ==> t.a.notice == Some(CodeExpired))
            && (s.a.flow.Some? ==> CountsDown(s.a, t.a, e.at))
  {
    CurrentIsWellFormed(s);
    hide Expire, Drain, Inv;
    var t := if e.event.Ticked? then At(s, e.at) else Lives(At(s, e.at), e.event.visible, e.event.foreground);
    ExpireCounts(t.a);
    DrainShowsTheSame(UpdateExpiry(t), RestOfTick);
  }

  /** An explicit retry shows the code again and resumes polling, not before the flow's interval has passed,
      exactly when nothing is in the way and there is a flow. */
  lemma RetryResumesIff(s: State, at: real)
    requires Inv(s)
    ensures var t := Step(s, Timed(RetryAsked, at));
            if Unblocked(s.a) && s.a.flow.Some? then
              var f := s.a.flow.value;
              && !t.a.pollFailed && t.a.error.None? && t.a.userCode == Some(f.code)
              && t.a.flow == Some(f.(nextPollAt := if f.nextPollAt < at + f.interval as real
                                                   then at + f.interval as real else f.nextPollAt))
            else t.a == s.a.(clock := at)
  {}

  /** An intent is recorded, and the code hidden, exactly when it may be: a sign-out while Core is there, a
      cancel of a flow, or of one about to begin, that no intent has claimed. */
  lemma IntentRecordedIff(s: State, at: real)
    requires Inv(s)
    ensures var t := Step(s, Timed(SignOutConfirmed, at));
            && t.a.signOutRequested == (s.a.signOutRequested || s.a.ready)
            && (t.a.signOutRequested && !s.a.signOutRequested ==> t.a.userCode.None? && t.a.notice == Some(SignOutPending))
    ensures var t := Step(s, Timed(CancelAsked, at));
            var may := s.a.ready && !s.a.signOutRequested && (s.a.flow.Some? || s.a.operation == Some(Starting));
            && t.a.cancelRequested == (s.a.cancelRequested || may)
            && (t.a.cancelRequested && !s.a.cancelRequested ==> t.a.userCode.None? && t.a.notice == Some(CancelPending))
  {}

  // What goes out once a call of the current connection has settled: an intent that had to wait for it.
  function SettledSends(a: Settings, request: Request, answer: Answer, at: real): Option<Operation>
    requires request.operation == Polling ==> request.flow.Some?
  {
    if request.operation == SigningOut then None
    else if request.operation == Cancelling then if a.signOutRequested && !a.activityBusy then Some(SigningOut) else None
    else IntentSends(a.(operation := None, flow := FlowThen(a.flow, request, answer, at)))
  }

  lemma DrainSends(s: State, u: State, resume: Resume)
    requires |s.log| <= |u.log| && forall i | |s.log| <= i < |u.log| :: !u.log[i].Sent?
    ensures resume == Return || (u.a.flow.None? || u.a.pollFailed) ==>
              SendsOnly(s, Drain(u, resume), IntentSends(u.a), if IntentSends(u.a) == Some(Cancelling) then u.a.flow else None)
              && SendsOnly(s, Continue(u, resume), None, None)
  {}

  lemma DeliverSends(s: State, t: State, request: Request, answer: Answer)
    requires request.operation == Polling ==> request.flow.Some?
    requires Awaited(t, request)
    requires |s.log| <= |t.log| && forall i | |s.log| <= i < |t.log| :: !t.log[i].Sent?
    ensures var sends := SettledSends(t.a, request, answer, t.a.clock);
            SendsOnly(s, Deliver(t, request, answer), sends,
                      if sends == Some(Cancelling) then FlowThen(t.a.flow, request, answer, t.a.clock) else None)
  {
    var u := t.(a := Taken(t.a, request, answer));
    TakenHasEffects(t.a, request, answer);
    IntentsStay(t.a, request, answer);
    hide SendsOnly, Loaded, Begun, Polled, SignedOff, Cancelled, Drain, Continue, FlowThen, PausedThen, Carried;
    DrainSends(s, Idle(u), Return);
    DrainSends(s, u, request.resume);
  }

  // Only the answer to an intent takes the intent back, and then there is no flow, or polling is paused.
  lemma IntentsStay(a: Settings, request: Request, answer: Answer)
    requires request.operation == Polling ==> request.flow.Some?
    ensures var b := Taken(a, request, answer);
            && b.ready == a.ready && b.activityBusy == a.activityBusy
            && (request.operation in {Loading, Starting, Polling} ==> SameIntents(a, b))
            && (request.operation in {SigningOut, Cancelling} ==> b.operation.None? && (b.flow.None? || b.pollFailed))
            && (request.operation == SigningOut ==> !b.signOutRequested)
            && (request.operation == Cancelling ==> !b.cancelRequested && b.signOutRequested == a.signOutRequested)
  {
    hide Loaded, Begun, Polled, SignedOff, Cancelled;
    IntentTakenBack(a, answer);
    AnswersKeepBusy(a, answer);
    if request.operation == Polling { PollKeepsBusy(a, request.flow.value, answer); }
  }

  lemma AnswersKeepBusy(a: Settings, answer: Answer)
    ensures Loaded(a, answer).activityBusy == a.activityBusy && Begun(a, answer).activityBusy == a.activityBusy
    ensures SignedOff(a, answer).activityBusy == a.activityBusy && Cancelled(a, answer).activityBusy == a.activityBusy
  {
    hide Loaded, Begun, SignedOff, Cancelled;
    LoadKeepsBusy(a, answer);
    BeginKeepsBusy(a, answer);
    SignOutKeepsBusy(a, answer);
    CancelKeepsBusy(a, answer);
  }

  lemma LoadKeepsBusy(a: Settings, answer: Answer)
    ensures Loaded(a, answer).activityBusy == a.activityBusy
  {}

  lemma BeginKeepsBusy(a: Settings, answer: Answer)
    ensures Begun(a, answer).activityBusy == a.activityBusy
  {
    hide AccountAuthorization.Valid;
  }

  lemma SignOutKeepsBusy(a: Settings, answer: Answer)
    ensures SignedOff(a, answer).activityBusy == a.activityBusy
  {
    hide AccountStatus.Authentication;
  }

  lemma CancelKeepsBusy(a: Settings, answer: Answer)
    ensures Cancelled(a, answer).activityBusy == a.activityBusy
  {}

  lemma PollKeepsBusy(a: Settings, flow: Flow, answer: Answer)
    ensures Polled(a, flow, answer).activityBusy == a.activityBusy
  {
    hide PollVerdict;
  }

  lemma IntentTakenBack(a: Settings, answer: Answer)
    ensures !SignedOff(a, answer).signOutRequested && !Cancelled(a, answer).cancelRequested
  {}

  ghost function AnswerNoted(s: State, id: nat, at: real): State
    requires id in s.requests
  {
    At(s, at).(requests := s.requests - {id},
               log := s.log + [Answered(s.requests[id].operation, s.requests[id].connection, at)])
  }

  lemma SettledIsDelivered(s: State, id: nat, answer: Answer, at: real)
    requires Inv(s) && Current(s, id)
    ensures s.requests[id].operation == Polling ==> s.requests[id].flow.Some?
    ensures Awaited(AnswerNoted(s, id, at), s.requests[id])
    ensures Step(s, Timed(Settled(id, answer), at)) == Deliver(AnswerNoted(s, id, at), s.requests[id], answer)
  {
    CurrentIsWellFormed(s);
    hide Deliver;
  }

  lemma NotedSends(s: State, id: nat, answer: Answer, at: real)
    requires Inv(s) && Current(s, id)
    ensures s.requests[id].operation == Polling ==> s.requests[id].flow.Some?
    ensures var sends := SettledSends(s.a, s.requests[id], answer, at);
            SendsOnly(s, Deliver(AnswerNoted(s, id, at), s.requests[id], answer), sends,
                      if sends == Some(Cancelling) then FlowThen(s.a.flow, s.requests[id], answer, at) else None)
  {
    SettledIsDelivered(s, id, answer, at);
    hide Inv, SendsOnly, Deliver, FlowThen, Step, Awaited;
    DeliverSends(s, AnswerNoted(s, id, at), s.requests[id], answer);
  }

  /** When a call of the current connection settles, exactly the intent that had to wait for it goes out: a
      sign-out, or else the cancel of the flow that is left. */
  lemma SettledSendsIff(s: State, id: nat, answer: Answer, at: real)
    requires Inv(s) && Current(s, id)
    ensures s.requests[id].operation == Polling ==> s.requests[id].flow.Some?
    ensures var sends := SettledSends(s.a, s.requests[id], answer, at);
            SendsOnly(s, Step(s, Timed(Settled(id, answer), at)), sends,
                      if sends == Some(Cancelling) then FlowThen(s.a.flow, s.requests[id], answer, at) else None)
  {
    hide *;
    SettledIsDelivered(s, id, answer, at);
    NotedSends(s, id, answer, at);
  }
}

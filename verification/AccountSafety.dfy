/** What every interleaving of the device flow keeps. */
module AccountSafety {
  import opened Options
  import opened AccountAnswers
  import opened AccountFlow

  ghost predicate Current(s: State, id: nat) {
    id in s.requests && s.requests[id].connection == s.a.connection
  }

  // How the fields are tied to the one request the current connection waits for.
  ghost predicate Awaited(s: State, request: Request) {
    s.a.ready && s.a.operation == Some(request.operation)
    && (request.operation in {Polling, Cancelling} ==> s.a.flow.Some? && request.flow == s.a.flow)
    && (request.operation == Starting ==> s.a.flow.None?)
    && (request.operation == Cancelling ==> s.a.cancelRequested)
    && (request.operation == SigningOut ==> s.a.signOutRequested)
  }

  // Every suspended call is a sent request, of this connection or an earlier one.
  ghost predicate Wire(s: State) {
    WellFormed(s)
    && (forall id | id in s.requests ::
          id < |s.log| && s.log[id].Sent? && s.log[id].request == s.requests[id]
          && s.requests[id].connection <= s.a.connection
          && (s.requests[id].operation in {Loading, Starting, Polling} ==> s.requests[id].resume == Return))
    && (forall i | 0 <= i < |s.log| :: s.log[i].at <= s.a.clock)
    && (forall i | 0 <= i < |s.log| && s.log[i].Sent? :: s.log[i].request.connection <= s.a.connection)
  }

  ghost predicate Inv(s: State) {
    Wire(s)
    && (forall i, j | Current(s, i) && Current(s, j) :: i == j)
    && (forall id | Current(s, id) :: Awaited(s, s.requests[id]))
    && (s.a.operation.Some? ==> exists id :: Current(s, id))
    && (s.a.flow.Some? ==> s.a.ready && 1 <= s.a.flow.value.interval <= 3600)
  }

  // With no operation under way, every suspended call belongs to a replaced connection.
  ghost predicate Quiet(s: State) {
    Wire(s) && s.a.operation.None? && (forall id | id in s.requests :: !Current(s, id))
    && (s.a.flow.Some? ==> s.a.ready && 1 <= s.a.flow.value.interval <= 3600)
  }

  lemma QuietIsInv(s: State)
    ensures Quiet(s) <==> Inv(s) && s.a.operation.None?
  {
    if Inv(s) && s.a.operation.None? {
      forall id | id in s.requests ensures !Current(s, id) {
        assert Current(s, id) ==> Awaited(s, s.requests[id]);
      }
    }
  }

  lemma SendKeepsInv(s: State, operation: Operation, flow: Option<Flow>, resume: Resume)
    requires Quiet(s) && s.a.ready
    requires operation in {Polling, Cancelling} ==> flow.Some? && flow == s.a.flow
    requires operation == Starting ==> s.a.flow.None?
    requires operation == Cancelling ==> s.a.cancelRequested
    requires operation == SigningOut ==> s.a.signOutRequested
    requires operation in {Loading, Starting, Polling} ==> resume == Return
    ensures Inv(Send(s, operation, flow, resume))
    ensures Current(Send(s, operation, flow, resume), |s.log|)
  {
    var t := Send(s, operation, flow, resume);
    assert Current(t, |s.log|);
    forall id | Current(t, id) ensures id == |s.log| {
      if id != |s.log| { assert Current(s, id); }
    }
  }

  lemma ContinueKeepsInv(s: State, resume: Resume)
    requires Inv(s)
    ensures Inv(Continue(s, resume))
  {
    QuietIsInv(s);
    if Continue(s, resume) != s { SendKeepsInv(s, Polling, s.a.flow, Return); }
  }

  lemma DrainKeepsInv(s: State, resume: Resume)
    requires Inv(s)
    ensures Inv(Drain(s, resume))
  {
    QuietIsInv(s);
    if !s.a.ready || s.a.activityBusy || s.a.operation.Some? { ContinueKeepsInv(s, resume); }
    else if s.a.signOutRequested { SendKeepsInv(s, SigningOut, None, resume); }
    else if s.a.cancelRequested {
      if s.a.flow.None? {
        var t := DropCancel(s);
        QuietIsInv(t);
        ContinueKeepsInv(t, resume);
      } else { SendKeepsInv(s, Cancelling, s.a.flow, resume); }
    } else { ContinueKeepsInv(s, resume); }
  }

  lemma SettleKeepsInv(s: State, id: nat, answer: Answer)
    requires Inv(s) && id in s.requests
    ensures Inv(Settle(s, id, answer))
  {
    hide Continue, Deliver;
    var request := s.requests[id];
    var t := s.(requests := s.requests - {id},
                log := s.log + [Answered(request.operation, request.connection, s.a.clock)]);
    assert Wire(t);
    if Stale(s, id) {
      forall i | Current(t, i) ensures Current(s, i) && Awaited(t, t.requests[i]) { assert Current(s, i); }
      if t.a.operation.Some? {
        var i :| Current(s, i);
        assert Current(t, i);
      }
      ContinueKeepsInv(t, request.resume);
    } else {
      assert Current(s, id) && Awaited(s, request);
      forall i | i in t.requests ensures !Current(t, i) { assert Current(t, i) ==> Current(s, i); }
      DeliverKeepsInv(t, request, answer);
    }
  }

  lemma AnsweredIsQuiet(t: State, u: State)
    requires Quiet(Idle(t)) && t.a.ready
    requires u.requests == t.requests && u.log == t.log && u.a.clock == t.a.clock && u.a.connection == t.a.connection
    requires u.a.ready && u.a.operation.None?
    requires u.a.flow.Some? ==> 1 <= u.a.flow.value.interval <= 3600
    ensures Inv(u)
  {
    forall i | i in u.requests ensures !Current(u, i) { assert !Current(Idle(t), i); }
    QuietIsInv(u);
  }

  lemma FinishedKeepsInv(t: State, u: State)
    requires Quiet(Idle(t)) && t.a.ready
    requires u.requests == t.requests && u.log == t.log && u.a.clock == t.a.clock && u.a.connection == t.a.connection
    requires u.a.ready && (u.a.flow.Some? ==> 1 <= u.a.flow.value.interval <= 3600)
    ensures Inv(Finish(u))
  {
    AnsweredIsQuiet(t, Idle(u));
    DrainKeepsInv(Idle(u), Return);
  }

  lemma SignOutAnsweredKeepsInv(t: State, answer: Answer, resume: Resume)
    requires Quiet(Idle(t)) && t.a.ready
    ensures Inv(Continue(SignOutAnswered(t, answer), resume))
  {
    hide SignedOff, Continue;
    AnsweredIsQuiet(t, SignOutAnswered(t, answer));
    ContinueKeepsInv(SignOutAnswered(t, answer), resume);
  }

  lemma CancelAnsweredKeepsInv(t: State, answer: Answer, resume: Resume)
    requires Quiet(Idle(t)) && t.a.ready
    ensures Inv(Drain(CancelAnswered(t, answer), resume))
    ensures Inv(Continue(CancelAnswered(t, answer), resume))
  {
    hide Cancelled, Drain, Continue;
    AnsweredIsQuiet(t, CancelAnswered(t, answer));
    DrainKeepsInv(CancelAnswered(t, answer), resume);
    ContinueKeepsInv(CancelAnswered(t, answer), resume);
  }

  lemma DeliverKeepsInv(t: State, request: Request, answer: Answer)
    requires Quiet(Idle(t)) && Awaited(t, request)
    ensures Inv(Deliver(t, request, answer))
  {
    hide Finish, Drain, Continue, Loaded, Begun, Polled, SignedOff, Cancelled;
    match request.operation
    case Loading => FinishedKeepsInv(t, LoadAnswered(t, answer));
    case Starting => FinishedKeepsInv(t, BeginAnswered(t, answer));
    case Polling => FinishedKeepsInv(t, PollAnswered(t, request.flow.value, answer));
    case SigningOut => SignOutAnsweredKeepsInv(t, answer, request.resume);
    case Cancelling => CancelAnsweredKeepsInv(t, answer, request.resume);
  }

  lemma SameRequestsKeepInv(s: State, t: State)
    requires Inv(s)
    requires t.requests == s.requests && t.log == s.log && s.a.clock <= t.a.clock && t.a.connection == s.a.connection
    requires t.a.ready == s.a.ready && t.a.operation == s.a.operation
    requires s.a.signOutRequested ==> t.a.signOutRequested
    requires s.a.cancelRequested ==> t.a.cancelRequested
    requires t.a.flow == s.a.flow || (t.a.flow.None? && s.a.operation.None?)
    ensures Inv(t)
  {
    forall id | Current(t, id) ensures Current(s, id) && Awaited(t, t.requests[id]) { assert Current(s, id); }
    if t.a.operation.Some? {
      var id :| Current(s, id);
      assert Current(t, id);
    }
  }

  lemma UpdateExpiryKeepsInv(s: State)
    requires Inv(s)
    ensures Inv(UpdateExpiry(s))
  {
    SameRequestsKeepInv(s, UpdateExpiry(s));
  }

  lemma ReplaceKeepsInv(s: State, ready: bool)
    requires Inv(s)
    ensures Inv(Replace(s, ready))
  {
    var t := Replace(s, ready);
    forall id | id in t.requests ensures !Current(t, id) {}
    QuietIsInv(t);
  }

  lemma LoadKeepsInv(s: State)
    requires Inv(s)
    ensures Inv(Load(s))
  {
    QuietIsInv(s);
    hide Inv;
    if !s.a.Blocked() { SendKeepsInv(NoError(s), Loading, None, Return); }
  }

  lemma SignInKeepsInv(s: State)
    requires Inv(s)
    ensures Inv(BeginSignIn(s))
  {
    QuietIsInv(s);
    hide Inv;
    if !s.a.Blocked() && s.a.flow.None? { SendKeepsInv(Cleared(s), Starting, None, Return); }
  }

  lemma RetryKeepsInv(s: State)
    requires Inv(s)
    ensures Inv(RetryPolling(s))
  {
    QuietIsInv(s);
    if !s.a.Blocked() && s.a.flow.Some? {
      hide Inv;
      QuietIsInv(RetryPolling(s));
    }
  }

  lemma IntentKeepsInv(s: State)
    requires Inv(s)
    ensures Inv(CancelSignIn(s)) && Inv(ConfirmSignOut(s))
  {
    if s.a.CanCancel() {
      var t := AskCancel(s);
      SameRequestsKeepInv(s, t);
      DrainKeepsInv(t, Return);
    }
    if s.a.ready && !s.a.signOutRequested {
      var t := AskSignOut(s);
      SameRequestsKeepInv(s, t);
      DrainKeepsInv(t, Return);
    }
  }

  /** Single flight and operation bookkeeping survive every step. */
  lemma StepKeepsInv(s: State, e: Timed)
    requires Inv(s) && s.a.clock <= e.at
    ensures Inv(Step(s, e))
  {
    hide Inv, Reset, Expire, Load, BeginSignIn, Drain, RetryPolling, CancelSignIn, ConfirmSignOut, Settle;
    var t := At(s, e.at);
    SameRequestsKeepInv(s, t);
    match e.event
    case ConnectionReplaced(ready) => ReplaceKeepsInv(t, ready);
    case ActivityBusy(value) => SameRequestsKeepInv(t, Busy(t, value));
    case Lifecycle(visible, foreground) =>
      var u := Lives(t, visible, foreground);
      SameRequestsKeepInv(t, u);
      UpdateExpiryKeepsInv(u);
    case LoadAsked => LoadKeepsInv(t);
    case SignInAsked => SignInKeepsInv(t);
    case Ticked =>
      UpdateExpiryKeepsInv(t);
      DrainKeepsInv(UpdateExpiry(t), RestOfTick);
    case RetryAsked => RetryKeepsInv(t);
    case CancelAsked => IntentKeepsInv(t);
    case SignOutConfirmed => IntentKeepsInv(t);
    case Settled(id, answer) => if id in t.requests { SettleKeepsInv(t, id, answer); }
  }
}

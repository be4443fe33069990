/** A confirmed sign-out overtakes everything else, and its success cannot be undone by older answers. */
module AccountSignOut {
  import opened Options
  import opened AccountAnswers
  import opened AccountFlow
  import opened AccountSafety
  import opened AccountTheorems

  ghost predicate SendsOn(entry: Entry, connection: nat) {
    entry.Sent? && entry.request.connection == connection
  }

  // The wire log only grows, whatever is sent goes to the connection of the moment, and a suspended
  // call is an earlier one or has just been sent.
  ghost predicate Grows(s: State, t: State) {
    s.log <= t.log && s.a.connection <= t.a.connection
    && (forall i | |s.log| <= i < |t.log| && t.log[i].Sent? :: t.log[i].request.connection == t.a.connection)
    && (forall id | id in t.requests :: id in s.requests || |s.log| <= id)
  }

  lemma SendOwnsItsConnection(s: State, resume: Resume)
    ensures Grows(s, Continue(s, resume)) && Grows(s, Drain(s, resume))
    ensures Continue(s, resume).a.connection == s.a.connection && Drain(s, resume).a.connection == s.a.connection
  {}

  lemma SettleGrows(s: State, id: nat, answer: Answer)
    requires Inv(s) && id in s.requests
    ensures Grows(s, Settle(s, id, answer)) && Settle(s, id, answer).a.connection == s.a.connection
  {
    hide Drain, Continue, Deliver;
    var request := s.requests[id];
    var t := s.(requests := s.requests - {id},
                log := s.log + [Answered(request.operation, request.connection, s.a.clock)]);
    if Stale(s, id) {
      SendOwnsItsConnection(t, request.resume);
    } else {
      DeliverGrows(t, request, answer);
    }
  }

  lemma DeliverGrows(s: State, request: Request, answer: Answer)
    requires request.operation == Polling ==> request.flow.Some?
    ensures Grows(s, Deliver(s, request, answer)) && Deliver(s, request, answer).a.connection == s.a.connection
  {
    hide Drain, Continue, Loaded, Begun, Polled, SignedOff, Cancelled;
    match request.operation
    case Loading => SendOwnsItsConnection(Idle(LoadAnswered(s, answer)), Return);
    case Starting => SendOwnsItsConnection(Idle(BeginAnswered(s, answer)), Return);
    case Polling => SendOwnsItsConnection(Idle(PollAnswered(s, request.flow.value, answer)), Return);
    case SigningOut => SendOwnsItsConnection(SignOutAnswered(s, answer), request.resume);
    case Cancelling => SendOwnsItsConnection(CancelAnswered(s, answer), request.resume);
  }

  lemma AskGrows(s: State)
    ensures Grows(s, Load(s)) && Grows(s, BeginSignIn(s)) && Grows(s, RetryPolling(s))
  {}

  lemma IntentGrows(s: State)
    ensures Grows(s, Tick(s)) && Grows(s, CancelSignIn(s)) && Grows(s, ConfirmSignOut(s))
  {
    hide Expire, Drain;
    SendOwnsItsConnection(UpdateExpiry(s), RestOfTick);
    SendOwnsItsConnection(AskCancel(s), Return);
    SendOwnsItsConnection(AskSignOut(s), Return);
  }

  lemma StepGrows(s: State, e: Timed)
    requires Inv(s) && s.a.clock <= e.at
    ensures Grows(s, Step(s, e))
  {
    hide Grows, Expire, Reset, Load, BeginSignIn, Tick, RetryPolling, CancelSignIn, ConfirmSignOut, Settle;
    var t := At(s, e.at);
    SameRequestsKeepInv(s, t);
    ClockGrows(s, t, Step(s, e));
    match e.event
    case ConnectionReplaced(ready) => PlainGrows(t, ready, false, false, false);
    case ActivityBusy(value) => PlainGrows(t, false, value, false, false);
    case Lifecycle(visible, foreground) => PlainGrows(t, false, false, visible, foreground);
    case Settled(id, answer) =>
      if id in t.requests { SettleGrows(t, id, answer); } else { PlainGrows(t, false, t.a.activityBusy, false, false); }
    case _ =>
      AskGrows(t);
      IntentGrows(t);
  }

  lemma ClockGrows(s: State, t: State, u: State)
    requires t == At(s, t.a.clock)
    ensures Grows(t, u) <==> Grows(s, u)
  {}

  lemma PlainGrows(s: State, ready: bool, busy: bool, visible: bool, foreground: bool)
    ensures Grows(s, Replace(s, ready)) && Grows(s, Busy(s, busy))
    ensures Grows(s, UpdateExpiry(Lives(s, visible, foreground)))
  {
    hide Expire;
  }

  lemma RunGrows(s: State, es: seq<Timed>)
    requires Inv(s) && Ordered(s.a.clock, es)
    ensures s.log <= Run(s, es).log && s.a.connection <= Run(s, es).a.connection
    ensures forall j | |s.log| <= j < |Run(s, es).log| && Run(s, es).log[j].Sent? ::
              s.a.connection <= Run(s, es).log[j].request.connection
    decreases |es|
  {
    if es != [] {
      StepKeepsInv(s, es[0]);
      StepGrows(s, es[0]);
      RunGrows(Step(s, es[0]), es[1..]);
    }
  }

  // A confirmed sign-out that has not been sent yet.
  ghost predicate Waiting(s: State) {
    s.a.signOutRequested && s.a.operation != Some(SigningOut)
  }

  // Nothing was sent on the connection from this position of the log on.
  ghost predicate Silent(log: seq<Entry>, from: nat, connection: nat) {
    forall i :: from <= i < |log| ==> !SendsOn(log[i], connection)
  }

  // Whatever is sent on the connection from this position on, a sign-out is the first.
  ghost predicate SignOutFirst(log: seq<Entry>, from: nat, connection: nat) {
    forall j :: from <= j < |log| && SendsOn(log[j], connection) && Silent(log[..j], from, connection)
      ==> log[j].request.operation == SigningOut
  }

  // One step that starts with a sign-out waiting sends it, or leaves it waiting.
  ghost predicate Overtakes(s: State, t: State) {
    && (forall i | |s.log| <= i < |t.log| && t.log[i].Sent? :: t.log[i].request.operation == SigningOut)
    && (t.a.connection == s.a.connection && (forall i | |s.log| <= i < |t.log| :: !t.log[i].Sent?) ==> Waiting(t))
  }

  lemma WaitingDrain(s: State, u: State, resume: Resume)
    requires u.a.signOutRequested && u.log == s.log && u.a.connection == s.a.connection && u.a.operation != Some(SigningOut)
    ensures Overtakes(s, Drain(u, resume)) && Overtakes(s, Continue(u, resume))
  {
    var t := Drain(u, resume);
    if t.log != s.log { assert t.log[|s.log|].Sent?; }
  }

  lemma WaitingDeliver(s: State, request: Request, answer: Answer)
    requires Waiting(s) && Awaited(s, request)
    ensures Overtakes(s, Deliver(s, request, answer))
  {
    hide Overtakes, Drain, Continue, Loaded, Begun, Polled, SignedOff, Cancelled;
    match request.operation
    case Loading => WaitingDrain(s, Idle(LoadAnswered(s, answer)), Return);
    case Starting => WaitingDrain(s, Idle(BeginAnswered(s, answer)), Return);
    case Polling => WaitingDrain(s, Idle(PollAnswered(s, request.flow.value, answer)), Return);
    case SigningOut =>
    case Cancelling => WaitingDrain(s, CancelAnswered(s, answer), request.resume);
  }

  lemma WaitingSettle(s: State, id: nat, answer: Answer)
    requires Inv(s) && Waiting(s) && id in s.requests
    ensures Overtakes(s, Settle(s, id, answer))
  {
    hide Deliver;
    var request := s.requests[id];
    var t := s.(requests := s.requests - {id},
                log := s.log + [Answered(request.operation, request.connection, s.a.clock)]);
    if !Stale(s, id) {
      assert Current(s, id) && Awaited(s, request);
      WaitingDeliver(t, request, answer);
      DeliverGrows(t, request, answer);
    }
  }

  lemma WaitingAsk(s: State)
    requires Waiting(s)
    ensures Overtakes(s, Load(s)) && Overtakes(s, BeginSignIn(s)) && Overtakes(s, RetryPolling(s))
    ensures Overtakes(s, Tick(s)) && Overtakes(s, CancelSignIn(s)) && Overtakes(s, ConfirmSignOut(s))
  {
    hide Expire, Drain;
    WaitingDrain(s, UpdateExpiry(s), RestOfTick);
  }

  lemma WaitingStep(s: State, e: Timed)
    requires Inv(s) && Waiting(s) && s.a.clock <= e.at
    ensures Overtakes(s, Step(s, e))
  {
    hide Overtakes, Expire, Reset, Load, BeginSignIn, Tick, RetryPolling, CancelSignIn, ConfirmSignOut, Settle;
    var t := At(s, e.at);
    SameRequestsKeepInv(s, t);
    ClockOvertakes(s, t, Step(s, e));
    match e.event
    case ConnectionReplaced(ready) => WaitingPlain(t, ready, false, false, false);
    case ActivityBusy(value) => WaitingPlain(t, false, value, false, false);
    case Lifecycle(visible, foreground) => WaitingPlain(t, false, false, visible, foreground);
    case Settled(id, answer) =>
      if id in t.requests { WaitingSettle(t, id, answer); } else { WaitingPlain(t, false, t.a.activityBusy, false, false); }
    case _ => WaitingAsk(t);
  }

  lemma ClockOvertakes(s: State, t: State, u: State)
    requires t == At(s, t.a.clock)
    ensures Overtakes(t, u) <==> Overtakes(s, u)
  {}

  lemma WaitingPlain(s: State, ready: bool, busy: bool, visible: bool, foreground: bool)
    requires Waiting(s)
    ensures Overtakes(s, Replace(s, ready)) && Overtakes(s, Busy(s, busy))
    ensures Overtakes(s, UpdateExpiry(Lives(s, visible, foreground)))
  {
    hide Expire;
  }

  lemma SignOutGoesFirst(s: State, es: seq<Timed>)
    requires Inv(s) && Waiting(s) && Ordered(s.a.clock, es)
    ensures s.log <= Run(s, es).log && SignOutFirst(Run(s, es).log, |s.log|, s.a.connection)
    decreases |es|
  {
    RunGrows(s, es);
    if es != [] {
      var t := Step(s, es[0]);
      StepKeepsInv(s, es[0]);
      StepGrows(s, es[0]);
      WaitingStep(s, es[0]);
      RunGrows(t, es[1..]);
      var log := Run(s, es).log;
      forall j | |s.log| <= j < |log| && SendsOn(log[j], s.a.connection) && Silent(log[..j], |s.log|, s.a.connection)
        ensures log[j].request.operation == SigningOut
      {
        if j < |t.log| {
          assert log[j] == t.log[j];
        } else {
          forall i | |s.log| <= i < |t.log| ensures !t.log[i].Sent? { assert log[..j][i] == t.log[i]; }
          assert Waiting(t);
          SignOutGoesFirst(t, es[1..]);
          forall i | |t.log| <= i < j ensures !SendsOn(log[..j][i], s.a.connection) {}
        }
      }
    }
  }

  /** After a sign-out is confirmed, the first request its connection sends is the sign-out itself,
      ahead of a pending cancel and of any load, start or poll, in every interleaving. */
  lemma ConfirmedSignOutGoesFirst(s: State, at: real, es: seq<Timed>)
    requires Inv(s) && s.a.ready && !s.a.signOutRequested && s.a.clock <= at && Ordered(at, es)
    ensures Inv(Step(s, Timed(SignOutConfirmed, at)))
    ensures SignOutFirst(Run(Step(s, Timed(SignOutConfirmed, at)), es).log, |s.log|, s.a.connection)
  {
    var e := Timed(SignOutConfirmed, at);
    var t := Step(s, e);
    StepKeepsInv(s, e);
    RunGrows(t, es);
    var log := Run(t, es).log;
    if t.log == s.log {
      SignOutGoesFirst(t, es);
    } else {
      assert t.log[|s.log|].request.operation == SigningOut && SendsOn(t.log[|s.log|], s.a.connection);
      forall j | |s.log| < j < |log| ensures !Silent(log[..j], |s.log|, s.a.connection) {
        assert log[..j][|s.log|] == t.log[|s.log|];
      }
    }
  }

  // ---- once signed out ----

  // Every call suspended since before this position belongs to a replaced connection.
  ghost predicate OldAreStale(s: State, n: nat) {
    n <= |s.log| && forall id | id in s.requests && id < n :: Stale(s, id)
  }

  lemma OldStayStale(s: State, t: State, n: nat)
    requires Inv(s) && Inv(t) && Grows(s, t) && OldAreStale(s, n)
    ensures OldAreStale(t, n)
  {
    forall id | id in t.requests && id < n ensures Stale(t, id) {
      assert id in s.requests && Stale(s, id) && t.log[id] == s.log[id];
    }
  }

  lemma PlainAskKeepsStatus(s: State)
    ensures Load(s).a.status == s.a.status && BeginSignIn(s).a.status == s.a.status && RetryPolling(s).a.status == s.a.status
  {}

  lemma IntentKeepsStatus(s: State)
    ensures Tick(s).a.status == s.a.status && CancelSignIn(s).a.status == s.a.status
    ensures ConfirmSignOut(s).a.status == s.a.status
  {
    hide Expire, Drain;
  }

  lemma AskKeepsStatus(s: State)
    ensures Load(s).a.status == s.a.status && BeginSignIn(s).a.status == s.a.status && RetryPolling(s).a.status == s.a.status
    ensures Tick(s).a.status == s.a.status && CancelSignIn(s).a.status == s.a.status
    ensures ConfirmSignOut(s).a.status == s.a.status
  {
    hide Load, BeginSignIn, RetryPolling, Tick, CancelSignIn, ConfirmSignOut;
    PlainAskKeepsStatus(s);
    IntentKeepsStatus(s);
  }

  lemma StatusComesFromCurrent(s: State, e: Timed)
    requires WellFormed(s) && !(e.event.Settled? && Current(s, e.event.id))
    ensures Step(s, e).a.status == s.a.status || Step(s, e).a.status.None?
  {
    hide Expire, Load, BeginSignIn, Tick, RetryPolling, CancelSignIn, ConfirmSignOut, Settle;
    if e.event.Settled? { StaleAnswerShowsNothing(s, e.event.id, e.event.answer, e.at); } else { AskKeepsStatus(At(s, e.at)); }
  }

  lemma RunKeepsOldStale(s: State, n: nat, es: seq<Timed>)
    requires Inv(s) && OldAreStale(s, n) && Ordered(s.a.clock, es)
    ensures OldAreStale(Run(s, es), n)
    decreases |es|
  {
    hide Step, OldAreStale, Grows;
    if es != [] {
      StepKeepsInv(s, es[0]);
      StepGrows(s, es[0]);
      OldStayStale(s, Step(s, es[0]), n);
      RunKeepsOldStale(Step(s, es[0]), n, es[1..]);
    }
  }

  // All that is shown to the user.
  ghost predicate ShowsTheSame(a: Settings, b: Settings) {
    b.status == a.status && b.userCode == a.userCode && b.notice == a.notice && b.error == a.error && b.flow == a.flow
    && b.secondsRemaining == a.secondsRemaining && b.pollingInterval == a.pollingInterval && b.pollFailed == a.pollFailed
  }

  lemma StaleAnswerShowsNothing(s: State, id: nat, answer: Answer, at: real)
    requires WellFormed(s) && (id in s.requests ==> Stale(s, id))
    ensures ShowsTheSame(s.a, Step(s, Timed(Settled(id, answer), at)).a)
  {
    hide Deliver, Drain, Continue;
  }

  /** Once a sign-out succeeds, whatever happens next, be it a new sign-in or another connection: no answer
      to a request sent before that moment, however late it comes and whatever it says, changes the status
      or anything else that is shown. */
  lemma SuccessfulSignOutIsFinal(s: State, id: nat, answer: Answer, at: real, es: seq<Timed>,
                                 earlier: nat, late: Answer, later: real)
    requires Inv(s) && Current(s, id) && s.requests[id].operation == SigningOut
    requires answer.Reply? && answer.status.Some? && answer.status.value.Authentication() == SignedOut
    requires s.a.clock <= at && Ordered(at, es) && earlier <= |s.log|
    ensures Inv(Step(s, Timed(Settled(id, answer), at)))
    ensures var t := Step(s, Timed(Settled(id, answer), at));
            && t.a.status == answer.status && t.a.flow.None?
            && ShowsTheSame(Run(t, es).a, Step(Run(t, es), Timed(Settled(earlier, late), later)).a)
  {
    var e := Timed(Settled(id, answer), at);
    var t := Step(s, e);
    StepKeepsInv(s, e);
    SignedOutIsQuiet(s, id, answer, at);
    QuietIsInv(t);
    RunKeepsOldStale(t, |s.log| + 1, es);
    StaleAnswerShowsNothing(Run(t, es), earlier, late, later);
  }

  lemma OldAnswersKeepStatus(s: State, n: nat, es: seq<Timed>)
    requires Inv(s) && OldAreStale(s, n) && Ordered(s.a.clock, es)
    requires forall i | 0 <= i < |es| && es[i].event.Settled? :: es[i].event.id < n
    ensures Run(s, es).a.status == s.a.status || Run(s, es).a.status.None?
    decreases |es|
  {
    if es != [] {
      var t := Step(s, es[0]);
      StepKeepsInv(s, es[0]);
      StepGrows(s, es[0]);
      OldStayStale(s, t, n);
      StatusComesFromCurrent(s, es[0]);
      OldAnswersKeepStatus(t, n, es[1..]);
    }
  }

  /** So on every run the status stays signed out, or unknown, until a request sent after the sign-out is
      answered. */
  lemma OnlyNewRequestsChangeStatus(s: State, id: nat, answer: Answer, at: real, es: seq<Timed>)
    requires Inv(s) && Current(s, id) && s.requests[id].operation == SigningOut
    requires answer.Reply? && answer.status.Some? && answer.status.value.Authentication() == SignedOut
    requires s.a.clock <= at && Ordered(at, es)
    ensures Inv(Step(s, Timed(Settled(id, answer), at)))
    ensures var t := Step(s, Timed(Settled(id, answer), at));
            || Run(t, es).a.status == answer.status || Run(t, es).a.status.None?
            || exists i :: 0 <= i < |es| && es[i].event.Settled? && es[i].event.id > |s.log|
  {
    var e := Timed(Settled(id, answer), at);
    var t := Step(s, e);
    StepKeepsInv(s, e);
    SignedOutIsQuiet(s, id, answer, at);
    QuietIsInv(t);
    if forall i | 0 <= i < |es| && es[i].event.Settled? :: es[i].event.id <= |s.log| {
      OldAnswersKeepStatus(t, |s.log| + 1, es);
    }
  }

  lemma SignedOutIsQuiet(s: State, id: nat, answer: Answer, at: real)
    requires Inv(s) && Current(s, id) && s.requests[id].operation == SigningOut
    requires answer.Reply? && answer.status.Some? && answer.status.value.Authentication() == SignedOut
    ensures var t := Step(s, Timed(Settled(id, answer), at));
            t.a.flow.None? && t.a.operation.None? && t.a.status == answer.status && |t.log| == |s.log| + 1
  {
    hide AccountStatus.Authentication;
  }
}

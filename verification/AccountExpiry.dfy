/** No poll outlives its code, unless a tick of a replaced connection is still to finish. */
module AccountExpiry {
  import opened Options
  import opened AccountAnswers
  import opened AccountFlow
  import opened AccountSafety
  import opened AccountTheorems
  import opened AccountSignOut

  // The polls this step sends go out before their code expires.
  ghost predicate InTime(s: State, t: State) {
    forall i | |s.log| <= i < |t.log| && t.log[i].Sent? && t.log[i].request.operation == Polling ::
      t.log[i].request.flow.Some? && t.log[i].at < t.log[i].request.flow.value.expiresAt
  }

  lemma NoPollAfterDrain(s: State, u: State, resume: Resume)
    requires u.log == s.log
    requires resume == Return || u.a.flow.None? || u.a.pollFailed
    ensures InTime(s, Drain(u, resume)) && InTime(s, Continue(u, resume))
  {}

  lemma TickPollsInTime(s: State)
    ensures InTime(s, Tick(s))
  {}

  lemma DeliverPollsInTime(s: State, request: Request, answer: Answer)
    requires request.operation == Polling ==> request.flow.Some?
    ensures InTime(s, Deliver(s, request, answer))
  {
    hide InTime, Drain, Continue, Loaded, Begun, Polled, SignedOff, Cancelled;
    match request.operation
    case Loading => NoPollAfterDrain(s, Idle(LoadAnswered(s, answer)), Return);
    case Starting => NoPollAfterDrain(s, Idle(BeginAnswered(s, answer)), Return);
    case Polling => NoPollAfterDrain(s, Idle(PollAnswered(s, request.flow.value, answer)), Return);
    case SigningOut => NoPollAfterDrain(s, SignOutAnswered(s, answer), request.resume);
    case Cancelling => NoPollAfterDrain(s, CancelAnswered(s, answer), request.resume);
  }

  lemma AskPollsInTime(s: State)
    ensures InTime(s, Load(s)) && InTime(s, BeginSignIn(s)) && InTime(s, RetryPolling(s))
    ensures InTime(s, CancelSignIn(s)) && InTime(s, ConfirmSignOut(s))
  {
    hide Drain;
    NoPollAfterDrain(s, AskCancel(s), Return);
    NoPollAfterDrain(s, AskSignOut(s), Return);
  }

  // A step that is not the end of such a tick polls in time.
  lemma OnlyStaleTicksPollLate(s: State, e: Timed)
    requires Inv(s) && s.a.clock <= e.at
    requires !(e.event.Settled? && e.event.id in s.requests && Stale(s, e.event.id)
               && s.requests[e.event.id].resume == RestOfTick)
    ensures InTime(s, Step(s, e))
  {
    hide Expire, Load, BeginSignIn, Tick, RetryPolling, CancelSignIn, ConfirmSignOut, Settle;
    var t := At(s, e.at);
    TickPollsInTime(t);
    AskPollsInTime(t);
    if e.event.Settled? && e.event.id in s.requests { SettlePollsInTime(t, e.event.id, e.event.answer); }
  }

  lemma SettlePollsInTime(s: State, id: nat, answer: Answer)
    requires WellFormed(s) && id in s.requests
    requires !Stale(s, id) || s.requests[id].resume == Return
    ensures InTime(s, Settle(s, id, answer))
  {
    hide Deliver, Continue;
    var request := s.requests[id];
    var t := s.(requests := s.requests - {id},
                log := s.log + [Answered(request.operation, request.connection, s.a.clock)]);
    if Stale(s, id) {
      NoPollAfterDrain(t, t, Return);
    } else {
      DeliverPollsInTime(t, request, answer);
      DeliverGrows(t, request, answer);
    }
  }

  // Every suspended call belongs to the current connection.
  ghost predicate NoneStale(s: State) {
    forall id | id in s.requests :: !Stale(s, id)
  }

  lemma StepKeepsNoneStale(s: State, e: Timed)
    requires Inv(s) && NoneStale(s) && s.a.clock <= e.at && !e.event.ConnectionReplaced?
    ensures NoneStale(Step(s, e)) && Step(s, e).a.connection == s.a.connection
  {
    hide Expire, Reset, Load, BeginSignIn, Tick, RetryPolling, CancelSignIn, ConfirmSignOut, Settle;
    var t := Step(s, e);
    StepKeepsInv(s, e);
    StepGrows(s, e);
    forall id | id in t.requests ensures !Stale(t, id) {
      if id < |s.log| { assert id in s.requests && !Stale(s, id) && t.log[id] == s.log[id]; }
    }
  }

  ghost predicate AllInTime(log: seq<Entry>) {
    forall i | 0 <= i < |log| && log[i].Sent? && log[i].request.operation == Polling ::
      log[i].request.flow.Some? && log[i].at < log[i].request.flow.value.expiresAt
  }

  // The step resumes a tick that was suspended on a connection replaced since, and finds a poll of the
  // new connection's flow due although its code has expired.
  predicate PollsLate(s: State, e: Timed) {
    && e.event.Settled? && e.event.id in s.requests && Stale(s, e.event.id)
    && s.requests[e.event.id].resume == RestOfTick
    && !s.a.Blocked() && s.a.visible && s.a.foreground && !s.a.pollFailed
    && s.a.flow.Some? && e.at >= s.a.flow.value.nextPollAt && e.at >= s.a.flow.value.expiresAt
  }

  lemma StaleTickPolls(s: State, id: nat, answer: Answer, at: real)
    requires id in s.requests && Stale(s, id) && s.requests[id].resume == RestOfTick && WellFormed(s)
    ensures var e := Timed(Settled(id, answer), at);
            InTime(s, Step(s, e)) <==> !PollsLate(s, e)
  {
    var e := Timed(Settled(id, answer), at);
    var t := Step(s, e);
    if PollsLate(s, e) { assert t.log[|s.log| + 1].Sent? && t.log[|s.log| + 1].request.operation == Polling; }
  }

  /** A step sends a poll at or after its code's expiry exactly when it resumes a tick that was suspended on
      a replaced connection and finds the new connection ready to poll for an expired code. */
  lemma PollsLateIff(s: State, e: Timed)
    requires Inv(s) && s.a.clock <= e.at
    ensures !InTime(s, Step(s, e)) <==> PollsLate(s, e)
  {
    hide Step, InTime;
    if e.event.Settled? && e.event.id in s.requests && Stale(s, e.event.id)
       && s.requests[e.event.id].resume == RestOfTick {
      StaleTickPolls(s, e.event.id, e.event.answer, e.at);
    } else {
      OnlyStaleTicksPollLate(s, e);
    }
  }

  ghost predicate SomePollsLate(s: State, es: seq<Timed>)
    requires Inv(s) && Ordered(s.a.clock, es)
    decreases |es|
  {
    es != []
    && (PollsLate(s, es[0]) || (StepKeepsInv(s, es[0]); SomePollsLate(Step(s, es[0]), es[1..])))
  }

  lemma AllInTimeSplits(s: State, t: State)
    requires s.log <= t.log
    ensures AllInTime(t.log) <==> AllInTime(s.log) && InTime(s, t)
  {
    forall i | 0 <= i < |s.log| ensures t.log[i] == s.log[i] {}
  }

  /** From a state whose wire is clean, a run polls for an expired code exactly when one of its steps does. */
  lemma RunPollsLateIff(s: State, es: seq<Timed>)
    requires Inv(s) && Ordered(s.a.clock, es)
    ensures AllInTime(Run(s, es).log) <==> AllInTime(s.log) && !SomePollsLate(s, es)
    decreases |es|
  {
    hide Step, PollsLate, AllInTime, InTime;
    if es != [] {
      var t := Step(s, es[0]);
      StepKeepsInv(s, es[0]);
      StepGrows(s, es[0]);
      PollsLateIff(s, es[0]);
      AllInTimeSplits(s, t);
      RunPollsLateIff(t, es[1..]);
    }
  }

  lemma NeverStaleNeverLate(s: State, es: seq<Timed>)
    requires Inv(s) && NoneStale(s) && Ordered(s.a.clock, es)
    requires forall i | 0 <= i < |es| :: !es[i].event.ConnectionReplaced?
    ensures !SomePollsLate(s, es)
    decreases |es|
  {
    if es != [] {
      StepKeepsInv(s, es[0]);
      StepKeepsNoneStale(s, es[0]);
      hide Step;
      NeverStaleNeverLate(Step(s, es[0]), es[1..]);
    }
  }

  /** Without a reconnect every poll of every run is sent before its code expires, even by a tick
      that was suspended while it drained an intent. */
  lemma NoPollAfterExpiry(ready: bool, clock: real, es: seq<Timed>)
    requires Ordered(clock, es)
    requires forall i | 0 <= i < |es| :: !es[i].event.ConnectionReplaced?
    ensures Inv(Initial(ready, clock)) && AllInTime(Run(Initial(ready, clock), es).log)
  {
    InitialInv(ready, clock);
    NeverStaleNeverLate(Initial(ready, clock), es);
    RunPollsLateIff(Initial(ready, clock), es);
  }

  // ---- with a reconnect, the promise fails ----

  // A code that lives for one second.
  const SHORT_LIVED := AccountAuthorization(
    "01234567-89ab-4cde-8fab-0123456789ab", "ABCD-EFGH", VERIFICATION_URL, 1, 1)

  lemma ShortLivedIsValid()
    ensures SHORT_LIVED.Valid()
  {
    assert SHORT_LIVED.userCode == "ABCD-EFGH" && SHORT_LIVED.verificationURL == VERIFICATION_URL;
  }

  lemma RunSnoc(s: State, es: seq<Timed>, e: Timed)
    requires Inv(s) && Ordered(s.a.clock, es) && Run(s, es).a.clock <= e.at
    ensures Ordered(s.a.clock, es + [e]) && Run(s, es + [e]) == Step(Run(s, es), e)
    decreases |es|
  {
    hide Step;
    if es == [] {
      assert es + [e] == [e];
      assert Inv(Step(s, e)) by { StepKeepsInv(s, e); }
    } else {
      StepKeepsInv(s, es[0]);
      RunSnoc(Step(s, es[0]), es[1..], e);
      assert (es + [e])[1..] == es[1..] + [e];
    }
  }

  ghost predicate Reachable(s: State) {
    Inv(Initial(true, 0.0)) && exists es :: Ordered(0.0, es) && Run(Initial(true, 0.0), es) == s
  }

  lemma StepReachable(s: State, event: Event, at: real) returns (t: State)
    requires Reachable(s) && Inv(s) && s.a.clock <= at
    ensures t == Step(s, Timed(event, at)) && Reachable(t) && Inv(t)
  {
    var es :| Ordered(0.0, es) && Run(Initial(true, 0.0), es) == s;
    RunSnoc(Initial(true, 0.0), es, Timed(event, at));
    StepKeepsInv(s, Timed(event, at));
    t := Step(s, Timed(event, at));
  }

  // A tick is suspended while it drains a sign-out; then its connection is replaced.
  lemma SuspendedTick() returns (s: State)
    ensures Reachable(s) && Inv(s) && s.a.clock == 0.0
    ensures s.requests == map[0 := Request(SigningOut, 0, None, RestOfTick)] && |s.log| == 1
    ensures s.a.connection == 1 && !s.a.Blocked() && s.a.visible && s.a.foreground && s.a.flow.None?
  {
    hide Inv;
    InitialInv(true, 0.0);
    s := Initial(true, 0.0);
    assert Ordered(0.0, []) && Run(s, []) == s;
    s := StepReachable(s, Lifecycle(true, true), 0.0);
    s := StepReachable(s, ActivityBusy(true), 0.0);
    s := StepReachable(s, SignOutConfirmed, 0.0);
    s := StepReachable(s, ActivityBusy(false), 0.0);
    s := StepReachable(s, Ticked, 0.0);
    assert s.requests == map[0 := Request(SigningOut, 0, None, RestOfTick)];
    s := StepReachable(s, ConnectionReplaced(true), 0.0);
  }

  // On the new connection a sign-in begins, and its code lives for one second.
  lemma CodeAfterReconnect() returns (s: State)
    ensures Reachable(s) && Inv(s) && s.a.clock == 0.0 && s.a.connection == 1 && !s.a.Blocked() && s.a.visible && s.a.foreground
    ensures 0 in s.requests && s.requests[0] == Request(SigningOut, 0, None, RestOfTick)
    ensures s.a.operation.None? && !s.a.signOutRequested && !s.a.cancelRequested && !s.a.pollFailed
    ensures s.a.flow.Some? && s.a.flow.value.expiresAt == 1.0 && s.a.flow.value.nextPollAt == 1.0
  {
    hide Inv;
    s := SuspendedTick();
    s := StepReachable(s, SignInAsked, 0.0);
    assert s.requests[1] == Request(Starting, 1, None, Return);
    ShortLivedIsValid();
    s := StepReachable(s, Settled(1, Reply(None, Some(SHORT_LIVED), None, None, None)), 0.0);
  }

  /** With a reconnect the promise fails: the old tick, resumed on the new connection, may poll for a
      code that has already expired. By PollsLateIff nothing else can. */
  lemma ReconnectMayPollLate()
    ensures exists s: State :: Reachable(s) && !AllInTime(s.log)
  {
    hide Inv;
    var s := CodeAfterReconnect();
    var n := |s.log|;
    s := StepReachable(s, Settled(0, Thrown), 5.0);
    assert s.log[n + 1].Sent? && s.log[n + 1].request.operation == Polling && s.log[n + 1].at == 5.0;
  }
}

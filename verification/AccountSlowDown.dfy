/** `slow_down` (section 3.5 of RFC 8628) is obeyed by every later poll of the flow. */
module AccountSlowDown {
  import opened Options
  import opened AccountAnswers
  import opened AccountFlow
  import opened AccountSafety
  import opened AccountTheorems
  import opened AccountPacing
  import opened AccountSignOut

  // A poll sent in the step is the last thing on the wire, and asks for the flow that is there then.
  ghost predicate PollsLast(s: State, t: State) {
    forall j | |s.log| <= j < |t.log| && t.log[j].Sent? && t.log[j].request.operation == Polling ::
      j == |t.log| - 1 && t.log[j].request.flow.Some? && t.log[j].request.flow == t.a.flow
  }

  lemma DrainPollsLast(s: State, resume: Resume)
    ensures PollsLast(s, Continue(s, resume)) && PollsLast(s, Drain(s, resume))
    ensures s.log <= Continue(s, resume).log && s.log <= Drain(s, resume).log
  {}

  lemma DeliverPollsLast(s: State, request: Request, answer: Answer)
    requires request.operation == Polling ==> request.flow.Some?
    ensures PollsLast(s, Deliver(s, request, answer)) && s.log <= Deliver(s, request, answer).log
  {
    hide Drain, Continue, Loaded, Begun, Polled, SignedOff, Cancelled;
    match request.operation
    case Loading => DrainPollsLast(Idle(LoadAnswered(s, answer)), Return);
    case Starting => DrainPollsLast(Idle(BeginAnswered(s, answer)), Return);
    case Polling => DrainPollsLast(Idle(PollAnswered(s, request.flow.value, answer)), Return);
    case SigningOut => DrainPollsLast(SignOutAnswered(s, answer), request.resume);
    case Cancelling => DrainPollsLast(CancelAnswered(s, answer), request.resume);
  }

  lemma SettlePollsLast(s: State, id: nat, answer: Answer)
    requires WellFormed(s) && id in s.requests
    ensures PollsLast(s, Settle(s, id, answer))
    ensures s.log + [Answered(s.requests[id].operation, s.requests[id].connection, s.a.clock)] <= Settle(s, id, answer).log
  {
    hide Drain, Continue, Deliver;
    var request := s.requests[id];
    var t := s.(requests := s.requests - {id},
                log := s.log + [Answered(request.operation, request.connection, s.a.clock)]);
    if Stale(s, id) { DrainPollsLast(t, request.resume); } else { DeliverPollsLast(t, request, answer); }
  }

  lemma AskPollsLast(s: State)
    ensures PollsLast(s, Load(s)) && PollsLast(s, BeginSignIn(s)) && PollsLast(s, RetryPolling(s))
    ensures PollsLast(s, Tick(s)) && PollsLast(s, CancelSignIn(s)) && PollsLast(s, ConfirmSignOut(s))
  {
    hide Expire, Drain;
    DrainPollsLast(UpdateExpiry(s), RestOfTick);
    DrainPollsLast(AskCancel(s), Return);
    DrainPollsLast(AskSignOut(s), Return);
  }

  lemma StepPollsLast(s: State, e: Timed)
    requires WellFormed(s)
    ensures PollsLast(s, Step(s, e))
  {
    hide Expire, Reset, Load, BeginSignIn, Tick, RetryPolling, CancelSignIn, ConfirmSignOut, Settle;
    var t := At(s, e.at);
    match e.event
    case Settled(id, answer) => if id in t.requests { SettlePollsLast(t, id, answer); }
    case ConnectionReplaced(_) =>
    case ActivityBusy(_) =>
    case Lifecycle(_, _) =>
    case _ => AskPollsLast(t);
  }

  // Since position `n`, the flow of connection `c` and all its polls have an interval of at least `floor`.
  ghost predicate Slows(s: State, n: nat, c: nat, floor: int) {
    && n < |s.log| && c <= s.a.connection
    && (s.a.connection == c && s.a.flow.Some? && SameFlow(s.log, c, n, |s.log|) ==> s.a.flow.value.interval >= floor)
    && (forall j | n < j < |s.log| && IsPoll(s.log[j], c) && SameFlow(s.log, c, n, j) ::
          s.log[j].request.flow.value.interval >= floor)
  }

  ghost predicate AnswersSignIn(s: State, e: Timed) {
    e.event.Settled? && Current(s, e.event.id) && s.requests[e.event.id].operation == Starting
  }

  // A new flow shows in the log.
  lemma SignInIsLogged(s: State, e: Timed, n: nat)
    requires Inv(s) && s.a.clock <= e.at && AnswersSignIn(s, e) && n < |s.log|
    ensures var t := Step(s, e); s.log <= t.log && !SameFlow(t.log, s.a.connection, n, |t.log|)
  {
    hide Settle;
    SettlePollsLast(At(s, e.at), e.event.id, e.event.answer);
    assert NewFlow(Step(s, e).log[|s.log|], s.a.connection);
  }

  lemma PrefixSameFlow(log: seq<Entry>, longer: seq<Entry>, c: nat, n: nat, j: nat, k: nat)
    requires log <= longer && j <= |log| && j <= k <= |longer| && SameFlow(longer, c, n, k)
    ensures SameFlow(log, c, n, j)
  {
    assert forall i | n < i < j :: longer[i] == log[i];
  }

  // The polls' part: an old one is slow already, and a new one asks for the flow that is there.
  lemma PollsStaySlow(s: State, t: State, n: nat, c: nat, floor: int)
    requires s.log <= t.log && PollsLast(s, t) && n < |s.log|
    requires forall j | n < j < |s.log| && IsPoll(s.log[j], c) && SameFlow(s.log, c, n, j) ::
               s.log[j].request.flow.value.interval >= floor
    requires forall j | |s.log| <= j < |t.log| && IsPoll(t.log[j], c) :: t.a.connection == c
    requires t.a.connection == c && t.a.flow.Some? && SameFlow(t.log, c, n, |t.log|) ==> t.a.flow.value.interval >= floor
    ensures forall j | n < j < |t.log| && IsPoll(t.log[j], c) && SameFlow(t.log, c, n, j) ::
              t.log[j].request.flow.value.interval >= floor
  {
    forall j | n < j < |t.log| && IsPoll(t.log[j], c) && SameFlow(t.log, c, n, j)
      ensures t.log[j].request.flow.value.interval >= floor
    {
      if j < |s.log| {
        assert t.log[j] == s.log[j];
        PrefixSameFlow(s.log, t.log, c, n, j, j);
      } else {
        assert j == |t.log| - 1;
        assert SameFlow(t.log, c, n, |t.log|);
      }
    }
  }

  lemma StepKeepsSlow(s: State, e: Timed, n: nat, c: nat, floor: int)
    requires Inv(s) && s.a.clock <= e.at && Slows(s, n, c, floor)
    ensures Slows(Step(s, e), n, c, floor)
  {
    StepGrows(s, e);
    StepPollsLast(s, e);
    if AnswersSignIn(s, e) { SignInIsLogged(s, e, n); } else { FlowHasOneOrigin(s, e); }
    hide Step, Inv, PollsLast;
    var t := Step(s, e);
    if t.a.connection == c && t.a.flow.Some? && SameFlow(t.log, c, n, |t.log|) {
      PrefixSameFlow(s.log, t.log, c, n, |s.log|, |t.log|);
    }
    hide SameFlow;
    PollsStaySlow(s, t, n, c, floor);
  }

  lemma RunKeepsSlow(s: State, es: seq<Timed>, n: nat, c: nat, floor: int)
    requires Inv(s) && Ordered(s.a.clock, es) && Slows(s, n, c, floor)
    ensures Slows(Run(s, es), n, c, floor)
    decreases |es|
  {
    hide Step, Slows;
    if es != [] {
      StepKeepsInv(s, es[0]);
      StepKeepsSlow(s, es[0], n, c, floor);
      RunKeepsSlow(Step(s, es[0]), es[1..], n, c, floor);
    }
  }

  // The answer itself: the flow's interval grows by five seconds, up to an hour.
  lemma AnswerSlows(s: State, id: nat, answer: Answer, at: real)
    requires Inv(s) && s.a.clock <= at && Current(s, id) && s.requests[id].operation == Polling
    requires PollVerdict(answer) == Pending(true)
    ensures Awaited(s, s.requests[id]) && s.requests[id].flow.Some?
    ensures var t := Step(s, Timed(Settled(id, answer), at));
            && |t.log| > |s.log| && t.log[|s.log|] == Answered(Polling, s.a.connection, at)
            && Slows(t, |s.log|, s.a.connection, Min(3600, s.requests[id].flow.value.interval + 5))
  {
    var u := At(s, at);
    SettlePollsLast(u, id, answer);
    PollThenFinish(u, id, answer);
  }

  // What follows a poll's answer never sends another poll at once.
  lemma PollThenFinish(s: State, id: nat, answer: Answer)
    requires WellFormed(s) && id in s.requests && !Stale(s, id) && s.requests[id].operation == Polling
    requires PollVerdict(answer) == Pending(true)
    ensures var t := Settle(s, id, answer);
            && t.a.connection == s.a.connection
            && t.a.flow.Some? && t.a.flow.value.interval == Min(3600, s.requests[id].flow.value.interval + 5)
            && (forall j | |s.log| < j < |t.log| :: t.log[j].Sent? && t.log[j].request.operation != Polling)
  {
    hide PollVerdict, Expire;
  }

  /** After `slow_down`, every later poll of the same flow, on every run, asks for an interval at least five
      seconds longer than the answered poll's, capped at an hour, and is sent no earlier than that long
      after the answer. */
  lemma SlowDownIsObeyed(ready: bool, clock: real, before: seq<Timed>, id: nat, answer: Answer, at: real, es: seq<Timed>)
    requires Ordered(clock, before) && Inv(Initial(ready, clock))
    requires var s := Run(Initial(ready, clock), before);
             s.a.clock <= at && Current(s, id) && s.requests[id].operation == Polling
    requires PollVerdict(answer) == Pending(true) && Ordered(at, es)
    ensures var s := Run(Initial(ready, clock), before);
            var t := Step(s, Timed(Settled(id, answer), at));
            && Inv(t) && s.requests[id].flow.Some?
            && var floor := Min(3600, s.requests[id].flow.value.interval + 5);
               var log := Run(t, es).log;
               forall j | |s.log| < j < |log| && IsPoll(log[j], s.a.connection) && SameFlow(log, s.a.connection, |s.log|, j) ::
                 log[j].request.flow.value.interval >= floor && log[j].at >= at + floor as real
  {
    var s := Run(Initial(ready, clock), before);
    RunKeepsPace(Initial(ready, clock), before);
    var e := Timed(Settled(id, answer), at);
    StepKeepsInv(s, e);
    StepKeepsPace(s, e);
    AnswerSlows(s, id, answer, at);
    var t := Step(s, e);
    var n, c, floor := |s.log|, s.a.connection, Min(3600, s.requests[id].flow.value.interval + 5);
    hide Inv, Step, Slows, PaceInv;
    LaterPollsAreSlow(t, es, n, c, floor);
  }

  lemma LaterPollsAreSlow(t: State, es: seq<Timed>, n: nat, c: nat, floor: int)
    requires Inv(t) && PaceInv(t) && Ordered(t.a.clock, es) && Slows(t, n, c, floor)
    requires t.log[n].Answered? && t.log[n].operation == Polling && t.log[n].connection == c
    ensures var log := Run(t, es).log;
            && n < |log| && log[n] == t.log[n]
            && forall j | n < j < |log| && IsPoll(log[j], c) && SameFlow(log, c, n, j) ::
                 log[j].request.flow.value.interval >= floor && log[j].at >= t.log[n].at + floor as real
  {
    hide Inv, Step;
    RunKeepsSlow(t, es, n, c, floor);
    RunKeepsPace(t, es);
    RunGrows(t, es);
    var log := Run(t, es).log;
    forall j | n < j < |log| && IsPoll(log[j], c) && SameFlow(log, c, n, j)
      ensures log[j].request.flow.value.interval >= floor && log[j].at >= t.log[n].at + floor as real
    {
      assert log[n] == t.log[n] && Anchor(log[n], c);
      assert Due(log, c, j, log[j].request.flow.value, log[j].at, true);
    }
  }
}

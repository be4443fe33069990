/** Theorems about whole runs of the device flow. */
module AccountTheorems {
  import opened Options
  import opened AccountAnswers
  import opened AccountFlow
  import opened AccountSafety

  ghost predicate Ordered(clock: real, es: seq<Timed>)
    decreases |es|
  {
    es == [] || (clock <= es[0].at && Ordered(es[0].at, es[1..]))
  }

  ghost function Run(s: State, es: seq<Timed>): (t: State)
    requires Inv(s) && Ordered(s.a.clock, es)
    ensures Inv(t)
    decreases |es|
  {
    if es == [] then s
    else
      StepKeepsInv(s, es[0]);
      Run(Step(s, es[0]), es[1..])
  }

  lemma InitialInv(ready: bool, clock: real)
    ensures Inv(Initial(ready, clock))
  {}

  ghost function CurrentRequests(s: State): set<nat> {
    set id | id in s.requests && s.requests[id].connection == s.a.connection
  }

  /** Single flight, on every run: at most one suspended call belongs to the current connection,
      `operation` is set exactly while there is one, and a suspended poll or cancel still owns the flow. */
  lemma SingleFlight(ready: bool, clock: real, es: seq<Timed>)
    requires Ordered(clock, es)
    ensures Inv(Initial(ready, clock))
    ensures var s := Run(Initial(ready, clock), es);
            && |CurrentRequests(s)| <= 1
            && (s.a.operation.Some? <==> CurrentRequests(s) != {})
            && forall id | id in CurrentRequests(s) ::
                 s.a.operation == Some(s.requests[id].operation)
                 && (s.a.operation.value in {Polling, Cancelling} ==> s.a.flow.Some? && s.requests[id].flow == s.a.flow)
  {
    InitialInv(ready, clock);
    var s := Run(Initial(ready, clock), es);
    var all := CurrentRequests(s);
    if all != {} {
      var id :| id in all;
      assert Current(s, id) && Awaited(s, s.requests[id]);
      forall i | i in all ensures i == id { assert Current(s, i); }
      assert all == {id};
    }
    if s.a.operation.Some? {
      var id :| Current(s, id);
      assert id in all;
    }
    forall id | id in all ensures Awaited(s, s.requests[id]) { assert Current(s, id); }
  }

  // ---- no answer revives an ended flow ----

  lemma AskedFlowGoesOn(s: State, e: Timed)
    requires WellFormed(s) && !e.event.Settled?
    ensures FlowGoesOn(s.a, Step(s, e).a)
  {
    hide Expire, Load, BeginSignIn, Tick, RetryPolling, CancelSignIn, ConfirmSignOut, Settle;
    var t := At(s, e.at);
    assert FlowGoesOn(t.a, Step(s, e).a);
  }

  lemma DeliveredFlowGoesOn(s: State, request: Request, answer: Answer)
    requires request.operation == Polling ==> request.flow.Some?
    requires request.operation != Starting && Awaited(s, request)
    requires s.a.flow.Some? ==> s.a.flow.value.interval <= 3600
    ensures FlowGoesOn(s.a, Deliver(s, request, answer).a)
  {
    hide Drain, Continue, Loaded, Polled, SignedOff, Cancelled, PollVerdict, Expire;
  }

  lemma SettledFlowGoesOn(s: State, id: nat, answer: Answer)
    requires WellFormed(s) && id in s.requests
    requires Stale(s, id) || (s.requests[id].operation != Starting && Awaited(s, s.requests[id]))
    requires s.a.flow.Some? ==> s.a.flow.value.interval <= 3600
    ensures FlowGoesOn(s.a, Settle(s, id, answer).a)
  {
    hide Deliver, Continue, Awaited;
    var request := s.requests[id];
    var t := s.(requests := s.requests - {id},
                log := s.log + [Answered(request.operation, request.connection, s.a.clock)]);
    if !Stale(s, id) {
      SameAwaited(s, t, request);
      DeliveredFlowGoesOn(t, request, answer);
    }
  }

  lemma SameAwaited(s: State, t: State, request: Request)
    requires t.a == s.a
    ensures Awaited(t, request) <==> Awaited(s, request)
  {}

  /** A flow is born only from the answer to this connection's own sign-in request; every other step
      keeps the flow's identity, code and expiry, and never shortens its interval. */
  lemma FlowHasOneOrigin(s: State, e: Timed)
    requires Inv(s) && s.a.clock <= e.at
    requires !(e.event.Settled? && Current(s, e.event.id) && s.requests[e.event.id].operation == Starting)
    ensures FlowGoesOn(s.a, Step(s, e).a)
  {
    hide Step;
    if e.event.Settled? {
      SettledStepFlowGoesOn(s, e.event.id, e.event.answer, e.at);
    } else {
      AskedFlowGoesOn(s, e);
    }
  }

  lemma SettledStepFlowGoesOn(s: State, id: nat, answer: Answer, at: real)
    requires WellFormed(s) && (s.a.flow.Some? ==> s.a.flow.value.interval <= 3600)
    requires Current(s, id) ==> s.requests[id].operation != Starting && Awaited(s, s.requests[id])
    ensures FlowGoesOn(s.a, Step(s, Timed(Settled(id, answer), at)).a)
  {
    hide Settle;
    if id in s.requests { SettledFlowGoesOn(At(s, at), id, answer); }
  }
}

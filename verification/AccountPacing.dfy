/** Poll pacing (section 3.5 of RFC 8628) and code expiry, read off the wire log of any run. */
module AccountPacing {
  import opened Options
  import opened AccountAnswers
  import opened AccountFlow
  import opened AccountSafety
  import opened AccountTheorems

  ghost predicate IsPoll(entry: Entry, connection: nat) {
    entry.Sent? && entry.request.connection == connection && entry.request.operation == Polling
    && entry.request.flow.Some?
  }

  // The answer to a sign-in request: the only entry after which a new flow may exist.
  ghost predicate NewFlow(entry: Entry, connection: nat) {
    entry.Answered? && entry.connection == connection && entry.operation == Starting
  }

  // The moments from which the interval counts: the flow's birth, a poll's answer, an explicit retry.
  ghost predicate Anchor(entry: Entry, connection: nat) {
    NewFlow(entry, connection)
    || (entry.Answered? && entry.connection == connection && entry.operation == Polling)
    || (entry.Retried? && entry.connection == connection)
  }

  // No sign-in was answered on this connection strictly between the two positions.
  ghost predicate SameFlow(log: seq<Entry>, connection: nat, i: nat, j: nat)
    requires j <= |log|
  {
    forall k :: i < k < j ==> !NewFlow(log[k], connection)
  }

  // What the log owes to a poll of `flow` sent or allowed from time `due` on.
  ghost predicate Due(log: seq<Entry>, connection: nat, j: nat, flow: Flow, due: real, counting: bool)
    requires j <= |log|
  {
    forall i: nat :: i < j && SameFlow(log, connection, i, j) ==>
      && (counting && Anchor(log[i], connection) ==> log[i].at + flow.interval as real <= due)
      && (IsPoll(log[i], connection) ==>
            log[i].request.flow.value.id == flow.id && log[i].request.flow.value.interval <= flow.interval)
  }

  /** Every poll on the wire waited a whole interval from the last anchor of its flow, and asked for
      no shorter an interval than the polls of that flow before it. */
  ghost predicate Paced(log: seq<Entry>) {
    forall j: nat, connection: nat :: j < |log| && IsPoll(log[j], connection) ==>
      Due(log, connection, j, log[j].request.flow.value, log[j].at, true)
  }

  ghost predicate PaceInv(s: State) {
    Paced(s.log)
    && (s.a.flow.Some? ==>
          Due(s.log, s.a.connection, |s.log|, s.a.flow.value, s.a.flow.value.nextPollAt,
              !s.a.pollFailed && s.a.operation != Some(Polling)))
  }

  lemma AppendKeepsDue(log: seq<Entry>, entry: Entry, connection: nat, j: nat, flow: Flow, due: real, counting: bool)
    requires j <= |log| && Due(log, connection, j, flow, due, counting)
    ensures Due(log + [entry], connection, j, flow, due, counting)
  {
    forall i: nat | i < j && SameFlow(log + [entry], connection, i, j)
      ensures SameFlow(log, connection, i, j)
    {
      forall k | i < k < j ensures !NewFlow(log[k], connection) { assert (log + [entry])[k] == log[k]; }
    }
  }

  lemma AppendKeepsPaced(log: seq<Entry>, entry: Entry)
    requires Paced(log)
    requires forall connection: nat :: IsPoll(entry, connection) ==>
               Due(log, connection, |log|, entry.request.flow.value, entry.at, true)
    ensures Paced(log + [entry])
  {
    forall j: nat, connection: nat | j < |log + [entry]| && IsPoll((log + [entry])[j], connection)
      ensures Due(log + [entry], connection, j, (log + [entry])[j].request.flow.value, (log + [entry])[j].at, true)
    {
      AppendKeepsDue(log, entry, connection, j, (log + [entry])[j].request.flow.value, (log + [entry])[j].at, true);
    }
  }

  // Appending an entry moves the horizon: what is due there is what was due before and what the entry adds.
  lemma ExtendDue(log: seq<Entry>, entry: Entry, connection: nat, flow: Flow, due: real, counting: bool)
    requires NewFlow(entry, connection) || Due(log, connection, |log|, flow, due, counting)
    requires counting && Anchor(entry, connection) ==> entry.at + flow.interval as real <= due
    requires IsPoll(entry, connection) ==>
               entry.request.flow.value.id == flow.id && entry.request.flow.value.interval <= flow.interval
    ensures Due(log + [entry], connection, |log| + 1, flow, due, counting)
  {
    var all := log + [entry];
    forall i: nat | i < |log| && SameFlow(all, connection, i, |log| + 1)
      ensures !NewFlow(entry, connection) && SameFlow(log, connection, i, |log|) && all[i] == log[i]
    {
      assert all[|log|] == entry;
      forall k | i < k < |log| ensures !NewFlow(log[k], connection) { assert all[k] == log[k]; }
    }
  }

  lemma SendKeepsPace(s: State, operation: Operation, flow: Option<Flow>, resume: Resume)
    requires PaceInv(s) && s.a.operation.None?
    requires operation == Polling ==> flow == s.a.flow && flow.Some? && !s.a.pollFailed && s.a.flow.value.nextPollAt <= s.a.clock
    ensures PaceInv(Send(s, operation, flow, resume))
  {
    var t := Send(s, operation, flow, resume);
    var entry := Sent(Request(operation, s.a.connection, flow, resume), s.a.clock);
    AppendKeepsPaced(s.log, entry);
    if s.a.flow.Some? {
      ExtendDue(s.log, entry, s.a.connection, s.a.flow.value, s.a.flow.value.nextPollAt,
                !t.a.pollFailed && t.a.operation != Some(Polling));
    }
  }

  lemma ContinueKeepsPace(s: State, resume: Resume)
    requires PaceInv(s)
    ensures PaceInv(Continue(s, resume))
  {
    if Continue(s, resume) != s { SendKeepsPace(s, Polling, s.a.flow, Return); }
  }

  lemma DrainKeepsPace(s: State, resume: Resume)
    requires PaceInv(s)
    ensures PaceInv(Drain(s, resume))
  {
    ContinueKeepsPace(s, resume);
    ContinueKeepsPace(DropCancel(s), resume);
    if s.a.operation.None? {
      SendKeepsPace(s, SigningOut, None, resume);
      SendKeepsPace(s, Cancelling, s.a.flow, resume);
    }
  }

  // Dropping the flow, or pausing it, owes nothing to the log.
  lemma LessFlowKeepsPace(s: State, t: State)
    requires PaceInv(s)
    requires t.log == s.log && t.a.connection == s.a.connection
    requires t.a.flow.None?
             || (t.a.flow == s.a.flow
                 && (s.a.operation == Some(Polling) || s.a.pollFailed ==> t.a.pollFailed || t.a.operation == Some(Polling)))
    ensures PaceInv(t)
  {}

  // All anchors are in the past, so counting a whole interval from now is enough.
  lemma FreshIntervalKeepsPace(s: State, flow: Flow)
    requires Wire(s) && PaceInv(s) && s.a.flow.Some?
    requires flow.id == s.a.flow.value.id && s.a.flow.value.interval <= flow.interval
    requires s.a.clock + flow.interval as real <= flow.nextPollAt
    ensures Due(s.log, s.a.connection, |s.log|, flow, flow.nextPollAt, true)
  {
    assert forall i | 0 <= i < |s.log| :: s.log[i].at <= s.a.clock;
  }

  // The log of a settled request grows by its answer, whatever the answer says.
  ghost function Logged(s: State, request: Request): State {
    s.(log := s.log + [Answered(request.operation, request.connection, s.a.clock)])
  }

  lemma LoggedKeepsPace(s: State, request: Request)
    requires PaceInv(s)
    requires request.connection == s.a.connection ==> !(request.operation in {Starting, Polling})
    ensures PaceInv(Logged(s, request))
  {
    var entry := Answered(request.operation, request.connection, s.a.clock);
    AppendKeepsPaced(s.log, entry);
    if s.a.flow.Some? {
      ExtendDue(s.log, entry, s.a.connection, s.a.flow.value, s.a.flow.value.nextPollAt,
                !s.a.pollFailed && s.a.operation != Some(Polling));
    }
  }

  lemma BeginAnsweredKeepsPace(s: State, request: Request, answer: Answer)
    requires PaceInv(s) && s.a.flow.None?
    requires request.operation == Starting && request.connection == s.a.connection
    ensures PaceInv(Idle(BeginAnswered(Logged(s, request), answer)))
  {
    hide Begun;
    var entry := Answered(Starting, s.a.connection, s.a.clock);
    AppendKeepsPaced(s.log, entry);
    var u := BeginAnswered(Logged(s, request), answer);
    if u.a.flow.Some? {
      ExtendDue(s.log, entry, s.a.connection, u.a.flow.value, u.a.flow.value.nextPollAt, true);
    }
  }

  lemma PollAnsweredKeepsPace(s: State, request: Request, answer: Answer)
    requires Wire(s) && PaceInv(s) && s.a.flow.Some? && s.a.flow == request.flow
    requires s.a.flow.value.interval <= 3600
    requires request.operation == Polling && request.connection == s.a.connection && s.a.operation == Some(Polling)
    ensures PaceInv(Idle(PollAnswered(Logged(s, request), request.flow.value, answer)))
  {
    hide Polled, PollVerdict;
    var entry := Answered(Polling, s.a.connection, s.a.clock);
    AppendKeepsPaced(s.log, entry);
    var u := PollAnswered(Logged(s, request), request.flow.value, answer);
    if u.a.flow.Some? && !(u.a.flow == s.a.flow && u.a.pollFailed) {
      FreshIntervalKeepsPace(s, u.a.flow.value);
      ExtendDue(s.log, entry, s.a.connection, u.a.flow.value, u.a.flow.value.nextPollAt, true);
    } else if u.a.flow.Some? {
      ExtendDue(s.log, entry, s.a.connection, u.a.flow.value, u.a.flow.value.nextPollAt, false);
    }
  }

  lemma IntentAnsweredKeepsPace(s: State, answer: Answer)
    requires PaceInv(s)
    ensures PaceInv(SignOutAnswered(s, answer)) && PaceInv(CancelAnswered(s, answer))
  {
    LessFlowKeepsPace(s, SignOutAnswered(s, answer));
    LessFlowKeepsPace(s, CancelAnswered(s, answer));
  }

  lemma StaleSettleKeepsPace(s: State, id: nat, answer: Answer)
    requires Inv(s) && PaceInv(s) && id in s.requests && Stale(s, id)
    ensures PaceInv(Settle(s, id, answer))
  {
    hide Paced, Due, Continue;
    var u := s.(requests := s.requests - {id});
    LoggedKeepsPace(u, s.requests[id]);
    ContinueKeepsPace(Logged(u, s.requests[id]), s.requests[id].resume);
  }

  // What each method does with its answer keeps the pace, and so does all it does afterwards.
  lemma AnswerKeepsPace(u: State, request: Request, answer: Answer)
    requires Wire(u) && PaceInv(u) && Awaited(u, request) && request.connection == u.a.connection
    requires u.a.flow.Some? ==> u.a.flow.value.interval <= 3600
    ensures var t := Logged(u, request);
            match request.operation
            case Loading => PaceInv(Idle(LoadAnswered(t, answer)))
            case Starting => PaceInv(Idle(BeginAnswered(t, answer)))
            case Polling => PaceInv(Idle(PollAnswered(t, request.flow.value, answer)))
            case SigningOut => PaceInv(SignOutAnswered(t, answer))
            case Cancelling => PaceInv(CancelAnswered(t, answer))
  {
    hide Paced, Due, Loaded, Begun, Polled, SignedOff, Cancelled;
    match request.operation
    case Loading => LoggedKeepsPace(u, request);
    case Starting => BeginAnsweredKeepsPace(u, request, answer);
    case Polling => PollAnsweredKeepsPace(u, request, answer);
    case SigningOut =>
      LoggedKeepsPace(u, request);
      IntentAnsweredKeepsPace(Logged(u, request), answer);
    case Cancelling =>
      LoggedKeepsPace(u, request);
      IntentAnsweredKeepsPace(Logged(u, request), answer);
  }

  lemma DeliverKeepsPace(u: State, request: Request, answer: Answer)
    requires Wire(u) && PaceInv(u) && Awaited(u, request) && request.connection == u.a.connection
    requires u.a.flow.Some? ==> u.a.flow.value.interval <= 3600
    ensures PaceInv(Deliver(Logged(u, request), request, answer))
  {
    hide Logged, Drain, Continue, Loaded, Begun, Polled, SignedOff, Cancelled, Wire, PaceInv;
    var t := Logged(u, request);
    AnswerKeepsPace(u, request, answer);
    match request.operation
    case Loading => DrainKeepsPace(Idle(LoadAnswered(t, answer)), Return);
    case Starting => DrainKeepsPace(Idle(BeginAnswered(t, answer)), Return);
    case Polling => DrainKeepsPace(Idle(PollAnswered(t, request.flow.value, answer)), Return);
    case SigningOut => ContinueKeepsPace(SignOutAnswered(t, answer), request.resume);
    case Cancelling =>
      DrainKeepsPace(CancelAnswered(t, answer), request.resume);
      ContinueKeepsPace(CancelAnswered(t, answer), request.resume);
  }

  lemma SettleKeepsPace(s: State, id: nat, answer: Answer)
    requires Inv(s) && PaceInv(s) && id in s.requests
    ensures PaceInv(Settle(s, id, answer))
  {
    hide Deliver, PaceInv;
    if Stale(s, id) {
      StaleSettleKeepsPace(s, id, answer);
    } else {
      assert Current(s, id) && Awaited(s, s.requests[id]);
      var u := s.(requests := s.requests - {id});
      LessFlowKeepsPace(s, u);
      DeliverKeepsPace(u, s.requests[id], answer);
    }
  }

  lemma RetryKeepsPace(s: State)
    requires Inv(s) && PaceInv(s)
    ensures PaceInv(RetryPolling(s))
  {
    var t := RetryPolling(s);
    if t != s {
      var entry := Retried(s.a.connection, s.a.clock);
      AppendKeepsPaced(s.log, entry);
      FreshIntervalKeepsPace(s, t.a.flow.value);
      ExtendDue(s.log, entry, s.a.connection, t.a.flow.value, t.a.flow.value.nextPollAt, true);
    }
  }

  lemma StartKeepsPace(s: State)
    requires Inv(s) && PaceInv(s)
    ensures PaceInv(Load(s)) && PaceInv(BeginSignIn(s))
  {
    if !s.a.Blocked() {
      SendKeepsPace(NoError(s), Loading, None, Return);
      SendKeepsPace(Cleared(s), Starting, None, Return);
    }
  }

  lemma ReplaceKeepsPace(s: State, ready: bool)
    requires PaceInv(s)
    ensures PaceInv(Replace(s, ready))
  {}

  lemma IntentKeepsPace(s: State)
    requires PaceInv(s)
    ensures PaceInv(CancelSignIn(s)) && PaceInv(ConfirmSignOut(s))
  {
    hide Drain, Paced, Due;
    DrainKeepsPace(AskCancel(s), Return);
    DrainKeepsPace(AskSignOut(s), Return);
  }

  lemma UpdateExpiryKeepsPace(s: State)
    requires PaceInv(s)
    ensures PaceInv(UpdateExpiry(s))
  {
    LessFlowKeepsPace(s, UpdateExpiry(s));
  }

  lemma SamePace(s: State, t: State)
    requires PaceInv(s) && t.log == s.log && t.a.flow == s.a.flow && t.a.connection == s.a.connection
    requires t.a.pollFailed == s.a.pollFailed && t.a.operation == s.a.operation
    ensures PaceInv(t)
  {}

  lemma StepKeepsPace(s: State, e: Timed)
    requires Inv(s) && PaceInv(s) && s.a.clock <= e.at
    ensures PaceInv(Step(s, e))
  {
    hide Inv, PaceInv, Expire, Drain, Load, BeginSignIn, RetryPolling, CancelSignIn, ConfirmSignOut, Settle, Reset,
      Paced, Due;
    var t := At(s, e.at);
    SameRequestsKeepInv(s, t);
    SamePace(s, t);
    match e.event
    case ConnectionReplaced(ready) => ReplaceKeepsPace(t, ready);
    case ActivityBusy(value) => SamePace(t, Busy(t, value));
    case Lifecycle(visible, foreground) =>
      SamePace(t, Lives(t, visible, foreground));
      UpdateExpiryKeepsPace(Lives(t, visible, foreground));
    case LoadAsked => StartKeepsPace(t);
    case SignInAsked => StartKeepsPace(t);
    case Ticked =>
      UpdateExpiryKeepsPace(t);
      DrainKeepsPace(UpdateExpiry(t), RestOfTick);
    case RetryAsked => RetryKeepsPace(t);
    case CancelAsked => IntentKeepsPace(t);
    case SignOutConfirmed => IntentKeepsPace(t);
    case Settled(id, answer) => if id in t.requests { SettleKeepsPace(t, id, answer); }
  }

  lemma RunKeepsPace(s: State, es: seq<Timed>)
    requires Inv(s) && PaceInv(s) && Ordered(s.a.clock, es)
    ensures PaceInv(Run(s, es))
    decreases |es|
  {
    if es != [] {
      StepKeepsInv(s, es[0]);
      StepKeepsPace(s, es[0]);
      RunKeepsPace(Step(s, es[0]), es[1..]);
    }
  }

  /** On every run, however answers, retries, cancels and reconnects interleave, the wire is paced. */
  lemma EveryRunIsPaced(ready: bool, clock: real, es: seq<Timed>)
    requires Ordered(clock, es)
    ensures Inv(Initial(ready, clock)) && Paced(Run(Initial(ready, clock), es).log)
  {
    InitialInv(ready, clock);
    RunKeepsPace(Initial(ready, clock), es);
  }
}

/** Non-interference across connections: what a replaced connection answers cannot be observed. */
module AccountEpochs {
  import opened Options
  import opened AccountAnswers
  import opened AccountFlow
  import opened AccountSafety
  import opened AccountTheorems

  // The two states agree on everything but the past of the wire and the contents of stale calls.
  ghost predicate Indistinguishable(s: State, t: State) {
    t.a == s.a && |t.log| == |s.log| && t.requests.Keys == s.requests.Keys
    && (forall id | id in s.requests ::
          && t.requests[id].connection == s.requests[id].connection
          && t.requests[id].resume == s.requests[id].resume
          && (!Stale(s, id) ==> t.requests[id] == s.requests[id]))
  }

  // Two environments that may differ only in what they answer to calls of replaced connections.
  ghost predicate Alike(s: State, e: Timed, f: Timed) {
    e == f
    || (e.at == f.at && e.event.Settled? && f.event.Settled? && e.event.id == f.event.id
        && e.event.id in s.requests && Stale(s, e.event.id))
  }

  ghost predicate AlikeRuns(s: State, es: seq<Timed>, fs: seq<Timed>)
    requires Inv(s) && Ordered(s.a.clock, es)
    decreases |es|
  {
    |fs| == |es|
    && (es != [] ==>
          Alike(s, es[0], fs[0])
          && (StepKeepsInv(s, es[0]); AlikeRuns(Step(s, es[0]), es[1..], fs[1..])))
  }

  lemma SendAlike(s: State, t: State, operation: Operation, flow: Option<Flow>, resume: Resume)
    requires Indistinguishable(s, t)
    ensures Indistinguishable(Send(s, operation, flow, resume), Send(t, operation, flow, resume))
  {}

  lemma DrainAlike(s: State, t: State, resume: Resume)
    requires Indistinguishable(s, t)
    ensures Indistinguishable(Continue(s, resume), Continue(t, resume))
    ensures Indistinguishable(Drain(s, resume), Drain(t, resume))
  {
    hide Send;
    var u, v := DropCancel(s), DropCancel(t);
    SendAlike(s, t, Polling, s.a.flow, Return);
    SendAlike(u, v, Polling, s.a.flow, Return);
    SendAlike(s, t, SigningOut, None, resume);
    SendAlike(s, t, Cancelling, s.a.flow, resume);
  }

  // Field updates that leave the wire alone keep two states indistinguishable.
  lemma UpdateAlike(s: State, t: State, u: State, v: State)
    requires Indistinguishable(s, t) && v.a == u.a && u.a.connection == s.a.connection
    requires u.requests == s.requests && u.log == s.log && v.requests == t.requests && v.log == t.log
    ensures Indistinguishable(u, v)
  {}

  lemma DeliverAlike(s: State, t: State, request: Request, answer: Answer)
    requires Indistinguishable(s, t)
    requires request.operation == Polling ==> request.flow.Some?
    ensures Indistinguishable(Deliver(s, request, answer), Deliver(t, request, answer))
  {
    hide Drain, Continue, Loaded, Begun, Polled, SignedOff, Cancelled;
    match request.operation
    case Loading => FieldsAlike(s, t, Loaded(s.a, answer), Return);
    case Starting => FieldsAlike(s, t, Begun(s.a, answer), Return);
    case Polling => FieldsAlike(s, t, Polled(s.a, request.flow.value, answer), Return);
    case SigningOut => FieldsAlike(s, t, SignedOff(s.a, answer), request.resume);
    case Cancelling => FieldsAlike(s, t, Cancelled(s.a, answer), request.resume);
  }

  // The same new fields over either wire stay indistinguishable, and so does all that follows.
  lemma FieldsAlike(s: State, t: State, a: Settings, resume: Resume)
    requires Indistinguishable(s, t) && a.connection == s.a.connection
    ensures Indistinguishable(Drain(s.(a := a), resume), Drain(t.(a := a), resume))
    ensures Indistinguishable(Continue(s.(a := a), resume), Continue(t.(a := a), resume))
    ensures Indistinguishable(Finish(s.(a := a)), Finish(t.(a := a)))
  {
    hide Drain, Continue;
    DrainAlike(s.(a := a), t.(a := a), resume);
    DrainAlike(Idle(s.(a := a)), Idle(t.(a := a)), Return);
  }

  lemma SettleAlike(s: State, t: State, id: nat, answer: Answer, other: Answer)
    requires WellFormed(s) && WellFormed(t) && Indistinguishable(s, t) && id in s.requests
    requires answer == other || Stale(s, id)
    ensures Indistinguishable(Settle(s, id, answer), Settle(t, id, other))
  {
    hide Continue, Deliver;
    var p, q := s.requests[id], t.requests[id];
    var u := s.(requests := s.requests - {id}, log := s.log + [Answered(p.operation, p.connection, s.a.clock)]);
    var v := t.(requests := t.requests - {id}, log := t.log + [Answered(q.operation, q.connection, t.a.clock)]);
    assert Indistinguishable(u, v);
    if Stale(s, id) {
      DrainAlike(u, v, p.resume);
    } else {
      DeliverAlike(u, v, p, answer);
    }
  }

  lemma LoadAlike(s: State, t: State)
    requires Indistinguishable(s, t)
    ensures Indistinguishable(Load(s), Load(t))
  {
    hide Send;
    UpdateAlike(s, t, NoError(s), NoError(t));
    SendAlike(NoError(s), NoError(t), Loading, None, Return);
  }

  lemma BeginAlike(s: State, t: State)
    requires Indistinguishable(s, t)
    ensures Indistinguishable(BeginSignIn(s), BeginSignIn(t))
  {
    hide Send;
    UpdateAlike(s, t, Cleared(s), Cleared(t));
    SendAlike(Cleared(s), Cleared(t), Starting, None, Return);
  }

  lemma RetryAlike(s: State, t: State)
    requires Indistinguishable(s, t)
    ensures Indistinguishable(RetryPolling(s), RetryPolling(t))
  {}

  lemma TickAlike(s: State, t: State)
    requires Indistinguishable(s, t)
    ensures Indistinguishable(Tick(s), Tick(t))
  {
    hide Drain;
    UpdateAlike(s, t, UpdateExpiry(s), UpdateExpiry(t));
    DrainAlike(UpdateExpiry(s), UpdateExpiry(t), RestOfTick);
  }

  lemma CancelAlike(s: State, t: State)
    requires Indistinguishable(s, t)
    ensures Indistinguishable(CancelSignIn(s), CancelSignIn(t))
  {
    hide Drain;
    var u := AskCancel(s);
    var v := AskCancel(t);
    UpdateAlike(s, t, u, v);
    DrainAlike(u, v, Return);
  }

  lemma SignOutAlike(s: State, t: State)
    requires Indistinguishable(s, t)
    ensures Indistinguishable(ConfirmSignOut(s), ConfirmSignOut(t))
  {
    hide Drain;
    var u := AskSignOut(s);
    var v := AskSignOut(t);
    UpdateAlike(s, t, u, v);
    DrainAlike(u, v, Return);
  }

  lemma LifecycleAlike(s: State, t: State, visible: bool, foreground: bool)
    requires Indistinguishable(s, t)
    ensures Indistinguishable(UpdateExpiry(Lives(s, visible, foreground)),
                              UpdateExpiry(Lives(t, visible, foreground)))
  {
    UpdateAlike(s, t, UpdateExpiry(Lives(s, visible, foreground)),
                 UpdateExpiry(Lives(t, visible, foreground)));
  }

  lemma ReplaceAlike(s: State, t: State, ready: bool)
    requires Indistinguishable(s, t) && Wire(s)
    ensures Indistinguishable(Replace(s, ready), Replace(t, ready))
  {}

  lemma StepAlike(s: State, t: State, e: Timed, f: Timed)
    requires Inv(s) && Inv(t) && Indistinguishable(s, t) && s.a.clock <= e.at && Alike(s, e, f)
    ensures Indistinguishable(Step(s, e), Step(t, f))
  {
    hide Indistinguishable, Expire, Reset, Load, BeginSignIn, Tick, RetryPolling, CancelSignIn, ConfirmSignOut, Settle;
    var u, v := At(s, e.at), At(t, e.at);
    ClockAlike(s, t, e.at);
    match e.event
    case ConnectionReplaced(ready) => ReplaceAlike(u, v, ready);
    case ActivityBusy(value) =>
      UpdateAlike(u, v, Busy(u, value), Busy(v, value));
    case Lifecycle(visible, foreground) => LifecycleAlike(u, v, visible, foreground);
    case LoadAsked => LoadAlike(u, v);
    case SignInAsked => BeginAlike(u, v);
    case Ticked => TickAlike(u, v);
    case RetryAsked => RetryAlike(u, v);
    case CancelAsked => CancelAlike(u, v);
    case SignOutConfirmed => SignOutAlike(u, v);
    case Settled(id, answer) => if id in u.requests { SettleAlike(u, v, id, answer, f.event.answer); }
  }

  lemma ClockAlike(s: State, t: State, at: real)
    requires Indistinguishable(s, t)
    ensures Indistinguishable(At(s, at), At(t, at))
    ensures t.a.clock == s.a.clock && t.requests.Keys == s.requests.Keys
  {}

  /** From a replacement on, two runs whose environments differ only in the content or success of the
      answers to calls of replaced connections agree on every field and on every call of the new connection. */
  lemma NonInterference(s: State, t: State, es: seq<Timed>, fs: seq<Timed>)
    requires Inv(s) && Inv(t) && Indistinguishable(s, t) && Ordered(s.a.clock, es) && AlikeRuns(s, es, fs)
    ensures Ordered(t.a.clock, fs) && Indistinguishable(Run(s, es), Run(t, fs))
    decreases |es|
  {
    if es != [] {
      StepKeepsInv(s, es[0]);
      StepKeepsInv(t, fs[0]);
      StepAlike(s, t, es[0], fs[0]);
      NonInterference(Step(s, es[0]), Step(t, fs[0]), es[1..], fs[1..]);
    }
  }

  // Same environment and the same calls under way, whatever they carry and whatever has been shown.
  ghost predicate SameSurroundings(s: State, t: State) {
    s.a.connection == t.a.connection && s.a.visible == t.a.visible && s.a.foreground == t.a.foreground
    && s.a.activityBusy == t.a.activityBusy && s.a.clock == t.a.clock && |s.log| == |t.log|
    && s.requests.Keys == t.requests.Keys
    && forall id | id in s.requests ::
         s.requests[id].connection == t.requests[id].connection && s.requests[id].resume == t.requests[id].resume
  }

  /** A replacement forgets all the account ever showed: any two histories in the same surroundings
      become indistinguishable. */
  lemma ReplacementForgets(s: State, t: State, ready: bool)
    requires Inv(s) && Inv(t) && SameSurroundings(s, t)
    ensures Indistinguishable(Replace(s, ready), Replace(t, ready))
  {}
}

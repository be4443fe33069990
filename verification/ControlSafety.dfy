/** What every run of the control queue keeps. */
module ControlSafety {
  import opened Options
  import opened ControlQueue

  function Resumes(log: seq<Entry>, id: nat): nat {
    if log == [] then 0
    else Resumes(log[..|log| - 1], id) + if log[|log| - 1].Resumed? && log[|log| - 1].id == id then 1 else 0
  }

  function Notifies(log: seq<Entry>, id: nat): nat {
    if log == [] then 0
    else Notifies(log[..|log| - 1], id) + if log[|log| - 1] == Notified(id) then 1 else 0
  }

  function Sends(log: seq<Entry>): seq<nat> {
    if log == [] then []
    else Sends(log[..|log| - 1]) + if log[|log| - 1].Sent? then [log[|log| - 1].id] else []
  }

  // Replays the flights of a log: the control in flight at its end, or no result when two flights
  // overlap or one ends that did not start.
  function Flight(log: seq<Entry>): Option<Option<nat>> {
    if log == [] then Some(None)
    else
      var before, entry := Flight(log[..|log| - 1]), log[|log| - 1];
      if before.None? then None
      else if entry.Sent? then if before.value.None? then Some(Some(entry.id)) else None
      else if entry.Ended? then if before.value == Some(entry.id) then Some(None) else None
      else before
  }

  function FirstNumbers(n: nat): seq<nat> {
    seq(n, i => i)
  }

  // Every resumed mutation had been announced before.
  ghost predicate AnnouncedFirst(log: seq<Entry>, mutates: seq<bool>) {
    forall j | 0 <= j < |log| && log[j].Resumed? && log[j].id < |mutates| && mutates[log[j].id] ::
      Notified(log[j].id) in log[..j]
  }

  function One(b: bool): nat { if b then 1 else 0 }

  // Resumption is accounted for: a control is waiting, held by a call that is about to resume it, or
  // was resumed, exactly once in all.
  ghost predicate Once(s: State, held: set<nat>) {
    forall id: nat :: Resumes(s.log, id) + One(id in s.controls) + One(id in held) == One(id < |s.mutates|)
  }

  // So is the announcement of mutations, which comes before their resumption.
  ghost predicate Told(s: State, held: set<nat>) {
    && s.mutationRequests <= s.controls
    && (forall id: nat ::
          Notifies(s.log, id) + One(id in s.mutationRequests) == One(id < |s.mutates| && s.mutates[id]))
    && AnnouncedFirst(s.log, s.mutates)
    && (forall id | id in held && id < |s.mutates| && s.mutates[id] :: Notified(id) in s.log)
  }

  // Controls are sent in the order in which they were accepted, and the rest wait in that order.
  ghost predicate InOrder(s: State) {
    if s.closed then Sends(s.log) <= FirstNumbers(|s.mutates|) && s.queued == []
    else Sends(s.log) + s.queued == FirstNumbers(|s.mutates|)
  }

  // One control is in flight at a time, it is the one with a timeout, and nobody else waits unqueued.
  ghost predicate Alone(s: State) {
    && Flight(s.log) == Some(s.active)
    && s.timeouts == (if s.active.Some? then {s.active.value} else {})
    && (forall id | id in s.controls :: s.closed || id in s.queued || s.active == Some(id))
    && (s.active.Some? ==> s.active.value !in s.queued)
  }

  /** The invariant between and inside the methods; `held` are the continuations taken out of the
      table by calls that have yet to resume them. */
  ghost predicate Inv(s: State, held: set<nat>) {
    Once(s, held) && Told(s, held) && InOrder(s) && Alone(s)
  }

  // Between events an open bridge is idle only when nothing waits, and a closed one holds nobody.
  ghost predicate Settled(s: State) {
    Inv(s, {}) && |s.controls| <= CAPACITY
    && (if s.closed then s.controls == {} else s.active.None? ==> s.queued == [])
  }

  lemma Append(log: seq<Entry>, entry: Entry)
    ensures forall id :: Resumes(log + [entry], id) == Resumes(log, id) + One(entry.Resumed? && entry.id == id)
    ensures forall id :: Notifies(log + [entry], id) == Notifies(log, id) + One(entry == Notified(id))
    ensures Sends(log + [entry]) == Sends(log) + if entry.Sent? then [entry.id] else []
  {
    assert (log + [entry])[..|log|] == log;
  }

  lemma AppendFlight(log: seq<Entry>, entry: Entry)
    ensures entry.Sent? && Flight(log) == Some(None) ==> Flight(log + [entry]) == Some(Some(entry.id))
    ensures entry.Ended? && Flight(log) == Some(Some(entry.id)) ==> Flight(log + [entry]) == Some(None)
    ensures entry.Notified? || entry.Resumed? ==> Flight(log + [entry]) == Flight(log)
  {
    assert (log + [entry])[..|log|] == log;
  }

  lemma AppendAnnounced(log: seq<Entry>, entry: Entry, mutates: seq<bool>)
    requires AnnouncedFirst(log, mutates)
    requires entry.Resumed? && entry.id < |mutates| && mutates[entry.id] ==> Notified(entry.id) in log
    ensures AnnouncedFirst(log + [entry], mutates)
  {
    forall j | 0 <= j < |log + [entry]| ensures j <= |log| && (log + [entry])[..j] == log[..j] {}
  }

  // A control leaves the tables: its mutation is announced, its continuation is held.
  ghost function Take(s: State, id: nat): State {
    s.(controls := s.controls - {id}, mutationRequests := s.mutationRequests - {id},
       log := if id in s.mutationRequests then s.log + [Notified(id)] else s.log)
  }

  ghost function Holding(s: State, held: set<nat>, id: nat): set<nat> {
    if id in s.controls then held + {id} else held
  }

  lemma TakeKeepsOnce(s: State, held: set<nat>, id: nat)
    requires Once(s, held)
    ensures Once(Take(s, id), Holding(s, held, id))
  {
    Append(s.log, Notified(id));
  }

  lemma TakeKeepsTold(s: State, held: set<nat>, id: nat)
    requires Told(s, held)
    ensures Told(Take(s, id), Holding(s, held, id))
  {
    Append(s.log, Notified(id));
    AppendAnnounced(s.log, Notified(id), s.mutates);
    if id in s.controls && id < |s.mutates| && s.mutates[id] && id !in s.mutationRequests {
      NotifiedIsLogged(s.log, id);
    }
  }

  lemma NotifiedIsLogged(log: seq<Entry>, id: nat)
    requires Notifies(log, id) > 0
    ensures Notified(id) in log
  {}

  lemma TakeKeepsInv(s: State, held: set<nat>, id: nat)
    requires Inv(s, held)
    ensures Inv(Take(s, id), Holding(s, held, id))
  {
    hide Once, Told;
    TakeKeepsOnce(s, held, id);
    TakeKeepsTold(s, held, id);
    Append(s.log, Notified(id));
    AppendFlight(s.log, Notified(id));
  }

  lemma LandKeepsInv(s: State, held: set<nat>, id: nat)
    requires Inv(s, held) && s.active == Some(id) && id !in s.controls
    ensures Inv(s.(active := None, timeouts := s.timeouts - {id}, log := s.log + [Ended(id)]), held)
  {
    Append(s.log, Ended(id));
    AppendFlight(s.log, Ended(id));
    AppendAnnounced(s.log, Ended(id), s.mutates);
  }

  lemma ResumeKeepsInv(s: State, held: set<nat>, id: nat, outcome: Outcome)
    requires id !in held && Inv(s, held + {id})
    ensures Inv(s.(log := s.log + [Resumed(id, outcome)]), held)
  {
    var t := s.(log := s.log + [Resumed(id, outcome)]);
    Append(s.log, Resumed(id, outcome));
    AppendFlight(s.log, Resumed(id, outcome));
    AppendAnnounced(s.log, Resumed(id, outcome), s.mutates);
    hide AnnouncedFirst, Flight, Sends, FirstNumbers, Resumes, Notifies, InOrder, Alone;
    ResumeKeepsOnce(s, held, id, outcome);
    assert Told(t, held) by { assert forall other | other in held :: other in held + {id}; }
    ResumeKeepsRest(s, id, outcome);
  }

  lemma ResumeKeepsOnce(s: State, held: set<nat>, id: nat, outcome: Outcome)
    requires id !in held && Once(s, held + {id})
    ensures Once(s.(log := s.log + [Resumed(id, outcome)]), held)
  {
    Append(s.log, Resumed(id, outcome));
    hide Resumes;
    assert id in held + {id};
  }

  lemma ResumeKeepsRest(s: State, id: nat, outcome: Outcome)
    requires InOrder(s) && Alone(s)
    ensures InOrder(s.(log := s.log + [Resumed(id, outcome)])) && Alone(s.(log := s.log + [Resumed(id, outcome)]))
  {
    Append(s.log, Resumed(id, outcome));
    AppendFlight(s.log, Resumed(id, outcome));
  }

  ghost function Launch(s: State): State
    requires s.queued != []
  {
    s.(queued := s.queued[1..], active := Some(s.queued[0]), timeouts := s.timeouts + {s.queued[0]},
       log := s.log + [Sent(s.queued[0])])
  }

  lemma LaunchKeepsOrder(s: State)
    requires InOrder(s) && !s.closed && s.queued != []
    ensures InOrder(Launch(s)) && s.queued[0] !in s.queued[1..]
  {
    Append(s.log, Sent(s.queued[0]));
    assert s.queued == [s.queued[0]] + s.queued[1..];
    forall i | 1 <= i < |s.queued| ensures s.queued[i] != s.queued[0] {
      var all := FirstNumbers(|s.mutates|);
      assert all[|Sends(s.log)| + i] == s.queued[i] && all[|Sends(s.log)|] == s.queued[0];
    }
  }

  lemma LaunchKeepsInv(s: State, held: set<nat>)
    requires Inv(s, held) && !s.closed && s.active.None? && s.queued != []
    ensures Inv(Launch(s), held) && s.queued[0] !in s.queued[1..]
  {
    hide InOrder;
    LaunchKeepsOrder(s);
    Append(s.log, Sent(s.queued[0]));
    AppendFlight(s.log, Sent(s.queued[0]));
    AppendAnnounced(s.log, Sent(s.queued[0]), s.mutates);
  }

  // What the two mutually recursive methods leave in place, however many sends fail on the way.
  ghost predicate Advances(s: State, t: State) {
    t.closed == s.closed && t.mutates == s.mutates && t.controls <= s.controls && |t.queued| <= |s.queued|
    && (s.closed ==> t.queued == s.queued)
  }

  lemma CompleteKeepsInv(s: State, held: set<nat>, id: nat, outcome: Outcome, takes: nat -> bool)
    requires Inv(s, held) && id !in held
    requires s.active == Some(id) ==> forall i | i in s.queued :: i !in held
    ensures var t := Complete(s, id, outcome, takes);
            Inv(t, held) && Advances(s, t) && id !in t.controls
            && (s.active == Some(id) && !s.closed && t.active.None? ==> t.queued == [])
            && (s.active != Some(id) ==> t.active == s.active && t.queued == s.queued)
    decreases |s.queued|, 1
  {
    hide Once, Told, InOrder;
    TakeKeepsInv(s, held, id);
    var t, all := Take(s, id), Holding(s, held, id);
    var u := t;
    if s.active == Some(id) {
      LandKeepsInv(t, all, id);
      u := t.(active := None, timeouts := t.timeouts - {id}, log := t.log + [Ended(id)]);
      SendNextKeepsInv(u, all, takes);
      u := SendNext(u, takes);
    } else {
      assert t.timeouts - {id} == t.timeouts;
    }
    if id in s.controls {
      ResumeKeepsInv(u, held, id, outcome);
    }
  }

  lemma SendNextKeepsInv(s: State, held: set<nat>, takes: nat -> bool)
    requires Inv(s, held)
    requires forall id | id in s.queued :: id !in held
    ensures var t := SendNext(s, takes);
            Inv(t, held) && Advances(s, t) && (s.closed || t.active.Some? || t.queued == [])
    decreases |s.queued|, 0
  {
    hide Once, Told, InOrder;
    if !s.closed && s.active.None? && s.queued != [] {
      LaunchKeepsInv(s, held);
      if !takes(s.queued[0]) {
        CompleteKeepsInv(Launch(s), held, s.queued[0], Unavailable, takes);
      }
    }
  }

  lemma FlightIsSent(log: seq<Entry>)
    ensures Flight(log).Some? && Flight(log).value.Some? ==> Flight(log).value.value in Sends(log)
  {}

  lemma ResumedIsCounted(log: seq<Entry>, j: nat)
    requires j < |log| && log[j].Resumed?
    ensures Resumes(log, log[j].id) > 0
  {
    if j < |log| - 1 { ResumedIsCounted(log[..|log| - 1], j); }
  }

  ghost function Accept(s: State, mutation: bool): State {
    var id := |s.mutates|;
    s.(controls := s.controls + {id}, mutates := s.mutates + [mutation], queued := s.queued + [id],
       mutationRequests := if mutation then s.mutationRequests + {id} else s.mutationRequests)
  }

  lemma AcceptKeepsTold(s: State, mutation: bool)
    requires Once(s, {}) && Told(s, {})
    ensures Told(Accept(s, mutation), {})
  {
    var t := Accept(s, mutation);
    forall j | 0 <= j < |t.log| && t.log[j].Resumed? && t.log[j].id < |t.mutates| ensures t.log[j].id < |s.mutates| {
      ResumedIsCounted(t.log, j);
    }
  }

  lemma AcceptKeepsInv(s: State, mutation: bool)
    requires Inv(s, {}) && !s.closed
    ensures Inv(Accept(s, mutation), {})
  {
    hide Told;
    AcceptKeepsTold(s, mutation);
    FlightIsSent(s.log);
    var n := |s.mutates|;
    assert FirstNumbers(n + 1) == FirstNumbers(n) + [n];
    assert Sends(s.log) + (s.queued + [n]) == (Sends(s.log) + s.queued) + [n];
    forall id | id in Sends(s.log) ensures id < n {
      assert id in Sends(s.log) + s.queued;
    }
  }

  lemma CompleteAllKeepsInv(s: State, ids: seq<nat>, takes: nat -> bool)
    requires Inv(s, {}) && s.closed
    ensures var t := CompleteAll(s, ids, takes);
            Inv(t, {}) && Advances(s, t) && forall id | id in ids :: id !in t.controls
    decreases |ids|
  {
    hide Once, Told, InOrder, Alone, Complete;
    if ids != [] {
      CompleteKeepsInv(s, {}, ids[0], Cancelled, takes);
      CompleteAllKeepsInv(Complete(s, ids[0], Cancelled, takes), ids[1..], takes);
    }
  }

  lemma CloseKeepsInv(s: State)
    requires Inv(s, {})
    ensures Inv(s.(closed := true, queued := []), {})
  {}

  /** Every event leaves the queue settled: nobody is lost, nobody is served twice, and the line moves. */
  lemma StepKeepsSettled(s: State, e: Event, takes: nat -> bool)
    requires Settled(s) && Possible(s, e)
    ensures Settled(Step(s, e, takes))
  {
    hide Once, Told, InOrder, Complete, SendNext;
    match e
    case Asked(mutation) =>
      if !s.closed && |s.controls| < CAPACITY {
        AcceptKeepsInv(s, mutation);
        SendNextKeepsInv(Accept(s, mutation), {}, takes);
        Fewer(SendNext(Accept(s, mutation), takes).controls, s.controls + {|s.mutates|});
      }
    case Received(id, ok) => CompletedIsSettled(s, id, Answered(ok), takes);
    case TimeoutFired(id) => CompletedIsSettled(s, id, TimedOut, takes);
    case Closed(order) =>
      CloseKeepsInv(s);
      CompleteAllKeepsInv(s.(closed := true, queued := []), order, takes);
      assert forall id | id in s.controls :: id in order;
  }

  lemma CompletedIsSettled(s: State, id: nat, outcome: Outcome, takes: nat -> bool)
    requires Settled(s)
    ensures Settled(Complete(s, id, outcome, takes))
  {
    hide Once, Told, InOrder, Alone, Complete;
    CompleteKeepsInv(s, {}, id, outcome, takes);
    Fewer(Complete(s, id, outcome, takes).controls, s.controls);
  }

  lemma Fewer(a: set<nat>, b: set<nat>)
    requires a <= b
    ensures |a| <= |b|
  {
    if a != {} {
      var x :| x in a;
      Fewer(a - {x}, b - {x});
    }
  }

  // ---- runs ----

  ghost predicate Admissible(s: State, es: seq<Event>, takes: nat -> bool)
    decreases |es|
  {
    es == [] || (Possible(s, es[0]) && Admissible(Step(s, es[0], takes), es[1..], takes))
  }

  ghost function Run(s: State, es: seq<Event>, takes: nat -> bool): State
    decreases |es|
  {
    if es == [] then s else Run(Step(s, es[0], takes), es[1..], takes)
  }

  lemma RunKeepsSettled(s: State, es: seq<Event>, takes: nat -> bool)
    requires Settled(s) && Admissible(s, es, takes)
    ensures Settled(Run(s, es, takes))
    decreases |es|
  {
    if es != [] {
      StepKeepsSettled(s, es[0], takes);
      RunKeepsSettled(Step(s, es[0], takes), es[1..], takes);
    }
  }

  /** On every run, whatever sends fail and whatever late, duplicate or stray answers and timeouts
      arrive: each accepted control is resumed exactly once unless it still waits, mutations are
      announced exactly once and before that, sending follows acceptance order with one control in
      flight at a time, at most 32 wait, and an open bridge is never idle with a non-empty queue. */
  lemma EveryControlIsServedOnce(es: seq<Event>, takes: nat -> bool)
    requires Admissible(Fresh, es, takes)
    ensures var s := Run(Fresh, es, takes);
            && (forall id | 0 <= id < |s.mutates| ::
                  Resumes(s.log, id) == (if id in s.controls then 0 else 1)
                  && (id !in s.controls ==> Notifies(s.log, id) == One(s.mutates[id])))
            && AnnouncedFirst(s.log, s.mutates)
            && Sends(s.log) <= FirstNumbers(|s.mutates|) && Flight(s.log) == Some(s.active)
            && |s.controls| <= CAPACITY
            && (!s.closed && s.active.None? ==> s.queued == [] && s.controls == {})
            && (s.closed ==> s.controls == {})
  {
    RunKeepsSettled(Fresh, es, takes);
    var s := Run(Fresh, es, takes);
    if !s.closed { assert Sends(s.log) <= Sends(s.log) + s.queued; }
  }

  // ---- progress ----

  // Nothing but the timeouts of the controls in flight, one after another.
  ghost function LetTimeOut(s: State, takes: nat -> bool, n: nat): State
    decreases n
  {
    if n == 0 || s.active.None? then s
    else LetTimeOut(Step(s, TimeoutFired(s.active.value), takes), takes, n - 1)
  }

  lemma TimeoutShortensQueue(s: State, takes: nat -> bool)
    requires Settled(s) && s.active.Some? && !s.closed
    ensures var t := Step(s, TimeoutFired(s.active.value), takes);
            !t.closed && (t.active.None? || |t.queued| < |s.queued|)
  {
    hide Once, Told, InOrder;
    var id := s.active.value;
    TakeKeepsInv(s, {}, id);
    LandKeepsInv(Take(s, id), Holding(s, {}, id), id);
    var u := Take(s, id).(active := None, timeouts := s.timeouts - {id}, log := Take(s, id).log + [Ended(id)]);
    CompleteKeepsInv(s, {}, id, TimedOut, takes);
    SendNextShortens(u, Holding(s, {}, id), takes);
  }

  lemma SendNextShortens(s: State, held: set<nat>, takes: nat -> bool)
    requires Inv(s, held) && s.active.None? && !s.closed
    requires forall id | id in s.queued :: id !in held
    ensures SendNext(s, takes).active.None? || |SendNext(s, takes).queued| < |s.queued|
  {
    hide Once, Told, InOrder;
    if s.queued != [] {
      LaunchKeepsInv(s, held);
      if !takes(s.queued[0]) { CompleteKeepsInv(Launch(s), held, s.queued[0], Unavailable, takes); }
    }
  }

  /** No control can starve: on an open bridge the timeouts alone, as many as there are controls in
      line, resume everyone. */
  lemma TimeoutsServeEveryone(s: State, takes: nat -> bool, n: nat)
    requires Settled(s) && !s.closed && |s.queued| < n
    ensures var t := LetTimeOut(s, takes, n);
            Settled(t) && t.active.None? && t.queued == [] && t.controls == {}
    decreases n
  {
    hide Once, Told, InOrder, Step;
    if s.active.Some? {
      var t := Step(s, TimeoutFired(s.active.value), takes);
      StepKeepsSettled(s, TimeoutFired(s.active.value), takes);
      TimeoutShortensQueue(s, takes);
      if t.active.Some? { TimeoutsServeEveryone(t, takes, n - 1); }
    }
  }
}

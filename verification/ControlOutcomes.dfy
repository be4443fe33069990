/** With which outcome the controls of ios/App/CoreBridge.swift are resumed. */
module ControlOutcomes {
  import opened Options
  import opened ControlQueue
  import opened ControlSafety

  // What happened between two moments: every control resumed was waiting, the one named `id` got `outcome`,
  // and every other one was refused by Core when its turn came.
  ghost predicate ResumesOnly(s: State, t: State, id: Option<nat>, outcome: Outcome, takes: nat -> bool) {
    && s.log <= t.log
    && forall j | |s.log| <= j < |t.log| && t.log[j].Resumed? ::
         && t.log[j].id in s.controls
         && (if Some(t.log[j].id) == id then t.log[j].outcome == outcome
             else t.log[j].outcome == Unavailable && !takes(t.log[j].id))
  }

  lemma CompleteResumes(s: State, id: nat, outcome: Outcome, takes: nat -> bool)
    ensures ResumesOnly(s, Complete(s, id, outcome, takes), Some(id), outcome, takes)
    decreases |s.queued|, 1
  {
    if s.active == Some(id) {
      var t := s.(timeouts := s.timeouts - {id}, controls := s.controls - {id},
                  mutationRequests := s.mutationRequests - {id}, active := None,
                  log := (if id in s.mutationRequests then s.log + [Notified(id)] else s.log) + [Ended(id)]);
      SendNextResumes(t, takes);
    }
  }

  lemma SendNextResumes(s: State, takes: nat -> bool)
    ensures ResumesOnly(s, SendNext(s, takes), None, Unavailable, takes)
    decreases |s.queued|, 0
  {
    if !s.closed && s.active.None? && s.queued != [] && !takes(s.queued[0]) {
      CompleteResumes(Launch(s), s.queued[0], Unavailable, takes);
    }
  }

  // The outcome that the event itself decides for a waiting control, if it does.
  function Decides(e: Event, id: nat): Option<Outcome> {
    match e
    case Received(answered, ok) => if answered == id then Some(Answered(ok)) else None
    case TimeoutFired(late) => if late == id then Some(TimedOut) else None
    case Closed(_) => Some(Cancelled)
    case Asked(_) => None
  }

  lemma ClosedResumes(s: State, id: nat, takes: nat -> bool)
    requires s.closed
    ensures var t := Complete(s, id, Cancelled, takes);
            && s.log <= t.log
            && forall j | |s.log| <= j < |t.log| && t.log[j].Resumed? :: t.log[j] == Resumed(id, Cancelled) && id in s.controls
  {}

  lemma {:induction false} CloseResumes(s: State, ids: seq<nat>, takes: nat -> bool)
    requires s.closed
    ensures var t := CompleteAll(s, ids, takes);
            && s.log <= t.log
            && forall j | |s.log| <= j < |t.log| && t.log[j].Resumed? ::
                 t.log[j].id in s.controls && t.log[j].outcome == Cancelled
    decreases |ids|
  {
    hide Complete;
    if ids != [] {
      var t := Complete(s, ids[0], Cancelled, takes);
      ClosedResumes(s, ids[0], takes);
      CloseResumes(t, ids[1..], takes);
      var u := CompleteAll(s, ids, takes);
      forall j | |s.log| <= j < |u.log| && u.log[j].Resumed? ensures u.log[j].id in s.controls && u.log[j].outcome == Cancelled {
        if j < |t.log| { assert t.log[j] == u.log[j]; }
      }
    }
  }

  /** Whoever an event resumes was waiting, or has just been accepted, and gets the outcome the event decides
      for it: the answer that was received, a timeout that fired for it, a close. Anyone else it resumes was
      refused by Core when its turn came. */
  lemma StepResumes(s: State, e: Event, takes: nat -> bool)
    ensures var t := Step(s, e, takes);
            && s.log <= t.log
            && forall j | |s.log| <= j < |t.log| && t.log[j].Resumed? ::
                 && (t.log[j].id in s.controls || (e.Asked? && t.log[j].id == |s.mutates|))
                 && (if Decides(e, t.log[j].id).Some? then t.log[j].outcome == Decides(e, t.log[j].id).value
                     else t.log[j].outcome == Unavailable && !takes(t.log[j].id))
  {
    hide Complete, SendNext;
    match e
    case Asked(mutation) => SendNextResumes(Accept(s, mutation), takes);
    case Received(id, ok) => CompleteResumes(s, id, Answered(ok), takes);
    case TimeoutFired(id) => CompleteResumes(s, id, TimedOut, takes);
    case Closed(order) => CloseResumes(s.(closed := true, queued := []), order, takes);
  }

  /** A control is accepted exactly while the bridge is open and fewer than 32 wait, and is announced as a
      mutation later exactly if it was asked for as one. */
  lemma AcceptedIff(s: State, mutation: bool, takes: nat -> bool)
    requires Settled(s)
    ensures Step(s, Asked(mutation), takes).mutates
            == if s.closed || |s.controls| >= 32 then s.mutates else s.mutates + [mutation]
  {
    hide Once, Told, InOrder, Alone, SendNext;
    if !s.closed && |s.controls| < 32 {
      AcceptKeepsInv(s, mutation);
      SendNextKeepsInv(Accept(s, mutation), {}, takes);
    }
  }

  // Some event of the run decided the outcome, or Core refused the control.
  ghost predicate Justified(es: seq<Event>, id: nat, outcome: Outcome, takes: nat -> bool) {
    (exists e :: e in es && Decides(e, id) == Some(outcome)) || (outcome == Unavailable && !takes(id))
  }

  lemma {:induction false} RunResumes(s: State, es: seq<Event>, takes: nat -> bool)
    ensures s.log <= Run(s, es, takes).log
    ensures forall j | |s.log| <= j < |Run(s, es, takes).log| && Run(s, es, takes).log[j].Resumed? ::
              Justified(es, Run(s, es, takes).log[j].id, Run(s, es, takes).log[j].outcome, takes)
    decreases |es|
  {
    hide Step;
    if es != [] {
      var t, u := Step(s, es[0], takes), Run(s, es, takes);
      StepResumes(s, es[0], takes);
      RunResumes(t, es[1..], takes);
      forall j | |s.log| <= j < |u.log| && u.log[j].Resumed? ensures Justified(es, u.log[j].id, u.log[j].outcome, takes) {
        if j < |t.log| { assert t.log[j] == u.log[j] && es[0] in es; }
        else { assert forall e | e in es[1..] :: e in es; }
      }
    }
  }

  /** On every run a control is resumed as answered only with an answer that was received for it, as timed
      out only when its own timeout fired, as cancelled only by a close, and as unavailable only when Core
      refused it. */
  lemma OutcomesAreHonest(es: seq<Event>, takes: nat -> bool, id: nat, outcome: Outcome)
    requires Resumed(id, outcome) in Run(Fresh, es, takes).log
    ensures match outcome
            case Answered(ok) => Received(id, ok) in es
            case TimedOut => TimeoutFired(id) in es
            case Cancelled => exists e :: e in es && e.Closed?
            case Unavailable => !takes(id)
  {
    RunResumes(Fresh, es, takes);
    assert Justified(es, id, outcome, takes);
  }

  // ---- the first event that can decide does ----

  lemma {:induction false} CountedBetween(a: seq<Entry>, b: seq<Entry>, id: nat)
    requires a <= b
    ensures Resumes(a, id) <= Resumes(b, id)
    ensures Resumes(a, id) < Resumes(b, id) <==> exists j :: |a| <= j < |b| && b[j].Resumed? && b[j].id == id
    decreases |b|
  {
    if a == b {
    } else {
      var front, last := b[..|b| - 1], b[|b| - 1];
      CountedBetween(a, front, id);
      if last.Resumed? && last.id == id {
        assert b[|b| - 1] == last;
      } else if exists j :: |a| <= j < |b| && b[j].Resumed? && b[j].id == id {
        var j :| |a| <= j < |b| && b[j].Resumed? && b[j].id == id;
        assert front[j] == b[j];
      }
    }
  }

  // After the control was resumed once it is not resumed again.
  lemma OnceForAll(s: State, t: State, id: nat)
    requires Settled(t) && s.log <= t.log && Resumes(s.log, id) > 0
    ensures Resumes(t.log, id) == 1 && forall j | |s.log| <= j < |t.log| && t.log[j].Resumed? :: t.log[j].id != id
  {
    CountedBetween(s.log, t.log, id);
    hide Told, InOrder, Alone;
  }

  lemma DecidedLeaves(s: State, e: Event, takes: nat -> bool, id: nat)
    requires Settled(s) && Possible(s, e) && id in s.controls && Decides(e, id).Some?
    ensures id !in Step(s, e, takes).controls && Step(s, e, takes).mutates == s.mutates
  {
    hide Once, Told, InOrder, Alone, Complete;
    match e
    case Received(_, ok) => CompleteKeepsInv(s, {}, id, Answered(ok), takes);
    case TimeoutFired(_) => CompleteKeepsInv(s, {}, id, TimedOut, takes);
    case Closed(order) =>
      CloseKeepsInv(s);
      CompleteAllKeepsInv(s.(closed := true, queued := []), order, takes);
  }

  // Resumed once, and so.
  ghost predicate ResumedAs(log: seq<Entry>, id: nat, outcome: Outcome) {
    Resumes(log, id) == 1 && forall o :: Resumed(id, o) in log <==> o == outcome
  }

  lemma NewlyResumedAs(a: seq<Entry>, b: seq<Entry>, id: nat, outcome: Outcome)
    requires a <= b && Resumes(a, id) == 0 && Resumes(b, id) == 1
    requires forall j | |a| <= j < |b| && b[j].Resumed? && b[j].id == id :: b[j].outcome == outcome
    ensures ResumedAs(b, id, outcome)
  {
    CountedBetween(a, b, id);
    CountedBetween([], a, id);
    hide Resumes;
    var j :| |a| <= j < |b| && b[j].Resumed? && b[j].id == id;
    assert b[j] == Resumed(id, outcome);
    forall o | Resumed(id, o) in b ensures o == outcome {
      var k :| 0 <= k < |b| && b[k] == Resumed(id, o);
      assert k >= |a|;
    }
  }

  lemma WaitingIsCounted(s: State, t: State, id: nat)
    requires Settled(s) && Settled(t) && |s.mutates| <= |t.mutates| && id in s.controls && id !in t.controls
    ensures Resumes(s.log, id) == 0 && Resumes(t.log, id) == 1
  {
    hide Told, InOrder, Alone, Resumes;
  }

  lemma StepDecides(s: State, e: Event, takes: nat -> bool, id: nat)
    requires Settled(s) && Possible(s, e) && id in s.controls && Decides(e, id).Some?
    ensures ResumedAs(Step(s, e, takes).log, id, Decides(e, id).value)
  {
    var t := Step(s, e, takes);
    StepKeepsSettled(s, e, takes);
    DecidedLeaves(s, e, takes, id);
    StepResumes(s, e, takes);
    hide Step, Decides, Settled, Resumes, ResumedAs;
    WaitingIsCounted(s, t, id);
    NewlyResumedAs(s.log, t.log, id, Decides(e, id).value);
  }

  lemma StaysResumed(t: State, u: State, id: nat, outcome: Outcome)
    requires Settled(u) && t.log <= u.log && ResumedAs(t.log, id, outcome)
    ensures ResumedAs(u.log, id, outcome)
  {
    OnceForAll(t, u, id);
    hide Settled, Resumes;
    assert Resumed(id, outcome) in u.log;
    forall o | Resumed(id, o) in u.log ensures o == outcome {
      var k :| 0 <= k < |u.log| && u.log[k] == Resumed(id, o);
      assert k < |t.log| && t.log[k] == u.log[k];
    }
  }

  /** The first answer, timeout or close that finds a control waiting decides: on every run before it and
      after it the control is resumed once, with that outcome, whatever comes later. */
  lemma FirstDecides(before: seq<Event>, e: Event, after: seq<Event>, takes: nat -> bool, id: nat)
    requires Admissible(Fresh, before, takes) && Possible(Run(Fresh, before, takes), e)
    requires Admissible(Step(Run(Fresh, before, takes), e, takes), after, takes)
    requires id in Run(Fresh, before, takes).controls && Decides(e, id).Some?
    ensures var log := Run(Step(Run(Fresh, before, takes), e, takes), after, takes).log;
            Resumes(log, id) == 1 && forall o :: Resumed(id, o) in log <==> o == Decides(e, id).value
  {
    var s := Run(Fresh, before, takes);
    var t := Step(s, e, takes);
    RunKeepsSettled(Fresh, before, takes);
    StepKeepsSettled(s, e, takes);
    RunKeepsSettled(t, after, takes);
    StepDecides(s, e, takes, id);
    RunResumes(t, after, takes);
    hide Settled, Step, Decides;
    StaysResumed(t, Run(t, after, takes), id, Decides(e, id).value);
  }
}

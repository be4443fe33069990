/** The class of ios/App/CoreBridge.swift, as far as the control queue goes. */
module CoreBridgeClass {
  import opened Options
  import opened Q = ControlQueue
  import opened ControlSafety
  import opened ControlOutcomes

  class CoreBridge {
    var controls: set<nat>
    var controlTimeouts: set<nat>
    var queuedControls: seq<nat>
    var activeControlID: Option<nat>
    var closed: bool
    var mutationRequests: set<nat>
    // Which accepted controls are mutations, and everything the queue did.
    var mutates: seq<bool>
    var log: seq<Entry>
    // Whether Core takes the command of a control.
    const takes: nat -> bool

    ghost function View(): State
      reads this
    {
      State(controls, controlTimeouts, queuedControls, activeControlID, closed, mutationRequests, mutates, log)
    }

    ghost predicate Valid()
      reads this
    {
      Settled(View())
    }

    constructor (takes: nat -> bool)
      ensures Valid() && View() == Fresh && this.takes == takes
    {
      controls, controlTimeouts, queuedControls, activeControlID := {}, {}, [], None;
      closed, mutationRequests, mutates, log := false, {}, [], [];
      this.takes := takes;
    }

    method Receive(id: nat, ok: bool)
      requires Valid()
      modifies this
      ensures Valid() && View() == Q.Step(old(View()), Received(id, ok), takes)
      ensures id !in controls
      ensures id in old(controls) ==> ResumedAs(log, id, Answered(ok))
    {
      StepKeepsSettled(View(), Received(id, ok), takes);
      if id in controls { StepDecides(View(), Received(id, ok), takes, id); }
      hide Settled, ResumedAs, Q.Complete;
      CompleteControl(id, Answered(ok));
    }

    method FireTimeout(id: nat)
      requires Valid()
      modifies this
      ensures Valid() && View() == Q.Step(old(View()), TimeoutFired(id), takes)
      ensures id !in controls
      ensures id in old(controls) ==> ResumedAs(log, id, TimedOut)
    {
      StepKeepsSettled(View(), TimeoutFired(id), takes);
      if id in controls { StepDecides(View(), TimeoutFired(id), takes, id); }
      hide Settled, ResumedAs, Q.Complete;
      CompleteControl(id, TimedOut);
    }

    method CompleteControl(id: nat, outcome: Outcome)
      modifies this
      ensures View() == Q.Complete(old(View()), id, outcome, takes)
      decreases |queuedControls|, 1
    {
      controlTimeouts := controlTimeouts - {id};
      var waiting := id in controls;
      controls := controls - {id};
      if id in mutationRequests {
        mutationRequests := mutationRequests - {id};
        log := log + [Notified(id)];
      } else {
        assert mutationRequests - {id} == mutationRequests;
      }
      if activeControlID == Some(id) {
        activeControlID := None;
        log := log + [Ended(id)];
        SendNextControl();
      }
      if waiting { log := log + [Resumed(id, outcome)]; }
    }

    method SendNextControl()
      modifies this
      ensures View() == Q.SendNext(old(View()), takes)
      decreases |queuedControls|, 0
    {
      if closed || activeControlID.Some? || queuedControls == [] { return; }
      var next := queuedControls[0];
      queuedControls := queuedControls[1..];
      activeControlID := Some(next);
      controlTimeouts := controlTimeouts + {next};
      log := log + [Sent(next)];
      if !takes(next) { CompleteControl(next, Unavailable); }
    }

    // Accepts the control under the next number, or refuses it without a trace.
    method Control(mutation: bool) returns (id: Option<nat>)
      requires Valid()
      modifies this
      ensures Valid() && View() == Q.Step(old(View()), Asked(mutation), takes)
      ensures id == if old(closed) || |old(controls)| >= 32 then None else Some(|old(mutates)|)
      ensures mutates == if id.None? then old(mutates) else old(mutates) + [mutation]
    {
      hide Settled, Q.Complete, Q.SendNext;
      StepKeepsSettled(View(), Asked(mutation), takes);
      AcceptedIff(View(), mutation, takes);
      if closed || |controls| >= CAPACITY { return None; }
      var next := |mutates|;
      controls := controls + {next};
      mutates := mutates + [mutation];
      if mutation { mutationRequests := mutationRequests + {next}; }
      queuedControls := queuedControls + [next];
      SendNextControl();
      id := Some(next);
    }

    method Close() returns (ghost order: seq<nat>)
      requires Valid()
      modifies this
      ensures Valid() && Possible(old(View()), Closed(order)) && View() == Q.Step(old(View()), Closed(order), takes)
      ensures closed && controls == {}
      ensures forall id | id in old(controls) :: ResumedAs(log, id, Cancelled)
    {
      hide Inv, Q.Complete, Q.SendNext;
      ghost var before := View();
      closed := true;
      queuedControls := [];
      ghost var shut := View();
      order := [];
      var rest := controls;
      while rest != {}
        invariant forall id :: id in order <==> id in before.controls - rest
        invariant forall i, j | 0 <= i < j < |order| :: order[i] != order[j]
        invariant rest <= before.controls
        invariant View() == CompleteAll(shut, order, takes)
        decreases rest
      {
        var id :| id in rest;
        assert id !in order;
        CompleteControl(id, Cancelled);
        CompleteAllSnoc(shut, order, id, takes);
        order := order + [id];
        rest := rest - {id};
      }
      StepKeepsSettled(before, Closed(order), takes);
      ClosedStaysClosed(shut, order, takes);
      forall id | id in before.controls ensures ResumedAs(log, id, Cancelled) {
        StepDecides(before, Closed(order), takes, id);
      }
    }
  }

  lemma ClosedStaysClosed(s: State, ids: seq<nat>, takes: nat -> bool)
    requires s.closed
    ensures CompleteAll(s, ids, takes).closed
    decreases |ids|
  {
    if ids != [] { ClosedStaysClosed(Complete(s, ids[0], Cancelled, takes), ids[1..], takes); }
  }

  lemma CompleteAllSnoc(s: State, ids: seq<nat>, id: nat, takes: nat -> bool)
    ensures CompleteAll(s, ids + [id], takes) == Complete(CompleteAll(s, ids, takes), id, Cancelled, takes)
    decreases |ids|
  {
    hide Complete;
    if ids == [] {
      assert ids + [id] == [id];
    } else {
      CompleteAllSnoc(Complete(s, ids[0], Cancelled, takes), ids[1..], id, takes);
      assert (ids + [id])[1..] == ids[1..] + [id];
    }
  }
}

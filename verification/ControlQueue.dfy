/** The control queue of ios/App/CoreBridge.swift: a first-in first-out, single-flight multiplexer of
    requests to Core. Controls are numbered in the order in which they were accepted. */
module ControlQueue {
  import opened Options

  datatype Outcome = Answered(ok: bool) | Unavailable | TimedOut | Cancelled

  // What the queue did, in order. `Ended` marks the moment the active control gives up its place.
  datatype Entry =
    | Sent(id: nat)
    | Ended(id: nat)
    | Notified(id: nat)
    | Resumed(id: nat, outcome: Outcome)

  // The fields of the class. `mutates` records, for each accepted control, whether it is a mutation.
  datatype State = State(
    controls: set<nat>,
    timeouts: set<nat>,
    queued: seq<nat>,
    active: Option<nat>,
    closed: bool,
    mutationRequests: set<nat>,
    mutates: seq<bool>,
    log: seq<Entry>)

  const CAPACITY := 32

  const Fresh := State({}, {}, [], None, false, {}, [], [])

  // `takes` tells for each control whether Core takes the command when it is sent.
  function Complete(s: State, id: nat, outcome: Outcome, takes: nat -> bool): (r: State)
    ensures r.closed == s.closed && r.controls <= s.controls - {id}
    decreases |s.queued|, 1
  {
    var waiting := id in s.controls;
    var t := s.(timeouts := s.timeouts - {id}, controls := s.controls - {id},
                mutationRequests := s.mutationRequests - {id},
                log := if id in s.mutationRequests then s.log + [Notified(id)] else s.log);
    var u := if t.active == Some(id) then SendNext(t.(active := None, log := t.log + [Ended(id)]), takes) else t;
    if waiting then u.(log := u.log + [Resumed(id, outcome)]) else u
  }

  function SendNext(s: State, takes: nat -> bool): (r: State)
    ensures r.closed == s.closed && r.controls <= s.controls
    decreases |s.queued|, 0
  {
    if s.closed || s.active.Some? || s.queued == [] then s
    else
      var next := s.queued[0];
      var t := s.(queued := s.queued[1..], active := Some(next), timeouts := s.timeouts + {next},
                  log := s.log + [Sent(next)]);
      if takes(next) then t else Complete(t, next, Unavailable, takes)
  }

  function Control(s: State, mutation: bool, takes: nat -> bool): State {
    if s.closed || |s.controls| >= CAPACITY then s
    else
      var id := |s.mutates|;
      SendNext(s.(controls := s.controls + {id}, mutates := s.mutates + [mutation], queued := s.queued + [id],
                  mutationRequests := if mutation then s.mutationRequests + {id} else s.mutationRequests), takes)
  }

  function CompleteAll(s: State, ids: seq<nat>, takes: nat -> bool): State
    decreases |ids|
  {
    if ids == [] then s else CompleteAll(Complete(s, ids[0], Cancelled, takes), ids[1..], takes)
  }

  // Closing completes the waiting controls in the dictionary's own, arbitrary order.
  function Close(s: State, order: seq<nat>, takes: nat -> bool): State {
    CompleteAll(s.(closed := true, queued := []), order, takes)
  }

  ghost predicate Enumerates(order: seq<nat>, ids: set<nat>) {
    (forall id :: id in order <==> id in ids) && forall i, j | 0 <= i < j < |order| :: order[i] != order[j]
  }

  // Answers and timeouts may come late, twice, or for controls nobody is waiting for.
  datatype Event =
    | Asked(mutation: bool)
    | Received(id: nat, ok: bool)
    | TimeoutFired(id: nat)
    | Closed(order: seq<nat>)

  ghost predicate Possible(s: State, e: Event) {
    e.Closed? ==> Enumerates(e.order, s.controls)
  }

  function Step(s: State, e: Event, takes: nat -> bool): State {
    match e
    case Asked(mutation) => Control(s, mutation, takes)
    case Received(id, ok) => Complete(s, id, Answered(ok), takes)
    case TimeoutFired(id) => Complete(s, id, TimedOut, takes)
    case Closed(order) => Close(s, order, takes)
  }
}

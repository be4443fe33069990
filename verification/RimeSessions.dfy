/** Input sessions of app/mobile-ime/rime_engine.cpp over an engine that may answer anything. A revision is
    an `unsigned long`: it counts modulo `m`, which is 2^32 or 2^64 depending on the platform. */
module RimeSessions {
  import opened Bytes
  import opened Options

  datatype Session = Session(pending: bytes, revision: nat, learning: bool)

  // What the process does not keep: the text removed by `ack` or `clear`, everything that was ever added to
  // `pending` in order, how many state-changing requests were accepted, the commit of the last good report,
  // and whether the last report failed for want of a context.
  datatype Book = Book(removed: bytes, gained: bytes, changes: nat, reported: bytes, dark: bool)

  datatype State = State(sessions: map<nat, Session>, books: map<nat, Book>)

  // The parsed form of "number@revision"; None when the argument has another form.
  datatype Choice = Choice(number: nat, revision: nat)

  datatype Action =
    | ReadState
    | Candidates
    | CandidatesFrom(range: Option<Choice>)
    | Ack
    | Clear
    | Key(valid: bool)
    | External(expected: Option<nat>, text: bytes)
    | Confirm
    | Select(choice: Option<Choice>)
    | Unknown

  datatype Request =
    | Create(learning: bool)
    | Destroy(id: nat)
    | On(id: nat, action: Action)
    | Redeploy
    | ExportDictionary(path: bool)
    | ImportDictionary(path: bool)

  // What librime answers while one request is served.
  datatype Engine = Engine(created: nat, schema: bool, finds: bool, selects: bool, works: bool,
                           commit: Option<bytes>, context: bool)

  datatype Response = Report(session: nat, revision: nat, commit: bytes, learning: bool) | Done | Failed

  const Empty := State(map[], map[])

  const INT_MAX := 0x7FFF_FFFF

  predicate ChangesState(a: Action) {
    !a.ReadState? && !a.Candidates? && !a.CandidatesFrom?
  }

  // Usable text: not empty, at most 512 bytes, no carriage return, line feed or tab.
  predicate Usable(text: bytes) {
    0 < |text| <= 512 && 13 !in text && 10 !in text && 9 !in text
  }

  predicate Refused(s: Session, a: Action, e: Engine) {
    match a
    case CandidatesFrom(range) => range.None? || range.value.revision != s.revision || range.value.number > INT_MAX
    case Key(valid) => s.pending != [] || !valid
    case External(expected, text) => s.pending != [] || expected != Some(s.revision) || !Usable(text)
    case Confirm => s.pending != []
    case Select(choice) => s.pending != [] || choice.None? || choice.value.revision != s.revision || !e.selects
    case Unknown => true
    case _ => false
  }

  // Drains the engine's commit into `pending`, then reports if there is a context.
  function Snapshot(s: State, id: nat, e: Engine): (r: (State, Response))
    requires id in s.sessions && id in s.books
    ensures id in r.0.books && r.0.books == s.books[id := r.0.books[id]]
    ensures r.0.books[id].gained == s.books[id].gained + (if e.commit.Some? then e.commit.value else [])
    ensures r.0.books[id].changes == s.books[id].changes
    ensures r.1.Report? ==> id in r.0.sessions && r.1 == Report(id, r.0.sessions[id].revision, r.0.sessions[id].pending,
                                                               r.0.sessions[id].learning)
  {
    var x := s.sessions[id];
    var b := s.books[id];
    var drained := if e.commit.Some? then e.commit.value else [];
    var y := x.(pending := x.pending + drained);
    var c := b.(gained := b.gained + drained);
    if e.context
    then (State(s.sessions[id := y], s.books[id := c.(reported := y.pending, dark := false)]),
          Report(id, y.revision, y.pending, y.learning))
    else (State(s.sessions[id := y], s.books[id := c.(dark := true)]), Failed)
  }

  function Emptied(x: Session, a: Action): Session {
    match a
    case Ack => x.(pending := [])
    case Clear => x.(pending := [])
    case External(_, text) => x.(pending := text)
    case _ => x
  }

  function Noted(b: Book, x: Session, a: Action): Book {
    match a
    case Ack => b.(removed := b.removed + x.pending)
    case Clear => b.(removed := b.removed + x.pending)
    case External(_, text) => b.(gained := b.gained + text)
    case _ => b
  }

  // What an accepted action does before the snapshot.
  function Acted(s: State, id: nat, a: Action, m: nat): State
    requires m > 0 && id in s.sessions && id in s.books
  {
    var x := Emptied(s.sessions[id], a);
    var b := Noted(s.books[id], s.sessions[id], a);
    if ChangesState(a)
    then State(s.sessions[id := x.(revision := (x.revision + 1) % m)], s.books[id := b.(changes := b.changes + 1)])
    else State(s.sessions[id := x], s.books[id := b])
  }

  // `emplace` leaves an entry that is already there as it is.
  function Emplaced(s: State, id: nat, learning: bool): State {
    if id in s.sessions && id in s.books then s
    else State(s.sessions[id := Session([], 0, learning)], s.books[id := Book([], [], 0, [], false)])
  }

  function Serve(s: State, r: Request, e: Engine, m: nat): (State, Response)
    requires m > 0 && s.sessions.Keys == s.books.Keys
  {
    match r
    case Create(learning) =>
      if e.created == 0 || !e.schema then (s, Failed) else Snapshot(Emplaced(s, e.created, learning), e.created, e)
    case Destroy(id) =>
      if id !in s.sessions || !e.finds then (s, Failed) else (State(s.sessions - {id}, s.books - {id}), Done)
    case On(id, action) =>
      if id !in s.sessions || !e.finds || Refused(s.sessions[id], action, e) then (s, Failed)
      else Snapshot(Acted(s, id, action, m), id, e)
    case Redeploy => (Empty, if e.works then Done else Failed)
    case ExportDictionary(path) => if !path then (s, Failed) else (Empty, if e.works then Done else Failed)
    case ImportDictionary(path) => if !path then (s, Failed) else (Empty, if e.works then Done else Failed)
  }

  // ---- what every run keeps ----

  ghost predicate BookInv(x: Session, b: Book, m: nat)
    requires m > 0
  {
    && b.removed + x.pending == b.gained
    && x.revision == b.changes % m
    && (b.dark || b.reported == x.pending)
  }

  ghost predicate Inv(s: State, m: nat)
    requires m > 0
  {
    s.sessions.Keys == s.books.Keys && forall id | id in s.sessions :: BookInv(s.sessions[id], s.books[id], m)
  }

  // Between the two halves of a request the report is out of date.
  ghost predicate HalfInv(x: Session, b: Book, m: nat)
    requires m > 0
  {
    b.removed + x.pending == b.gained && x.revision == b.changes % m
  }

  lemma ModuloStep(n: nat, m: nat)
    requires m > 0
    ensures (n % m + 1) % m == (n + 1) % m
  {
    var q := n / m;
    assert n == m * q + n % m;
    if n % m + 1 == m {
      assert n + 1 == m * (q + 1);
      MultiplesVanish(q + 1, m);
      MultiplesVanish(1, m);
    } else {
      Remainder(n + 1, q, n % m + 1, m);
      Remainder(n % m + 1, 0, n % m + 1, m);
    }
  }

  lemma Remainder(n: int, q: int, r: nat, m: nat)
    requires m > 0 && n == m * q + r && r < m
    ensures n % m == r
  {
    assert n == m * (n / m) + n % m;
    assert m * (n / m - q) == r - n % m;
    MultiplesAreFar(n / m - q, m);
  }

  lemma MultiplesAreFar(d: int, m: int)
    requires m > 0
    ensures d != 0 ==> m * d >= m || m * d + m <= 0
  {
    if d > 0 {
      Product(m, d - 1);
    } else if d < 0 {
      Product(m, -d - 1);
    }
  }

  lemma Product(a: nat, b: nat)
    ensures a * b >= 0 && a * (b + 1) == a * b + a
  {}

  lemma MultiplesVanish(q: int, m: nat)
    requires m > 0
    ensures (m * q) % m == 0
  {
    Remainder(m * q, q, 0, m);
  }

  lemma ActedKeepsHalf(x: Session, b: Book, a: Action, e: Engine, m: nat)
    requires m > 0 && HalfInv(x, b, m) && !Refused(x, a, e)
    ensures var y := Emptied(x, a);
            var c := Noted(b, x, a);
            if ChangesState(a) then HalfInv(y.(revision := (y.revision + 1) % m), c.(changes := c.changes + 1), m)
            else HalfInv(y, c, m)
  {
    ModuloStep(b.changes, m);
    assert b.removed + x.pending + [] == b.removed + x.pending;
    if a.External? { assert b.removed + [] == b.removed; }
  }

  lemma DrainKeepsHalf(x: Session, b: Book, drained: bytes, m: nat)
    requires m > 0 && HalfInv(x, b, m)
    ensures HalfInv(x.(pending := x.pending + drained), b.(gained := b.gained + drained), m)
  {
    assert b.removed + (x.pending + drained) == (b.removed + x.pending) + drained;
  }

  lemma SnapshotKeepsInv(s: State, id: nat, e: Engine, m: nat)
    requires m > 0 && s.sessions.Keys == s.books.Keys && id in s.sessions && HalfInv(s.sessions[id], s.books[id], m)
    requires forall other | other in s.sessions && other != id :: BookInv(s.sessions[other], s.books[other], m)
    ensures Inv(Snapshot(s, id, e).0, m)
  {
    DrainKeepsHalf(s.sessions[id], s.books[id], if e.commit.Some? then e.commit.value else [], m);
  }

  lemma ServeKeepsInv(s: State, r: Request, e: Engine, m: nat)
    requires m > 0 && Inv(s, m)
    ensures Inv(Serve(s, r, e, m).0, m)
  {
    hide Snapshot, Acted, Refused;
    match r
    case Create(learning) =>
      if e.created != 0 && e.schema { SnapshotKeepsInv(Emplaced(s, e.created, learning), e.created, e, m); }
    case On(id, action) =>
      if id in s.sessions && e.finds && !Refused(s.sessions[id], action, e) { ActionKeepsInv(s, id, action, e, m); }
    case _ =>
  }

  lemma ActionKeepsInv(s: State, id: nat, a: Action, e: Engine, m: nat)
    requires m > 0 && Inv(s, m) && id in s.sessions && !Refused(s.sessions[id], a, e)
    ensures Inv(Snapshot(Acted(s, id, a, m), id, e).0, m)
  {
    ActedKeepsHalf(s.sessions[id], s.books[id], a, e, m);
    hide Snapshot, Emptied, Noted, Refused, ChangesState;
    SnapshotKeepsInv(Acted(s, id, a, m), id, e, m);
  }

  datatype Moment = Moment(request: Request, engine: Engine)

  ghost function Run(s: State, es: seq<Moment>, m: nat): (t: State)
    requires m > 0 && Inv(s, m)
    ensures Inv(t, m)
    decreases |es|
  {
    if es == [] then s
    else
      ServeKeepsInv(s, es[0].request, es[0].engine, m);
      Run(Serve(s, es[0].request, es[0].engine, m).0, es[1..], m)
  }

  /** No text is lost, doubled or reordered while a session lives: what `ack` and `clear` removed, followed
      by what is pending, is everything the engine committed and every accepted external text, in order;
      and as long as no report has failed, the client has been shown exactly what is pending. */
  lemma TextIsConserved(es: seq<Moment>, m: nat, id: nat)
    requires m > 0 && id in Run(Empty, es, m).sessions
    ensures var t := Run(Empty, es, m);
            && id in t.books
            && t.books[id].removed + t.sessions[id].pending == t.books[id].gained
            && (!t.books[id].dark ==> t.books[id].reported == t.sessions[id].pending)
  {}

  // What the request adds to the text of session `id`: its external text, then the engine's commit.
  function Contribution(s: State, r: Request, e: Engine, id: nat): bytes {
    if r.On? && r.id == id && id in s.sessions && e.finds && !Refused(s.sessions[id], r.action, e) then
      (if r.action.External? then r.action.text else []) + (if e.commit.Some? then e.commit.value else [])
    else if r.Create? && e.created == id && id != 0 && e.schema then
      if e.commit.Some? then e.commit.value else []
    else []
  }

  ghost function Contributions(s: State, es: seq<Moment>, m: nat, id: nat): bytes
    requires m > 0 && Inv(s, m)
    decreases |es|
  {
    if es == [] then []
    else
      ServeKeepsInv(s, es[0].request, es[0].engine, m);
      Contribution(s, es[0].request, es[0].engine, id)
      + Contributions(Serve(s, es[0].request, es[0].engine, m).0, es[1..], m, id)
  }

  // The session is there after every request.
  ghost predicate Lives(s: State, es: seq<Moment>, m: nat, id: nat)
    requires m > 0 && Inv(s, m)
    decreases |es|
  {
    id in s.sessions
    && (es == []
        || (ServeKeepsInv(s, es[0].request, es[0].engine, m);
            Lives(Serve(s, es[0].request, es[0].engine, m).0, es[1..], m, id)))
  }

  lemma ServeContributes(s: State, r: Request, e: Engine, m: nat, id: nat)
    requires m > 0 && Inv(s, m) && id in s.sessions && id in Serve(s, r, e, m).0.sessions
    ensures id in Serve(s, r, e, m).0.books
    ensures Serve(s, r, e, m).0.books[id].gained == s.books[id].gained + Contribution(s, r, e, id)
  {
    hide Snapshot;
    var gained := s.books[id].gained;
    assert gained + [] == gained;
    if r.On? && r.id == id && r.action.External? {
      ChainAppends(gained, r.action.text, if e.commit.Some? then e.commit.value else []);
    }
  }

  lemma ChainAppends(a: bytes, b: bytes, c: bytes)
    ensures (a + b) + c == a + (b + c)
  {}

  /** The text of a living session grows by exactly the external texts and commits of the requests served
      for it, in the order they were served. */
  lemma {:induction false} TextIsTheRequests(s: State, es: seq<Moment>, m: nat, id: nat)
    requires m > 0 && Inv(s, m) && Lives(s, es, m, id)
    ensures id in Run(s, es, m).books
    ensures Run(s, es, m).books[id].gained == s.books[id].gained + Contributions(s, es, m, id)
    decreases |es|
  {
    if es == [] {
      assert s.books[id].gained + [] == s.books[id].gained;
    } else {
      ServeKeepsInv(s, es[0].request, es[0].engine, m);
      hide Serve, Contribution;
      var t := Serve(s, es[0].request, es[0].engine, m).0;
      ServeContributes(s, es[0].request, es[0].engine, m, id);
      TextIsTheRequests(t, es[1..], m, id);
      ChainAppends(s.books[id].gained, Contribution(s, es[0].request, es[0].engine, id), Contributions(t, es[1..], m, id));
    }
  }

  // ---- revisions ----

  // How many state-changing requests were accepted for the session on the way.
  ghost function Accepted(s: State, es: seq<Moment>, m: nat, id: nat): nat
    requires m > 0 && Inv(s, m)
    decreases |es|
  {
    if es == [] then 0
    else
      ServeKeepsInv(s, es[0].request, es[0].engine, m);
      (if Accepts(s, es[0].request, es[0].engine, id) then 1 else 0)
      + Accepted(Serve(s, es[0].request, es[0].engine, m).0, es[1..], m, id)
  }

  predicate Accepts(s: State, r: Request, e: Engine, id: nat) {
    r.On? && r.id == id && id in s.sessions && e.finds && ChangesState(r.action) && !Refused(s.sessions[id], r.action, e)
  }

  lemma ServeCounts(s: State, r: Request, e: Engine, m: nat, id: nat)
    requires m > 0 && Inv(s, m) && id in s.sessions && id in Serve(s, r, e, m).0.sessions
    ensures id in Serve(s, r, e, m).0.books
    ensures Serve(s, r, e, m).0.books[id].changes == s.books[id].changes + if Accepts(s, r, e, id) then 1 else 0
  {
    ServeKeepsInv(s, r, e, m);
  }

  lemma {:induction false} ChangesAreCounted(s: State, es: seq<Moment>, m: nat, id: nat)
    requires m > 0 && Inv(s, m) && Lives(s, es, m, id)
    ensures id in Run(s, es, m).books && Run(s, es, m).books[id].changes == s.books[id].changes + Accepted(s, es, m, id)
    decreases |es|
  {
    if es != [] {
      ServeKeepsInv(s, es[0].request, es[0].engine, m);
      hide Serve, Accepts;
      ServeCounts(s, es[0].request, es[0].engine, m, id);
      ChangesAreCounted(Serve(s, es[0].request, es[0].engine, m).0, es[1..], m, id);
    }
  }

  lemma SameRemainder(a: nat, k: nat, m: nat)
    requires m > 0
    ensures (a + k) % m == a % m <==> k % m == 0
  {
    var q, p := a / m, (a + k) / m;
    assert a == m * q + a % m && a + k == m * p + (a + k) % m;
    if (a + k) % m == a % m {
      assert k == m * p - m * q == m * (p - q);
      MultiplesVanish(p - q, m);
    }
    if k % m == 0 {
      assert k == m * (k / m);
      assert a + k == m * (q + k / m) + a % m;
      Remainder(a + k, q + k / m, a % m, m);
    }
  }

  // A request that names the revision on which it relies.
  function Relied(a: Action): Option<nat> {
    match a
    case Select(choice) => if choice.Some? then Some(choice.value.revision) else None
    case External(expected, _) => expected
    case CandidatesFrom(range) => if range.Some? then Some(range.value.revision) else None
    case _ => None
  }

  // Everything but the revision is in order.
  predicate OtherwiseFine(x: Session, a: Action, e: Engine) {
    match a
    case Select(choice) => choice.Some? && x.pending == [] && e.selects
    case External(expected, text) => expected.Some? && x.pending == [] && Usable(text)
    case CandidatesFrom(range) => range.Some? && range.value.number <= INT_MAX
    case _ => false
  }

  /** A selection, an external text or a further page that relies on an earlier report of a living session
      is accepted exactly when nothing else is wrong with it and the number of state-changing requests
      accepted since that report is a multiple of the revision's range. */
  lemma RevisionGuardIff(s: State, es: seq<Moment>, a: Action, e: Engine, m: nat, id: nat)
    requires m > 0 && Inv(s, m) && Lives(s, es, m, id)
    requires a.Select? || a.External? || a.CandidatesFrom?
    requires Relied(a) == Some(s.sessions[id].revision)
    ensures var t := Run(s, es, m);
            id in t.sessions
            && (!Refused(t.sessions[id], a, e) <==> OtherwiseFine(t.sessions[id], a, e) && Accepted(s, es, m, id) % m == 0)
  {
    ChangesAreCounted(s, es, m, id);
    SameRemainder(s.books[id].changes, Accepted(s, es, m, id), m);
  }

  /** Short of a whole round of the counter, a request that relies on a report is accepted only if no
      state-changing request has been accepted since. */
  lemma StaleRequestsAreRefused(s: State, es: seq<Moment>, a: Action, e: Engine, m: nat, id: nat)
    requires m > 0 && Inv(s, m) && Lives(s, es, m, id)
    requires a.Select? || a.External? || a.CandidatesFrom?
    requires Relied(a) == Some(s.sessions[id].revision)
    requires 0 < Accepted(s, es, m, id) < m
    ensures id in Run(s, es, m).sessions && Refused(Run(s, es, m).sessions[id], a, e)
  {
    RevisionGuardIff(s, es, a, e, m, id);
    var k := Accepted(s, es, m, id);
    Remainder(k, 0, k, m);
  }

  // ---- one request ----

  // The request is served: text that waits for an acknowledgement bars everything that acts on the
  // composition, and what names a revision names the current one.
  predicate Served(x: Session, a: Action, e: Engine) {
    match a
    case ReadState => true
    case Candidates => true
    case CandidatesFrom(range) => range.Some? && range.value.revision == x.revision && range.value.number <= 0x7FFF_FFFF
    case Ack => true
    case Clear => true
    case Key(valid) => x.pending == [] && valid
    case External(expected, text) =>
      && x.pending == [] && expected == Some(x.revision) && 0 < |text| <= 512
      && forall i | 0 <= i < |text| :: text[i] != 13 && text[i] != 10 && text[i] != 9
    case Confirm => x.pending == []
    case Select(choice) => x.pending == [] && choice.Some? && choice.value.revision == x.revision && e.selects
    case Unknown => false
  }

  // The text that waits after a served request: what is left or was given, then the engine's commit.
  function WaitingAfter(x: Session, a: Action, e: Engine): bytes {
    (if a.Ack? || a.Clear? then [] else if a.External? then a.text else x.pending)
    + (if e.commit.Some? then e.commit.value else [])
  }

  /** What a request to a session does: when it is not served nothing changes; when it is, the waiting text and
      the revision are as stated, reads alone leaving the revision, and they are what is reported. No other
      session is touched. */
  lemma RequestServedIff(s: State, id: nat, a: Action, e: Engine, m: nat)
    requires m > 0 && Inv(s, m)
    ensures var (t, response) := Serve(s, On(id, a), e, m);
            if id in s.sessions && e.finds && Served(s.sessions[id], a, e) then
              var x := s.sessions[id];
              var looks := a.ReadState? || a.Candidates? || a.CandidatesFrom?;
              var y := Session(WaitingAfter(x, a, e), if looks then x.revision else (x.revision + 1) % m, x.learning);
              && t.sessions == s.sessions[id := y]
              && response == if e.context then Report(id, y.revision, y.pending, y.learning) else Failed
            else t == s && response == Failed
  {}

  /** Creating a session needs an id and a schema; an entry that is already there under the id goes on, text,
      revision and mode, and the engine's commit is added to it. Destroying forgets exactly the one session. */
  lemma CreateAndDestroyServed(s: State, id: nat, learning: bool, e: Engine, m: nat)
    requires m > 0 && Inv(s, m)
    ensures var (t, response) := Serve(s, Create(learning), e, m);
            if e.created != 0 && e.schema then
              var x := if e.created in s.sessions then s.sessions[e.created] else Session([], 0, learning);
              var y := x.(pending := WaitingAfter(x, ReadState, e));
              && t.sessions == s.sessions[e.created := y]
              && response == if e.context then Report(e.created, y.revision, y.pending, y.learning) else Failed
            else t == s && response == Failed
    ensures var (t, response) := Serve(s, Destroy(id), e, m);
            if id in s.sessions && e.finds then t.sessions == s.sessions - {id} && response == Done
            else t == s && response == Failed
  {}

  // The stretch has no acknowledgement and no clearing for the session.
  predicate NoneRemoved(es: seq<Moment>, id: nat) {
    forall i | 0 <= i < |es| :: es[i].request != On(id, Ack) && es[i].request != On(id, Clear)
  }

  lemma UnackedStays(s: State, r: Request, e: Engine, m: nat, id: nat)
    requires m > 0 && Inv(s, m) && id in s.sessions && id in Serve(s, r, e, m).0.sessions && s.sessions[id].pending != []
    requires r != On(id, Ack) && r != On(id, Clear)
    ensures !Accepts(s, r, e, id) && s.sessions[id].pending <= Serve(s, r, e, m).0.sessions[id].pending
    ensures Serve(s, r, e, m).0.sessions[id].revision == s.sessions[id].revision
  {}

  /** While text waits for its acknowledgement nothing acts on the session: over any stretch without `ack` and
      `clear` no request that changes its state is accepted, the revision stays and the text only grows. */
  lemma {:induction false} NothingActsBeforeAck(s: State, es: seq<Moment>, m: nat, id: nat)
    requires m > 0 && Inv(s, m) && Lives(s, es, m, id) && NoneRemoved(es, id) && s.sessions[id].pending != []
    ensures Accepted(s, es, m, id) == 0 && id in Run(s, es, m).sessions
    ensures s.sessions[id].pending <= Run(s, es, m).sessions[id].pending
    ensures Run(s, es, m).sessions[id].revision == s.sessions[id].revision
    decreases |es|
  {
    if es != [] {
      ServeKeepsInv(s, es[0].request, es[0].engine, m);
      var t := Serve(s, es[0].request, es[0].engine, m).0;
      assert id in t.sessions;
      UnackedStays(s, es[0].request, es[0].engine, m, id);
      hide Serve, Accepts, Inv;
      NothingActsBeforeAck(t, es[1..], m, id);
    }
  }

  // ---- two limits of the protocol ----

  /** A new session starts with no text of its own but the engine's, at revision 0 and with the asked
      learning mode, exactly when the process has no entry under the id the engine chose, or one that
      looks that way already: `emplace` keeps an old entry. */
  lemma CreateIsFreshIff(s: State, learning: bool, e: Engine, m: nat)
    requires m > 0 && Inv(s, m) && e.created != 0 && e.schema && e.context && e.commit.None?
    ensures Serve(s, Create(learning), e, m).1 == Report(e.created, 0, [], learning)
            <==> e.created !in s.sessions || s.sessions[e.created] == Session([], 0, learning)
  {}

  /** When the last report of a session did not fail, an `ack` removes exactly the text it showed. */
  lemma AckRemovesShownText(s: State, e: Engine, m: nat, id: nat)
    requires m > 0 && Inv(s, m) && id in s.sessions && e.finds && !s.books[id].dark
    ensures id in Serve(s, On(id, Ack), e, m).0.books
    ensures Serve(s, On(id, Ack), e, m).0.books[id].removed == s.books[id].removed + s.books[id].reported
  {
    ServeKeepsInv(s, On(id, Ack), e, m);
  }

  // The request neither reports on the session nor removes text of it.
  predicate Unheard(s: State, r: Request, e: Engine, id: nat) {
    match r
    case On(other, action) =>
      other == id && id in s.sessions && e.finds && !Refused(s.sessions[id], action, e) ==>
        !e.context && !action.Ack? && !action.Clear?
    case Create(_) => e.created == id && e.schema ==> !e.context
    case _ => true
  }

  // No good report of the session and no removal from it on the whole run.
  ghost predicate AllUnheard(s: State, es: seq<Moment>, m: nat, id: nat)
    requires m > 0 && Inv(s, m)
    decreases |es|
  {
    es == []
    || (Unheard(s, es[0].request, es[0].engine, id)
        && (ServeKeepsInv(s, es[0].request, es[0].engine, m);
            AllUnheard(Serve(s, es[0].request, es[0].engine, m).0, es[1..], m, id)))
  }

  lemma UnheardKeepsBook(s: State, r: Request, e: Engine, m: nat, id: nat)
    requires m > 0 && Inv(s, m) && id in s.sessions && id in Serve(s, r, e, m).0.sessions && Unheard(s, r, e, id)
    ensures id in Serve(s, r, e, m).0.books
    ensures Serve(s, r, e, m).0.books[id].removed == s.books[id].removed
    ensures Serve(s, r, e, m).0.books[id].reported == s.books[id].reported
  {
    ServeKeepsInv(s, r, e, m);
  }

  lemma {:induction false} RunKeepsBook(s: State, es: seq<Moment>, m: nat, id: nat)
    requires m > 0 && Inv(s, m) && Lives(s, es, m, id) && AllUnheard(s, es, m, id)
    ensures id in Run(s, es, m).books && id in Run(s, es, m).sessions
    ensures Run(s, es, m).books[id].removed == s.books[id].removed
    ensures Run(s, es, m).books[id].reported == s.books[id].reported
    decreases |es|
  {
    if es != [] {
      ServeKeepsInv(s, es[0].request, es[0].engine, m);
      hide Serve, Unheard;
      UnheardKeepsBook(s, es[0].request, es[0].engine, m, id);
      RunKeepsBook(Serve(s, es[0].request, es[0].engine, m).0, es[1..], m, id);
    }
  }

  lemma SameLength(a: bytes, b: bytes, c: bytes)
    ensures a + (b + c) == a + b <==> c == []
  {
    if c == [] {
      assert b + c == b;
    } else {
      assert |a + (b + c)| == |a + b| + |c|;
    }
  }

  /** What an `ack` promises, that it removes exactly the text the client was last shown, holds exactly when
      the session has gained no text since that report: over any living stretch without a good report or a
      removal, from a state in which the client has seen all that is pending. */
  lemma AckRemovesShownIff(s: State, es: seq<Moment>, e: Engine, m: nat, id: nat)
    requires m > 0 && Inv(s, m) && Lives(s, es, m, id) && AllUnheard(s, es, m, id)
    requires id in s.books && s.books[id].reported == s.sessions[id].pending && e.finds
    ensures var t := Run(s, es, m);
            && id in t.books && id in Serve(t, On(id, Ack), e, m).0.books
            && t.books[id].reported == s.books[id].reported
            && (Serve(t, On(id, Ack), e, m).0.books[id].removed == t.books[id].removed + t.books[id].reported
                <==> Contributions(s, es, m, id) == [])
  {
    var t := Run(s, es, m);
    RunKeepsBook(s, es, m, id);
    TextIsTheRequests(s, es, m, id);
    AckTakesPending(t, e, m, id);
    var b, grown := s.books[id], Contributions(s, es, m, id);
    assert t.books[id].removed + t.sessions[id].pending == b.removed + s.sessions[id].pending + grown;
    ChainAppends(b.removed, b.reported, grown);
    SameLength(b.removed, b.reported, grown);
  }

  lemma AckTakesPending(s: State, e: Engine, m: nat, id: nat)
    requires m > 0 && Inv(s, m) && id in s.sessions && e.finds
    ensures id in s.books && id in Serve(s, On(id, Ack), e, m).0.books
    ensures Serve(s, On(id, Ack), e, m).0.books[id].removed == s.books[id].removed + s.sessions[id].pending
  {
    ServeKeepsInv(s, On(id, Ack), e, m);
  }

  lemma AckAfterFailedReport(text: bytes, m: nat)
    requires m > 1 && text != []
    ensures var fine := Engine(1, true, true, true, true, None, true);
            var s0 := State(map[1 := Session([], 0, false)], map[1 := Book([], [], 0, [], false)]);
            var s1 := Serve(s0, On(1, Key(true)), fine.(commit := Some(text), context := false), m);
            var s2 := Serve(s1.0, On(1, Ack), fine, m);
            Inv(s0, m) && s1.1 == Failed && s2.1 == Report(1, 2 % m, [], false) && s2.0.books[1].removed == text
  {
    Remainder(1, 0, 1, m);
    assert [] + text == text;
    hide Usable;
    var fine := Engine(1, true, true, true, true, None, true);
    var s0 := State(map[1 := Session([], 0, false)], map[1 := Book([], [], 0, [], false)]);
    var s1 := Serve(s0, On(1, Key(true)), fine.(commit := Some(text), context := false), m).0;
    assert s1.sessions[1] == Session(text, 1, false) && s1.books[1].removed == [];
  }
}

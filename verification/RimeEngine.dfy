/** The process-wide session table of app/mobile-ime/rime_engine.cpp and the requests that rewrite it. */
module RimeEngineClass {
  import opened Options
  import R = RimeSessions

  class RimeEngine {
    var sessions: map<nat, R.Session>
    ghost var books: map<nat, R.Book>
    // The range of an `unsigned long`.
    const range: nat

    ghost function View(): R.State
      reads this
    {
      R.State(sessions, books)
    }

    ghost predicate Valid()
      reads this
    {
      range > 0 && R.Inv(View(), range)
    }

    constructor (range: nat)
      requires range > 0
      ensures Valid() && View() == R.Empty && this.range == range
    {
      sessions, books := map[], map[];
      this.range := range;
    }

    // Appends the engine's commit to the pending text and reports.
    method Snapshot(id: nat, e: R.Engine) returns (response: R.Response)
      requires id in sessions && id in books
      modifies this
      ensures (View(), response) == R.Snapshot(old(View()), id, e)
    {
      var session := sessions[id];
      ghost var drained := if e.commit.Some? then e.commit.value else [];
      ghost var book := books[id].(gained := books[id].gained + drained);
      if e.commit.Some? { session := session.(pending := session.pending + e.commit.value); }
      sessions := sessions[id := session];
      assert session.pending == old(sessions[id]).pending + drained;
      if !e.context {
        books := books[id := book.(dark := true)];
        return R.Failed;
      }
      books := books[id := book.(reported := session.pending, dark := false)];
      response := R.Report(id, session.revision, session.pending, session.learning);
    }

    method Create(learning: bool, e: R.Engine) returns (response: R.Response)
      requires Valid()
      modifies this
      ensures Valid() && (View(), response) == R.Serve(old(View()), R.Create(learning), e, range)
      ensures response.Report? ==>
                response.session in sessions && response.commit == sessions[response.session].pending
                && response.revision == sessions[response.session].revision
    {
      hide R.Snapshot;
      R.ServeKeepsInv(View(), R.Create(learning), e, range);
      if e.created == 0 || !e.schema { return R.Failed; }
      if e.created !in sessions {
        sessions := sessions[e.created := R.Session([], 0, learning)];
        books := books[e.created := R.Book([], [], 0, [], false)];
      }
      response := Snapshot(e.created, e);
    }

    method Destroy(id: nat, e: R.Engine) returns (response: R.Response)
      requires Valid()
      modifies this
      ensures Valid() && (View(), response) == R.Serve(old(View()), R.Destroy(id), e, range)
      ensures response == R.Done ==> id !in sessions
    {
      R.ServeKeepsInv(View(), R.Destroy(id), e, range);
      if id !in sessions || !e.finds { return R.Failed; }
      sessions := sessions - {id};
      books := books - {id};
      response := R.Done;
    }

    // What the operation does to the pending text, and whether it throws first.
    method Act(id: nat, action: R.Action, e: R.Engine) returns (throws: bool)
      requires range > 0 && id in sessions && id in books
      modifies this
      ensures throws <==> R.Refused(old(sessions[id]), action, e)
      ensures throws ==> View() == old(View())
      ensures !throws ==> View() == R.Acted(old(View()), id, action, range)
    {
      var session := sessions[id];
      if action.CandidatesFrom? {
        if action.range.None? || action.range.value.revision != session.revision
           || action.range.value.number > R.INT_MAX { return true; }
      }
      if action.Ack? || action.Clear? {
        books := books[id := books[id].(removed := books[id].removed + session.pending)];
        session := session.(pending := []);
      } else if !action.ReadState? && !action.Candidates? && !action.CandidatesFrom? {
        if session.pending != [] { return true; }
        match action {
          case Key(valid) =>
            if !valid { return true; }
          case External(expected, text) =>
            if expected != Some(session.revision) || text == [] || |text| > 512 || 13 in text || 10 in text || 9 in text
            { return true; }
            books := books[id := books[id].(gained := books[id].gained + text)];
            session := session.(pending := text);
          case Confirm =>
          case Select(choice) =>
            if choice.None? || choice.value.revision != session.revision || !e.selects { return true; }
          case Unknown => return true;
        }
      }
      if !action.ReadState? && !action.Candidates? && !action.CandidatesFrom? {
        books := books[id := books[id].(changes := books[id].changes + 1)];
        session := session.(revision := (session.revision + 1) % range);
      }
      sessions := sessions[id := session];
      throws := false;
    }

    method OnSession(id: nat, action: R.Action, e: R.Engine) returns (response: R.Response)
      requires Valid()
      modifies this
      ensures Valid() && (View(), response) == R.Serve(old(View()), R.On(id, action), e, range)
      ensures response.Report? ==>
                response.session in sessions && response.commit == sessions[response.session].pending
                && response.revision == sessions[response.session].revision
      ensures !(id in old(sessions) && e.finds && R.Served(old(sessions)[id], action, e)) ==>
                View() == old(View()) && response == R.Failed
    {
      R.RequestServedIff(View(), id, action, e, range);
      hide R.Snapshot, R.Acted, R.Refused, R.Served;
      R.ServeKeepsInv(View(), R.On(id, action), e, range);
      if id !in sessions || !e.finds { return R.Failed; }
      var throws := Act(id, action, e);
      if throws { return R.Failed; }
      KeysStay(old(View()), id, action);
      response := Snapshot(id, e);
    }

    lemma KeysStay(s: R.State, id: nat, action: R.Action)
      requires range > 0 && id in s.sessions && id in s.books
      ensures id in R.Acted(s, id, action, range).sessions && id in R.Acted(s, id, action, range).books
    {}

    method DestroyAllSessions()
      modifies this
      ensures View() == R.Empty
    {
      sessions, books := map[], map[];
    }

    method Redeploy(e: R.Engine) returns (response: R.Response)
      requires Valid()
      modifies this
      ensures Valid() && (View(), response) == R.Serve(old(View()), R.Redeploy, e, range)
      ensures sessions == map[]
    {
      DestroyAllSessions();
      response := if e.works then R.Done else R.Failed;
    }

    method ExportDictionary(path: bool, e: R.Engine) returns (response: R.Response)
      requires Valid()
      modifies this
      ensures Valid() && (View(), response) == R.Serve(old(View()), R.ExportDictionary(path), e, range)
      ensures path ==> sessions == map[]
    {
      if !path { return R.Failed; }
      DestroyAllSessions();
      response := if e.works then R.Done else R.Failed;
    }

    method ImportDictionary(path: bool, e: R.Engine) returns (response: R.Response)
      requires Valid()
      modifies this
      ensures Valid() && (View(), response) == R.Serve(old(View()), R.ImportDictionary(path), e, range)
      ensures path ==> sessions == map[]
    {
      if !path { return R.Failed; }
      DestroyAllSessions();
      response := if e.works then R.Done else R.Failed;
    }
  }
}

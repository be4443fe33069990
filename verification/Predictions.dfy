/** Chinese continuations: the table of ios/scripts/build-predictions.py and the back-off query of
    ios/Keyboard/KeyboardPredictionEngine.swift. Words are sequences of code points. */
module Predictions {
  import opened Options
  import opened Ranking

  datatype Phrase = Phrase(text: Word, frequency: int)

  type Table = map<Word, map<Word, int>>

  const LONGEST_CONTEXT := 4
  const LONGEST_SUFFIX := 6
  const KEPT := 8

  predicate IsHan(c: nat) {
    0x3400 <= c <= 0x9fff
  }

  predicate AllHan(w: Word) {
    forall i | 0 <= i < |w| :: IsHan(w[i])
  }

  // ---- the table ----

  // The phrase is a Han phrase that continues `before` with `suffix`, within the lengths kept.
  predicate Continues(p: Phrase, before: Word, suffix: Word) {
    && AllHan(p.text) && p.text == before + suffix
    && 1 <= |before| <= LONGEST_CONTEXT && 1 <= |suffix| <= LONGEST_SUFFIX
  }

  function Max(a: int, b: int): int {
    if a < b then b else a
  }

  // What a scan of the phrases gives the continuation; a frequency below zero counts as zero.
  function Score(ps: seq<Phrase>, before: Word, suffix: Word): Option<int> {
    if ps == [] then None
    else
      var last := ps[|ps| - 1];
      var earlier := Score(ps[..|ps| - 1], before, suffix);
      if Continues(last, before, suffix) then Some(Max(last.frequency, if earlier.Some? then earlier.value else 0))
      else earlier
  }

  /** The score is the largest frequency of a phrase that so continues, and at least zero. */
  lemma {:induction false} ScoreIsLargest(ps: seq<Phrase>, before: Word, suffix: Word)
    ensures Score(ps, before, suffix).Some? <==> exists p :: p in ps && Continues(p, before, suffix)
    ensures Score(ps, before, suffix).Some? ==>
              var n := Score(ps, before, suffix).value;
              && n >= 0 && (forall p | p in ps && Continues(p, before, suffix) :: p.frequency <= n)
              && (n == 0 || exists p :: p in ps && Continues(p, before, suffix) && p.frequency == n)
  {
    if ps != [] {
      var front, last := ps[..|ps| - 1], ps[|ps| - 1];
      ScoreIsLargest(front, before, suffix);
      assert forall p :: p in ps <==> p in front || p == last;
      assert last in ps;
    }
  }

  function Entry(table: Table, before: Word, suffix: Word): Option<int> {
    if before in table && suffix in table[before] then Some(table[before][suffix]) else None
  }

  function Put(table: Table, before: Word, suffix: Word, frequency: int): Table {
    var rows := if before in table then table[before] else map[];
    table[before := rows[suffix := frequency]]
  }

  lemma PutEntry(table: Table, before: Word, suffix: Word, frequency: int, b: Word, s: Word)
    ensures Entry(Put(table, before, suffix, frequency), b, s)
            == if b == before && s == suffix then Some(frequency) else Entry(table, b, s)
  {}

  // The table holds the scan of the first `i` phrases, and of phrase `i` for contexts shorter than `length`.
  ghost predicate Scanned(table: Table, ps: seq<Phrase>, i: nat, length: nat)
    requires i < |ps|
  {
    forall b: Word, s: Word ::
      Entry(table, b, s) == Score(if Continues(ps[i], b, s) && |b| < length then ps[..i + 1] else ps[..i], b, s)
  }

  lemma ScanOne(table: Table, ps: seq<Phrase>, i: nat, length: nat)
    requires i < |ps| && Scanned(table, ps, i, length) && AllHan(ps[i].text)
    requires 1 <= length <= LONGEST_CONTEXT && length < |ps[i].text| <= length + LONGEST_SUFFIX
    ensures var before, suffix := ps[i].text[..length], ps[i].text[length..];
            var known := Entry(table, before, suffix);
            var frequency := Max(ps[i].frequency, if known.Some? then known.value else 0);
            Scanned(Put(table, before, suffix, frequency), ps, i, length + 1)
  {
    var before, suffix := ps[i].text[..length], ps[i].text[length..];
    var known := Entry(table, before, suffix);
    var frequency := Max(ps[i].frequency, if known.Some? then known.value else 0);
    assert before + suffix == ps[i].text && Continues(ps[i], before, suffix);
    assert ps[..i + 1][..i] == ps[..i] && ps[..i + 1][i] == ps[i];
    forall b: Word, s: Word
      ensures Entry(Put(table, before, suffix, frequency), b, s)
              == Score(if Continues(ps[i], b, s) && |b| < length + 1 then ps[..i + 1] else ps[..i], b, s)
    {
      PutEntry(table, before, suffix, frequency, b, s);
      if Continues(ps[i], b, s) && |b| == length { assert b == ps[i].text[..length] && s == ps[i].text[length..]; }
    }
  }

  lemma ScanSkips(table: Table, ps: seq<Phrase>, i: nat, length: nat)
    requires i < |ps| && Scanned(table, ps, i, length) && length + LONGEST_SUFFIX < |ps[i].text|
    ensures Scanned(table, ps, i, length + 1)
  {}

  ghost predicate Holds(table: Table, ps: seq<Phrase>, i: nat)
    requires i <= |ps|
  {
    forall b: Word, s: Word :: Entry(table, b, s) == Score(ps[..i], b, s)
  }

  lemma ScanBegins(table: Table, ps: seq<Phrase>, i: nat)
    requires i < |ps| && Holds(table, ps, i)
    ensures Scanned(table, ps, i, 1)
  {}

  // No length is left, or the phrase is not of Han characters.
  lemma ScanEnds(table: Table, ps: seq<Phrase>, i: nat, length: nat)
    requires i < |ps| && Scanned(table, ps, i, length)
    requires !AllHan(ps[i].text) || length > LONGEST_CONTEXT || length >= |ps[i].text|
    ensures Holds(table, ps, i + 1)
  {
    assert ps[..i + 1][..i] == ps[..i] && ps[..i + 1][i] == ps[i];
    forall b: Word, s: Word ensures Entry(table, b, s) == Score(ps[..i + 1], b, s) {
      assert Continues(ps[i], b, s) ==> |b| < length;
    }
  }

  /** The two nested loops of the builder leave exactly the scan of all phrases. */
  method BuildTable(ps: seq<Phrase>) returns (table: Table)
    ensures forall b: Word, s: Word :: Entry(table, b, s) == Score(ps, b, s)
  {
    table := map[];
    for i := 0 to |ps|
      invariant Holds(table, ps, i)
    {
      var phrase := ps[i].text;
      ScanBegins(table, ps, i);
      if exists k :: 0 <= k < |phrase| && !(0x3400 <= phrase[k] <= 0x9fff) {
        ScanEnds(table, ps, i, 1);
        continue;
      }
      hide Scanned, Holds, Entry;
      var last := if |phrase| - 1 < 4 then |phrase| - 1 else 4;
      var length := 1;
      while length <= last
        invariant 1 <= length && (length <= last + 1 || length == 1)
        invariant Scanned(table, ps, i, length)
      {
        var before, suffix := phrase[..length], phrase[length..];
        if |suffix| <= 6 {
          ScanOne(table, ps, i, length);
          var known := Entry(table, before, suffix);
          table := Put(table, before, suffix, Max(ps[i].frequency, if known.Some? then known.value else 0));
        } else {
          ScanSkips(table, ps, i, length);
        }
        length := length + 1;
      }
      ScanEnds(table, ps, i, length);
    }
    assert ps[..|ps|] == ps;
  }

  // ---- what is stored ----

  // One row of the `chinese` table.
  datatype Stored = Stored(context: Word, row: Row)

  function RowsOf(rows: map<Word, int>): set<Row> {
    set w | w in rows :: Row(w, rows[w])
  }

  ghost function Top(rows: set<Row>): (s: seq<Row>)
    ensures Sorted(s) && |s| <= KEPT && (|rows| <= KEPT ==> |s| == |rows|)
  {
    if |rows| <= KEPT then Ranked(rows) else Ranked(rows)[..KEPT]
  }

  /** Of the rows exactly those are kept that fewer than eight others precede, in order: by falling frequency,
      and equal frequencies in the order of Python's strings. */
  lemma TopIff(rows: set<Row>, r: Row)
    ensures r in Top(rows) <==> r in rows && |Ahead(rows, r)| < 8
  {
    if r in rows {
      var s := Ranked(rows);
      var i :| 0 <= i < |s| && s[i] == r;
      PlaceIsAhead(rows, i);
      if i < 8 { assert Top(rows)[i] == r; }
      if r in Top(rows) {
        var j :| 0 <= j < |Top(rows)| && Top(rows)[j] == r;
        PrecedesIsTotal(r, r);
        assert s[j] == r && j == i;
      }
    }
  }

  // Of every context the eight first rows.
  ghost predicate IsStore(store: set<Stored>, table: Table) {
    forall x :: x in store <==> x.context in table && x.row in Top(RowsOf(table[x.context]))
  }

  // The rows that the builder writes.
  ghost function StoreOf(table: Table): (store: set<Stored>)
    ensures IsStore(store, table)
  {
    set b, r | b in table && r in Top(RowsOf(table[b])) :: Stored(b, r)
  }

  // The stored rows of a context.
  ghost function Kept(store: set<Stored>, context: Word): set<Row> {
    set x | x in store && x.context == context :: x.row
  }

  // The query: the rows of the context, most frequent first and ties in word order, at most eight.
  ghost function Answer(store: set<Stored>, context: Word): seq<Row> {
    Top(Kept(store, context))
  }

  lemma KeptAreTop(store: set<Stored>, table: Table, context: Word, r: Row)
    requires IsStore(store, table)
    ensures r in Kept(store, context) <==> r in Top(if context in table then RowsOf(table[context]) else {})
  {
    if context in table && r in Top(RowsOf(table[context])) { assert Stored(context, r) in store; }
  }

  lemma AnswerIsTop(store: set<Stored>, table: Table, context: Word)
    requires IsStore(store, table)
    ensures Answer(store, context) == Top(if context in table then RowsOf(table[context]) else {})
  {
    var rows := if context in table then RowsOf(table[context]) else {};
    var kept := Kept(store, context);
    forall r ensures r in kept <==> r in Top(rows) { KeptAreTop(store, table, context, r); }
    hide Kept, IsStore, RowsOf;
    var k := if |rows| <= KEPT then |rows| else KEPT;
    assert Top(rows) == Ranked(rows)[..k];
    RankingAgain(rows, k, kept);
    assert |Ranked(kept)| == |kept|;
  }

  // ---- the direct scan ----

  // The continuations of `context` that a scan of the phrases finds, each with its score.
  ghost function ScanRows(ps: seq<Phrase>, context: Word): set<Row> {
    set p | p in ps && |context| <= |p.text| && Continues(p, context, p.text[|context|..]) ::
      var suffix := p.text[|context|..];
      Row(suffix, ScoreOr0(ps, context, suffix))
  }

  function ScoreOr0(ps: seq<Phrase>, before: Word, suffix: Word): int {
    var n := Score(ps, before, suffix);
    if n.Some? then n.value else 0
  }

  lemma TableIsScan(table: Table, ps: seq<Phrase>, context: Word)
    requires forall b: Word, s: Word :: Entry(table, b, s) == Score(ps, b, s)
    ensures (if context in table then RowsOf(table[context]) else {}) == ScanRows(ps, context)
  {
    var rows := if context in table then RowsOf(table[context]) else {};
    forall r ensures r in rows <==> r in ScanRows(ps, context) {
      assert Entry(table, context, r.word) == Score(ps, context, r.word);
      ScoreIsLargest(ps, context, r.word);
      if r in ScanRows(ps, context) {
        var p :| p in ps && |context| <= |p.text| && Continues(p, context, p.text[|context|..]) && r.word == p.text[|context|..];
        assert r.word in table[context];
      }
      if r in rows {
        var p :| p in ps && Continues(p, context, r.word);
        assert p.text[|context|..] == r.word;
      }
    }
  }

  /** The stored table answers every query as a direct scan of the phrases would. */
  lemma StoreAnswersLikeScan(ps: seq<Phrase>, table: Table, store: set<Stored>, context: Word)
    requires forall b: Word, s: Word :: Entry(table, b, s) == Score(ps, b, s)
    requires IsStore(store, table)
    ensures Answer(store, context) == Top(ScanRows(ps, context))
  {
    AnswerIsTop(store, table, context);
    TableIsScan(table, ps, context);
  }

  // ---- the back-off ----

  // A character of the text before the cursor, as its scalars; only single Han scalars count.
  type Character = Word

  predicate IsHanCharacter(c: Character) {
    |c| == 1 && IsHan(c[0])
  }

  function TailOf(context: seq<Character>, most: nat): (tail: Word)
    ensures |tail| <= most && |tail| <= |context|
    ensures forall i | 0 <= i < |tail| :: context[|context| - |tail| + i] == [tail[i]] && 0x3400 <= tail[i] <= 0x9fff
    ensures |tail| == most || |tail| == |context|
            || var c := context[|context| - |tail| - 1]; !(|c| == 1 && 0x3400 <= c[0] <= 0x9fff)
  {
    if most == 0 || context == [] || !IsHanCharacter(context[|context| - 1]) then []
    else TailOf(context[..|context| - 1], most - 1) + context[|context| - 1]
  }

  // Every word once, where it first stands.
  function Distinct(ws: seq<Word>): seq<Word> {
    if ws == [] then []
    else
      var front, last := ws[..|ws| - 1], ws[|ws| - 1];
      if last in front then Distinct(front) else Distinct(front) + [last]
  }

  function Take(ws: seq<Word>, limit: int): seq<Word> {
    if limit <= 0 then [] else if |ws| <= limit then ws else ws[..limit]
  }

  lemma {:induction false} DistinctIs(ws: seq<Word>)
    ensures forall w :: w in ws <==> w in Distinct(ws)
    ensures forall i, j | 0 <= i < j < |Distinct(ws)| :: Distinct(ws)[i] != Distinct(ws)[j]
  {
    if ws != [] {
      var front, last := ws[..|ws| - 1], ws[|ws| - 1];
      DistinctIs(front);
      assert forall w :: w in ws <==> w in front || w == last;
    }
  }

  lemma {:induction false} DistinctGrows(ws: seq<Word>, more: seq<Word>)
    ensures Distinct(ws) <= Distinct(ws + more)
  {
    if more == [] {
      assert ws + more == ws;
    } else {
      DistinctGrows(ws, more[..|more| - 1]);
      assert (ws + more)[..|ws + more| - 1] == ws + more[..|more| - 1];
    }
  }

  // What the query yields for the longest context of the tail, then for each shorter one.
  function Listing(query: Word -> seq<Word>, tail: Word, length: nat): seq<Word>
    requires length <= |tail|
  {
    if length == 0 then [] else query(tail[|tail| - length..]) + Listing(query, tail, length - 1)
  }

  lemma {:induction false} DistinctAppends(ws: seq<Word>, word: Word)
    ensures Distinct(ws + [word]) == if word in ws then Distinct(ws) else Distinct(ws) + [word]
  {
    assert (ws + [word])[..|ws|] == ws;
  }

  ghost predicate Lists(seen: set<Word>, ws: seq<Word>) {
    forall w :: w in seen <==> w in ws
  }

  // The inner loop: adds the words that have not been seen, until `limit` are found.
  method AddWords(words: seq<Word>, seen: set<Word>, found: seq<Word>, limit: int, ghost before: seq<Word>)
    returns (nowSeen: set<Word>, result: seq<Word>)
    requires found == Distinct(before) && |found| < limit && Lists(seen, before)
    ensures |result| <= limit
    ensures |result| < limit ==> result == Distinct(before + words) && Lists(nowSeen, before + words)
    ensures |result| == limit ==> result <= Distinct(before + words)
  {
    hide Distinct;
    nowSeen, result := seen, found;
    assert before + words[..0] == before;
    for i := 0 to |words|
      invariant result == Distinct(before + words[..i]) && |result| < limit
      invariant Lists(nowSeen, before + words[..i])
    {
      ghost var done := before + words[..i];
      DistinctAppends(done, words[i]);
      assert before + words[..i + 1] == done + [words[i]];
      if words[i] !in nowSeen {
        nowSeen := nowSeen + {words[i]};
        result := result + [words[i]];
        if |result| >= limit {
          assert before + words == (done + [words[i]]) + words[i + 1..];
          DistinctGrows(done + [words[i]], words[i + 1..]);
          return;
        }
      }
    }
    assert words[..|words|] == words;
  }

  /** The first `limit` distinct words, longest context first. */
  method ChineseCandidates(query: Word -> seq<Word>, before: seq<Character>, limit: int) returns (result: seq<Word>)
    ensures var tail := TailOf(before, LONGEST_CONTEXT);
            result == Take(Distinct(Listing(query, tail, |tail|)), limit)
  {
    if limit <= 0 { return []; }
    var tail := TailOf(before, LONGEST_CONTEXT);
    if tail == [] { return []; }
    result := BackOff(query, tail, limit);
  }

  method BackOff(query: Word -> seq<Word>, tail: Word, limit: int) returns (result: seq<Word>)
    requires limit > 0
    ensures result == Take(Distinct(Listing(query, tail, |tail|)), limit)
  {
    ghost var all := Listing(query, tail, |tail|);
    var seen: set<Word> := {};
    result := [];
    ghost var done: seq<Word> := [];
    var length := |tail|;
    assert Distinct(done) == [] && Lists(seen, done) && all == done + Listing(query, tail, length);
    hide Distinct, Lists, Take, Listing;
    while length >= 1
      invariant 0 <= length <= |tail|
      invariant all == done + Listing(query, tail, length)
      invariant result == Distinct(done) && |result| < limit
      invariant Lists(seen, done)
    {
      var words := query(tail[|tail| - length..]);
      seen, result := AddWords(words, seen, result, limit, done);
      ghost var rest := Listing(query, tail, length - 1);
      ListingStep(query, tail, length);
      Reassociate(done, words, rest);
      done := done + words;
      if |result| >= limit {
        DistinctGrows(done, rest);
        TakeIs(Distinct(all), result, limit);
        return;
      }
      length := length - 1;
    }
    ListingStep(query, tail, 0);
    assert done + [] == done;
    TakeIs(Distinct(all), result, limit);
  }

  lemma Reassociate(a: seq<Word>, b: seq<Word>, c: seq<Word>)
    ensures a + (b + c) == (a + b) + c
  {}

  lemma ListingStep(query: Word -> seq<Word>, tail: Word, length: nat)
    requires length <= |tail|
    ensures Listing(query, tail, length)
            == if length == 0 then [] else query(tail[|tail| - length..]) + Listing(query, tail, length - 1)
  {}

  lemma TakeIs(ws: seq<Word>, found: seq<Word>, limit: int)
    requires limit > 0 && found <= ws && (|found| == limit || (|found| < limit && found == ws))
    ensures Take(ws, limit) == found
  {}

  function Words(rows: seq<Row>): seq<Word> {
    seq(|rows|, i requires 0 <= i < |rows| => rows[i].word)
  }

  // The direct search: for the context and each shorter one, the eight most frequent continuations.
  ghost function Search(ps: seq<Phrase>, tail: Word, length: nat): seq<Word>
    requires length <= |tail|
  {
    if length == 0 then [] else Words(Top(ScanRows(ps, tail[|tail| - length..]))) + Search(ps, tail, length - 1)
  }

  lemma {:induction false} ListingIsSearch(ps: seq<Phrase>, table: Table, store: set<Stored>, query: Word -> seq<Word>,
                                           tail: Word, length: nat)
    requires length <= |tail|
    requires forall b: Word, s: Word :: Entry(table, b, s) == Score(ps, b, s)
    requires IsStore(store, table) && forall context: Word :: query(context) == Words(Answer(store, context))
    ensures Listing(query, tail, length) == Search(ps, tail, length)
  {
    hide Answer, Entry, Score, IsStore, Words, ScanRows;
    if length > 0 {
      StoreAnswersLikeScan(ps, table, store, tail[|tail| - length..]);
      ListingIsSearch(ps, table, store, query, tail, length - 1);
    }
  }

  /** For any phrases and any text before the cursor: building the table, storing its best rows and backing
      off over the store gives the first `limit` words of the direct search, each once. */
  lemma CandidatesAreSearched(ps: seq<Phrase>, table: Table, store: set<Stored>, query: Word -> seq<Word>,
                              before: seq<Character>, limit: nat)
    requires forall b: Word, s: Word :: Entry(table, b, s) == Score(ps, b, s)
    requires IsStore(store, table) && forall context: Word :: query(context) == Words(Answer(store, context))
    ensures var tail := TailOf(before, LONGEST_CONTEXT);
            var found := Take(Distinct(Listing(query, tail, |tail|)), limit);
            && found == Take(Distinct(Search(ps, tail, |tail|)), limit) && |found| <= limit
            && (forall i, j | 0 <= i < j < |found| :: found[i] != found[j])
  {
    hide Distinct, Search, Listing, Answer, Score, Entry, IsStore, TailOf;
    var tail := TailOf(before, LONGEST_CONTEXT);
    ListingIsSearch(ps, table, store, query, tail, |tail|);
    DistinctIs(Search(ps, tail, |tail|));
  }

  // What the keyboard's query yields on the rows that the builder writes.
  ghost function QueryOf(table: Table): Word -> seq<Word> {
    (context: Word) => Words(Answer(StoreOf(table), context))
  }

  /** From the phrases to the answer: builds the table and asks it, as the builder and the keyboard do with
      the file between them. If the query reads what was written, the answer is the direct search. */
  method BuildAndAsk(ps: seq<Phrase>, query: Word -> seq<Word>, before: seq<Character>, limit: nat)
    returns (table: Table, found: seq<Word>)
    ensures (forall context: Word :: query(context) == QueryOf(table)(context)) ==>
              var tail := TailOf(before, LONGEST_CONTEXT);
              found == Take(Distinct(Search(ps, tail, |tail|)), limit)
  {
    table := BuildTable(ps);
    found := ChineseCandidates(query, before, limit);
    if forall context: Word :: query(context) == QueryOf(table)(context) {
      hide Distinct, Search, Listing, Score, Entry, IsStore, TailOf, Take, StoreOf;
      CandidatesAreSearched(ps, table, StoreOf(table), query, before, limit);
    }
  }
}

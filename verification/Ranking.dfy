/** The order of candidate rows: most frequent first, ties in word order. */
module Ranking {
  type Word = seq<nat>

  datatype Row = Row(word: Word, frequency: int)

  // The order of Python's strings and of SQLite's binary collation.
  predicate Less(a: Word, b: Word) {
    b != [] && (a == [] || a[0] < b[0] || (a[0] == b[0] && Less(a[1..], b[1..])))
  }

  lemma {:induction false} LessIsTotal(a: Word, b: Word)
    ensures a == b || Less(a, b) || Less(b, a)
    ensures !(Less(a, b) && Less(b, a))
    ensures a == b ==> !Less(a, b)
  {
    if a != [] && b != [] {
      LessIsTotal(a[1..], b[1..]);
      assert a == [a[0]] + a[1..] && b == [b[0]] + b[1..];
    }
  }

  lemma {:induction false} LessIsTransitive(a: Word, b: Word, c: Word)
    requires Less(a, b) && Less(b, c)
    ensures Less(a, c)
  {
    if a != [] && a[0] == b[0] == c[0] { LessIsTransitive(a[1..], b[1..], c[1..]); }
  }

  // Most frequent first, equal frequencies in word order.
  predicate Precedes(x: Row, y: Row) {
    x.frequency > y.frequency || (x.frequency == y.frequency && Less(x.word, y.word))
  }

  lemma PrecedesIsTotal(x: Row, y: Row)
    ensures x == y || Precedes(x, y) || Precedes(y, x)
    ensures !(Precedes(x, y) && Precedes(y, x)) && !Precedes(x, x)
  {
    LessIsTotal(x.word, y.word);
    LessIsTotal(x.word, x.word);
  }

  lemma PrecedesIsTransitive(x: Row, y: Row, z: Row)
    requires Precedes(x, y) && Precedes(y, z)
    ensures Precedes(x, z)
  {
    if x.frequency == y.frequency == z.frequency { LessIsTransitive(x.word, y.word, z.word); }
  }

  predicate Sorted(s: seq<Row>) {
    forall i, j | 0 <= i < j < |s| :: Precedes(s[i], s[j])
  }

  ghost predicate IsFirst(first: Row, rows: set<Row>) {
    first in rows && forall r | r in rows && r != first :: Precedes(first, r)
  }

  lemma {:induction false} FirstExists(rows: set<Row>)
    requires rows != {}
    ensures exists first :: IsFirst(first, rows)
    decreases |rows|
  {
    var r :| r in rows;
    var others := rows - {r};
    if others == {} {
      assert rows == {r};
      assert IsFirst(r, rows);
    } else {
      FirstExists(others);
      var f :| IsFirst(f, others);
      PrecedesIsTotal(r, f);
      if Precedes(f, r) {
        assert IsFirst(f, rows);
      } else {
        forall o | o in rows && o != r ensures Precedes(r, o) {
          if o != f { PrecedesIsTransitive(r, f, o); }
        }
        assert IsFirst(r, rows);
      }
    }
  }

  /** `sorted` with the builder's key: the one sequence that lists the rows in order. */
  ghost function Ranked(rows: set<Row>): (s: seq<Row>)
    ensures Sorted(s) && (forall r :: r in s <==> r in rows) && |s| == |rows|
    decreases |rows|
  {
    if rows == {} then []
    else
      FirstExists(rows);
      var first :| IsFirst(first, rows);
      [first] + Ranked(rows - {first})
  }

  lemma NonEmptyHasMember(t: seq<Row>)
    ensures t == [] || exists r :: r in t
  {
    if t != [] { assert t[0] in t; }
  }

  lemma {:induction false} SortedIsUnique(s: seq<Row>, t: seq<Row>)
    requires Sorted(s) && Sorted(t) && forall r :: r in s <==> r in t
    ensures s == t
    decreases |s|
  {
    if s == [] {
      NonEmptyHasMember(t);
    } else {
      assert s[0] in t;
      assert t[0] in s;
      PrecedesIsTotal(s[0], t[0]);
      assert s[0] == t[0];
      forall r ensures r in s[1..] <==> r in t[1..] {
        PrecedesIsTotal(s[0], s[0]);
        assert r in s <==> r == s[0] || r in s[1..];
        assert r in t <==> r == t[0] || r in t[1..];
      }
      SortedIsUnique(s[1..], t[1..]);
    }
  }

  // Rows that were ranked, cut off and stored are ranked the same when they are read back.
  lemma RankingAgain(rows: set<Row>, k: nat, kept: set<Row>)
    requires k <= |rows| && forall r :: r in kept <==> r in Ranked(rows)[..k]
    ensures Ranked(kept) == Ranked(rows)[..k]
  {
    SortedIsUnique(Ranked(kept), Ranked(rows)[..k]);
  }

  // The rows that come before one.
  ghost function Ahead(rows: set<Row>, r: Row): set<Row> {
    set x | x in rows && (x.frequency > r.frequency || (x.frequency == r.frequency && Less(x.word, r.word)))
  }

  lemma {:induction false} AheadOfPrefix(s: seq<Row>, i: nat, rows: set<Row>)
    requires Sorted(s) && i <= |s| && forall x :: x in rows <==> x in s[..i]
    ensures |rows| == i
  {
    if i == 0 {
      assert rows == {};
    } else {
      var last := s[i - 1];
      PrecedesIsTotal(last, last);
      forall x ensures x in rows - {last} <==> x in s[..i - 1] {
        assert s[..i] == s[..i - 1] + [last];
      }
      assert last in s[..i];
      AheadOfPrefix(s, i - 1, rows - {last});
    }
  }

  lemma AheadIsPrefix(s: seq<Row>, rows: set<Row>, i: nat, x: Row)
    requires Sorted(s) && i < |s| && forall r :: r in s <==> r in rows
    ensures x in Ahead(rows, s[i]) <==> x in s[..i]
  {
    hide Less;
    if x in s {
      var j :| 0 <= j < |s| && s[j] == x;
      PrecedesIsTotal(s[j], s[i]);
      if j < i { assert s[..i][j] == x; }
    }
  }

  /** The place of a row is the number of rows before it. */
  lemma PlaceIsAhead(rows: set<Row>, i: nat)
    requires i < |Ranked(rows)|
    ensures |Ahead(rows, Ranked(rows)[i])| == i
  {
    hide Ahead, Ranked, Sorted;
    var s := Ranked(rows);
    forall x ensures x in Ahead(rows, s[i]) <==> x in s[..i] { AheadIsPrefix(s, rows, i, x); }
    AheadOfPrefix(s, i, Ahead(rows, s[i]));
  }
}

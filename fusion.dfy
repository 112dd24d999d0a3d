/** The candidate-pool steps both fusion rankers share (ranker_v2.py, rankers/ranker_v1.py):
    the outer merge of the two retrieval results on `movieId` with missing scores filled
    with 0, the per-column max-normalisation, the descending sort and `head(final_k)`. */
module Fusion {
  import opened Domain

  /** One row of the merged frame: the movie and its two retrieval scores. */
  datatype Row = Row(movieId: int, cf: real, semantic: real)

  /** The two signal columns, in the order the normalisation loop visits them. */
  datatype Column = CfScore | SemanticScore

  function Get(r: Row, col: Column): real {
    match col
    case CfScore => r.cf
    case SemanticScore => r.semantic
  }

  function With(r: Row, col: Column, v: real): Row {
    match col
    case CfScore => r.(cf := v)
    case SemanticScore => r.(semantic := v)
  }

  function CandIds(cs: seq<Candidate>): set<int> {
    set i | 0 <= i < |cs| :: cs[i].movieId
  }

  function RowIds(rows: seq<Row>): set<int> {
    set i | 0 <= i < |rows| :: rows[i].movieId
  }

  /** The semantic rows with the same id as `c`, joined with it. */
  function Matches(c: Candidate, sem: seq<Candidate>): seq<Row>
    decreases |sem|
  {
    if sem == [] then []
    else
      (if sem[0].movieId == c.movieId then [Row(c.movieId, c.score, sem[0].score)] else [])
      + Matches(c, sem[1..])
  }

  /** The rows the collaborative-filtering side contributes: each joined with every
      semantic row of its id, or with a 0 semantic score when there is none. */
  function CfRows(cf: seq<Candidate>, sem: seq<Candidate>): seq<Row>
    decreases |cf|
  {
    if cf == [] then []
    else
      var m := Matches(cf[0], sem);
      (if m == [] then [Row(cf[0].movieId, cf[0].score, 0.0)] else m) + CfRows(cf[1..], sem)
  }

  /** The semantic rows whose id the collaborative-filtering side lacks, with a 0 CF score. */
  function SemOnlyRows(sem: seq<Candidate>, cfIds: set<int>): seq<Row>
    decreases |sem|
  {
    if sem == [] then []
    else
      (if sem[0].movieId in cfIds then [] else [Row(sem[0].movieId, 0.0, sem[0].score)])
      + SemOnlyRows(sem[1..], cfIds)
  }

  /** `cf.merge(sem, on="movieId", how="outer").fillna(0.0)`; with one side empty this is
      also the `assign(...=0.0)` branch.  Row order is not modelled (see README). */
  function Merge(cf: seq<Candidate>, sem: seq<Candidate>): seq<Row> {
    CfRows(cf, sem) + SemOnlyRows(sem, CandIds(cf))
  }

  lemma {:induction false} MatchesSpec(c: Candidate, sem: seq<Candidate>)
    ensures forall r :: r in Matches(c, sem) ==>
      r.movieId == c.movieId && r.cf == c.score && Candidate(r.movieId, r.semantic) in sem
    ensures Matches(c, sem) == [] <==> c.movieId !in CandIds(sem)
    decreases |sem|
  {
    if sem != [] {
      MatchesSpec(c, sem[1..]);
      assert CandIds(sem) == {sem[0].movieId} + CandIds(sem[1..]) by {
        forall m | m in CandIds(sem) ensures m in {sem[0].movieId} + CandIds(sem[1..]) {
          var i :| 0 <= i < |sem| && sem[i].movieId == m;
          if i > 0 { assert sem[1..][i - 1].movieId == m; }
        }
        forall m | m in CandIds(sem[1..]) ensures m in CandIds(sem) {
          var i :| 0 <= i < |sem| - 1 && sem[1..][i].movieId == m;
          assert sem[i + 1].movieId == m;
        }
      }
    }
  }

  lemma {:induction false} CfRowsSpec(cf: seq<Candidate>, sem: seq<Candidate>)
    ensures RowIds(CfRows(cf, sem)) == CandIds(cf)
    ensures forall r :: r in CfRows(cf, sem) ==> Candidate(r.movieId, r.cf) in cf
    ensures forall r :: r in CfRows(cf, sem) ==>
      if r.movieId in CandIds(sem) then Candidate(r.movieId, r.semantic) in sem else r.semantic == 0.0
    decreases |cf|
  {
    if cf != [] {
      CfRowsSpec(cf[1..], sem);
      MatchesSpec(cf[0], sem);
      var m := Matches(cf[0], sem);
      var head := if m == [] then [Row(cf[0].movieId, cf[0].score, 0.0)] else m;
      var rest := CfRows(cf[1..], sem);
      assert CfRows(cf, sem) == head + rest;
      assert RowIds(head) == {cf[0].movieId} by {
        if m != [] { assert m[0] in m; }
      }
      RowIdsAppend(head, rest);
      CandIdsCons(cf);
      forall r | r in rest ensures Candidate(r.movieId, r.cf) in cf {
        assert Candidate(r.movieId, r.cf) in cf[1..];
      }
    }
  }

  lemma {:induction false} SemOnlyRowsSpec(sem: seq<Candidate>, cfIds: set<int>)
    ensures RowIds(SemOnlyRows(sem, cfIds)) == CandIds(sem) - cfIds
    ensures forall r :: r in SemOnlyRows(sem, cfIds) ==>
      r.cf == 0.0 && r.movieId !in cfIds && Candidate(r.movieId, r.semantic) in sem
    decreases |sem|
  {
    if sem != [] {
      SemOnlyRowsSpec(sem[1..], cfIds);
      var head := if sem[0].movieId in cfIds then [] else [Row(sem[0].movieId, 0.0, sem[0].score)];
      var rest := SemOnlyRows(sem[1..], cfIds);
      assert SemOnlyRows(sem, cfIds) == head + rest;
      RowIdsAppend(head, rest);
      CandIdsCons(sem);
      assert RowIds(head) == {sem[0].movieId} - cfIds by {
        if head != [] { assert head[0] in head; }
      }
      forall r | r in rest ensures Candidate(r.movieId, r.semantic) in sem {
        assert Candidate(r.movieId, r.semantic) in sem[1..];
      }
    }
  }

  lemma RowIdsAppend(a: seq<Row>, b: seq<Row>)
    ensures RowIds(a + b) == RowIds(a) + RowIds(b)
  {
    forall m | m in RowIds(a + b) ensures m in RowIds(a) + RowIds(b) {
      var i :| 0 <= i < |a + b| && (a + b)[i].movieId == m;
      if i >= |a| { assert b[i - |a|].movieId == m; }
    }
    forall m | m in RowIds(a) ensures m in RowIds(a + b) {
      var i :| 0 <= i < |a| && a[i].movieId == m;
      assert (a + b)[i].movieId == m;
    }
    forall m | m in RowIds(b) ensures m in RowIds(a + b) {
      var i :| 0 <= i < |b| && b[i].movieId == m;
      assert (a + b)[|a| + i].movieId == m;
    }
  }

  lemma CandIdsCons(cs: seq<Candidate>)
    requires cs != []
    ensures CandIds(cs) == {cs[0].movieId} + CandIds(cs[1..])
  {
    forall m | m in CandIds(cs) ensures m in {cs[0].movieId} + CandIds(cs[1..]) {
      var i :| 0 <= i < |cs| && cs[i].movieId == m;
      if i > 0 { assert cs[1..][i - 1].movieId == m; }
    }
    forall m | m in CandIds(cs[1..]) ensures m in CandIds(cs) {
      var i :| 0 <= i < |cs| - 1 && cs[1..][i].movieId == m;
      assert cs[i + 1].movieId == m;
    }
  }

  /** The outer merge holds exactly the ids of both sides; each row's score on a side is
      one that side returned for that id, or 0 when that side lacks the id. */
  lemma MergeSpec(cf: seq<Candidate>, sem: seq<Candidate>)
    ensures RowIds(Merge(cf, sem)) == CandIds(cf) + CandIds(sem)
    ensures forall r :: r in Merge(cf, sem) ==>
      if r.movieId in CandIds(cf) then Candidate(r.movieId, r.cf) in cf else r.cf == 0.0
    ensures forall r :: r in Merge(cf, sem) ==>
      if r.movieId in CandIds(sem) then Candidate(r.movieId, r.semantic) in sem else r.semantic == 0.0
    ensures cf == [] && sem == [] <==> Merge(cf, sem) == []
  {
    CfRowsSpec(cf, sem);
    SemOnlyRowsSpec(sem, CandIds(cf));
    RowIdsAppend(CfRows(cf, sem), SemOnlyRows(sem, CandIds(cf)));
    forall r | r in Merge(cf, sem) && r.movieId in CandIds(cf) ensures Candidate(r.movieId, r.cf) in cf {
    }
    if cf != [] {
      assert cf[0].movieId in CandIds(cf);
    } else if sem != [] {
      assert sem[0].movieId in CandIds(sem);
    }
  }

  /** The largest value of a column over the first `k` rows. */
  function PrefixMax(rows: seq<Row>, col: Column, k: nat): real
    requires 1 <= k <= |rows|
  {
    if k == 1 then Get(rows[0], col) else Max(PrefixMax(rows, col, k - 1), Get(rows[k - 1], col))
  }

  /** `float(df[col].max()) if len(df) else 0.0`. */
  function ColMax(rows: seq<Row>, col: Column): real {
    if rows == [] then 0.0 else PrefixMax(rows, col, |rows|)
  }

  lemma {:induction false} PrefixMaxSpec(rows: seq<Row>, col: Column, k: nat)
    requires 1 <= k <= |rows|
    ensures forall j :: 0 <= j < k ==> Get(rows[j], col) <= PrefixMax(rows, col, k)
    ensures exists j :: 0 <= j < k && Get(rows[j], col) == PrefixMax(rows, col, k)
  {
    if k > 1 {
      PrefixMaxSpec(rows, col, k - 1);
      if Get(rows[k - 1], col) > PrefixMax(rows, col, k - 1) {
        assert Get(rows[k - 1], col) == PrefixMax(rows, col, k);
      }
    } else {
      assert Get(rows[0], col) == PrefixMax(rows, col, 1);
    }
  }

  /** The column maximum bounds the column and is one of its values. */
  lemma ColMaxSpec(rows: seq<Row>, col: Column)
    requires rows != []
    ensures forall j :: 0 <= j < |rows| ==> Get(rows[j], col) <= ColMax(rows, col)
    ensures exists j :: 0 <= j < |rows| && Get(rows[j], col) == ColMax(rows, col)
  {
    PrefixMaxSpec(rows, col, |rows|);
  }

  /** A bound that some row attains is the column maximum. */
  lemma ColMaxUnique(rows: seq<Row>, col: Column, m: real)
    requires forall j :: 0 <= j < |rows| ==> Get(rows[j], col) <= m
    requires exists j :: 0 <= j < |rows| && Get(rows[j], col) == m
    ensures ColMax(rows, col) == m
  {
    ColMaxSpec(rows, col);
  }

  /** One pass of the normalisation loop: `df[col] = df[col] / mx` when `mx > 0`. */
  function NormalizeColumn(rows: seq<Row>, col: Column): seq<Row> {
    var mx := ColMax(rows, col);
    if mx > 0.0 then seq(|rows|, j requires 0 <= j < |rows| => With(rows[j], col, Get(rows[j], col) / mx))
    else rows
  }

  /** Both passes, CF column first. */
  function Normalized(rows: seq<Row>): seq<Row> {
    NormalizeColumn(NormalizeColumn(rows, CfScore), SemanticScore)
  }

  /** The normalisation loop of both rankers: each signal column, CF first, is divided
      by its maximum when that is positive. */
  method NormalizeColumns(merged: seq<Row>) returns (df: seq<Row>)
    ensures df == Normalized(merged)
  {
    df := merged;
    var cols := [CfScore, SemanticScore];
    var c := 0;
    while c < |cols|
      invariant 0 <= c <= |cols|
      invariant df == if c == 0 then merged else if c == 1 then NormalizeColumn(merged, CfScore) else Normalized(merged)
    {
      var col := cols[c];
      var prev := df;
      var mx := ColMax(prev, col);
      if mx > 0.0 {
        df := seq(|prev|, j requires 0 <= j < |prev| => With(prev[j], col, Get(prev[j], col) / mx));
      }
      assert df == NormalizeColumn(prev, col);
      c := c + 1;
    }
  }

  lemma DivideByMax(v: real, mx: real)
    requires mx > 0.0 && v <= mx
    ensures v / mx <= 1.0
    ensures v >= 0.0 ==> v / mx >= 0.0
    ensures v == mx ==> v / mx == 1.0
  {
    var q := v / mx;
    assert q * mx == v;
  }

  /** A column with a positive maximum is divided by it, so its maximum becomes 1 and its
      non-negative entries land in [0, 1]; a column whose maximum is not positive is left
      as it was.  Ids and the other column never change. */
  lemma NormalizeColumnSpec(rows: seq<Row>, col: Column, other: Column)
    requires other != col
    ensures var out := NormalizeColumn(rows, col);
      && |out| == |rows|
      && (forall j :: 0 <= j < |rows| ==> out[j].movieId == rows[j].movieId)
      && (forall j :: 0 <= j < |rows| ==> Get(out[j], other) == Get(rows[j], other))
      && (ColMax(rows, col) <= 0.0 ==> out == rows)
      && (ColMax(rows, col) > 0.0 ==>
            && ColMax(out, col) == 1.0
            && (forall j :: 0 <= j < |rows| ==> Get(out[j], col) == Get(rows[j], col) / ColMax(rows, col))
            && (forall j :: 0 <= j < |rows| && Get(rows[j], col) >= 0.0 ==> 0.0 <= Get(out[j], col) <= 1.0))
  {
    var mx := ColMax(rows, col);
    var out := NormalizeColumn(rows, col);
    if mx > 0.0 {
      ColMaxSpec(rows, col);
      var top :| 0 <= top < |rows| && Get(rows[top], col) == mx;
      forall j | 0 <= j < |rows|
        ensures Get(out[j], col) <= 1.0
        ensures Get(rows[j], col) >= 0.0 ==> Get(out[j], col) >= 0.0
      {
        DivideByMax(Get(rows[j], col), mx);
      }
      DivideByMax(Get(rows[top], col), mx);
      ColMaxUnique(out, col, 1.0);
    }
  }

  /** Both passes keep the rows and their ids. */
  lemma NormalizedShape(rows: seq<Row>)
    ensures |Normalized(rows)| == |rows|
    ensures forall j :: 0 <= j < |rows| ==> Normalized(rows)[j].movieId == rows[j].movieId
  {
    NormalizeColumnSpec(rows, CfScore, SemanticScore);
    NormalizeColumnSpec(NormalizeColumn(rows, CfScore), SemanticScore, CfScore);
  }

  /** With non-negative retrieval scores, after both passes every signal lies in [0, 1]. */
  lemma NormalizedInUnit(rows: seq<Row>)
    requires forall j :: 0 <= j < |rows| ==> rows[j].cf >= 0.0 && rows[j].semantic >= 0.0
    ensures |Normalized(rows)| == |rows|
    ensures forall j :: 0 <= j < |rows| ==> Normalized(rows)[j].movieId == rows[j].movieId
    ensures forall j :: 0 <= j < |rows| ==>
      0.0 <= Normalized(rows)[j].cf <= 1.0 && 0.0 <= Normalized(rows)[j].semantic <= 1.0
  {
    var r1 := NormalizeColumn(rows, CfScore);
    NormalizeColumnSpec(rows, CfScore, SemanticScore);
    NormalizeColumnSpec(r1, SemanticScore, CfScore);
    if rows != [] {
      ColMaxSpec(rows, CfScore);
      ColMaxSpec(r1, SemanticScore);
    }
  }

  /** The `Merge` rows' scores are all scores the tools returned. */
  lemma MergeNonNegative(cf: seq<Candidate>, sem: seq<Candidate>)
    requires forall i :: 0 <= i < |cf| ==> cf[i].score >= 0.0
    requires forall i :: 0 <= i < |sem| ==> sem[i].score >= 0.0
    ensures forall j :: 0 <= j < |Merge(cf, sem)| ==>
      Merge(cf, sem)[j].cf >= 0.0 && Merge(cf, sem)[j].semantic >= 0.0
  {
    MergeSpec(cf, sem);
    forall j | 0 <= j < |Merge(cf, sem)|
      ensures Merge(cf, sem)[j].cf >= 0.0 && Merge(cf, sem)[j].semantic >= 0.0
    {
      var r := Merge(cf, sem)[j];
      assert r in Merge(cf, sem);
      if r.movieId in CandIds(cf) {
        var i :| 0 <= i < |cf| && cf[i] == Candidate(r.movieId, r.cf);
      }
      if r.movieId in CandIds(sem) {
        var i :| 0 <= i < |sem| && sem[i] == Candidate(r.movieId, r.semantic);
      }
    }
  }

  /** Non-increasing by `key`. */
  predicate SortedDesc<T>(s: seq<T>, key: T -> real) {
    forall i, j :: 0 <= i < j < |s| ==> key(s[i]) >= key(s[j])
  }

  function Insert<T>(x: T, s: seq<T>, key: T -> real): (r: seq<T>)
    ensures |r| == |s| + 1
    decreases |s|
  {
    if s == [] then [x]
    else if key(x) >= key(s[0]) then [x] + s
    else [s[0]] + Insert(x, s[1..], key)
  }

  /** `sort_values(key, ascending=False)`.  Equal keys may come out in any order the
      library chooses, so nothing is claimed about them. */
  function SortDesc<T>(s: seq<T>, key: T -> real): (r: seq<T>)
    ensures |r| == |s|
    decreases |s|
  {
    if s == [] then [] else Insert(s[0], SortDesc(s[1..], key), key)
  }

  /** Every key of `s` is at most `b`. */
  predicate BoundedBy<T>(s: seq<T>, key: T -> real, b: real) {
    forall j :: 0 <= j < |s| ==> key(s[j]) <= b
  }

  lemma {:induction false} InsertMultiset<T>(x: T, s: seq<T>, key: T -> real)
    ensures multiset(Insert(x, s, key)) == multiset(s) + multiset{x}
    decreases |s|
  {
    if s != [] {
      assert s == [s[0]] + s[1..];
      if key(x) < key(s[0]) {
        InsertMultiset(x, s[1..], key);
      }
    }
  }

  lemma {:induction false} InsertBounded<T>(x: T, s: seq<T>, key: T -> real, b: real)
    requires BoundedBy(s, key, b) && key(x) <= b
    ensures BoundedBy(Insert(x, s, key), key, b)
    decreases |s|
  {
    if s != [] && key(x) < key(s[0]) {
      assert BoundedBy(s[1..], key, b) by {
        forall j | 0 <= j < |s| - 1 ensures key(s[1..][j]) <= b { assert s[1..][j] == s[j + 1]; }
      }
      InsertBounded(x, s[1..], key, b);
    }
  }

  lemma {:induction false} InsertSorted<T>(x: T, s: seq<T>, key: T -> real)
    requires SortedDesc(s, key)
    ensures SortedDesc(Insert(x, s, key), key)
    decreases |s|
  {
    if s != [] {
      if key(x) >= key(s[0]) {
        assert forall j :: 0 <= j < |s| ==> key(s[0]) >= key(s[j]);
      } else {
        var tail := s[1..];
        assert SortedDesc(tail, key) by {
          forall i, j | 0 <= i < j < |tail| ensures key(tail[i]) >= key(tail[j]) {
            assert tail[i] == s[i + 1] && tail[j] == s[j + 1];
          }
        }
        assert BoundedBy(tail, key, key(s[0])) by {
          forall j | 0 <= j < |tail| ensures key(tail[j]) <= key(s[0]) { assert tail[j] == s[j + 1]; }
        }
        InsertSorted(x, tail, key);
        InsertBounded(x, tail, key, key(s[0]));
        var rest := Insert(x, tail, key);
        var out := [s[0]] + rest;
        forall i, j | 0 <= i < j < |out| ensures key(out[i]) >= key(out[j]) {
          assert out[j] == rest[j - 1];
          if i > 0 { assert out[i] == rest[i - 1]; }
        }
      }
    }
  }

  /** The sort returns a non-increasing permutation of its input. */
  lemma {:induction false} SortDescSpec<T>(s: seq<T>, key: T -> real)
    ensures SortedDesc(SortDesc(s, key), key)
    ensures multiset(SortDesc(s, key)) == multiset(s)
    ensures |SortDesc(s, key)| == |s|
    decreases |s|
  {
    if s != [] {
      SortDescSpec(s[1..], key);
      InsertSorted(s[0], SortDesc(s[1..], key), key);
      InsertMultiset(s[0], SortDesc(s[1..], key), key);
      assert s == [s[0]] + s[1..];
    }
  }

  /** The head of a sequence holds a sub-multiset of it. */
  lemma TakeMultiset<T>(s: seq<T>, k: nat)
    ensures multiset(Take(s, k)) <= multiset(s)
  {
    var top := Take(s, k);
    assert s == top + s[|top|..];
  }

  /** An element of a sorted sequence missing from its head scores no higher than any
      element of the head. */
  lemma BelowHead<T>(sorted: seq<T>, key: T -> real, k: nat, x: T, y: T)
    requires SortedDesc(sorted, key)
    requires x in sorted && x !in Take(sorted, k) && y in Take(sorted, k)
    ensures key(y) >= key(x)
  {
    var top := Take(sorted, k);
    var jx :| 0 <= jx < |sorted| && sorted[jx] == x;
    var jy :| 0 <= jy < |top| && top[jy] == y;
    assert jx >= |top|;
    assert sorted[jy] == y;
  }

  /** Keeping the head of a sorted sequence keeps the largest keys: every element of the
      input left out has a key no larger than any element kept. */
  lemma TopOfSorted<T>(s: seq<T>, key: T -> real, k: nat)
    ensures var top := Take(SortDesc(s, key), k);
      && SortedDesc(top, key)
      && multiset(top) <= multiset(s)
      && forall x, y :: x in s && x !in top && y in top ==> key(y) >= key(x)
  {
    var sorted := SortDesc(s, key);
    SortDescSpec(s, key);
    var top := Take(sorted, k);
    TakeMultiset(sorted, k);
    forall x, y | x in s && x !in top && y in top ensures key(y) >= key(x) {
      assert x in multiset(s);
      assert x in sorted;
      BelowHead(sorted, key, k, x, y);
    }
  }
}

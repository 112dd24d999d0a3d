/** The baseline linear-fusion ranker (rankers/ranker_v1.py): the score is the plan's
    weighted sum of the two normalised retrieval signals, with no advantage weighting. */
module RankerV1 {
  import opened Domain
  import opened Config
  import opened Fusion
  import opened Arith

  /** A merged row with its `score` column. */
  datatype Scored = Scored(movieId: int, cf: real, semantic: real, score: real)

  function ScoreRow(r: Row, wCf: real, wSem: real): Scored {
    Scored(r.movieId, r.cf, r.semantic, wCf * r.cf + wSem * r.semantic)
  }

  function ScoreOf(s: Scored): real {
    s.score
  }

  /** One output record; only the two input signals are kept. */
  function ToRec(s: Scored, movies: map<int, Movie>): Rec {
    var meta := if s.movieId in movies then movies[s.movieId] else Movie("Unknown", "");
    Rec(s.movieId, meta.title, meta.genres, s.score, LinearSignals(s.cf, s.semantic))
  }

  function Pool(cf: seq<Candidate>, sem: seq<Candidate>, plan: Plan): seq<Scored> {
    var rows := Normalized(Merge(cf, sem));
    seq(|rows|, j requires 0 <= j < |rows| => ScoreRow(rows[j], plan.weightCf, plan.weightSemantic))
  }

  function Top(cf: seq<Candidate>, sem: seq<Candidate>, plan: Plan): seq<Scored> {
    Take(SortDesc(Pool(cf, sem, plan), ScoreOf), FinalK)
  }

  function Recs(top: seq<Scored>, movies: map<int, Movie>): seq<Rec> {
    seq(|top|, j requires 0 <= j < |top| => ToRec(top[j], movies))
  }

  /** What `RankerV1.__call__` returns. */
  function RankSpec(cf: seq<Candidate>, sem: seq<Candidate>, plan: Plan, movies: map<int, Movie>): seq<Rec> {
    if cf == [] && sem == [] then [] else Recs(Top(cf, sem, plan), movies)
  }

  /** `RankerV1.__call__` step by step: merge, the normalisation loop, the score column,
      sort and head, then the loop that builds the records. */
  method Rank(cf: seq<Candidate>, sem: seq<Candidate>, plan: Plan, movies: map<int, Movie>)
    returns (recs: seq<Rec>)
    ensures recs == RankSpec(cf, sem, plan, movies)
  {
    if cf == [] && sem == [] {
      return [];
    }
    var merged := Merge(cf, sem);
    var df := NormalizeColumns(merged);
    assert df == Normalized(merged);
    var scored := seq(|df|, j requires 0 <= j < |df| => ScoreRow(df[j], plan.weightCf, plan.weightSemantic));
    assert scored == Pool(cf, sem, plan);
    var top := Take(SortDesc(scored, ScoreOf), FinalK);
    assert top == Top(cf, sem, plan);
    recs := BuildRecs(top, movies);
  }

  /** The loop over the kept rows that appends one record per row. */
  method BuildRecs(top: seq<Scored>, movies: map<int, Movie>) returns (recs: seq<Rec>)
    ensures recs == Recs(top, movies)
  {
    recs := [];
    var i := 0;
    while i < |top|
      invariant 0 <= i <= |top| && |recs| == i
      invariant forall j :: 0 <= j < i ==> recs[j] == ToRec(top[j], movies)
    {
      recs := recs + [ToRec(top[i], movies)];
      i := i + 1;
    }
  }

  lemma RecsShape(top: seq<Scored>, movies: map<int, Movie>)
    ensures |Recs(top, movies)| == |top|
    ensures forall k :: 0 <= k < |top| ==>
      Recs(top, movies)[k].movieId == top[k].movieId && Recs(top, movies)[k].score == top[k].score
    ensures forall r :: r in Recs(top, movies) ==> exists k :: 0 <= k < |top| && r == ToRec(top[k], movies)
  {
  }

  /** The kept rows are sorted pool rows, `min(final_k, |pool|)` of them, none repeated
      beyond its pool count, and no cut row scores higher than a kept one. */
  lemma TopShape(cf: seq<Candidate>, sem: seq<Candidate>, plan: Plan)
    ensures var top := Top(cf, sem, plan);
      && SortedDesc(top, ScoreOf)
      && (forall x :: x in top ==> x in Pool(cf, sem, plan))
      && multiset(top) <= multiset(Pool(cf, sem, plan))
      && |top| == (if |Merge(cf, sem)| <= FinalK then |Merge(cf, sem)| else FinalK)
      && (forall x, y :: x in Pool(cf, sem, plan) && x !in top && y in top ==> ScoreOf(y) >= ScoreOf(x))
  {
    var pool := Pool(cf, sem, plan);
    NormalizedShape(Merge(cf, sem));
    SortDescSpec(pool, ScoreOf);
    TopOfSorted(pool, ScoreOf, FinalK);
    var top := Top(cf, sem, plan);
    forall x | x in top ensures x in pool {
      assert x in multiset(top);
    }
  }

  /** Records of kept rows: a row whose record is absent scores no higher than any
      record, given that it scores no higher than any row kept. */
  lemma RecsTopK(pool: seq<Scored>, top: seq<Scored>, movies: map<int, Movie>, x: Scored)
    requires forall a, b :: a in pool && a !in top && b in top ==> ScoreOf(b) >= ScoreOf(a)
    requires x in pool && ToRec(x, movies) !in Recs(top, movies)
    ensures forall r :: r in Recs(top, movies) ==> r.score >= x.score
  {
    RecsShape(top, movies);
    assert x !in top by {
      forall k | 0 <= k < |top| ensures top[k] != x {
        assert Recs(top, movies)[k] == ToRec(top[k], movies);
      }
    }
    forall r | r in Recs(top, movies) ensures r.score >= x.score {
      var k :| 0 <= k < |top| && r == ToRec(top[k], movies);
      assert top[k] in top;
    }
  }

  /** Truncation keeps the best: a pool row whose record was cut scores no higher than
      any record kept. */
  lemma RankIsTopK(cf: seq<Candidate>, sem: seq<Candidate>, plan: Plan, movies: map<int, Movie>, x: Scored)
    requires x in Pool(cf, sem, plan)
    requires ToRec(x, movies) !in RankSpec(cf, sem, plan, movies)
    ensures forall r :: r in RankSpec(cf, sem, plan, movies) ==> r.score >= x.score
  {
    if cf != [] || sem != [] {
      TopShape(cf, sem, plan);
      RecsTopK(Pool(cf, sem, plan), Top(cf, sem, plan), movies, x);
    }
  }

  /** Every pool row's id is a candidate id, and its score is the weighted sum of its
      normalised signals. */
  lemma PoolShape(cf: seq<Candidate>, sem: seq<Candidate>, plan: Plan)
    ensures forall x :: x in Pool(cf, sem, plan) ==> x.movieId in CandIds(cf) + CandIds(sem)
    ensures forall x :: x in Pool(cf, sem, plan) ==>
      x.score == plan.weightCf * x.cf + plan.weightSemantic * x.semantic
  {
    var merged := Merge(cf, sem);
    var rows := Normalized(merged);
    NormalizedShape(merged);
    MergeSpec(cf, sem);
    var pool := Pool(cf, sem, plan);
    forall x | x in pool
      ensures x.movieId in CandIds(cf) + CandIds(sem)
      ensures x.score == plan.weightCf * x.cf + plan.weightSemantic * x.semantic
    {
      var j :| 0 <= j < |pool| && pool[j] == x;
      assert x == ScoreRow(rows[j], plan.weightCf, plan.weightSemantic);
      assert x.movieId == merged[j].movieId;
      assert merged[j].movieId in RowIds(merged);
    }
  }

  /** The result is at most `final_k` long, sorted by non-increasing score, holds only
      ids some tool returned, and is empty when both tools returned nothing. */
  lemma RankShape(cf: seq<Candidate>, sem: seq<Candidate>, plan: Plan, movies: map<int, Movie>)
    ensures var recs := RankSpec(cf, sem, plan, movies);
      && |recs| == (if |Merge(cf, sem)| <= FinalK then |Merge(cf, sem)| else FinalK)
      && |recs| <= FinalK
      && (forall i, j :: 0 <= i < j < |recs| ==> recs[i].score >= recs[j].score)
      && (forall k :: 0 <= k < |recs| ==> recs[k].movieId in CandIds(cf) + CandIds(sem))
      && (cf == [] && sem == [] ==> recs == [])
  {
    MergeSpec(cf, sem);
    TopShape(cf, sem, plan);
    PoolShape(cf, sem, plan);
    var top := Top(cf, sem, plan);
    RecsShape(top, movies);
    forall k | 0 <= k < |top| ensures top[k].movieId in CandIds(cf) + CandIds(sem) {
      assert top[k] in top;
    }
  }

  /** A record of the linear ranker as `__call__` builds it. */
  predicate RecordShape(r: Rec, plan: Plan, movies: map<int, Movie>) {
    && r.signals.LinearSignals?
    && r.score == plan.weightCf * r.signals.cf + plan.weightSemantic * r.signals.semantic
    && (r.movieId in movies ==> r.title == movies[r.movieId].title && r.genres == movies[r.movieId].genres)
    && (r.movieId !in movies ==> r.title == "Unknown" && r.genres == "")
  }

  predicate Fused(x: Scored, plan: Plan) {
    x.score == plan.weightCf * x.cf + plan.weightSemantic * x.semantic
  }

  lemma RecsShapeFused(top: seq<Scored>, plan: Plan, movies: map<int, Movie>)
    requires forall x :: x in top ==> Fused(x, plan)
    ensures forall r :: r in Recs(top, movies) ==> RecordShape(r, plan, movies)
  {
    forall r | r in Recs(top, movies) ensures RecordShape(r, plan, movies) {
      var k :| 0 <= k < |top| && Recs(top, movies)[k] == r;
      assert top[k] in top;
    }
  }

  /** Each record's score is `w_cf * cf + w_sem * sem` of its own signals, which are the
      only two it carries; catalogue metadata defaults to "Unknown" and "". */
  lemma RankRecords(cf: seq<Candidate>, sem: seq<Candidate>, plan: Plan, movies: map<int, Movie>)
    ensures forall r :: r in RankSpec(cf, sem, plan, movies) ==> RecordShape(r, plan, movies)
  {
    if cf != [] || sem != [] {
      PoolShape(cf, sem, plan);
      TopShape(cf, sem, plan);
      var top := Top(cf, sem, plan);
      forall x | x in top ensures Fused(x, plan) {
        assert x in Pool(cf, sem, plan);
      }
      RecsShapeFused(top, plan, movies);
    }
  }

  /** Signals in [0, 1] and non-negative weights summing to 1 give a score in [0, 1]. */
  lemma ScoreInUnit(r: Row, plan: Plan)
    requires 0.0 <= r.cf <= 1.0 && 0.0 <= r.semantic <= 1.0
    requires 0.0 <= plan.weightCf && 0.0 <= plan.weightSemantic && plan.weightCf + plan.weightSemantic == 1.0
    ensures 0.0 <= ScoreRow(r, plan.weightCf, plan.weightSemantic).score <= 1.0
  {
    var a, b := plan.weightCf, plan.weightSemantic;
    WeightedSignal(a, r.cf);
    WeightedSignal(b, r.semantic);
    SharesBound(a, b, a * r.cf, b * r.semantic);
  }

  lemma PoolInUnit(cf: seq<Candidate>, sem: seq<Candidate>, plan: Plan)
    requires forall i :: 0 <= i < |cf| ==> cf[i].score >= 0.0
    requires forall i :: 0 <= i < |sem| ==> sem[i].score >= 0.0
    requires 0.0 <= plan.weightCf && 0.0 <= plan.weightSemantic && plan.weightCf + plan.weightSemantic == 1.0
    ensures forall x :: x in Pool(cf, sem, plan) ==> 0.0 <= x.score <= 1.0
  {
    var merged := Merge(cf, sem);
    MergeNonNegative(cf, sem);
    NormalizedInUnit(merged);
    var rows := Normalized(merged);
    var pool := Pool(cf, sem, plan);
    forall x | x in pool ensures 0.0 <= x.score <= 1.0 {
      var j :| 0 <= j < |pool| && pool[j] == x;
      ScoreInUnit(rows[j], plan);
    }
  }

  lemma RecsBounded(top: seq<Scored>, movies: map<int, Movie>)
    requires forall x :: x in top ==> 0.0 <= x.score <= 1.0
    ensures forall r :: r in Recs(top, movies) ==> 0.0 <= r.score <= 1.0
  {
    forall r | r in Recs(top, movies) ensures 0.0 <= r.score <= 1.0 {
      var k :| 0 <= k < |top| && Recs(top, movies)[k] == r;
      assert top[k] in top;
    }
  }

  /** With non-negative retrieval scores and non-negative weights summing to 1, every
      score lies in [0, 1]. */
  lemma RankScoresInUnit(cf: seq<Candidate>, sem: seq<Candidate>, plan: Plan, movies: map<int, Movie>)
    requires forall i :: 0 <= i < |cf| ==> cf[i].score >= 0.0
    requires forall i :: 0 <= i < |sem| ==> sem[i].score >= 0.0
    requires 0.0 <= plan.weightCf && 0.0 <= plan.weightSemantic && plan.weightCf + plan.weightSemantic == 1.0
    ensures forall r :: r in RankSpec(cf, sem, plan, movies) ==> 0.0 <= r.score <= 1.0
  {
    if cf != [] || sem != [] {
      PoolInUnit(cf, sem, plan);
      TopShape(cf, sem, plan);
      RecsBounded(Top(cf, sem, plan), movies);
    }
  }
}

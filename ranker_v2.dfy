/** The advantage-weighted fusion ranker (ranker_v2.py): utility is the weighted sum of
    the normalised retrieval signals, the item's popularity is the baseline, the
    advantage is utility minus alpha times the baseline, and a novelty boost of lambda
    times one minus the baseline is added. */
module RankerV2 {
  import opened Domain
  import opened Config
  import opened Fusion
  import opened Arith
  import opened ItemStats

  /** A merged row with the columns the ranker adds to the frame. */
  datatype Scored = Scored(
    movieId: int, cf: real, semantic: real, utility: real,
    baseline: real, advantage: real, noveltyBoost: real, score: real)

  const DefaultWeightCf: real := 0.4
  const DefaultWeightSemantic: real := 0.6

  /** The fusion weights: the plan's, or 0.4 / 0.6 when the state has no plan. */
  function Weights(plan: Option<Plan>): (real, real) {
    match plan
    case Some(p) => (p.weightCf, p.weightSemantic)
    case None => (DefaultWeightCf, DefaultWeightSemantic)
  }

  /** The utility, baseline, advantage, novelty and score columns of one row. */
  function ScoreRow(r: Row, wCf: real, wSem: real, stats: Stats): Scored {
    var utility := wCf * r.cf + wSem * r.semantic;
    var baseline := GetPopularity(stats, r.movieId);
    var advantage := utility - AdvantageAlpha * baseline;
    var novelty := NoveltyLambda * (1.0 - baseline);
    Scored(r.movieId, r.cf, r.semantic, utility, baseline, advantage, novelty, advantage + novelty)
  }

  function ScoreOf(s: Scored): real {
    s.score
  }

  /** One output record; a movie missing from the catalogue is "Unknown" with no genres. */
  function ToRec(s: Scored, movies: map<int, Movie>): Rec {
    var meta := if s.movieId in movies then movies[s.movieId] else Movie("Unknown", "");
    Rec(s.movieId, meta.title, meta.genres, s.score,
        AdvantageSignals(s.cf, s.semantic, s.utility, s.baseline, s.advantage, s.noveltyBoost))
  }

  /** The scored candidate pool before sorting. */
  function Pool(cf: seq<Candidate>, sem: seq<Candidate>, plan: Option<Plan>, stats: Stats): seq<Scored> {
    var rows := Normalized(Merge(cf, sem));
    var w := Weights(plan);
    seq(|rows|, j requires 0 <= j < |rows| => ScoreRow(rows[j], w.0, w.1, stats))
  }

  /** The kept rows: the best `final_k` of the pool by score. */
  function Top(cf: seq<Candidate>, sem: seq<Candidate>, plan: Option<Plan>, stats: Stats): seq<Scored> {
    Take(SortDesc(Pool(cf, sem, plan, stats), ScoreOf), FinalK)
  }

  /** The records built from the kept rows, in order. */
  function Recs(top: seq<Scored>, movies: map<int, Movie>): seq<Rec> {
    seq(|top|, j requires 0 <= j < |top| => ToRec(top[j], movies))
  }

  /** What `RankerV2.__call__` returns. */
  function RankSpec(cf: seq<Candidate>, sem: seq<Candidate>, plan: Option<Plan>, stats: Stats,
                    movies: map<int, Movie>): seq<Rec> {
    if cf == [] && sem == [] then [] else Recs(Top(cf, sem, plan, stats), movies)
  }

  /** `RankerV2.__call__` step by step: merge, the normalisation loop over the two signal
      columns, the score columns, sort and head, then the loop that builds the records. */
  method Rank(cf: seq<Candidate>, sem: seq<Candidate>, plan: Option<Plan>, stats: Stats,
              movies: map<int, Movie>) returns (recs: seq<Rec>)
    ensures recs == RankSpec(cf, sem, plan, stats, movies)
  {
    if cf == [] && sem == [] {
      return [];
    }
    var merged := Merge(cf, sem);
    var df := NormalizeColumns(merged);
    var w := Weights(plan);
    var scored := seq(|df|, j requires 0 <= j < |df| => ScoreRow(df[j], w.0, w.1, stats));
    assert scored == Pool(cf, sem, plan, stats);
    var top := Take(SortDesc(scored, ScoreOf), FinalK);
    assert top == Top(cf, sem, plan, stats);
    recs := BuildRecs(top, movies);
  }

  /** The loop over the kept rows that appends one record per row. */
  method BuildRecs(top: seq<Scored>, movies: map<int, Movie>) returns (recs: seq<Rec>)
    ensures recs == Recs(top, movies)
  {
    recs := [];
    var i := 0;
    while i < |top|
      invariant 0 <= i <= |top| && |recs| == i
      invariant forall j :: 0 <= j < i ==> recs[j] == ToRec(top[j], movies)
    {
      recs := recs + [ToRec(top[i], movies)];
      i := i + 1;
    }
  }

  /** A row holding the columns `ScoreRow` computes from its own signals. */
  predicate WellScored(x: Scored, w: (real, real), stats: Stats) {
    x == ScoreRow(Row(x.movieId, x.cf, x.semantic), w.0, w.1, stats)
  }

  /** The pool has one scored row per merged row, with the same id. */
  lemma PoolShape(cf: seq<Candidate>, sem: seq<Candidate>, plan: Option<Plan>, stats: Stats)
    ensures |Pool(cf, sem, plan, stats)| == |Merge(cf, sem)|
    ensures forall j :: 0 <= j < |Merge(cf, sem)| ==> Pool(cf, sem, plan, stats)[j].movieId == Merge(cf, sem)[j].movieId
    ensures forall x :: x in Pool(cf, sem, plan, stats) ==> x.movieId in CandIds(cf) + CandIds(sem)
    ensures forall x :: x in Pool(cf, sem, plan, stats) ==> WellScored(x, Weights(plan), stats)
  {
    var merged := Merge(cf, sem);
    NormalizedShape(merged);
    MergeSpec(cf, sem);
    var pool := Pool(cf, sem, plan, stats);
    forall x | x in pool ensures x.movieId in CandIds(cf) + CandIds(sem) {
      var j :| 0 <= j < |pool| && pool[j] == x;
      assert merged[j] in merged;
    }
  }

  /** The kept rows are sorted, come from the pool and number `min(final_k, |pool|)`; a
      pool row left out scores no higher than any row kept. */
  lemma TopShape(cf: seq<Candidate>, sem: seq<Candidate>, plan: Option<Plan>, stats: Stats)
    ensures var top := Top(cf, sem, plan, stats);
      && SortedDesc(top, ScoreOf)
      && (forall x :: x in top ==> x in Pool(cf, sem, plan, stats))
      && |top| == (if |Merge(cf, sem)| <= FinalK then |Merge(cf, sem)| else FinalK)
      && (forall x, y :: x in Pool(cf, sem, plan, stats) && x !in top && y in top ==> ScoreOf(y) >= ScoreOf(x))
  {
    var pool := Pool(cf, sem, plan, stats);
    PoolShape(cf, sem, plan, stats);
    SortDescSpec(pool, ScoreOf);
    TopOfSorted(pool, ScoreOf, FinalK);
    var top := Top(cf, sem, plan, stats);
    forall x | x in top ensures x in pool {
      assert x in multiset(top);
    }
  }

  /** Records keep the rows' order, ids and scores. */
  lemma RecsShape(top: seq<Scored>, movies: map<int, Movie>)
    ensures |Recs(top, movies)| == |top|
    ensures forall k :: 0 <= k < |top| ==>
      Recs(top, movies)[k].movieId == top[k].movieId && Recs(top, movies)[k].score == top[k].score
    ensures forall r :: r in Recs(top, movies) ==> exists k :: 0 <= k < |top| && r == ToRec(top[k], movies)
  {
  }

  /** The result is at most `final_k` long, is sorted by non-increasing score, recommends
      only ids some tool returned, and is empty when both tools returned nothing. */
  lemma RankShape(cf: seq<Candidate>, sem: seq<Candidate>, plan: Option<Plan>, stats: Stats,
                  movies: map<int, Movie>)
    ensures var recs := RankSpec(cf, sem, plan, stats, movies);
      && |recs| == (if |Merge(cf, sem)| <= FinalK then |Merge(cf, sem)| else FinalK)
      && |recs| <= FinalK
      && (forall i, j :: 0 <= i < j < |recs| ==> recs[i].score >= recs[j].score)
      && (forall k :: 0 <= k < |recs| ==> recs[k].movieId in CandIds(cf) + CandIds(sem))
      && (cf == [] && sem == [] ==> recs == [])
  {
    MergeSpec(cf, sem);
    TopShape(cf, sem, plan, stats);
    PoolShape(cf, sem, plan, stats);
    var top := Top(cf, sem, plan, stats);
    RecsShape(top, movies);
    forall k | 0 <= k < |top| ensures top[k].movieId in CandIds(cf) + CandIds(sem) {
      assert top[k] in top;
    }
  }

  /** A pool no longer than `k` is kept whole. */
  lemma TopKeepsAll(pool: seq<Scored>, k: nat, x: Scored)
    requires |pool| <= k && x in pool
    ensures x in Take(SortDesc(pool, ScoreOf), k)
  {
    SortDescSpec(pool, ScoreOf);
    assert x in multiset(SortDesc(pool, ScoreOf));
  }

  /** When the pool fits, every id either tool returned is recommended. */
  lemma RankKeepsAllWhenSmall(cf: seq<Candidate>, sem: seq<Candidate>, plan: Option<Plan>, stats: Stats,
                              movies: map<int, Movie>, m: int)
    requires |Merge(cf, sem)| <= FinalK
    requires m in CandIds(cf) + CandIds(sem)
    ensures exists k ::
      0 <= k < |RankSpec(cf, sem, plan, stats, movies)| && RankSpec(cf, sem, plan, stats, movies)[k].movieId == m
  {
    MergeSpec(cf, sem);
    PoolShape(cf, sem, plan, stats);
    var pool := Pool(cf, sem, plan, stats);
    var j :| 0 <= j < |Merge(cf, sem)| && Merge(cf, sem)[j].movieId == m;
    assert pool[j].movieId == m;
    TopKeepsAll(pool, FinalK, pool[j]);
    var top := Top(cf, sem, plan, stats);
    var k :| 0 <= k < |top| && top[k] == pool[j];
    RecsShape(top, movies);
    assert cf != [] || sem != [];
    assert RankSpec(cf, sem, plan, stats, movies) == Recs(top, movies);
    assert Recs(top, movies)[k].movieId == m;
  }

  /** Records of kept rows: a row whose record is absent scores no higher than any
      record, given that it scores no higher than any row kept. */
  lemma RecsTopK(pool: seq<Scored>, top: seq<Scored>, movies: map<int, Movie>, x: Scored)
    requires forall a, b :: a in pool && a !in top && b in top ==> ScoreOf(b) >= ScoreOf(a)
    requires x in pool && ToRec(x, movies) !in Recs(top, movies)
    ensures forall r :: r in Recs(top, movies) ==> r.score >= x.score
  {
    RecsShape(top, movies);
    assert x !in top by {
      forall k | 0 <= k < |top| ensures top[k] != x {
        assert Recs(top, movies)[k] == ToRec(top[k], movies);
      }
    }
    forall r | r in Recs(top, movies) ensures r.score >= x.score {
      var k :| 0 <= k < |top| && r == ToRec(top[k], movies);
      assert top[k] in top;
    }
  }

  /** Truncation keeps the best: a pool row whose record was cut scores no higher than
      any record kept. */
  lemma RankIsTopK(cf: seq<Candidate>, sem: seq<Candidate>, plan: Option<Plan>, stats: Stats,
                   movies: map<int, Movie>, x: Scored)
    requires x in Pool(cf, sem, plan, stats)
    requires ToRec(x, movies) !in RankSpec(cf, sem, plan, stats, movies)
    ensures forall r :: r in RankSpec(cf, sem, plan, stats, movies) ==> r.score >= x.score
  {
    if cf != [] || sem != [] {
      TopShape(cf, sem, plan, stats);
      RecsTopK(Pool(cf, sem, plan, stats), Top(cf, sem, plan, stats), movies, x);
    }
  }

  /** The shape of a record built from a row holding its own computed columns. */
  predicate RecordShape(r: Rec, w: (real, real), stats: Stats, movies: map<int, Movie>) {
    var s := r.signals;
    && s.AdvantageSignals?
    && r.score == s.advantage + s.noveltyBoost
    && s.utility == w.0 * s.cf + w.1 * s.semantic
    && s.baselinePopularity == GetPopularity(stats, r.movieId)
    && s.advantage == s.utility - AdvantageAlpha * s.baselinePopularity
    && s.noveltyBoost == NoveltyLambda * (1.0 - s.baselinePopularity)
    && (r.movieId in movies ==> r.title == movies[r.movieId].title && r.genres == movies[r.movieId].genres)
    && (r.movieId !in movies ==> r.title == "Unknown" && r.genres == "")
  }

  lemma RecsShapeScored(top: seq<Scored>, w: (real, real), stats: Stats, movies: map<int, Movie>)
    requires forall x :: x in top ==> WellScored(x, w, stats)
    ensures forall r :: r in Recs(top, movies) ==> RecordShape(r, w, stats, movies)
  {
    forall r | r in Recs(top, movies) ensures RecordShape(r, w, stats, movies) {
      var k :| 0 <= k < |top| && Recs(top, movies)[k] == r;
      assert top[k] in top;
    }
  }

  /** Each record carries its intermediate values, and its score is advantage plus
      novelty: `w_cf * cf + w_sem * sem - alpha * b + lambda * (1 - b)` with `b` the
      item's popularity (0 for an unknown item).  Metadata comes from the catalogue,
      "Unknown" and "" for a movie missing from it. */
  lemma RankRecords(cf: seq<Candidate>, sem: seq<Candidate>, plan: Option<Plan>, stats: Stats,
                    movies: map<int, Movie>)
    ensures forall r :: r in RankSpec(cf, sem, plan, stats, movies) ==>
      RecordShape(r, Weights(plan), stats, movies)
  {
    if cf != [] || sem != [] {
      PoolShape(cf, sem, plan, stats);
      TopShape(cf, sem, plan, stats);
      RecsShapeScored(Top(cf, sem, plan, stats), Weights(plan), stats, movies);
    }
  }

  /** With equal utility, the less popular item scores strictly higher: the advantage
      penalty and the novelty boost both favour it. */
  lemma NoveltyFavoursLessPopular(r1: Row, r2: Row, wCf: real, wSem: real, stats: Stats)
    requires wCf * r1.cf + wSem * r1.semantic == wCf * r2.cf + wSem * r2.semantic
    requires GetPopularity(stats, r1.movieId) < GetPopularity(stats, r2.movieId)
    ensures ScoreRow(r1, wCf, wSem, stats).score > ScoreRow(r2, wCf, wSem, stats).score
  {
  }

  /** With signals in [0, 1], non-negative weights summing to 1 and a popularity in
      [0, 1], the utility lies in [0, 1] and the score in [-alpha, 1 + lambda]. */
  lemma ScoreBounds(r: Row, wCf: real, wSem: real, stats: Stats)
    requires 0.0 <= r.cf <= 1.0 && 0.0 <= r.semantic <= 1.0
    requires 0.0 <= wCf && 0.0 <= wSem && wCf + wSem == 1.0
    requires 0.0 <= GetPopularity(stats, r.movieId) <= 1.0
    ensures -AdvantageAlpha <= ScoreRow(r, wCf, wSem, stats).score <= 1.0 + NoveltyLambda
    ensures 0.0 <= ScoreRow(r, wCf, wSem, stats).utility <= 1.0
  {
    var x, y := r.cf, r.semantic;
    WeightedSignal(wCf, x);
    WeightedSignal(wSem, y);
    SharesBound(wCf, wSem, wCf * x, wSem * y);
  }

  const ExampleCf := [Candidate(1, 0.8), Candidate(2, 0.4)]
  const ExampleSem := [Candidate(2, 0.9), Candidate(3, 0.3)]
  const ExampleStats := Stats(map[1 := 0.9, 2 := 0.3, 3 := 0.1], map[], map[])

  lemma ExampleRows()
    ensures Normalized(Merge(ExampleCf, ExampleSem)) == [Row(1, 1.0, 0.0), Row(2, 0.5, 1.0), Row(3, 0.0, 0.3 / 0.9)]
  {
    var merged := Merge(ExampleCf, ExampleSem);
    assert merged == [Row(1, 0.8, 0.0), Row(2, 0.4, 0.9), Row(3, 0.0, 0.3)];
    assert PrefixMax(merged, CfScore, 2) == 0.8;
    assert ColMax(merged, CfScore) == 0.8;
    var r1 := NormalizeColumn(merged, CfScore);
    assert r1 == [Row(1, 1.0, 0.0), Row(2, 0.5, 0.9), Row(3, 0.0, 0.3)];
    assert PrefixMax(r1, SemanticScore, 2) == 0.9;
    assert ColMax(r1, SemanticScore) == 0.9;
  }

  lemma ExamplePool()
    ensures var pool := Pool(ExampleCf, ExampleSem, None, ExampleStats);
      && |pool| == 3
      && pool[0].movieId == 1 && pool[0].score == -0.12
      && pool[1].movieId == 2 && pool[1].score == 0.76
      && pool[2].movieId == 3 && pool[2].score == 0.32
  {
    ExampleRows();
  }

  /** Sorting three rows whose keys are in the order middle, top, bottom. */
  lemma SortThree(p: seq<Scored>)
    requires |p| == 3 && p[1].score > p[2].score > p[0].score
    ensures SortDesc(p, ScoreOf) == [p[1], p[2], p[0]]
  {
    assert p[2..][1..] == [];
    assert SortDesc(p[2..], ScoreOf) == [p[2]];
    assert p[1..][1..] == p[2..];
    assert SortDesc(p[1..], ScoreOf) == [p[1], p[2]];
    assert Insert(p[0], [p[2]], ScoreOf) == [p[2], p[0]];
  }

  /** A worked example: CF {1: 0.8, 2: 0.4}, semantic {2: 0.9, 3: 0.3}, the default
      weights and popularity {1: 0.9, 2: 0.3, 3: 0.1} rank 2 (0.76), 3 (0.32), 1 (-0.12). */
  lemma WorkedExample()
    ensures var recs := RankSpec(ExampleCf, ExampleSem, None, ExampleStats, map[]);
      && |recs| == 3
      && recs[0].movieId == 2 && recs[0].score == 0.76
      && recs[1].movieId == 3 && recs[1].score == 0.32
      && recs[2].movieId == 1 && recs[2].score == -0.12
  {
    ExamplePool();
    var pool := Pool(ExampleCf, ExampleSem, None, ExampleStats);
    SortThree(pool);
    RecsShape(Top(ExampleCf, ExampleSem, None, ExampleStats), map[]);
  }
}

/** Read-only per-movie statistics built once from the ratings table (item_stats.py):
    popularity as the rating count divided by the largest count, the mean rating
    rescaled from [0.5, 5] to [0, 1], and the raw count. */
module ItemStats {

  /** One row of the ratings table. */
  datatype Rating = Rating(movieId: int, rating: real)

  datatype Stats = Stats(
    popularityNorm: map<int, real>,
    avgRatingNorm: map<int, real>,
    ratingCount: map<int, nat>)

  /** The `as_debug_dict` record. */
  datatype DebugInfo = DebugInfo(movieId: int, popularityNorm: real, avgRatingNorm: real, ratingCount: nat)

  /** The movie ids that occur in the ratings table (the `groupby("movieId")` keys). */
  function Ids(rs: seq<Rating>): set<int> {
    set i | 0 <= i < |rs| :: rs[i].movieId
  }

  /** How many ratings movie `m` has. */
  function Count(rs: seq<Rating>, m: int): nat
    decreases |rs|
  {
    if rs == [] then 0 else (if rs[0].movieId == m then 1 else 0) + Count(rs[1..], m)
  }

  /** The sum of movie `m`'s ratings. */
  function Sum(rs: seq<Rating>, m: int): real
    decreases |rs|
  {
    if rs == [] then 0.0 else (if rs[0].movieId == m then rs[0].rating else 0.0) + Sum(rs[1..], m)
  }

  /** The largest count among the movies of the first `k` rows. */
  function MaxCountIn(rs: seq<Rating>, k: nat): nat
    requires k <= |rs|
  {
    if k == 0 then 0
    else
      var c := Count(rs, rs[k - 1].movieId);
      var m := MaxCountIn(rs, k - 1);
      if c >= m then c else m
  }

  /** `counts.max()`, with the source's fallback of 1 for an empty table. */
  function MaxCount(rs: seq<Rating>): nat {
    if rs == [] then 1 else MaxCountIn(rs, |rs|)
  }

  /** Every movie that occurs has at least one rating. */
  lemma {:induction false} CountPositive(rs: seq<Rating>, m: int)
    requires m in Ids(rs)
    ensures Count(rs, m) >= 1
    decreases |rs|
  {
    if rs[0].movieId != m {
      var i :| 0 <= i < |rs| && rs[i].movieId == m;
      assert rs[1..][i - 1].movieId == m;
      CountPositive(rs[1..], m);
    }
  }

  /** `MaxCountIn` bounds every count of the rows it ranges over and is one of them. */
  lemma {:induction false} MaxCountInSpec(rs: seq<Rating>, k: nat)
    requires k <= |rs|
    ensures forall i :: 0 <= i < k ==> Count(rs, rs[i].movieId) <= MaxCountIn(rs, k)
    ensures k > 0 ==> exists i :: 0 <= i < k && Count(rs, rs[i].movieId) == MaxCountIn(rs, k)
  {
    if k > 0 {
      MaxCountInSpec(rs, k - 1);
    }
  }

  /** The largest count bounds every count and is attained by some movie. */
  lemma MaxCountSpec(rs: seq<Rating>)
    ensures forall m :: m in Ids(rs) ==> Count(rs, m) <= MaxCount(rs)
    ensures rs != [] ==> exists m :: m in Ids(rs) && Count(rs, m) == MaxCount(rs)
    ensures MaxCount(rs) >= 1
  {
    MaxCountInSpec(rs, |rs|);
    if rs != [] {
      var i :| 0 <= i < |rs| && Count(rs, rs[i].movieId) == MaxCountIn(rs, |rs|);
      assert rs[i].movieId in Ids(rs);
      CountPositive(rs, rs[i].movieId);
    }
  }

  /** `ItemStats.build`: the three dictionaries share the key set of the movie ids that
      occur in the ratings table. */
  function Build(rs: seq<Rating>): (s: Stats)
    ensures s.popularityNorm.Keys == Ids(rs)
    ensures s.avgRatingNorm.Keys == Ids(rs)
    ensures s.ratingCount.Keys == Ids(rs)
    ensures forall m :: m in Ids(rs) ==> s.ratingCount[m] == Count(rs, m) >= 1
  {
    MaxCountSpec(rs);
    assert forall m :: m in Ids(rs) ==> Count(rs, m) >= 1 by {
      forall m | m in Ids(rs) ensures Count(rs, m) >= 1 { CountPositive(rs, m); }
    }
    var maxC := MaxCount(rs);
    Stats(
      map m | m in Ids(rs) :: Count(rs, m) as real / maxC as real,
      map m | m in Ids(rs) :: (Sum(rs, m) / Count(rs, m) as real - 0.5) / (5.0 - 0.5),
      map m | m in Ids(rs) :: Count(rs, m))
  }

  /** A positive quotient `c / m` of `0 < c <= m` lies in (0, 1] and is 1 only for `c == m`. */
  lemma RatioInUnit(c: real, m: real)
    requires 0.0 < c <= m
    ensures 0.0 < c / m <= 1.0
    ensures c / m == 1.0 <==> c == m
  {
    var q := c / m;
    assert q * m == c;
  }

  /** Dividing by a larger positive number never gives more. */
  lemma RatioMonotone(a: real, b: real, m: real)
    requires m > 0.0 && a <= b
    ensures a / m <= b / m
  {
    var qa, qb := a / m, b / m;
    assert qa * m == a && qb * m == b;
  }

  /** The values `Build` stores for a movie that occurs. */
  lemma BuildValues(rs: seq<Rating>, m: int)
    requires m in Ids(rs)
    ensures Build(rs).popularityNorm[m] == Count(rs, m) as real / MaxCount(rs) as real
    ensures Build(rs).avgRatingNorm[m] == (Sum(rs, m) / Count(rs, m) as real - 0.5) / (5.0 - 0.5)
  {
  }

  /** Every popularity lies in (0, 1]; it is 1 exactly for the most-rated movies, and
      some movie has it whenever the table is not empty. */
  lemma PopularityBounds(rs: seq<Rating>)
    ensures forall m :: m in Ids(rs) ==> 0.0 < Build(rs).popularityNorm[m] <= 1.0
    ensures forall m :: m in Ids(rs) ==>
      (Build(rs).popularityNorm[m] == 1.0 <==> Count(rs, m) == MaxCount(rs))
    ensures rs != [] ==> exists m :: m in Ids(rs) && Build(rs).popularityNorm[m] == 1.0
  {
    MaxCountSpec(rs);
    forall m | m in Ids(rs)
      ensures 0.0 < Build(rs).popularityNorm[m] <= 1.0
      ensures Build(rs).popularityNorm[m] == 1.0 <==> Count(rs, m) == MaxCount(rs)
    {
      CountPositive(rs, m);
      BuildValues(rs, m);
      RatioInUnit(Count(rs, m) as real, MaxCount(rs) as real);
    }
  }

  /** More ratings never means a smaller popularity. */
  lemma PopularityMonotone(rs: seq<Rating>, a: int, b: int)
    requires a in Ids(rs) && b in Ids(rs)
    requires Count(rs, a) <= Count(rs, b)
    ensures Build(rs).popularityNorm[a] <= Build(rs).popularityNorm[b]
  {
    MaxCountSpec(rs);
    BuildValues(rs, a);
    BuildValues(rs, b);
    RatioMonotone(Count(rs, a) as real, Count(rs, b) as real, MaxCount(rs) as real);
  }

  predicate ValidRatings(rs: seq<Rating>) {
    forall i :: 0 <= i < |rs| ==> 0.5 <= rs[i].rating <= 5.0
  }

  /** With ratings in [0.5, 5], a movie's rating sum lies between 0.5 and 5 times its count. */
  lemma {:induction false} SumBounds(rs: seq<Rating>, m: int)
    requires ValidRatings(rs)
    ensures 0.5 * Count(rs, m) as real <= Sum(rs, m) <= 5.0 * Count(rs, m) as real
    decreases |rs|
  {
    if rs != [] {
      assert ValidRatings(rs[1..]) by {
        forall i | 0 <= i < |rs| - 1 ensures 0.5 <= rs[1..][i].rating <= 5.0 { assert rs[1..][i] == rs[i + 1]; }
      }
      SumBounds(rs[1..], m);
      assert 0.5 <= rs[0].rating <= 5.0;
    }
  }

  /** A quotient of a sum bounded by `lo * c` and `hi * c` lies in [lo, hi]. */
  lemma MeanBounds(sum: real, c: real, lo: real, hi: real)
    requires c > 0.0 && lo * c <= sum <= hi * c
    ensures lo <= sum / c <= hi
  {
    var q := sum / c;
    assert q * c == sum;
  }

  /** Mean ratings in [0.5, 5] are rescaled into [0, 1]. */
  lemma AvgRatingBounds(rs: seq<Rating>, m: int)
    requires ValidRatings(rs) && m in Ids(rs)
    ensures 0.0 <= Build(rs).avgRatingNorm[m] <= 1.0
  {
    CountPositive(rs, m);
    SumBounds(rs, m);
    BuildValues(rs, m);
    MeanBounds(Sum(rs, m), Count(rs, m) as real, 0.5, 5.0);
  }

  /** `get_popularity`: 0.0 for an unknown movie. */
  function GetPopularity(s: Stats, movieId: int): real {
    if movieId in s.popularityNorm then s.popularityNorm[movieId] else 0.0
  }

  /** `get_avg_rating`: the neutral 0.5 for an unknown movie. */
  function GetAvgRating(s: Stats, movieId: int): real {
    if movieId in s.avgRatingNorm then s.avgRatingNorm[movieId] else 0.5
  }

  /** `as_debug_dict`: the getters' values and the count, 0 when unknown. */
  function AsDebugDict(s: Stats, movieId: int): (d: DebugInfo)
    ensures movieId !in s.ratingCount ==> d.ratingCount == 0
    ensures movieId in s.ratingCount ==> d.ratingCount == s.ratingCount[movieId]
  {
    DebugInfo(
      movieId, GetPopularity(s, movieId), GetAvgRating(s, movieId),
      if movieId in s.ratingCount then s.ratingCount[movieId] else 0)
  }

  /** On built statistics the getters stay in [0, 1] for every id, known or not; an
      unknown id gets popularity 0, rating 0.5 and count 0. */
  lemma GettersOnBuild(rs: seq<Rating>, movieId: int)
    requires ValidRatings(rs)
    ensures 0.0 <= GetPopularity(Build(rs), movieId) <= 1.0
    ensures 0.0 <= GetAvgRating(Build(rs), movieId) <= 1.0
    ensures movieId !in Ids(rs) ==>
      AsDebugDict(Build(rs), movieId) == DebugInfo(movieId, 0.0, 0.5, 0)
    ensures movieId in Ids(rs) ==>
      AsDebugDict(Build(rs), movieId).ratingCount == Count(rs, movieId)
  {
    PopularityBounds(rs);
    if movieId in Ids(rs) {
      AvgRatingBounds(rs, movieId);
    }
  }
}

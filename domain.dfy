/** The records the pipeline's stages exchange.  Advisory payloads of the reasoning
    service are typed records whose `Option` fields are `None` when the key is absent
    or holds a value of the wrong JSON type. */
module Domain {

  datatype Option<T> = None | Some(value: T) {
    /** Python's `d.get(key, default)` on a typed field. */
    function GetOr(default: T): T {
      match this
      case Some(v) => v
      case None => default
    }
  }

  /** Floor that guards each weight renormalisation against division by zero. */
  const WeightSumFloor: real := 0.000001

  /** Python's `max(0.0, min(1.0, x))`. */
  function Clamp01(x: real): (r: real)
    ensures 0.0 <= r <= 1.0
    ensures 0.0 <= x <= 1.0 ==> r == x
    ensures x < 0.0 ==> r == 0.0
    ensures x > 1.0 ==> r == 1.0
  {
    if x < 0.0 then 0.0 else if x > 1.0 then 1.0 else x
  }

  /** Python's `s[:k]` (and pandas' `head(k)`): the first `k` elements, or all of them. */
  function Take<T>(s: seq<T>, k: nat): (r: seq<T>)
    ensures |r| == if |s| <= k then |s| else k
    ensures r == s[..|r|]
  {
    if |s| <= k then s else s[..k]
  }

  function Max(a: real, b: real): real {
    if a >= b then a else b
  }

  function Min(a: real, b: real): real {
    if a <= b then a else b
  }

  /** The per-request input.  `noveltyTolerance` and `availableMinutes` are `None`
      when absent or not numeric. */
  datatype Context = Context(
    query: Option<string>,
    noveltyTolerance: Option<real>,
    availableMinutes: Option<real>)

  /** One row returned by a retrieval tool. */
  datatype Candidate = Candidate(movieId: int, score: real)

  /** Catalogue metadata of a movie; genres are `|`-separated. */
  datatype Movie = Movie(title: string, genres: string)

  /** Which retrieval tools run and how their scores are fused. */
  datatype Plan = Plan(
    useCf: bool,
    useSemantic: bool,
    weightCf: real,
    weightSemantic: real,
    trace: seq<string>)

  /** Per-record signal breakdown: the linear ranker keeps only the two inputs, the
      advantage-weighted ranker also its intermediate values. */
  datatype Signals =
    | LinearSignals(cf: real, semantic: real)
    | AdvantageSignals(
        cf: real, semantic: real, utility: real,
        baselinePopularity: real, advantage: real, noveltyBoost: real)

  /** One ranked recommendation. */
  datatype Rec = Rec(movieId: int, title: string, genres: string, score: real, signals: Signals)

  /** A value of the critic's `adjustments` mapping. */
  datatype AdjValue = Number(x: real) | Names(items: seq<string>) | OtherValue

  datatype Verdict = Verdict(needsRerank: bool, adjustments: map<string, AdjValue>, trace: seq<string>)

  datatype IntentResult = IntentResult(
    intent: string,
    confidence: real,
    needsClarification: bool,
    clarificationQuestion: string,
    trace: seq<string>)

  datatype Explanation = Explanation(oneLiner: string, bullets: seq<string>)
}

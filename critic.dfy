/** The guardrail critic (critic_agent.py): deterministic checks on the top of the
    ranked list (mean popularity, distinct genres, a children-content veto) merged with
    the reasoning service's verdict, where the service can add a rerank request,
    adjustments and trace entries but never clear a deterministic rerank request. */
module Critic {
  import opened Text
  import opened Domain
  import opened Config
  import opened JsonClient

  /** The service's verdict: `needsRerank` is the truthiness of its `needs_rerank`
      (false when absent); the other fields are `None` when absent or of the wrong type. */
  datatype CriticAdvice = CriticAdvice(
    needsRerank: bool,
    adjustments: Option<map<string, AdjValue>>,
    trace: Option<seq<string>>)

  /** The record of an empty JSON object. */
  const EmptyAdvice := CriticAdvice(false, None, None)

  /** The critic calls the service with one repair attempt. */
  const CriticMaxRetries: nat := 1

  const NoveltyLambdaKey := "novelty_lambda"
  const DiversityBoostKey := "diversity_boost"
  const ExcludeGenresKey := "exclude_genres"
  /** The advised novelty weight: `min(0.35, novelty_lambda + 0.10)`. */
  const AdvisedNoveltyLambda: real := Min(0.35, NoveltyLambda + 0.10)
  const DiversityBoost: real := 0.10
  const ChildrenRatioLimit: real := 0.30
  const PopularityMessage := "Top-10 mean popularity too high"
  const DiversityMessagePrefix := "Genre diversity too low: unique_genres="
  const VetoMessage := "hard_veto_children_content"
  const CriticTraceTag := "openai_critic_v2"
  const ChildrenKeywords: seq<string> := ["kid", "kids", "family", "children", "child"]

  // ----- genre diversity -----

  /** The distinct non-empty stripped tokens among `toks`. */
  function TokensOf(toks: seq<string>): set<string> {
    set t | t in toks && Strip(t) != [] :: Strip(t)
  }

  /** The distinct non-empty stripped `|`-tokens of one genres string. */
  function TokenSet(g: string): set<string> {
    TokensOf(Split(g, '|'))
  }

  /** One more token adds its stripped form, unless that is empty. */
  lemma TokensOfSnoc(toks: seq<string>, x: string)
    ensures TokensOf(toks + [x]) == TokensOf(toks) + (if Strip(x) != [] then {Strip(x)} else {})
  {
    var extra: set<string> := if Strip(x) != [] then {Strip(x)} else {};
    forall g | g in TokensOf(toks + [x]) ensures g in TokensOf(toks) + extra {
      var t :| t in toks + [x] && Strip(t) != [] && Strip(t) == g;
      if t != x {
        assert t in toks;
      }
    }
    forall g | g in TokensOf(toks) + extra ensures g in TokensOf(toks + [x]) {
      if g in TokensOf(toks) {
        var t :| t in toks && Strip(t) != [] && Strip(t) == g;
        assert t in toks + [x];
      } else {
        assert x in toks + [x];
      }
    }
  }

  /** The distinct non-empty stripped genre tokens of the records. */
  function GenresOf(recs: seq<Rec>): set<string>
    decreases |recs|
  {
    if recs == [] then {} else GenresOf(recs[..|recs| - 1]) + TokenSet(recs[|recs| - 1].genres)
  }

  /** A genre counts exactly when it is a non-empty stripped token of some record. */
  lemma {:induction false} GenresOfMembers(recs: seq<Rec>, g: string)
    ensures g in GenresOf(recs) <==>
      g != [] && exists i, t :: 0 <= i < |recs| && t in Split(recs[i].genres, '|') && Strip(t) == g
    decreases |recs|
  {
    if recs != [] {
      var init := recs[..|recs| - 1];
      GenresOfMembers(init, g);
      if g in GenresOf(recs) && g !in GenresOf(init) {
        var t :| t in Split(recs[|recs| - 1].genres, '|') && Strip(t) != [] && Strip(t) == g;
        assert 0 <= |recs| - 1 < |recs| && t in Split(recs[|recs| - 1].genres, '|') && Strip(t) == g;
      }
      if g != [] && exists i, t :: 0 <= i < |recs| && t in Split(recs[i].genres, '|') && Strip(t) == g {
        var i, t :| 0 <= i < |recs| && t in Split(recs[i].genres, '|') && Strip(t) == g;
        if i < |recs| - 1 {
          assert init[i] == recs[i];
        } else {
          assert g in TokenSet(recs[i].genres);
        }
      }
    }
  }

  /** The inner loop of `_genre_diversity`: the non-empty stripped tokens added to the
      set. */
  method AddTokens(genres: set<string>, toks: seq<string>) returns (out: set<string>)
    ensures out == genres + TokensOf(toks)
  {
    out := genres;
    var j := 0;
    while j < |toks|
      invariant 0 <= j <= |toks|
      invariant out == genres + TokensOf(toks[..j])
    {
      var t := Strip(toks[j]);
      if t != [] {
        out := out + {t};
      }
      assert toks[..j + 1] == toks[..j] + [toks[j]];
      TokensOfSnoc(toks[..j], toks[j]);
      j := j + 1;
    }
    assert toks[..j] == toks;
  }

  /** `_genre_diversity`: the set accumulated over the tokens of the first `topn` records. */
  method GenreDiversity(recs: seq<Rec>, topn: nat) returns (n: nat)
    ensures n == |GenresOf(Take(recs, topn))|
  {
    var window := Take(recs, topn);
    var genres: set<string> := {};
    var i := 0;
    while i < |window|
      invariant 0 <= i <= |window|
      invariant genres == GenresOf(window[..i])
    {
      genres := AddTokens(genres, Split(window[i].genres, '|'));
      assert window[..i + 1][..i] == window[..i];
      i := i + 1;
    }
    assert window[..i] == window;
    n := |genres|;
  }

  // ----- mean popularity -----

  /** The numeric `baseline_popularity` signals, in order; records of the linear ranker
      carry none. */
  function Baselines(recs: seq<Rec>): seq<real>
    decreases |recs|
  {
    if recs == [] then []
    else
      var last := recs[|recs| - 1];
      Baselines(recs[..|recs| - 1]) + (if last.signals.AdvantageSignals? then [last.signals.baselinePopularity] else [])
  }

  function SumOf(vals: seq<real>): real
    decreases |vals|
  {
    if vals == [] then 0.0 else SumOf(vals[..|vals| - 1]) + vals[|vals| - 1]
  }

  /** `sum(vals) / max(len(vals), 1)`. */
  function MeanOf(vals: seq<real>): real {
    SumOf(vals) / (if |vals| > 1 then |vals| else 1) as real
  }

  /** `_mean_popularity`: the list accumulated over the first `topn` records. */
  method MeanPopularity(recs: seq<Rec>, topn: nat) returns (m: real)
    ensures m == MeanOf(Baselines(Take(recs, topn)))
  {
    var window := Take(recs, topn);
    var vals: seq<real> := [];
    var i := 0;
    while i < |window|
      invariant 0 <= i <= |window|
      invariant vals == Baselines(window[..i])
    {
      var s := window[i].signals;
      if s.AdvantageSignals? {
        vals := vals + [s.baselinePopularity];
      }
      assert window[..i + 1][..i] == window[..i];
      i := i + 1;
    }
    assert window[..i] == window;
    m := MeanOf(vals);
  }

  lemma {:induction false} SumOfBounds(vals: seq<real>, lo: real, hi: real)
    requires forall k :: 0 <= k < |vals| ==> lo <= vals[k] <= hi
    ensures lo * |vals| as real <= SumOf(vals) <= hi * |vals| as real
    decreases |vals|
  {
    if vals != [] {
      SumOfBounds(vals[..|vals| - 1], lo, hi);
      assert lo <= vals[|vals| - 1] <= hi;
    }
  }

  lemma QuotientBounds(sum: real, n: real, lo: real, hi: real)
    requires n > 0.0 && lo * n <= sum <= hi * n
    ensures lo <= sum / n <= hi
  {
    var q := sum / n;
    assert q * n == sum;
  }

  /** Averaging values in [lo, hi] stays in [lo, hi]; with no values the mean is 0. */
  lemma MeanOfBounds(vals: seq<real>, lo: real, hi: real)
    requires forall k :: 0 <= k < |vals| ==> lo <= vals[k] <= hi
    ensures vals == [] ==> MeanOf(vals) == 0.0
    ensures vals != [] ==> lo <= MeanOf(vals) <= hi
  {
    if vals != [] {
      SumOfBounds(vals, lo, hi);
      QuotientBounds(SumOf(vals), |vals| as real, lo, hi);
    }
  }

  lemma {:induction false} SumOfUpper(vals: seq<real>, hi: real)
    requires forall k :: 0 <= k < |vals| ==> vals[k] <= hi
    ensures SumOf(vals) <= hi * |vals| as real
    decreases |vals|
  {
    if vals != [] {
      SumOfUpper(vals[..|vals| - 1], hi);
      assert vals[|vals| - 1] <= hi;
    }
  }

  lemma QuotientUpper(sum: real, n: real, hi: real)
    requires n > 0.0 && sum <= hi * n
    ensures sum / n <= hi
  {
    var q := sum / n;
    assert q * n == sum;
  }

  /** A mean above a non-negative threshold needs at least one value above it. */
  lemma HighMeanHasHighValue(vals: seq<real>, threshold: real)
    requires MeanOf(vals) > threshold
    requires threshold >= 0.0
    ensures exists k :: 0 <= k < |vals| && vals[k] > threshold
  {
    if forall k :: 0 <= k < |vals| ==> vals[k] <= threshold {
      if vals != [] {
        SumOfUpper(vals, threshold);
        QuotientUpper(SumOf(vals), |vals| as real, threshold);
      }
    }
  }

  // ----- children veto -----

  /** `[x.strip() for x in g.split("|")]`. */
  function StripAll(toks: seq<string>): seq<string> {
    seq(|toks|, k requires 0 <= k < |toks| => Strip(toks[k]))
  }

  /** The stripped tokens of the records' genres, empty ones included. */
  function GenreTokens(recs: seq<Rec>): seq<string>
    decreases |recs|
  {
    if recs == [] then [] else GenreTokens(recs[..|recs| - 1]) + StripAll(Split(recs[|recs| - 1].genres, '|'))
  }

  /** The loop that fills the `genres` list of the veto over the first `topn` records. */
  method CollectGenreTokens(recs: seq<Rec>, topn: nat) returns (tokens: seq<string>)
    ensures tokens == GenreTokens(Take(recs, topn))
  {
    var window := Take(recs, topn);
    tokens := [];
    var i := 0;
    while i < |window|
      invariant 0 <= i <= |window|
      invariant tokens == GenreTokens(window[..i])
    {
      tokens := tokens + StripAll(Split(window[i].genres, '|'));
      assert window[..i + 1][..i] == window[..i];
      i := i + 1;
    }
    assert window[..i] == window;
  }

  /** How many tokens are "children", ignoring ASCII case. */
  function ChildrenCount(tokens: seq<string>): (n: nat)
    ensures n <= |tokens|
    decreases |tokens|
  {
    if tokens == [] then 0
    else ChildrenCount(tokens[..|tokens| - 1]) + (if Lower(tokens[|tokens| - 1]) == "children" then 1 else 0)
  }

  /** `children / max(1, len(genres))`. */
  function ChildrenRatio(tokens: seq<string>): real {
    ChildrenCount(tokens) as real / (if |tokens| > 1 then |tokens| else 1) as real
  }

  /** Some family keyword occurs in the lowercased query. */
  predicate ChildrenAllowed(query: Option<string>) {
    exists k :: 0 <= k < |ChildrenKeywords| && Contains(Lower(query.GetOr("")), ChildrenKeywords[k])
  }

  predicate Veto(tokens: seq<string>, query: Option<string>) {
    ChildrenRatio(tokens) > ChildrenRatioLimit && !ChildrenAllowed(query)
  }

  lemma CompareQuotient(c: real, d: real, q: real)
    requires d > 0.0 && q * d == c
    ensures q > 0.3 <==> 10.0 * c > 3.0 * d
  {
    if q > 0.3 {
      assert (q - 0.3) * d > 0.0;
    } else {
      assert (0.3 - q) * d >= 0.0;
    }
  }

  /** The ratio of `c` out of `n` items (denominator at least 1). */
  lemma RatioFacts(c: nat, n: nat)
    requires c <= n
    ensures var d := if n > 1 then n else 1;
      && (c as real / d as real > ChildrenRatioLimit <==> 10 * c > 3 * d)
      && 0.0 <= c as real / d as real <= 1.0
  {
    var d := (if n > 1 then n else 1) as real;
    var q := c as real / d;
    assert q * d == c as real;
    CompareQuotient(c as real, d, q);
    QuotientBounds(c as real, d, 0.0, 1.0);
  }

  /** The ratio exceeds 0.30 exactly when ten times the count exceeds three times the
      token count (at least 1), and it always lies in [0, 1]. */
  lemma ChildrenRatioSpec(tokens: seq<string>)
    ensures ChildrenRatio(tokens) > ChildrenRatioLimit <==>
      10 * ChildrenCount(tokens) > 3 * (if |tokens| > 1 then |tokens| else 1)
    ensures 0.0 <= ChildrenRatio(tokens) <= 1.0
  {
    RatioFacts(ChildrenCount(tokens), |tokens|);
  }

  // ----- the deterministic checks and the merge -----

  /** The results of the three checks. */
  datatype Checks = Checks(meanPopularity: real, diversity: nat, veto: bool)

  function ChecksOf(recs: seq<Rec>, context: Context): Checks {
    var window := Take(recs, CriticTopN);
    Checks(MeanOf(Baselines(window)), |GenresOf(window)|, Veto(GenreTokens(window), context.query))
  }

  function PopularityFires(c: Checks): bool {
    c.meanPopularity > PopularityMeanThreshold
  }

  function DiversityFires(c: Checks): bool {
    c.diversity < GenreDiversityMinUnique
  }

  /** The mean-popularity guardrail applied to a partial verdict. */
  function PopularityStep(v: Verdict, meanPop: real): Verdict {
    if meanPop > PopularityMeanThreshold then
      Verdict(true, v.adjustments[NoveltyLambdaKey := Number(AdvisedNoveltyLambda)], v.trace + [PopularityMessage])
    else v
  }

  /** The genre-diversity guardrail applied to a partial verdict. */
  function DiversityStep(v: Verdict, diversity: nat): Verdict {
    if diversity < GenreDiversityMinUnique then
      Verdict(true, v.adjustments[DiversityBoostKey := Number(DiversityBoost)],
              v.trace + [DiversityMessagePrefix + NatToString(diversity)])
    else v
  }

  /** The children veto applied to a partial verdict. */
  function VetoStep(v: Verdict, veto: bool): Verdict {
    if veto then Verdict(true, v.adjustments[ExcludeGenresKey := Names(["Children"])], v.trace + [VetoMessage])
    else v
  }

  /** The verdict of the deterministic guardrails alone, before the service is asked. */
  function Deterministic(c: Checks): Verdict {
    VetoStep(DiversityStep(PopularityStep(Verdict(false, map[], []), c.meanPopularity), c.diversity), c.veto)
  }

  /** The service's data (the empty record unless `ok`) merged into the deterministic
      verdict, then the client's trace and the critic's tag. */
  function MergeAdvice(det: Verdict, resp: Response<CriticAdvice>): Verdict {
    var d := resp.data;
    var adj := if d.adjustments.Some? then det.adjustments + d.adjustments.value else det.adjustments;
    var tr := det.trace + (if d.trace.Some? then d.trace.value else []);
    Verdict(det.needsRerank || d.needsRerank, adj, tr + resp.trace + [CriticTraceTag])
  }

  /** What `CriticAgent.run` returns when the service answers through `call`. */
  function RunSpec(context: Context, recs: seq<Rec>, call: Caller, decode: string -> Option<CriticAdvice>): Verdict {
    MergeAdvice(Deterministic(ChecksOf(recs, context)), Generate(call, decode, EmptyAdvice, CriticMaxRetries).0)
  }

  /** Steps 1 and 2 of `CriticAgent.run`: the flag, adjustments and trace updated
      check by check. */
  method Guardrails(context: Context, recs: seq<Rec>) returns (v: Verdict)
    ensures v == Deterministic(ChecksOf(recs, context))
  {
    var needsRerank := false;
    var adjustments: map<string, AdjValue> := map[];
    var trace: seq<string> := [];

    var meanPop := MeanPopularity(recs, CriticTopN);
    if meanPop > PopularityMeanThreshold {
      needsRerank := true;
      adjustments := adjustments[NoveltyLambdaKey := Number(Min(0.35, NoveltyLambda + 0.10))];
      trace := trace + [PopularityMessage];
    }
    ghost var v1 := PopularityStep(Verdict(false, map[], []), meanPop);
    assert Verdict(needsRerank, adjustments, trace) == v1;

    var gdiv := GenreDiversity(recs, CriticTopN);
    if gdiv < GenreDiversityMinUnique {
      needsRerank := true;
      adjustments := adjustments[DiversityBoostKey := Number(DiversityBoost)];
      trace := trace + [DiversityMessagePrefix + NatToString(gdiv)];
    }
    ghost var v2 := DiversityStep(v1, gdiv);
    assert Verdict(needsRerank, adjustments, trace) == v2;

    var genres := CollectGenreTokens(recs, CriticTopN);
    var veto := ChildrenRatio(genres) > ChildrenRatioLimit && !ChildrenAllowed(context.query);
    if veto {
      needsRerank := true;
      adjustments := adjustments[ExcludeGenresKey := Names(["Children"])];
      trace := trace + [VetoMessage];
    }
    v := Verdict(needsRerank, adjustments, trace);
    assert v == VetoStep(v2, veto);
    assert Checks(meanPop, gdiv, veto) == ChecksOf(recs, context);
  }

  /** `CriticAgent.run`: the guardrails, the service asked with one repair attempt, and
      its verdict merged. */
  method Run(context: Context, recs: seq<Rec>, call: Caller, decode: string -> Option<CriticAdvice>)
    returns (v: Verdict)
    ensures v == RunSpec(context, recs, call, decode)
  {
    var det := Guardrails(context, recs);
    var needsRerank := det.needsRerank;
    var adjustments := det.adjustments;
    var trace := det.trace;
    var res, calls := GenerateJson(call, decode, EmptyAdvice, CriticMaxRetries);
    var data := res.data;
    needsRerank := needsRerank || data.needsRerank;
    if data.adjustments.Some? {
      adjustments := adjustments + data.adjustments.value;
    }
    if data.trace.Some? {
      trace := trace + data.trace.value;
    }
    trace := trace + res.trace;
    trace := trace + [CriticTraceTag];
    v := Verdict(needsRerank, adjustments, trace);
  }

  /** Each guardrail fires its own adjustment and trace entry: a rerank is requested
      exactly when some check fires, and each adjustment key is present exactly when
      its check fired, with the value the source sets. */
  lemma DeterministicSpec(c: Checks)
    ensures var v := Deterministic(c);
      && (v.needsRerank <==> PopularityFires(c) || DiversityFires(c) || c.veto)
      && (NoveltyLambdaKey in v.adjustments <==> PopularityFires(c))
      && (PopularityFires(c) ==> v.adjustments[NoveltyLambdaKey] == Number(0.30))
      && (DiversityBoostKey in v.adjustments <==> DiversityFires(c))
      && (DiversityFires(c) ==> v.adjustments[DiversityBoostKey] == Number(0.10))
      && (ExcludeGenresKey in v.adjustments <==> c.veto)
      && (c.veto ==> v.adjustments[ExcludeGenresKey] == Names(["Children"]))
      && v.adjustments.Keys <= {NoveltyLambdaKey, DiversityBoostKey, ExcludeGenresKey}
      && |v.trace| == (if PopularityFires(c) then 1 else 0) + (if DiversityFires(c) then 1 else 0) + (if c.veto then 1 else 0)
      && (c.veto <==> VetoMessage in v.trace)
  {
    var v := Deterministic(c);
    if !c.veto {
      assert forall k :: 0 <= k < |v.trace| ==> v.trace[k] != VetoMessage by {
        forall k | 0 <= k < |v.trace| ensures v.trace[k] != VetoMessage {
          if PopularityFires(c) && k == 0 {
            assert v.trace[k] == PopularityMessage;
          } else {
            assert v.trace[k] == DiversityMessagePrefix + NatToString(c.diversity);
            assert v.trace[k][0] == 'G';
          }
        }
      }
    } else {
      assert v.trace[|v.trace| - 1] == VetoMessage;
    }
  }

  /** The merge keeps the hard rules' decisions: a deterministic rerank request is never
      cleared and the service alone can add one; no deterministic adjustment key is
      removed, although the service's value for the same key replaces it; the trace is
      the deterministic messages, the service's trace, the client's trace, then the tag. */
  lemma MergeAdviceSpec(det: Verdict, resp: Response<CriticAdvice>)
    ensures var m := MergeAdvice(det, resp);
      && (m.needsRerank <==> det.needsRerank || resp.data.needsRerank)
      && det.adjustments.Keys <= m.adjustments.Keys
      && (resp.data.adjustments.Some? ==>
            && m.adjustments.Keys == det.adjustments.Keys + resp.data.adjustments.value.Keys
            && (forall k :: k in resp.data.adjustments.value ==> m.adjustments[k] == resp.data.adjustments.value[k])
            && (forall k :: k in det.adjustments && k !in resp.data.adjustments.value ==> m.adjustments[k] == det.adjustments[k]))
      && (resp.data.adjustments.None? ==> m.adjustments == det.adjustments)
      && m.trace[..|det.trace|] == det.trace
      && m.trace[|m.trace| - 1] == CriticTraceTag
      && m.trace[|m.trace| - 1 - |resp.trace|..|m.trace| - 1] == resp.trace
      && m.trace == det.trace + resp.data.trace.GetOr([]) + resp.trace + [CriticTraceTag]
  {
  }

  /** Merging the empty advice keeps the deterministic verdict and only extends its
      trace. */
  lemma MergeEmpty(det: Verdict, resp: Response<CriticAdvice>)
    requires resp.data == EmptyAdvice
    ensures MergeAdvice(det, resp) == Verdict(det.needsRerank, det.adjustments, det.trace + resp.trace + [CriticTraceTag])
  {
  }

  /** With the service down, the verdict is the deterministic one, with one client
      failure entry per attempt and the tag appended. */
  lemma RunServiceDown(context: Context, recs: seq<Rec>, call: Caller, decode: string -> Option<CriticAdvice>)
    requires forall k, s :: call(k, s).Raised?
    ensures var v := RunSpec(context, recs, call, decode);
      var det := Deterministic(ChecksOf(recs, context));
      && v.needsRerank == det.needsRerank
      && v.adjustments == det.adjustments
      && |v.trace| == |det.trace| + 1 + CriticMaxRetries + 1
      && v.trace[..|det.trace|] == det.trace
      && v.trace == det.trace + Generate(call, decode, EmptyAdvice, CriticMaxRetries).0.trace + [CriticTraceTag]
      && v.trace[|det.trace|] == CallFailedPrefix + call(0, "").errorType
      && v.trace[|v.trace| - 1] == CriticTraceTag
  {
    var det := Deterministic(ChecksOf(recs, context));
    var resp := Generate(call, decode, EmptyAdvice, CriticMaxRetries).0;
    ServiceDown(call, decode, EmptyAdvice, CriticMaxRetries);
    MergeEmpty(det, resp);
  }

  /** An empty list, or one whose first ten records name fewer than four genres, always
      asks for a rerank with a diversity boost. */
  lemma NarrowListRequestsRerank(context: Context, recs: seq<Rec>, call: Caller, decode: string -> Option<CriticAdvice>)
    requires |GenresOf(Take(recs, CriticTopN))| < GenreDiversityMinUnique
    ensures RunSpec(context, recs, call, decode).needsRerank
    ensures DiversityBoostKey in RunSpec(context, recs, call, decode).adjustments
  {
    DeterministicSpec(ChecksOf(recs, context));
    MergeAdviceSpec(Deterministic(ChecksOf(recs, context)), Generate(call, decode, EmptyAdvice, CriticMaxRetries).0);
  }

  lemma EmptyListRequestsRerank(context: Context, call: Caller, decode: string -> Option<CriticAdvice>)
    ensures RunSpec(context, [], call, decode).needsRerank
  {
    assert GenresOf(Take([], CriticTopN)) == {};
    NarrowListRequestsRerank(context, [], call, decode);
  }

  /** The children veto cannot be overruled by the service: the verdict always asks for
      a rerank, keeps an `exclude_genres` adjustment and carries the veto message. */
  lemma VetoRequestsRerank(context: Context, recs: seq<Rec>, call: Caller, decode: string -> Option<CriticAdvice>)
    requires ChecksOf(recs, context).veto
    ensures var v := RunSpec(context, recs, call, decode);
      && v.needsRerank
      && ExcludeGenresKey in v.adjustments
      && VetoMessage in v.trace
  {
    var det := Deterministic(ChecksOf(recs, context));
    var resp := Generate(call, decode, EmptyAdvice, CriticMaxRetries).0;
    DeterministicSpec(ChecksOf(recs, context));
    MergeAdviceSpec(det, resp);
    var v := MergeAdvice(det, resp);
    var i :| 0 <= i < |det.trace| && det.trace[i] == VetoMessage;
    assert v.trace[..|det.trace|][i] == VetoMessage;
  }

  /** A query that mentions a family keyword never triggers the children veto. */
  lemma FamilyQueryNoVeto(tokens: seq<string>, query: Option<string>, k: nat)
    requires k < |ChildrenKeywords| && Contains(Lower(query.GetOr("")), ChildrenKeywords[k])
    ensures !Veto(tokens, query)
  {
  }
}

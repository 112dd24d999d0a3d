/** The planner's weight resolver (agents/planner_agent.py): the service's advisory plan
    passes through a chain of hard rules.  A query forces the semantic tool on, a search
    under hybrid enforcement forces CF on with a minimum share, weights are
    renormalised, and a plan with neither tool is corrected. */
module Planner {
  import opened Text
  import opened Domain
  import opened Config
  import opened JsonClient
  import opened Arith

  /** The service's advisory plan; each field is `None` when absent (or, for the trace,
      not a list); the flags are the truthiness of the values given. */
  datatype PlannerAdvice = PlannerAdvice(
    useCf: Option<bool>,
    useSemantic: Option<bool>,
    weightCf: Option<real>,
    weightSemantic: Option<real>,
    trace: Option<seq<string>>)

  /** The record of an empty JSON object. */
  const EmptyAdvice := PlannerAdvice(None, None, None, None, None)

  /** The planner calls the service with one repair attempt. */
  const PlannerMaxRetries: nat := 1

  const HybridNote := "Hybrid enforcement: search requires CF + semantic"
  const ReEnabledNote := "Corrected: CF re-enabled for hybrid search"
  const NeitherNote := "Corrected: at least one tool required"
  const PlannerTraceTag := "openai_planner_v2"

  /** `(intent or "explore").strip().lower()`. */
  function NormalizeIntent(intent: Option<string>): string {
    var raw := if intent.Some? && intent.value != "" then intent.value else "explore";
    Lower(Strip(raw))
  }

  /** `(context.get("query") or "").strip()`. */
  function StrippedQuery(context: Context): string {
    Strip(context.query.GetOr(""))
  }

  predicate HybridSearch(intent: string) {
    EnforceHybridForSearch && intent == "search"
  }

  /** The `if / elif` chain on the two flags, after the defaults and the forcing rules. */
  function ChooseWeights(useCf: bool, useSem: bool, wCf: real, wSem: real, hybrid: bool,
                         query: string, trace: seq<string>): Plan {
    if useCf && useSem then
      var wCf1 := if hybrid then Max(wCf, MinCfWeight) else wCf;
      var wSem1 := if hybrid then Max(0.0, 1.0 - wCf1) else wSem;
      var s := Max(wCf1 + wSem1, WeightSumFloor);
      Plan(true, true, wCf1 / s, wSem1 / s, trace)
    else if useCf && !useSem then Plan(true, false, 1.0, 0.0, trace)
    else if useSem && !useCf then
      if hybrid then Plan(true, useSem, MinCfWeight, 1.0 - MinCfWeight, trace + [ReEnabledNote])
      else Plan(false, true, 0.0, 1.0, trace)
    else
      var sem := query != "";
      Plan(true, sem, if !sem then 1.0 else 0.4, if !sem then 0.0 else 0.6, trace + [NeitherNote])
  }

  /** Lines 77-135 of `PlannerAgent.run` as a function of the normalised intent, the
      stripped query and the client's response. */
  function ResolveSpec(intent: string, query: string, resp: Response<PlannerAdvice>): Plan {
    var obj := resp.data;
    var trace0 := obj.trace.GetOr([]);
    var sem := if query != "" then true else obj.useSemantic.GetOr(query != "");
    var hybrid := HybridSearch(intent);
    var cf := if hybrid then true else obj.useCf.GetOr(true);
    var trace1 := if hybrid then trace0 + [HybridNote] else trace0;
    var wCf := obj.weightCf.GetOr(if cf then 0.4 else 0.0);
    var wSem := obj.weightSemantic.GetOr(if sem then 0.6 else 0.0);
    var p := ChooseWeights(cf, sem, wCf, wSem, hybrid, query, trace1);
    p.(trace := p.trace + resp.trace + [PlannerTraceTag])
  }

  /** The rule chain step by step, with the flags, weights and trace reassigned as the
      source does. */
  method Resolve(intent: string, query: string, resp: Response<PlannerAdvice>) returns (plan: Plan)
    ensures plan == ResolveSpec(intent, query, resp)
  {
    var obj := resp.data;
    var trace := if obj.trace.Some? then obj.trace.value else [];
    var useSemantic := obj.useSemantic.GetOr(query != "");
    var useCf := obj.useCf.GetOr(true);
    if query != "" {
      useSemantic := true;
    }
    if EnforceHybridForSearch && intent == "search" {
      useCf := true;
      trace := trace + [HybridNote];
    }
    var wCf := obj.weightCf.GetOr(if useCf then 0.4 else 0.0);
    var wSem := obj.weightSemantic.GetOr(if useSemantic then 0.6 else 0.0);
    if useCf && useSemantic {
      if EnforceHybridForSearch && intent == "search" {
        wCf := Max(wCf, MinCfWeight);
        wSem := Max(0.0, 1.0 - wCf);
      }
      var s := Max(wCf + wSem, WeightSumFloor);
      wCf, wSem := wCf / s, wSem / s;
    } else if useCf && !useSemantic {
      wCf, wSem := 1.0, 0.0;
    } else if useSemantic && !useCf {
      if EnforceHybridForSearch && intent == "search" {
        useCf := true;
        wCf := MinCfWeight;
        wSem := 1.0 - wCf;
        trace := trace + [ReEnabledNote];
      } else {
        wCf, wSem := 0.0, 1.0;
      }
    } else {
      useCf, useSemantic := true, query != "";
      wCf, wSem := if query == "" then 1.0 else 0.4, if query == "" then 0.0 else 0.6;
      trace := trace + [NeitherNote];
    }
    trace := trace + resp.trace;
    trace := trace + [PlannerTraceTag];
    plan := Plan(useCf, useSemantic, wCf, wSem, trace);
  }

  /** `PlannerAgent.run`: the service asked with one repair attempt, then the rules. */
  method Run(intent: Option<string>, context: Context, call: Caller, decode: string -> Option<PlannerAdvice>)
    returns (plan: Plan)
    ensures plan == ResolveSpec(NormalizeIntent(intent), StrippedQuery(context),
                                Generate(call, decode, EmptyAdvice, PlannerMaxRetries).0)
  {
    var i := NormalizeIntent(intent);
    var query := StrippedQuery(context);
    var res, calls := GenerateJson(call, decode, EmptyAdvice, PlannerMaxRetries);
    plan := Resolve(i, query, res);
  }

  // ----- properties of the resolved plan -----

  /** The flags after the forcing rules: a query forces the semantic tool on, a search
      under hybrid enforcement forces CF on, and a plan that would use neither tool is
      corrected to CF only; the tools are never both off. */
  lemma ResolveFlags(intent: string, query: string, resp: Response<PlannerAdvice>)
    ensures var p := ResolveSpec(intent, query, resp);
      var obj := resp.data;
      && (p.useSemantic <==> query != "" || obj.useSemantic.GetOr(false))
      && (p.useCf <==> HybridSearch(intent) || obj.useCf.GetOr(true) || !p.useSemantic)
      && (query != "" ==> p.useSemantic)
      && (HybridSearch(intent) ==> p.useCf)
      && (p.useCf || p.useSemantic)
  {
  }

  /** The planner appends only the hybrid note and the neither-tool correction: the
      "CF re-enabled" branch can never run, because hybrid enforcement has already forced
      CF on by then.  The trace is the advisory trace, those notes, the client's trace,
      then the tag. */
  lemma ResolveTrace(intent: string, query: string, resp: Response<PlannerAdvice>)
    ensures var p := ResolveSpec(intent, query, resp);
      var obj := resp.data;
      var hybrid := HybridSearch(intent);
      var neither := !hybrid && !obj.useCf.GetOr(true) && query == "" && !obj.useSemantic.GetOr(false);
      p.trace == obj.trace.GetOr([]) + (if hybrid then [HybridNote] else []) + (if neither then [NeitherNote] else [])
                 + resp.trace + [PlannerTraceTag]
  {
  }

  /** Under hybrid search with both tools on, the CF share is the advised one raised to
      at least 0.20 and capped at 1, and the semantic share is the rest. */
  lemma HybridWeights(intent: string, query: string, resp: Response<PlannerAdvice>)
    requires HybridSearch(intent)
    requires ResolveSpec(intent, query, resp).useSemantic
    ensures var p := ResolveSpec(intent, query, resp);
      var raw := resp.data.weightCf.GetOr(0.4);
      && p.useCf
      && p.weightCf == Min(1.0, Max(raw, MinCfWeight))
      && p.weightSemantic == 1.0 - p.weightCf
      && MinCfWeight <= p.weightCf <= 1.0
      && 0.0 <= p.weightSemantic <= 1.0 - MinCfWeight
  {
    var raw := resp.data.weightCf.GetOr(0.4);
    var wCf := Max(raw, MinCfWeight);
    var wSem := Max(0.0, 1.0 - wCf);
    if wCf <= 1.0 {
      assert wCf + wSem == 1.0;
      DivByOne(wCf);
      DivByOne(wSem);
    } else {
      assert Max(wCf + wSem, WeightSumFloor) == wCf;
      assert wCf / wCf == 1.0;
    }
  }

  /** Outside hybrid search, with both tools on, the advised weights keep their
      proportion; they sum to 1 when the advised sum reaches the 1e-6 floor, and
      non-negative advice gives weights in [0, 1]. */
  lemma NormalizedWeights(intent: string, query: string, resp: Response<PlannerAdvice>)
    requires !HybridSearch(intent)
    requires ResolveSpec(intent, query, resp).useCf && ResolveSpec(intent, query, resp).useSemantic
    ensures var p := ResolveSpec(intent, query, resp);
      var rawCf := resp.data.weightCf.GetOr(0.4);
      var rawSem := resp.data.weightSemantic.GetOr(0.6);
      && p.weightCf * rawSem == p.weightSemantic * rawCf
      && (rawCf + rawSem >= WeightSumFloor ==> p.weightCf + p.weightSemantic == 1.0)
      && (0.0 <= rawCf && 0.0 <= rawSem ==> 0.0 <= p.weightCf <= 1.0 && 0.0 <= p.weightSemantic <= 1.0)
  {
    var rawCf := resp.data.weightCf.GetOr(0.4);
    var rawSem := resp.data.weightSemantic.GetOr(0.6);
    var s := Max(rawCf + rawSem, WeightSumFloor);
    Proportions(rawCf, rawSem, s);
    if rawCf + rawSem >= WeightSumFloor {
      Shares(rawCf, rawSem, s);
    }
  }

  /** One tool alone takes the whole weight. */
  lemma SingleToolWeights(intent: string, query: string, resp: Response<PlannerAdvice>)
    ensures var p := ResolveSpec(intent, query, resp);
      && (p.useCf && !p.useSemantic ==> p.weightCf == 1.0 && p.weightSemantic == 0.0)
      && (!p.useCf && p.useSemantic ==> !HybridSearch(intent) && p.weightCf == 0.0 && p.weightSemantic == 1.0)
  {
  }

  /** With an empty advisory object (no usable reply) the plan uses CF, uses the
      semantic tool exactly when there is a query, and weighs them 0.4 / 0.6, or 1 / 0
      without a query. */
  lemma EmptyAdviceDefaults(intent: string, query: string, resp: Response<PlannerAdvice>)
    requires resp.data == EmptyAdvice
    ensures var p := ResolveSpec(intent, query, resp);
      && p.useCf
      && (p.useSemantic <==> query != "")
      && (query != "" ==> p.weightCf == 0.4 && p.weightSemantic == 0.6)
      && (query == "" ==> p.weightCf == 1.0 && p.weightSemantic == 0.0)
      && p.trace[|p.trace| - 1] == PlannerTraceTag
  {
    if query != "" {
      var hybrid := HybridSearch(intent);
      DivByOne(0.4);
      DivByOne(0.6);
      assert Max(0.4 + 0.6, WeightSumFloor) == 1.0;
      if hybrid {
        assert Max(0.4, MinCfWeight) == 0.4;
        assert Max(0.0, 1.0 - 0.4) == 0.6;
      }
    }
  }

  /** The floor only prevents division by zero: outside hybrid search, advised weights
      of 0 and 0 with both tools on stay 0 and 0, so the weights need not sum to 1. */
  lemma ZeroAdvisedWeights(query: string, t: seq<string>)
    ensures var p := ResolveSpec("explore", query,
        Response(true, PlannerAdvice(Some(true), Some(true), Some(0.0), Some(0.0), None), "", t));
      p.useCf && p.useSemantic && p.weightCf == 0.0 && p.weightSemantic == 0.0
  {
    assert !HybridSearch("explore");
  }
}

/** The pipeline controller (orchestrator.py): a fixed graph of stages over a state record
    that every node copies, each node appending exactly one event to the trace log.  The
    agents, the retrieval tools and the ranker are abstract functions. */
module Orchestrator {
  import opened Text
  import opened Domain
  import opened Config
  import opened Arith
  import RankerV2
  import ItemStats

  /** The graph's nodes, with the entry and exit points. */
  datatype Stage = Start | IntentStage | PlanStage | RetrieveStage | RankStage | CriticStage
                 | RerankStage | ExplainStage | End

  /** One entry of `trace_log`, one shape per node. */
  datatype Event =
    | IntentEvent(intent: string, confidence: real, intentTrace: seq<string>)
    | PlanEvent(useCf: bool, useSemantic: bool, weightCf: real, weightSemantic: real)
    | RetrieveEvent(useCf: bool, useSemantic: bool, cfRows: nat, semRows: nat)
    | RankEvent(top1: Option<string>, recsCount: nat)
    | CriticEvent(needsRerank: bool, adjustments: map<string, AdjValue>)
    | RerankEvent(appliedAdjustments: map<string, AdjValue>, newWeightCf: real, newWeightSemantic: real,
                  top1: Option<string>)
    | ExplainEvent(oneLiner: string)

  function StageOf(e: Event): Stage {
    match e
    case IntentEvent(_, _, _) => IntentStage
    case PlanEvent(_, _, _, _) => PlanStage
    case RetrieveEvent(_, _, _, _) => RetrieveStage
    case RankEvent(_, _) => RankStage
    case CriticEvent(_, _) => CriticStage
    case RerankEvent(_, _, _, _) => RerankStage
    case ExplainEvent(_) => ExplainStage
  }

  /** The graph state; a key that is absent is `None`. */
  datatype State = State(
    userId: int,
    context: Context,
    intentObj: Option<IntentResult>,
    plan: Option<Plan>,
    cf: Option<seq<Candidate>>,
    sem: Option<seq<Candidate>>,
    recs: Option<seq<Rec>>,
    critic: Option<Verdict>,
    explanation: Option<Explanation>,
    traceLog: seq<Event>)

  /** The agents, tools and ranker the nodes call. */
  datatype Agents = Agents(
    intent: Context -> IntentResult,
    planner: (string, Context) -> Plan,
    cfTool: (int, nat) -> seq<Candidate>,
    semanticTool: (string, nat) -> seq<Candidate>,
    ranker: State -> seq<Rec>,
    critic: (string, Context, seq<Rec>) -> Verdict,
    explainer: (string, Option<Plan>, seq<Rec>) -> Explanation)

  /** The key defaults the nodes read from an absent plan: CF on, semantic off,
      weights 0.4 / 0.6. */
  const DefaultPlan := Plan(true, false, 0.4, 0.6, [])

  const RerankTag := "critic_rerank_applied"
  const CfDeltaKey := "weight_cf_delta"
  const SemanticDeltaKey := "weight_semantic_delta"

  /** `_append_trace`: the log grows by exactly the one event, at its end, and nothing
      else in the state changes. */
  function AppendTrace(s: State, e: Event): (r: State)
    ensures r.traceLog == s.traceLog + [e]
    ensures |r.traceLog| == |s.traceLog| + 1 && r.traceLog[|s.traceLog|] == e
    ensures r.(traceLog := s.traceLog) == s
  {
    s.(traceLog := s.traceLog + [e])
  }

  /** `(state.get("intent_obj") or {}).get("intent", "explore")`. */
  function IntentOf(s: State): string {
    if s.intentObj.Some? then s.intentObj.value.intent else "explore"
  }

  function Rows(rows: Option<seq<Candidate>>): nat {
    if rows.Some? then |rows.value| else 0
  }

  function Top1(recs: seq<Rec>): Option<string> {
    if recs != [] then Some(recs[0].title) else None
  }

  function IntentNode(s: State, a: Agents): State {
    var obj := a.intent(s.context);
    AppendTrace(s.(intentObj := Some(obj)), IntentEvent(obj.intent, obj.confidence, obj.trace))
  }

  function PlanNode(s: State, a: Agents): State {
    var plan := a.planner(IntentOf(s), s.context);
    AppendTrace(s.(plan := Some(plan)),
                PlanEvent(plan.useCf, plan.useSemantic, plan.weightCf, plan.weightSemantic))
  }

  /** `retrieve_node`: the CF tool only when the plan uses CF, the semantic tool only when
      the plan uses it and the stripped query is not empty (an empty list otherwise). */
  function RetrieveNode(s: State, a: Agents): State {
    var plan := s.plan.GetOr(DefaultPlan);
    var useCf := plan.useCf;
    var useSem := plan.useSemantic;
    var query := Strip(s.context.query.GetOr(""));
    var cf := if useCf then Some(a.cfTool(s.userId, CfK)) else s.cf;
    var sem := if useSem then Some(if query != "" then a.semanticTool(query, SemanticK) else []) else s.sem;
    var s2 := s.(cf := cf, sem := sem);
    AppendTrace(s2, RetrieveEvent(useCf, useSem, Rows(s2.cf), Rows(s2.sem)))
  }

  function RankNode(s: State, a: Agents): State {
    var recs := a.ranker(s);
    AppendTrace(s.(recs := Some(recs)), RankEvent(Top1(recs), |recs|))
  }

  function CriticNode(s: State, a: Agents): State {
    var v := a.critic(IntentOf(s), s.context, s.recs.GetOr([]));
    AppendTrace(s.(critic := Some(v)), CriticEvent(v.needsRerank, v.adjustments))
  }

  /** `should_rerank`: only a critic verdict that asks for it leads to the rerank node. */
  predicate ShouldRerank(s: State) {
    s.critic.Some? && s.critic.value.needsRerank
  }

  /** A numeric delta of the critic's adjustments, 0 when absent. */
  function Delta(adj: map<string, AdjValue>, key: string): real {
    if key in adj && adj[key].Number? then adj[key].x else 0.0
  }

  /** The weight logic of `rerank_node`: each weight plus its delta clamped to [0, 1],
      then renormalised when both are positive, else all weight to the positive one, or
      to the semantic side when CF is 0. */
  function RerankWeights(wCf: real, wSem: real, dCf: real, dSem: real): (real, real) {
    var c := Clamp01(wCf + dCf);
    var m := Clamp01(wSem + dSem);
    if c > 0.0 && m > 0.0 then
      var t := Max(c + m, WeightSumFloor);
      (c / t, m / t)
    else if c > 0.0 then (1.0, 0.0)
    else (0.0, 1.0)
  }

  /** The plan after the rerank: new weights, the rerank note on its trace, and the
      flags as they were. */
  function RerankPlan(plan: Option<Plan>, adj: map<string, AdjValue>): Plan {
    var p := plan.GetOr(DefaultPlan);
    var w := RerankWeights(p.weightCf, p.weightSemantic, Delta(adj, CfDeltaKey), Delta(adj, SemanticDeltaKey));
    p.(weightCf := w.0, weightSemantic := w.1, trace := p.trace + [RerankTag])
  }

  function Adjustments(s: State): map<string, AdjValue> {
    if s.critic.Some? then s.critic.value.adjustments else map[]
  }

  /** `rerank_node`: the plan's weights are adjusted, and the ranker runs once more on
      the updated state. */
  function RerankNode(s: State, a: Agents): State {
    var adj := Adjustments(s);
    var plan := RerankPlan(s.plan, adj);
    var s2 := s.(plan := Some(plan));
    var recs := a.ranker(s2);
    AppendTrace(s2.(recs := Some(recs)), RerankEvent(adj, plan.weightCf, plan.weightSemantic, Top1(recs)))
  }

  function ExplainNode(s: State, a: Agents): State {
    var e := a.explainer(IntentOf(s), s.plan, s.recs.GetOr([]));
    AppendTrace(s.(explanation := Some(e)), ExplainEvent(e.oneLiner))
  }

  /** `rerank_node` with the copied plan's weights reassigned step by step. */
  method ApplyRerank(s: State, a: Agents) returns (r: State)
    ensures r == RerankNode(s, a)
  {
    var adj := if s.critic.Some? then s.critic.value.adjustments else map[];
    var plan := if s.plan.Some? then s.plan.value else DefaultPlan;
    var wCf := plan.weightCf;
    var wSem := plan.weightSemantic;
    var dCf := Delta(adj, CfDeltaKey);
    var dSem := Delta(adj, SemanticDeltaKey);
    wCf := Max(0.0, Min(1.0, wCf + dCf));
    wSem := Max(0.0, Min(1.0, wSem + dSem));
    if wCf > 0.0 && wSem > 0.0 {
      var t := Max(wCf + wSem, WeightSumFloor);
      wCf, wSem := wCf / t, wSem / t;
    } else if wCf > 0.0 {
      wCf, wSem := 1.0, 0.0;
    } else {
      wCf, wSem := 0.0, 1.0;
    }
    plan := plan.(weightCf := wCf, weightSemantic := wSem, trace := plan.trace + [RerankTag]);
    var s2 := s.(plan := Some(plan));
    var recs := a.ranker(s2);
    r := AppendTrace(s2.(recs := Some(recs)), RerankEvent(adj, wCf, wSem, Top1(recs)));
  }

  /** The node run at a stage; the entry and exit points change nothing. */
  function Step(stage: Stage, s: State, a: Agents): State {
    match stage
    case Start => s
    case IntentStage => IntentNode(s, a)
    case PlanStage => PlanNode(s, a)
    case RetrieveStage => RetrieveNode(s, a)
    case RankStage => RankNode(s, a)
    case CriticStage => CriticNode(s, a)
    case RerankStage => RerankNode(s, a)
    case ExplainStage => ExplainNode(s, a)
    case End => s
  }

  /** The edges of `build`, the conditional one read on the state the critic left. */
  function Next(stage: Stage, s: State): Stage {
    match stage
    case Start => IntentStage
    case IntentStage => PlanStage
    case PlanStage => RetrieveStage
    case RetrieveStage => RankStage
    case RankStage => CriticStage
    case CriticStage => if ShouldRerank(s) then RerankStage else ExplainStage
    case RerankStage => ExplainStage
    case ExplainStage => End
    case End => End
  }

  /** How many edges at most are left to the exit. */
  function Distance(stage: Stage): nat {
    match stage
    case Start => 8
    case IntentStage => 7
    case PlanStage => 6
    case RetrieveStage => 5
    case RankStage => 4
    case CriticStage => 3
    case RerankStage => 2
    case ExplainStage => 1
    case End => 0
  }

  /** Every edge moves closer to the exit, so the graph has no cycle. */
  lemma NextDecreases(stage: Stage, s: State)
    requires stage != End
    ensures Distance(Next(stage, s)) < Distance(stage)
  {
  }

  /** Running the graph from a stage to the exit. */
  function RunFrom(stage: Stage, s: State, a: Agents): State
    decreases Distance(stage)
  {
    if stage == End then s
    else
      var s2 := Step(stage, s, a);
      RunFrom(Next(stage, s2), s2, a)
  }

  /** One node as the compiled graph runs it, the rerank node as its own method. */
  method RunNode(stage: Stage, s: State, a: Agents) returns (r: State)
    ensures r == Step(stage, s, a)
  {
    if stage == RerankStage {
      r := ApplyRerank(s, a);
    } else {
      r := Step(stage, s, a);
    }
  }

  /** One edge of the run. */
  lemma RunFromUnfold(stage: Stage, s: State, a: Agents)
    requires stage != End
    ensures RunFrom(stage, s, a) == RunFrom(Next(stage, Step(stage, s, a)), Step(stage, s, a), a)
  {
  }

  /** `graph.compile().invoke(state)`: follow the edges from the entry until the exit. */
  method Invoke(initial: State, a: Agents) returns (final: State)
    ensures final == RunFrom(Start, initial, a)
  {
    var stage := Start;
    var s := initial;
    while stage != End
      invariant RunFrom(stage, s, a) == RunFrom(Start, initial, a)
      decreases Distance(stage)
    {
      var s2 := RunNode(stage, s, a);
      RunFromUnfold(stage, s, a);
      NextDecreases(stage, s2);
      s, stage := s2, Next(stage, s2);
    }
    final := s;
  }

  // ----- properties of the graph run -----

  /** The state after the critic node, from which the conditional edge is taken. */
  function AfterCritic(initial: State, a: Agents): State {
    CriticNode(RankNode(RetrieveNode(PlanNode(IntentNode(initial, a), a), a), a), a)
  }

  /** The five unconditional edges, one at a time. */
  lemma StartEdge(s: State, a: Agents)
    ensures RunFrom(Start, s, a) == RunFrom(IntentStage, s, a)
  {
    RunFromUnfold(Start, s, a);
  }

  lemma IntentEdge(s: State, a: Agents)
    ensures RunFrom(IntentStage, s, a) == RunFrom(PlanStage, IntentNode(s, a), a)
  {
    RunFromUnfold(IntentStage, s, a);
  }

  lemma PlanEdge(s: State, a: Agents)
    ensures RunFrom(PlanStage, s, a) == RunFrom(RetrieveStage, PlanNode(s, a), a)
  {
    RunFromUnfold(PlanStage, s, a);
  }

  lemma RetrieveEdge(s: State, a: Agents)
    ensures RunFrom(RetrieveStage, s, a) == RunFrom(RankStage, RetrieveNode(s, a), a)
  {
    RunFromUnfold(RetrieveStage, s, a);
  }

  lemma RankEdge(s: State, a: Agents)
    ensures RunFrom(RankStage, s, a) == RunFrom(CriticStage, RankNode(s, a), a)
  {
    RunFromUnfold(RankStage, s, a);
  }

  /** The fixed part of the run: entry, intent, plan, retrieve and rank. */
  lemma PrefixRun(initial: State, a: Agents)
    ensures RunFrom(Start, initial, a) ==
      RunFrom(CriticStage, RankNode(RetrieveNode(PlanNode(IntentNode(initial, a), a), a), a), a)
  {
    var s1 := IntentNode(initial, a);
    var s2 := PlanNode(s1, a);
    var s3 := RetrieveNode(s2, a);
    StartEdge(initial, a);
    IntentEdge(initial, a);
    PlanEdge(s1, a);
    RetrieveEdge(s2, a);
    RankEdge(s3, a);
  }

  /** The conditional edge and the two edges after it. */
  lemma CriticEdge(s: State, a: Agents)
    ensures var s5 := CriticNode(s, a);
      RunFrom(CriticStage, s, a) == RunFrom(if s5.critic.value.needsRerank then RerankStage else ExplainStage, s5, a)
  {
    RunFromUnfold(CriticStage, s, a);
  }

  lemma RerankEdge(s: State, a: Agents)
    ensures RunFrom(RerankStage, s, a) == RunFrom(ExplainStage, RerankNode(s, a), a)
  {
    RunFromUnfold(RerankStage, s, a);
  }

  lemma ExplainEdge(s: State, a: Agents)
    ensures RunFrom(ExplainStage, s, a) == ExplainNode(s, a)
  {
    RunFromUnfold(ExplainStage, s, a);
  }

  /** From the critic on: the critic, the rerank node when asked for, the explainer. */
  lemma TailRun(s4: State, a: Agents)
    ensures var s5 := CriticNode(s4, a);
      RunFrom(CriticStage, s4, a) == ExplainNode(if s5.critic.value.needsRerank then RerankNode(s5, a) else s5, a)
  {
    var s5 := CriticNode(s4, a);
    CriticEdge(s4, a);
    if s5.critic.value.needsRerank {
      RerankEdge(s5, a);
      ExplainEdge(RerankNode(s5, a), a);
    } else {
      ExplainEdge(s5, a);
    }
  }

  /** The run unrolled: the five fixed nodes, the rerank node when the critic asks for
      it, then the explainer. */
  lemma RunUnrolled(initial: State, a: Agents)
    ensures var s5 := AfterCritic(initial, a);
      RunFrom(Start, initial, a) == ExplainNode(if s5.critic.value.needsRerank then RerankNode(s5, a) else s5, a)
  {
    PrefixRun(initial, a);
    TailRun(RankNode(RetrieveNode(PlanNode(IntentNode(initial, a), a), a), a), a);
  }

  function Stages(log: seq<Event>): seq<Stage> {
    seq(|log|, i requires 0 <= i < |log| => StageOf(log[i]))
  }

  /** `after` is `before` with one more event, of stage `stage`. */
  predicate LogStep(before: seq<Event>, after: seq<Event>, stage: Stage) {
    |after| == |before| + 1 && after[..|before|] == before && StageOf(after[|before|]) == stage
  }

  /** Every node appends one event of its own stage to the log. */
  lemma NodeLogs(stage: Stage, s: State, a: Agents)
    requires stage != Start && stage != End
    ensures LogStep(s.traceLog, Step(stage, s, a).traceLog, stage)
  {
    var r := Step(stage, s, a);
    assert r.traceLog == s.traceLog + [r.traceLog[|s.traceLog|]];
  }

  /** The stages logged past position `n` after one more event. */
  lemma LogGrows(before: seq<Event>, after: seq<Event>, stage: Stage, n: nat, stages: seq<Stage>)
    requires LogStep(before, after, stage)
    requires n <= |before| && Stages(before[n..]) == stages
    ensures n <= |after| && after[..n] == before[..n] && Stages(after[n..]) == stages + [stage]
  {
    assert after == before + [after[|before|]];
    assert after[n..] == before[n..] + [after[|before|]];
  }

  /** Five logged events, one per fixed stage, past position `n`. */
  lemma FiveSteps(l0: seq<Event>, l1: seq<Event>, l2: seq<Event>, l3: seq<Event>, l4: seq<Event>, l5: seq<Event>)
    requires LogStep(l0, l1, IntentStage) && LogStep(l1, l2, PlanStage) && LogStep(l2, l3, RetrieveStage)
    requires LogStep(l3, l4, RankStage) && LogStep(l4, l5, CriticStage)
    ensures |l0| <= |l5| && l5[..|l0|] == l0
    ensures Stages(l5[|l0|..]) == [IntentStage, PlanStage, RetrieveStage, RankStage, CriticStage]
  {
    var n := |l0|;
    assert l0[n..] == [];
    LogGrows(l0, l1, IntentStage, n, []);
    LogGrows(l1, l2, PlanStage, n, [IntentStage]);
    LogGrows(l2, l3, RetrieveStage, n, [IntentStage, PlanStage]);
    LogGrows(l3, l4, RankStage, n, [IntentStage, PlanStage, RetrieveStage]);
    LogGrows(l4, l5, CriticStage, n, [IntentStage, PlanStage, RetrieveStage, RankStage]);
  }

  /** The five fixed nodes log their five stages in order. */
  lemma FixedPrefixLog(initial: State, a: Agents)
    ensures var s5 := AfterCritic(initial, a);
      var n := |initial.traceLog|;
      && n <= |s5.traceLog| && s5.traceLog[..n] == initial.traceLog
      && Stages(s5.traceLog[n..]) == [IntentStage, PlanStage, RetrieveStage, RankStage, CriticStage]
  {
    var s1 := IntentNode(initial, a);
    var s2 := PlanNode(s1, a);
    var s3 := RetrieveNode(s2, a);
    var s4 := RankNode(s3, a);
    var s5 := CriticNode(s4, a);
    assert LogStep(initial.traceLog, s1.traceLog, IntentStage) by { NodeLogs(IntentStage, initial, a); }
    assert LogStep(s1.traceLog, s2.traceLog, PlanStage) by { NodeLogs(PlanStage, s1, a); }
    assert LogStep(s2.traceLog, s3.traceLog, RetrieveStage) by { NodeLogs(RetrieveStage, s2, a); }
    assert LogStep(s3.traceLog, s4.traceLog, RankStage) by { NodeLogs(RankStage, s3, a); }
    assert LogStep(s4.traceLog, s5.traceLog, CriticStage) by { NodeLogs(CriticStage, s4, a); }
    FiveSteps(initial.traceLog, s1.traceLog, s2.traceLog, s3.traceLog, s4.traceLog, s5.traceLog);
  }

  /** After the critic: the rerank node when asked for, then the explainer. */
  lemma TailLog(s5: State, a: Agents, n: nat, stages: seq<Stage>)
    requires n <= |s5.traceLog| && Stages(s5.traceLog[n..]) == stages
    ensures var rerank := s5.critic.Some? && s5.critic.value.needsRerank;
      var final := ExplainNode(if rerank then RerankNode(s5, a) else s5, a);
      && n <= |final.traceLog| && final.traceLog[..n] == s5.traceLog[..n]
      && Stages(final.traceLog[n..]) == stages + (if rerank then [RerankStage] else []) + [ExplainStage]
  {
    if s5.critic.Some? && s5.critic.value.needsRerank {
      var s6 := RerankNode(s5, a);
      assert LogStep(s5.traceLog, s6.traceLog, RerankStage) by { NodeLogs(RerankStage, s5, a); }
      assert LogStep(s6.traceLog, ExplainNode(s6, a).traceLog, ExplainStage) by { NodeLogs(ExplainStage, s6, a); }
      LogGrows(s5.traceLog, s6.traceLog, RerankStage, n, stages);
      LogGrows(s6.traceLog, ExplainNode(s6, a).traceLog, ExplainStage, n, stages + [RerankStage]);
    } else {
      assert LogStep(s5.traceLog, ExplainNode(s5, a).traceLog, ExplainStage) by { NodeLogs(ExplainStage, s5, a); }
      LogGrows(s5.traceLog, ExplainNode(s5, a).traceLog, ExplainStage, n, stages);
    }
  }

  /** A run visits intent, plan, retrieve, rank and critic in turn, then the rerank node
      exactly when the critic's verdict asks for it, then explain: the log gains 6 or 7
      events in that stage order, so the critic runs once and the rerank at most once,
      and the events already logged stay as they were. */
  lemma PipelineTrace(initial: State, a: Agents)
    ensures var final := RunFrom(Start, initial, a);
      var n := |initial.traceLog|;
      var rerank := AfterCritic(initial, a).critic.value.needsRerank;
      && |final.traceLog| == n + (if rerank then 7 else 6)
      && final.traceLog[..n] == initial.traceLog
      && Stages(final.traceLog[n..]) ==
           [IntentStage, PlanStage, RetrieveStage, RankStage, CriticStage]
           + (if rerank then [RerankStage] else []) + [ExplainStage]
  {
    var n := |initial.traceLog|;
    var s5 := AfterCritic(initial, a);
    RunUnrolled(initial, a);
    FixedPrefixLog(initial, a);
    TailLog(s5, a, n, [IntentStage, PlanStage, RetrieveStage, RankStage, CriticStage]);
    assert s5.traceLog[..n] == initial.traceLog;
  }

  /** On a fresh state the final log has 6 entries, or 7 with the rerank. */
  lemma FreshRunTraceLength(initial: State, a: Agents)
    requires initial.traceLog == []
    ensures |RunFrom(Start, initial, a).traceLog| == if AfterCritic(initial, a).critic.value.needsRerank then 7 else 6
  {
    PipelineTrace(initial, a);
  }

  /** `should_rerank` chooses the rerank node exactly for a present verdict asking for
      it, and the critic node always leaves its own verdict. */
  lemma ShouldRerankSpec(s: State, a: Agents)
    ensures Next(CriticStage, s) == RerankStage <==> s.critic.Some? && s.critic.value.needsRerank
    ensures Next(CriticStage, s) != RerankStage ==> Next(CriticStage, s) == ExplainStage
    ensures CriticNode(s, a).critic == Some(a.critic(IntentOf(s), s.context, s.recs.GetOr([])))
  {
  }

  /** Retrieval calls the CF tool exactly when the plan uses CF and keeps the old `cf`
      value otherwise; with the semantic tool on and a blank query `sem` is the empty
      list; without it `sem` is kept; the event counts the rows present. */
  lemma RetrieveSpec(s: State, a: Agents)
    ensures var r := RetrieveNode(s, a);
      var plan := s.plan.GetOr(DefaultPlan);
      var query := Strip(s.context.query.GetOr(""));
      && (plan.useCf ==> r.cf == Some(a.cfTool(s.userId, CfK)))
      && (!plan.useCf ==> r.cf == s.cf)
      && (plan.useSemantic && query == "" ==> r.sem == Some([]))
      && (plan.useSemantic && query != "" ==> r.sem == Some(a.semanticTool(query, SemanticK)))
      && (!plan.useSemantic ==> r.sem == s.sem)
      && r.traceLog[|s.traceLog|] == RetrieveEvent(plan.useCf, plan.useSemantic, Rows(r.cf), Rows(r.sem))
      && r.(cf := s.cf, sem := s.sem, traceLog := s.traceLog) == s
  {
  }

  /** A blank query means the semantic tool's answer cannot matter: retrieval gives
      the same state whatever that tool is. */
  lemma BlankQuerySkipsSemanticTool(s: State, a: Agents, other: (string, nat) -> seq<Candidate>)
    requires s.context.query.None? || IsBlank(s.context.query.value)
    ensures RetrieveNode(s, a) == RetrieveNode(s, a.(semanticTool := other))
  {
    if s.context.query.Some? {
      StripEmptyIffBlank(s.context.query.value);
    }
  }

  /** The reranked weights: both in [0, 1]; when both clamped weights are positive they
      keep their proportion and sum to 1 once their sum reaches the 1e-6 floor; a single
      positive side takes the whole weight. */
  lemma RerankWeightsSpec(wCf: real, wSem: real, dCf: real, dSem: real)
    ensures var r := RerankWeights(wCf, wSem, dCf, dSem);
      var c := Clamp01(wCf + dCf);
      var m := Clamp01(wSem + dSem);
      && 0.0 <= r.0 <= 1.0 && 0.0 <= r.1 <= 1.0
      && (c > 0.0 && m > 0.0 ==> r.0 * m == r.1 * c)
      && (c > 0.0 && m > 0.0 && c + m >= WeightSumFloor ==> r.0 + r.1 == 1.0)
      && (c > 0.0 && m == 0.0 ==> r == (1.0, 0.0))
      && (c == 0.0 ==> r == (0.0, 1.0))
  {
    var c := Clamp01(wCf + dCf);
    var m := Clamp01(wSem + dSem);
    if c > 0.0 && m > 0.0 {
      var t := Max(c + m, WeightSumFloor);
      Proportions(c, m, t);
      if c + m >= WeightSumFloor {
        Shares(c, m, t);
      }
    }
  }

  /** Without deltas, weights that are already normalised come back unchanged. */
  lemma RerankIdempotent(wCf: real, wSem: real)
    requires 0.0 <= wCf <= 1.0 && 0.0 <= wSem <= 1.0 && wCf + wSem == 1.0
    ensures RerankWeights(wCf, wSem, 0.0, 0.0) == (wCf, wSem)
  {
    if wCf > 0.0 && wSem > 0.0 {
      assert Max(wCf + wSem, WeightSumFloor) == 1.0;
      DivByOne(wCf);
      DivByOne(wSem);
    }
  }

  /** The rerank node changes the plan's weights and trace only, appending the rerank
      note, and replaces the recommendations wholesale by the ranker's answer on the
      updated state; no deltas on a normalised plan leave its weights as they were. */
  lemma RerankNodeSpec(s: State, a: Agents)
    ensures var r := RerankNode(s, a);
      var old_plan := s.plan.GetOr(DefaultPlan);
      && r.plan.Some?
      && r.plan.value.useCf == old_plan.useCf && r.plan.value.useSemantic == old_plan.useSemantic
      && r.plan.value.trace == old_plan.trace + [RerankTag]
      && r.recs == Some(a.ranker(s.(plan := r.plan)))
      && r.(plan := s.plan, recs := s.recs, traceLog := s.traceLog) == s
    ensures var old_plan := s.plan.GetOr(DefaultPlan);
      var adj := Adjustments(s);
      CfDeltaKey !in adj && SemanticDeltaKey !in adj
      && 0.0 <= old_plan.weightCf <= 1.0 && 0.0 <= old_plan.weightSemantic <= 1.0
      && old_plan.weightCf + old_plan.weightSemantic == 1.0
      ==> RerankNode(s, a).plan.value.weightCf == old_plan.weightCf
          && RerankNode(s, a).plan.value.weightSemantic == old_plan.weightSemantic
  {
    var p := s.plan.GetOr(DefaultPlan);
    var adj := Adjustments(s);
    if CfDeltaKey !in adj && SemanticDeltaKey !in adj
       && 0.0 <= p.weightCf <= 1.0 && 0.0 <= p.weightSemantic <= 1.0 && p.weightCf + p.weightSemantic == 1.0 {
      RerankIdempotent(p.weightCf, p.weightSemantic);
    }
  }

  /** The advantage-weighted ranker read from the graph state: absent candidate lists
      count as empty, and an absent plan gives the default weights. */
  function RankerV2Of(stats: ItemStats.Stats, movies: map<int, Movie>): State -> seq<Rec> {
    (s: State) => RankerV2.RankSpec(s.cf.GetOr([]), s.sem.GetOr([]), s.plan, stats, movies)
  }

  /** With the advantage-weighted ranker plugged in, the final recommendations are at
      most `final_k`, sorted by non-increasing score, and, after a rerank, ranked with
      the reranked plan's weights. */
  lemma PipelineWithRankerV2(initial: State, a: Agents, stats: ItemStats.Stats, movies: map<int, Movie>)
    requires a.ranker == RankerV2Of(stats, movies)
    ensures var final := RunFrom(Start, initial, a);
      var s5 := AfterCritic(initial, a);
      var plan := if s5.critic.value.needsRerank then Some(RerankPlan(s5.plan, Adjustments(s5))) else s5.plan;
      && final.recs == Some(RankerV2.RankSpec(s5.cf.GetOr([]), s5.sem.GetOr([]), plan, stats, movies))
      && |final.recs.value| <= FinalK
      && (forall i, j :: 0 <= i < j < |final.recs.value| ==> final.recs.value[i].score >= final.recs.value[j].score)
  {
    RunUnrolled(initial, a);
    var s5 := AfterCritic(initial, a);
    var plan := if s5.critic.value.needsRerank then Some(RerankPlan(s5.plan, Adjustments(s5))) else s5.plan;
    RankerV2.RankShape(s5.cf.GetOr([]), s5.sem.GetOr([]), plan, stats, movies);
  }
}

/** The intent agent's deterministic guards (agents/intent_agent.py): the service's
    advisory classification is overridden by the context's hard rules, its confidence is
    clamped, and low confidence or an advised clarification always comes with one
    question. */
module Intent {
  import opened Text
  import opened Domain
  import opened JsonClient

  /** The service's advisory object; each field is `None` when absent, the trace also
      when it is not a list, the confidence also when `float()` cannot convert it.  The
      flag is the truthiness of the value given, the strings are `str()` of it. */
  datatype IntentAdvice = IntentAdvice(
    intent: Option<string>,
    confidence: Option<real>,
    needsClarification: Option<bool>,
    clarificationQuestion: Option<string>,
    trace: Option<seq<string>>)

  const EmptyAdvice := IntentAdvice(None, None, None, None, None)

  /** The intent agent calls the service with one repair attempt. */
  const IntentMaxRetries: nat := 1

  const IntentTraceTag := "intent_agent_openai"
  const DefaultClarificationTag := "default_clarification_applied"
  const DefaultConfidence := 0.6
  const ConfidenceThreshold := 0.5
  const ComfortNoveltyBelow := 0.3
  const QuickWatchMinutes := 45.0
  const DefaultQuestion := "Do you want the sci-fi to lean more cerebral and philosophical, or more emotional and character-driven?"

  /** The intent the guards leave, in the order the source applies them. */
  function GuardedIntent(advised: string, context: Context): (r: string)
  {
    var query := Strip(context.query.GetOr(""));
    if query != "" then "search"
    else if context.noveltyTolerance.Some? && context.noveltyTolerance.value < ComfortNoveltyBelow then "comfort"
    else if context.availableMinutes.Some? && context.availableMinutes.value <= QuickWatchMinutes then "quick_watch"
    else advised
  }

  /** Lines 73-119 of `IntentAgent.run` as a function of the context and the client's
      response. */
  function DecideSpec(context: Context, resp: Response<IntentAdvice>): IntentResult {
    var data := if resp.ok then resp.data else EmptyAdvice;
    var trace := data.trace.GetOr([]) + resp.trace + [IntentTraceTag];
    var intent := GuardedIntent(data.intent.GetOr("explore"), context);
    var confidence := Clamp01(data.confidence.GetOr(DefaultConfidence));
    var needs := data.needsClarification.GetOr(false) || confidence < ConfidenceThreshold;
    var question := data.clarificationQuestion.GetOr("");
    if needs && question == "" then
      IntentResult(intent, confidence, needs, DefaultQuestion, trace + [DefaultClarificationTag])
    else
      IntentResult(intent, confidence, needs, question, trace)
  }

  /** The source's sequence of reassignments: the trace is extended, then the guards,
      the clamp and the clarification rule overwrite their variables one by one. */
  method Decide(context: Context, resp: Response<IntentAdvice>) returns (r: IntentResult)
    ensures r == DecideSpec(context, resp)
  {
    var data := if resp.ok then resp.data else EmptyAdvice;
    var trace := if data.trace.Some? then data.trace.value else [];
    trace := trace + resp.trace;
    trace := trace + [IntentTraceTag];
    var query := Strip(context.query.GetOr(""));
    var intent := data.intent.GetOr("explore");
    if query != "" {
      intent := "search";
    } else {
      if context.noveltyTolerance.Some? && context.noveltyTolerance.value < ComfortNoveltyBelow {
        intent := "comfort";
      } else if context.availableMinutes.Some? && context.availableMinutes.value <= QuickWatchMinutes {
        intent := "quick_watch";
      }
    }
    var confidence := data.confidence.GetOr(DefaultConfidence);
    confidence := Max(0.0, Min(1.0, confidence));
    var needs := data.needsClarification.GetOr(false);
    var question := data.clarificationQuestion.GetOr("");
    if confidence < ConfidenceThreshold && !needs {
      needs := true;
    }
    if needs && question == "" {
      question := DefaultQuestion;
      trace := trace + [DefaultClarificationTag];
    }
    r := IntentResult(intent, confidence, needs, question, trace);
  }

  /** `IntentAgent.run`: the service asked with one repair attempt, then the guards. */
  method Run(context: Context, call: Caller, decode: string -> Option<IntentAdvice>) returns (r: IntentResult)
    ensures r == DecideSpec(context, Generate(call, decode, EmptyAdvice, IntentMaxRetries).0)
  {
    var resp, calls := GenerateJson(call, decode, EmptyAdvice, IntentMaxRetries);
    r := Decide(context, resp);
  }

  // ----- properties of the decision -----

  /** The hard guards: a query gives "search"; without one, a novelty tolerance below
      0.3 gives "comfort", else at most 45 available minutes give "quick_watch"; when no
      guard fires the advised intent stands, "explore" when there is none. */
  lemma IntentGuards(context: Context, resp: Response<IntentAdvice>)
    ensures var r := DecideSpec(context, resp);
      var query := Strip(context.query.GetOr(""));
      var advised := if resp.ok then resp.data.intent.GetOr("explore") else "explore";
      var comfort := context.noveltyTolerance.Some? && context.noveltyTolerance.value < 0.3;
      var quick := context.availableMinutes.Some? && context.availableMinutes.value <= 45.0;
      && (query != "" ==> r.intent == "search")
      && (query == "" && comfort ==> r.intent == "comfort")
      && (query == "" && !comfort && quick ==> r.intent == "quick_watch")
      && (query == "" && !comfort && !quick ==> r.intent == advised)
  {
  }

  /** A query that is not blank always makes the intent "search", whatever the service
      said. */
  lemma QueryMeansSearch(context: Context, resp: Response<IntentAdvice>)
    requires context.query.Some? && !IsBlank(context.query.value)
    ensures DecideSpec(context, resp).intent == "search"
  {
    StripEmptyIffBlank(context.query.value);
  }

  /** The confidence lies in [0, 1]; it is 0.6 when none was advised and the advised
      value itself when that is already in range. */
  lemma ConfidenceClamped(context: Context, resp: Response<IntentAdvice>)
    ensures var r := DecideSpec(context, resp);
      var data := if resp.ok then resp.data else EmptyAdvice;
      && 0.0 <= r.confidence <= 1.0
      && (data.confidence.None? ==> r.confidence == 0.6)
      && (data.confidence.Some? && 0.0 <= data.confidence.value <= 1.0 ==> r.confidence == data.confidence.value)
  {
  }

  /** Clarification is needed exactly when the service asked for it or the confidence is
      below 0.5; then there is always a question, the default one (noted in the trace)
      when the service gave none; otherwise the advised question is passed through. */
  lemma ClarificationRule(context: Context, resp: Response<IntentAdvice>)
    ensures var r := DecideSpec(context, resp);
      var data := if resp.ok then resp.data else EmptyAdvice;
      var advisedQ := data.clarificationQuestion.GetOr("");
      var defaulted := r.needsClarification && advisedQ == "";
      && (r.needsClarification <==> data.needsClarification.GetOr(false) || r.confidence < 0.5)
      && (r.needsClarification ==> r.clarificationQuestion != "")
      && r.clarificationQuestion == (if defaulted then DefaultQuestion else advisedQ)
      && (DefaultClarificationTag in r.trace[|r.trace| - 1..] <==> defaulted)
  {
  }

  /** The trace is the advisory trace, the client's trace, the agent's tag, then the
      default-question note when that was applied. */
  lemma TraceOrder(context: Context, resp: Response<IntentAdvice>)
    ensures var r := DecideSpec(context, resp);
      var data := if resp.ok then resp.data else EmptyAdvice;
      var base := data.trace.GetOr([]) + resp.trace + [IntentTraceTag];
      && (r.trace == base || r.trace == base + [DefaultClarificationTag])
      && r.trace[..|base|] == base
  {
  }

  /** When every call to the service fails, the context alone decides: the guarded
      intent or "explore", confidence 0.6, no clarification, and a trace of the two
      failures before the tag. */
  lemma IntentServiceDown(context: Context, call: Caller, decode: string -> Option<IntentAdvice>)
    requires forall k, s :: call(k, s).Raised?
    ensures var r := DecideSpec(context, Generate(call, decode, EmptyAdvice, IntentMaxRetries).0);
      && r.intent == GuardedIntent("explore", context)
      && r.confidence == 0.6
      && !r.needsClarification
      && r.clarificationQuestion == ""
      && |r.trace| == 3
      && r.trace[0] == CallFailedPrefix + call(0, "").errorType
      && r.trace[2] == IntentTraceTag
  {
    ServiceDown(call, decode, EmptyAdvice, IntentMaxRetries);
  }
}

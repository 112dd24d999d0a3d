/** The reasoning-service client's JSON handling: fallback parsing of a raw reply and
    the bounded repair protocol (agents/openai_client.py).  The chat-completion call
    and `json.loads` are oracles passed in as functions; the client is generic in the
    typed record `D` that a decoded JSON object becomes. */
module JsonClient {
  import opened Text
  import opened Domain

  /** One call of the chat endpoint: the stripped content of the reply, or the name of
      the exception type it raised. */
  datatype CallOutcome = Returned(text: string) | Raised(errorType: string)

  /** What a successful `json.loads` produced: an object (decoded into `D`) or any
      other JSON value. */
  datatype Loaded<D> = Dict(data: D) | NonDict

  /** The pair returned by `_try_parse`: `(obj, True)` or `(None, False)`. */
  datatype ParseOutcome<D> = Parsed(value: Loaded<D>) | NotParsed

  /** The dictionary returned by `generate_json`; `data` is `empty` (the record of an
      empty JSON object) when no attempt produced an object. */
  datatype Response<D> = Response(ok: bool, data: D, raw: string, trace: seq<string>)

  /** The oracle for `_call`: attempt 0 is the original request, attempt k >= 1 the
      k-th repair request, which shows the model the invalid output given as text. */
  type Caller = (nat, string) -> CallOutcome

  const ParseFailed := "json_parse_failed"
  const RepairSuccess := "json_repair_success"
  const RepairFailed := "json_repair_failed"
  const CallFailedPrefix := "openai_call_failed:"
  const RepairCallFailedPrefix := "openai_repair_failed:"

  /** Some `{` occurs before some `}`. */
  predicate HasBracePair(raw: string) {
    exists i, j :: 0 <= i < j < |raw| && raw[i] == '{' && raw[j] == '}'
  }

  /** `raw[raw.find("{") : raw.rfind("}") + 1]` when both braces exist in that order. */
  function BraceSlice(raw: string): Option<string> {
    var start := IndexOf(raw, '{');
    var end := LastIndexOf(raw, '}');
    if start != -1 && end != -1 && end > start then Some(raw[start..end + 1]) else None
  }

  /** The brace slice exists exactly when a `{` precedes a `}`. */
  lemma BraceSliceExists(raw: string)
    ensures BraceSlice(raw).Some? <==> HasBracePair(raw)
  {
    var start := IndexOf(raw, '{');
    var end := LastIndexOf(raw, '}');
    if start != -1 && end != -1 && end > start {
      assert raw[start] == '{' && raw[end] == '}';
    }
  }

  /** A text is its prefix, the slice `[start..end]` and its suffix. */
  lemma SplitAround(raw: string, start: nat, end: nat)
    requires start <= end < |raw|
    ensures raw == raw[..start] + raw[start..end + 1] + raw[end + 1..]
  {
  }

  /** The brace slice is the widest slice that opens with `{` and closes with `}`:
      nothing before it is a `{` and nothing after it is a `}`. */
  lemma BraceSliceWidest(raw: string)
    requires BraceSlice(raw).Some?
    ensures var t := BraceSlice(raw).value;
      && |t| >= 2 && t[0] == '{' && t[|t| - 1] == '}'
      && exists p, q :: raw == p + t + q && '{' !in p && '}' !in q
  {
    var start := IndexOf(raw, '{');
    var end := LastIndexOf(raw, '}');
    var t := raw[start..end + 1];
    assert t == BraceSlice(raw).value;
    assert t[0] == raw[start] && t[|t| - 1] == raw[end];
    var p, q := raw[..start], raw[end + 1..];
    SplitAround(raw, start, end);
    assert '{' !in p;
    assert '}' !in q;
    assert raw == p + t + q;
  }

  /** `_try_parse`: a blank reply (`not raw or not raw.strip()`, see
      `Text.StripEmptyIffBlank`) is not parsed; otherwise the whole text is tried and,
      failing that, its brace slice. */
  function TryParse<D>(raw: string, loads: string -> Option<Loaded<D>>): (r: ParseOutcome<D>)
    ensures IsBlank(raw) ==> r == NotParsed
    ensures !IsBlank(raw) && loads(raw).Some? ==> r == Parsed(loads(raw).value)
    ensures r.Parsed? && loads(raw).None? ==>
      BraceSlice(raw).Some? && loads(BraceSlice(raw).value) == Some(r.value)
    ensures r.NotParsed? <==>
      || IsBlank(raw)
      || (loads(raw).None? && (BraceSlice(raw).None? || loads(BraceSlice(raw).value).None?))
  {
    if IsBlank(raw) then NotParsed
    else match loads(raw)
      case Some(v) => Parsed(v)
      case None =>
        match BraceSlice(raw)
        case None => NotParsed
        case Some(t) => if loads(t).Some? then Parsed(loads(t).value) else NotParsed
  }

  /** The object `_try_parse` found, if it found one. */
  function AsDict<D>(p: ParseOutcome<D>): Option<D> {
    if p.Parsed? && p.value.Dict? then Some(p.value.data) else None
  }

  /** `_try_parse` followed by the `isinstance(obj, dict)` test, as one function value. */
  function Decoder<D>(loads: string -> Option<Loaded<D>>): string -> Option<D> {
    (s: string) => AsDict(TryParse(s, loads))
  }

  /** The repair loop from repair number `done + 1` on, given the current `raw` and
      `trace`: the response and the total number of calls made. */
  function Repairs<D>(call: Caller, decode: string -> Option<D>, empty: D,
                      done: nat, maxRetries: nat, raw: string, trace: seq<string>): (r: (Response<D>, nat))
    requires done <= maxRetries
    ensures 1 + done < r.1 <= 1 + maxRetries || (r.1 == 1 + done == 1 + maxRetries)
    ensures |r.0.trace| == |trace| + (r.1 - 1 - done)
    ensures r.0.ok ==> r.1 > 1 + done && r.0.trace[|r.0.trace| - 1] == RepairSuccess
    ensures r.0.ok ==> decode(r.0.raw) == Some(r.0.data)
    ensures !r.0.ok ==> r.0.data == empty && r.1 == 1 + maxRetries
    decreases maxRetries - done
  {
    if done == maxRetries then (Response(false, empty, raw, trace), 1 + done)
    else
      match call(done + 1, raw)
      case Raised(e) =>
        Repairs(call, decode, empty, done + 1, maxRetries, raw, trace + [RepairCallFailedPrefix + e])
      case Returned(raw2) =>
        match decode(raw2)
        case Some(d) => (Response(true, d, raw2, trace + [RepairSuccess]), done + 2)
        case None => Repairs(call, decode, empty, done + 1, maxRetries, raw2, trace + [RepairFailed])
  }

  /** `generate_json` with `decode` standing for `_try_parse` plus the
      `isinstance(obj, dict)` test (the client passes `Decoder(loads)`): the response
      and the number of calls made.  At most `1 + maxRetries` calls; a first-attempt
      object gives an empty trace; otherwise every call left exactly one trace entry;
      exhaustion gives `ok == false` and the empty record. */
  function Generate<D>(call: Caller, decode: string -> Option<D>, empty: D, maxRetries: nat)
    : (r: (Response<D>, nat))
    ensures 1 <= r.1 <= 1 + maxRetries
    ensures (r.0.ok && r.1 == 1) <==> (call(0, "").Returned? && decode(call(0, "").text).Some?)
    ensures |r.0.trace| == if r.0.ok && r.1 == 1 then 0 else r.1
    ensures r.0.ok ==> decode(r.0.raw) == Some(r.0.data)
    ensures !r.0.ok ==> r.0.data == empty && r.1 == 1 + maxRetries
    ensures r.0.ok && r.1 > 1 ==> r.0.trace[|r.0.trace| - 1] == RepairSuccess
  {
    match call(0, "")
    case Raised(e) => Repairs(call, decode, empty, 0, maxRetries, "", [CallFailedPrefix + e])
    case Returned(raw) =>
      match decode(raw)
      case Some(d) => (Response(true, d, raw, []), 1)
      case None => Repairs(call, decode, empty, 0, maxRetries, raw, [ParseFailed])
  }

  /** The repair `for` loop of `generate_json`, from the state the first attempt left:
      up to `maxRetries` repairs, returning early on the first object.  `calls` counts
      the first attempt too. */
  method RepairLoop<D>(call: Caller, decode: string -> Option<D>, empty: D, maxRetries: nat,
                       raw0: string, trace0: seq<string>) returns (resp: Response<D>, calls: nat)
    ensures (resp, calls) == Repairs(call, decode, empty, 0, maxRetries, raw0, trace0)
  {
    var raw, trace := raw0, trace0;
    calls := 1;
    var k := 0;
    while k < maxRetries
      invariant k <= maxRetries && calls == 1 + k
      invariant Repairs(call, decode, empty, k, maxRetries, raw, trace) == Repairs(call, decode, empty, 0, maxRetries, raw0, trace0)
    {
      calls := calls + 1;
      ghost var spec := Repairs(call, decode, empty, k, maxRetries, raw, trace);
      match call(k + 1, raw) {
        case Returned(raw2) =>
          var obj := decode(raw2);
          if obj.Some? {
            trace := trace + [RepairSuccess];
            assert spec == (Response(true, obj.value, raw2, trace), calls);
            return Response(true, obj.value, raw2, trace), calls;
          }
          trace := trace + [RepairFailed];
          raw := raw2;
          assert spec == Repairs(call, decode, empty, k + 1, maxRetries, raw, trace);
        case Raised(e) =>
          trace := trace + [RepairCallFailedPrefix + e];
          assert spec == Repairs(call, decode, empty, k + 1, maxRetries, raw, trace);
      }
      k := k + 1;
    }
    resp := Response(false, empty, raw, trace);
  }

  /** `generate_json` as the source runs it: one attempt, then the repair loop.
      `calls` counts the invocations of the chat endpoint. */
  method GenerateJson<D>(call: Caller, decode: string -> Option<D>, empty: D, maxRetries: nat)
    returns (resp: Response<D>, calls: nat)
    ensures (resp, calls) == Generate(call, decode, empty, maxRetries)
    ensures 1 <= calls <= 1 + maxRetries
    ensures !resp.ok ==> resp.data == empty
    ensures resp.ok ==> decode(resp.raw) == Some(resp.data)
    ensures resp.ok && calls == 1 ==> resp.trace == []
  {
    match call(0, "") {
      case Returned(t) =>
        var obj := decode(t);
        if obj.Some? {
          return Response(true, obj.value, t, []), 1;
        }
        resp, calls := RepairLoop(call, decode, empty, maxRetries, t, [ParseFailed]);
      case Raised(e) =>
        resp, calls := RepairLoop(call, decode, empty, maxRetries, "", [CallFailedPrefix + e]);
    }
  }

  /** One repair step: a call that raises keeps `raw` and logs the error; an unparsable
      reply replaces `raw` and logs "json_repair_failed"; an object ends the loop with it. */
  lemma RepairStep<D>(call: Caller, decode: string -> Option<D>, empty: D,
                      done: nat, maxRetries: nat, raw: string, trace: seq<string>)
    requires done < maxRetries
    ensures call(done + 1, raw).Raised? ==>
      Repairs(call, decode, empty, done, maxRetries, raw, trace) ==
      Repairs(call, decode, empty, done + 1, maxRetries, raw,
              trace + [RepairCallFailedPrefix + call(done + 1, raw).errorType])
    ensures call(done + 1, raw).Returned? && decode(call(done + 1, raw).text).None? ==>
      Repairs(call, decode, empty, done, maxRetries, raw, trace) ==
      Repairs(call, decode, empty, done + 1, maxRetries, call(done + 1, raw).text, trace + [RepairFailed])
    ensures call(done + 1, raw).Returned? && decode(call(done + 1, raw).text).Some? ==>
      Repairs(call, decode, empty, done, maxRetries, raw, trace) ==
      (Response(true, decode(call(done + 1, raw).text).value, call(done + 1, raw).text,
                trace + [RepairSuccess]), done + 2)
  {
  }

  /** A repair call that raises leaves `raw` as it was: when every call raises, the
      response keeps the initial empty `raw` and carries one failure entry per call. */
  lemma {:induction false} RepairsAllRaise<D>(call: Caller, decode: string -> Option<D>, empty: D,
                                             done: nat, maxRetries: nat, raw: string, trace: seq<string>)
    requires done <= maxRetries
    requires forall k, s :: call(k, s).Raised?
    ensures Repairs(call, decode, empty, done, maxRetries, raw, trace).0 ==
      Response(false, empty, raw, trace + seq(maxRetries - done, i requires 0 <= i < maxRetries - done =>
        RepairCallFailedPrefix + call(done + 1 + i, raw).errorType))
    decreases maxRetries - done
  {
    if done < maxRetries {
      var e := call(done + 1, raw).errorType;
      RepairsAllRaise(call, decode, empty, done + 1, maxRetries, raw, trace + [RepairCallFailedPrefix + e]);
      var tail := seq(maxRetries - done - 1, i requires 0 <= i < maxRetries - done - 1 =>
        RepairCallFailedPrefix + call(done + 2 + i, raw).errorType);
      var whole := seq(maxRetries - done, i requires 0 <= i < maxRetries - done =>
        RepairCallFailedPrefix + call(done + 1 + i, raw).errorType);
      assert whole == [RepairCallFailedPrefix + e] + tail;
    }
  }

  /** An unreachable service: `ok` is false, `data` is empty, `raw` stays "" and the
      trace has one entry per call. */
  lemma ServiceDown<D>(call: Caller, decode: string -> Option<D>, empty: D, maxRetries: nat)
    requires forall k, s :: call(k, s).Raised?
    ensures var r := Generate(call, decode, empty, maxRetries);
      && r.0.ok == false && r.0.data == empty && r.0.raw == ""
      && r.1 == 1 + maxRetries && |r.0.trace| == 1 + maxRetries
      && r.0.trace[0] == CallFailedPrefix + call(0, "").errorType
  {
    RepairsAllRaise(call, decode, empty, 0, maxRetries, "", [CallFailedPrefix + call(0, "").errorType]);
  }
}

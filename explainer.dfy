/** The explainer's output sanitisation (agents/explainer_agent.py): the service's
    explanation is reduced to a string one-liner and exactly three string bullets, and
    the prompt sees only the titles and genres of the first three recommendations. */
module Explainer {
  import opened Domain
  import opened JsonClient

  /** The JSON values the sanitiser distinguishes. */
  datatype JsonValue = JStr(s: string) | JList(items: seq<JsonValue>) | JOther

  /** The service's advisory object: the `one_liner` and `bullets` values, `None` when
      absent. */
  datatype ExplainerAdvice = ExplainerAdvice(oneLiner: Option<JsonValue>, bullets: Option<JsonValue>)

  const EmptyAdvice := ExplainerAdvice(None, None)

  /** The explainer calls the service with one repair attempt. */
  const ExplainerMaxRetries: nat := 1

  const BulletCount: nat := 3
  const PromptRecs: nat := 3

  /** The `{"title", "genres"}` pairs shown to the service. */
  datatype Shown = Shown(title: string, genres: string)

  /** `[{"title": ..., "genres": ...} for r in (recs or [])[:3]]`. */
  function Top3(recs: seq<Rec>): (r: seq<Shown>)
    ensures |r| == if |recs| <= PromptRecs then |recs| else PromptRecs
    ensures forall i :: 0 <= i < |r| ==> r[i] == Shown(recs[i].title, recs[i].genres)
  {
    var top := Take(recs, PromptRecs);
    seq(|top|, i requires 0 <= i < |top| => Shown(top[i].title, top[i].genres))
  }

  /** `[b for b in bullets if isinstance(b, str)]`. */
  function StringsOf(items: seq<JsonValue>): seq<string> {
    if items == [] then []
    else if items[0].JStr? then [items[0].s] + StringsOf(items[1..])
    else StringsOf(items[1..])
  }

  /** The filter keeps the string entries, in order: it distributes over
      concatenation, keeps an all-string list whole, and holds exactly the strings
      that the list holds. */
  lemma {:induction false} StringsOfAppend(a: seq<JsonValue>, b: seq<JsonValue>)
    ensures StringsOf(a + b) == StringsOf(a) + StringsOf(b)
  {
    if a == [] {
      assert a + b == b;
    } else {
      assert (a + b)[1..] == a[1..] + b;
      StringsOfAppend(a[1..], b);
    }
  }

  lemma {:induction false} StringsOfMembers(items: seq<JsonValue>)
    ensures |StringsOf(items)| <= |items|
    ensures forall x :: x in StringsOf(items) <==> JStr(x) in items
  {
    if items != [] {
      StringsOfMembers(items[1..]);
      assert items == [items[0]] + items[1..];
    }
  }

  lemma {:induction false} StringsOfAllStrings(strs: seq<string>)
    ensures StringsOf(seq(|strs|, i requires 0 <= i < |strs| => JStr(strs[i]))) == strs
  {
    if strs != [] {
      var items := seq(|strs|, i requires 0 <= i < |strs| => JStr(strs[i]));
      StringsOfAllStrings(strs[1..]);
      assert items[1..] == seq(|strs[1..]|, i requires 0 <= i < |strs[1..]| => JStr(strs[1..][i]));
    }
  }

  /** The first three strings, padded with "" to exactly three. */
  function FirstThree(strs: seq<string>): (r: seq<string>)
    ensures |r| == BulletCount
    ensures forall i :: 0 <= i < BulletCount ==> r[i] == if i < |strs| then strs[i] else ""
  {
    seq(BulletCount, i requires 0 <= i < BulletCount => if i < |strs| then strs[i] else "")
  }

  /** The bullet strings before padding: the string entries of a list, none otherwise. */
  function BulletStrings(bullets: Option<JsonValue>): seq<string> {
    if bullets.Some? && bullets.value.JList? then StringsOf(bullets.value.items) else []
  }

  /** Lines 119-140 of `ExplainerAgent.run` as a function of the client's response. */
  function SanitizeSpec(resp: Response<ExplainerAdvice>): Explanation {
    var data := if resp.ok then resp.data else EmptyAdvice;
    var one := if data.oneLiner.Some? && data.oneLiner.value.JStr? then data.oneLiner.value.s else "";
    Explanation(one, FirstThree(BulletStrings(data.bullets)))
  }

  /** The sanitisation as the source does it: type tests, the filter, the padding loop,
      then truncation to three. */
  method Sanitize(resp: Response<ExplainerAdvice>) returns (e: Explanation)
    ensures e == SanitizeSpec(resp)
  {
    var data := if resp.ok then resp.data else EmptyAdvice;
    var oneLiner := "";
    if data.oneLiner.Some? && data.oneLiner.value.JStr? {
      oneLiner := data.oneLiner.value.s;
    }
    var strs := BulletStrings(data.bullets);
    var bullets := strs;
    while |bullets| < BulletCount
      invariant |strs| <= |bullets|
      invariant |bullets| <= if |strs| <= BulletCount then BulletCount else |strs|
      invariant bullets[..|strs|] == strs
      invariant forall i :: |strs| <= i < |bullets| ==> bullets[i] == ""
      decreases BulletCount - |bullets|
    {
      bullets := bullets + [""];
    }
    forall i | 0 <= i < |strs| ensures bullets[i] == strs[i] {
      assert bullets[..|strs|][i] == bullets[i];
    }
    bullets := bullets[..BulletCount];
    e := Explanation(oneLiner, bullets);
  }

  /** `ExplainerAgent.run`: the service asked with one repair attempt, then the
      sanitisation. */
  method Run(call: Caller, decode: string -> Option<ExplainerAdvice>) returns (e: Explanation)
    ensures e == SanitizeSpec(Generate(call, decode, EmptyAdvice, ExplainerMaxRetries).0)
  {
    var resp, calls := GenerateJson(call, decode, EmptyAdvice, ExplainerMaxRetries);
    e := Sanitize(resp);
  }

  // ----- properties of the sanitised explanation -----

  /** There are always exactly three bullets: the first up-to-three string entries of
      the advised list in their order, then "" for the missing ones; a one-liner that is
      not a string becomes "". */
  lemma ExplanationShape(resp: Response<ExplainerAdvice>)
    ensures var e := SanitizeSpec(resp);
      var data := if resp.ok then resp.data else EmptyAdvice;
      var strs := BulletStrings(data.bullets);
      && |e.bullets| == 3
      && (forall i :: 0 <= i < 3 && i < |strs| ==> e.bullets[i] == strs[i])
      && (forall i :: |strs| <= i < 3 ==> e.bullets[i] == "")
      && (forall b :: b in e.bullets ==> b == "" || (data.bullets.Some? && JStr(b) in data.bullets.value.items))
      && (!(data.oneLiner.Some? && data.oneLiner.value.JStr?) ==> e.oneLiner == "")
  {
    var data := if resp.ok then resp.data else EmptyAdvice;
    var strs := BulletStrings(data.bullets);
    var e := SanitizeSpec(resp);
    if data.bullets.Some? && data.bullets.value.JList? {
      StringsOfMembers(data.bullets.value.items);
    }
    forall b | b in e.bullets
      ensures b == "" || (data.bullets.Some? && JStr(b) in data.bullets.value.items)
    {
      var i :| 0 <= i < 3 && e.bullets[i] == b;
      if i < |strs| {
        assert strs[i] in strs;
      }
    }
  }

  /** A list of at least three strings keeps its first three; a bullets value that is
      not a list gives three empty bullets. */
  lemma BulletsTruncatedOrBlank(resp: Response<ExplainerAdvice>, strs: seq<string>)
    requires resp.ok
    ensures var items := seq(|strs|, i requires 0 <= i < |strs| => JStr(strs[i]));
      |strs| >= 3 && resp.data.bullets == Some(JList(items)) ==> SanitizeSpec(resp).bullets == strs[..3]
    ensures resp.data.bullets.None? || !resp.data.bullets.value.JList? ==> SanitizeSpec(resp).bullets == ["", "", ""]
  {
    StringsOfAllStrings(strs);
  }

  /** Without a usable reply the explanation is blank: "" and three empty bullets. */
  lemma NotOkIsBlank(resp: Response<ExplainerAdvice>)
    requires !resp.ok
    ensures SanitizeSpec(resp) == Explanation("", ["", "", ""])
  {
  }
}

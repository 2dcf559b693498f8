/** Reading a score out of a judge model's free-form reply: the whole text as JSON,
    then the first fenced JSON block, then a `"score": <number>` scan, else an
    error. The three regular expressions involved are implemented here as
    scanners with Python's leftmost-match semantics; `json.loads` is a parameter. */
module JudgeParser {
  import opened Wrappers
  import opened Text
  import opened Values

  /** `JudgeResult`. `reasoning` is whatever the reply held under "reasoning"
      (normally a string; Python does not check). */
  datatype JudgeResult = JudgeResult(score: real, reasoning: Value, rawText: string)

  /** `json.loads`: the decoded value, or `None` where it raises JSONDecodeError. */
  type Loads = string -> Option<Value>

  const Fence: string := "```"

  /** Three backquotes start at `m`. */
  predicate FenceStartsAt(s: string, m: nat) {
    m + 3 <= |s| && s[m] == '`' && s[m + 1] == '`' && s[m + 2] == '`'
  }

  // ----- leftmost match -----

  /** The match at the leftmost start position in [p, n) at which `at` matches. */
  function FirstFrom(at: nat -> Option<string>, p: nat, n: nat): Option<string>
    decreases n - p
  {
    if p >= n then None
    else if at(p).Some? then at(p)
    else FirstFrom(at, p + 1, n)
  }

  /** `FirstFrom` is the leftmost match: it is the match at some start position
      before which nothing matches, and it is absent exactly when nothing matches. */
  lemma {:induction false} FirstFromLeftmost(at: nat -> Option<string>, p: nat, n: nat)
    ensures var r := FirstFrom(at, p, n);
      r.Some? ==> exists k :: p <= k < n && at(k) == r && forall j :: p <= j < k ==> at(j).None?
    ensures FirstFrom(at, p, n).None? <==> forall k :: p <= k < n ==> at(k).None?
    decreases n - p
  {
    if p < n && at(p).None? {
      FirstFromLeftmost(at, p + 1, n);
      var r := FirstFrom(at, p + 1, n);
      if r.Some? {
        var k :| p + 1 <= k < n && at(k) == r && forall j :: p + 1 <= j < k ==> at(j).None?;
        assert forall j :: p <= j < k ==> at(j).None?;
      }
    }
  }

  // ----- ```(?:json)?\s*(\{.*?\})\s*```  (DOTALL) -----

  /** Where the optional `json` tag after an opening fence at `p` ends. Once the
      tag is present, leaving it out cannot help a match, since `j` is neither a
      space nor `{`. */
  function TagEnd(s: string, p: nat): (e: nat)
    requires FenceStartsAt(s, p)
    ensures p + 3 <= e <= |s|
  {
    if p + 7 <= |s| && s[p + 3] == 'j' && s[p + 4] == 's' && s[p + 5] == 'o' && s[p + 6] == 'n' then p + 7 else p + 3
  }

  /** A `}` at `c` followed by optional spaces and a closing fence. */
  predicate ClosesAt(s: string, c: nat) {
    c < |s| && s[c] == '}' && FenceStartsAt(s, SkipSpaces(s, c + 1))
  }

  /** The lazy `.*?\}`: the first closing position at or after `c`. */
  function FirstClose(s: string, c: nat): (r: Option<nat>)
    requires c <= |s|
    ensures r.Some? ==> c <= r.value < |s| && ClosesAt(s, r.value)
    ensures r.Some? ==> forall k :: c <= k < r.value ==> !ClosesAt(s, k)
    ensures r.None? ==> forall k :: c <= k < |s| ==> !ClosesAt(s, k)
    decreases |s| - c
  {
    if c == |s| then None
    else if ClosesAt(s, c) then Some(c)
    else FirstClose(s, c + 1)
  }

  /** The captured `{...}` when the fenced-block pattern matches at `p`. */
  function FenceAt(s: string, p: nat): (r: Option<string>)
    ensures r.Some? ==> FenceStartsAt(s, p)
    ensures r.Some? ==> |r.value| >= 2 && r.value[0] == '{' && r.value[|r.value| - 1] == '}'
  {
    if !FenceStartsAt(s, p) then None
    else
      var b := SkipSpaces(s, TagEnd(s, p));
      if b < |s| && s[b] == '{' then
        var close := FirstClose(s, b + 1);
        if close.Some? then Some(s[b..close.value + 1]) else None
      else None
  }

  /** The group of the leftmost fenced JSON block, if any. */
  function FencedJson(s: string): Option<string> {
    FirstFrom((p: nat) => FenceAt(s, p), 0, |s|)
  }

  // ----- "key"\s*:\s*([\d.]+)  and  "key"\s*:\s*"([^"]*)" -----

  function Quoted(key: string): string {
    "\"" + key + "\""
  }

  /** The end of the run of digits and dots starting at `k`. */
  function NumberEnd(s: string, k: nat): (e: nat)
    requires k <= |s|
    ensures k <= e <= |s|
    ensures forall i :: k <= i < e ==> IsDigit(s[i]) || s[i] == '.'
    ensures e == |s| || !(IsDigit(s[e]) || s[e] == '.')
    decreases |s| - k
  {
    if k < |s| && (IsDigit(s[k]) || s[k] == '.') then NumberEnd(s, k + 1) else k
  }

  /** The first `"` at or after `k`, or `|s|`. */
  function QuoteEnd(s: string, k: nat): (e: nat)
    requires k <= |s|
    ensures k <= e <= |s|
    ensures forall i :: k <= i < e ==> s[i] != '"'
    ensures e < |s| ==> s[e] == '"'
    decreases |s| - k
  {
    if k == |s| || s[k] == '"' then k else QuoteEnd(s, k + 1)
  }

  /** Where the value after `"key"`, spaces, `:` and spaces starts, when the key
      and colon occur at `p`. */
  function ValueStart(s: string, key: string, p: nat): (r: Option<nat>)
    ensures r.Some? ==> OccursAt(s, Quoted(key), p) && r.value <= |s|
  {
    if !OccursAt(s, Quoted(key), p) then None
    else
      var a := SkipSpaces(s, p + |Quoted(key)|);
      if a < |s| && s[a] == ':' then Some(SkipSpaces(s, a + 1)) else None
  }

  /** The `[\d.]+` group when `"key"\s*:\s*([\d.]+)` matches at `p`. */
  function NumberAt(s: string, key: string, p: nat): (r: Option<string>)
    ensures r.Some? ==> r.value != [] && forall i :: 0 <= i < |r.value| ==> IsDigit(r.value[i]) || r.value[i] == '.'
  {
    match ValueStart(s, key, p)
    case None => None
    case Some(b) =>
      var e := NumberEnd(s, b);
      if e > b then Some(s[b..e]) else None
  }

  /** The `[^"]*` group when `"key"\s*:\s*"([^"]*)"` matches at `p`. */
  function StringAt(s: string, key: string, p: nat): (r: Option<string>)
    ensures r.Some? ==> forall i :: 0 <= i < |r.value| ==> r.value[i] != '"'
  {
    match ValueStart(s, key, p)
    case None => None
    case Some(b) =>
      if b < |s| && s[b] == '"' then
        var e := QuoteEnd(s, b + 1);
        if e < |s| then Some(s[b + 1..e]) else None
      else None
  }

  /** `re.search(r'"key"\s*:\s*([\d.]+)', s).group(1)`. */
  function NumberScan(s: string, key: string): Option<string> {
    FirstFrom((p: nat) => NumberAt(s, key, p), 0, |s|)
  }

  /** `re.search(r'"key"\s*:\s*"([^"]*)"', s).group(1)`. */
  function StringScan(s: string, key: string): Option<string> {
    FirstFrom((p: nat) => StringAt(s, key, p), 0, |s|)
  }

  // ----- the fallback chain -----

  /** What one stage of the chain does: nothing usable (the stage's exception is
      caught, or its pattern did not match), a score, or an exception that
      escapes the chain. */
  datatype Stage = NoMatch | Found(score: real, reasoning: Value) | Raised(error: string)

  /** `float(data["score"])` and `data.get("reasoning", "")` under
      `except (JSONDecodeError, KeyError, TypeError)`: a missing key or a value of
      the wrong type is caught; a string `float` rejects raises ValueError, which
      is not caught. */
  function DataStage(data: Value): (st: Stage)
    ensures st.Found? ==> data.Dict? && Get(data.entries, "score").Some?
    ensures st.Found? ==> ToFloat(Get(data.entries, "score").value) == Ok(st.score)
    ensures !data.Dict? ==> st.NoMatch?
  {
    match data
    case Dict(d) =>
      (match Get(d, "score")
       case None => NoMatch
       case Some(v) =>
         (match ToFloat(v)
          case Ok(x) => Found(x, GetOr(d, "reasoning", Str("")))
          case Err(e) => if v.Str? || v.Fmt? then Raised(e) else NoMatch))
    case _ => NoMatch
  }

  function WholeTextStage(loads: Loads, raw: string): Stage {
    match loads(raw)
    case None => NoMatch
    case Some(data) => DataStage(data)
  }

  function FenceStage(loads: Loads, raw: string): Stage {
    match FencedJson(raw)
    case None => NoMatch
    case Some(block) =>
      (match loads(block)
       case None => NoMatch
       case Some(data) => DataStage(data))
  }

  /** The regex stage: the scanned number, with the scanned reasoning or else the
      first 200 characters of the reply. */
  function ScanStage(raw: string): Stage {
    match NumberScan(raw, "score")
    case None => NoMatch
    case Some(num) =>
      (match ToFloat(Str(num))
       case Ok(x) =>
         var reasoning := match StringScan(raw, "reasoning") case Some(r) => r case None => Take(raw, 200);
         Found(x, Str(reasoning))
       case Err(e) => Raised(e))
  }

  function Stages(loads: Loads, raw: string): seq<Stage> {
    [WholeTextStage(loads, raw), FenceStage(loads, raw), ScanStage(raw)]
  }

  /** The first stage that does not fall through, or `NoMatch` when all do. */
  function Decide(stages: seq<Stage>): (r: Stage)
    ensures r.NoMatch? <==> forall i :: 0 <= i < |stages| ==> stages[i].NoMatch?
    ensures !r.NoMatch? ==> exists i :: 0 <= i < |stages| && stages[i] == r && forall j :: 0 <= j < i ==> stages[j].NoMatch?
  {
    if stages == [] then NoMatch
    else if !stages[0].NoMatch? then stages[0]
    else
      var r := Decide(stages[1..]);
      assert forall i :: 1 <= i < |stages| ==> stages[i] == stages[1..][i - 1];
      assert !r.NoMatch? ==>
        exists i :: 0 <= i < |stages| && stages[i] == r && forall j :: 0 <= j < i ==> stages[j].NoMatch?
      by {
        if !r.NoMatch? {
          var i :| 0 <= i < |stages[1..]| && stages[1..][i] == r && forall j :: 0 <= j < i ==> stages[1..][j].NoMatch?;
          assert stages[i + 1] == r;
        }
      }
      r
  }

  /** The first stage that does not fall through decides, whatever follows it. */
  lemma {:induction false} DecideFirst(stages: seq<Stage>, i: nat)
    requires i < |stages| && !stages[i].NoMatch?
    requires forall j :: 0 <= j < i ==> stages[j].NoMatch?
    ensures Decide(stages) == stages[i]
  {
    if i > 0 {
      DecideFirst(stages[1..], i - 1);
    }
  }

  const UnparsablePrefix: string := "无法解析 Judge LLM 响应: "

  /** `JudgeLLMClient._parse_judge_response`. */
  function ParseJudgeResponse(loads: Loads, raw: string): (r: Result<JudgeResult>)
    ensures r.Ok? ==> r.value.rawText == raw
    ensures r.Ok? ==> exists i :: 0 <= i < 3 && Stages(loads, raw)[i] == Found(r.value.score, r.value.reasoning)
                                 && forall j :: 0 <= j < i ==> Stages(loads, raw)[j].NoMatch?
    ensures (forall i :: 0 <= i < 3 ==> Stages(loads, raw)[i].NoMatch?) ==> r == Err(UnparsablePrefix + Take(raw, 500))
    ensures r.Err? && r.error != UnparsablePrefix + Take(raw, 500) ==>
      exists i :: 0 <= i < 3 && Stages(loads, raw)[i] == Raised(r.error) && forall j :: 0 <= j < i ==> Stages(loads, raw)[j].NoMatch?
  {
    match Decide(Stages(loads, raw))
    case Found(x, reasoning) => Ok(JudgeResult(x, reasoning, raw))
    case Raised(e) => Err(e)
    case NoMatch => Err(UnparsablePrefix + Take(raw, 500))
  }

  // ----- properties of the chain -----

  /** A reply that decodes to an object whose "score" `float` accepts (a
      number, a bool or a numeric string) is read from the first stage,
      whatever else it contains. */
  lemma WholeTextWins(loads: Loads, raw: string, d: Entries, v: Value, x: real)
    requires loads(raw) == Some(Dict(d))
    requires Get(d, "score") == Some(v) && ToFloat(v) == Ok(x)
    ensures ParseJudgeResponse(loads, raw) == Ok(JudgeResult(x, GetOr(d, "reasoning", Str("")), raw))
  {
    WholeTextFound(loads, raw, d, v, x);
    DecideFirst([WholeTextStage(loads, raw), FenceStage(loads, raw), ScanStage(raw)], 0);
  }

  /** An integer score is read as its float, exactly as `float` converts it. */
  lemma IntScoreRead(loads: Loads, raw: string)
    requires loads(raw) == Some(Dict([("score", Int(4)), ("reasoning", Str("ok"))]))
    ensures ParseJudgeResponse(loads, raw) == Ok(JudgeResult(4.0, Str("ok"), raw))
  {
    var d := [("score", Int(4)), ("reasoning", Str("ok"))];
    assert Get(d, "score") == Some(Int(4)) && GetOr(d, "reasoning", Str("")) == Str("ok");
    WholeTextWins(loads, raw, d, Int(4), 4.0);
  }

  /** A boolean score is read as 0 or 1, and a missing reasoning as "". */
  lemma BoolScoreRead(loads: Loads, raw: string)
    requires loads(raw) == Some(Dict([("score", Bool(true))]))
    ensures ParseJudgeResponse(loads, raw) == Ok(JudgeResult(1.0, Str(""), raw))
  {
    var d := [("score", Bool(true))];
    assert Get(d, "score") == Some(Bool(true)) && GetOr(d, "reasoning", Str("")) == Str("");
    WholeTextWins(loads, raw, d, Bool(true), 1.0);
  }

  lemma WholeTextFound(loads: Loads, raw: string, d: Entries, v: Value, x: real)
    requires loads(raw) == Some(Dict(d))
    requires Get(d, "score") == Some(v) && ToFloat(v) == Ok(x)
    ensures WholeTextStage(loads, raw) == Found(x, GetOr(d, "reasoning", Str("")))
  {
    DataStageFound(d, v, x);
  }

  lemma DataStageFound(d: Entries, v: Value, x: real)
    requires Get(d, "score") == Some(v) && ToFloat(v) == Ok(x)
    ensures DataStage(Dict(d)) == Found(x, GetOr(d, "reasoning", Str("")))
  {
  }

  /** A pattern cannot occur where its first character is missing. */
  lemma AbsentFirstChar(s: string, sub: string, p: nat)
    requires sub != [] && forall i :: 0 <= i < |s| ==> s[i] != sub[0]
    ensures !OccursAt(s, sub, p)
  {
    if p + |sub| <= |s| {
      assert s[p..p + |sub|][0] == s[p];
    }
  }

  /** Without a backquote there is no fenced block. */
  lemma NoBackquoteNoFence(s: string)
    requires forall i :: 0 <= i < |s| ==> s[i] != '`'
    ensures FencedJson(s).None?
  {
    forall p: nat ensures FenceAt(s, p).None? {
      AbsentFirstChar(s, Fence, p);
    }
    FirstFromLeftmost((p: nat) => FenceAt(s, p), 0, |s|);
  }

  /** Without a double quote there is no `"key": <number>`. */
  lemma NoQuoteNoNumber(s: string, key: string)
    requires forall i :: 0 <= i < |s| ==> s[i] != '"'
    ensures NumberScan(s, key).None?
  {
    forall p: nat ensures NumberAt(s, key, p).None? {
      AbsentFirstChar(s, Quoted(key), p);
    }
    FirstFromLeftmost((p: nat) => NumberAt(s, key, p), 0, |s|);
  }

  /** A reply with neither a double quote nor a backquote that is not JSON
      matches no stage, so the error is raised; no default score is made up. */
  lemma NoQuotesUnparsable(loads: Loads, raw: string)
    requires loads(raw).None?
    requires forall i :: 0 <= i < |raw| ==> raw[i] != '"' && raw[i] != '`'
    ensures ParseJudgeResponse(loads, raw) == Err(UnparsablePrefix + Take(raw, 500))
  {
    NoBackquoteNoFence(raw);
    NoQuoteNoNumber(raw, "score");
  }

  /** `"score": 1.2.3` is what the scan captures from that reply. */
  lemma MalformedNumberScan()
    ensures NumberScan("\"score\": 1.2.3", "score") == Some("1.2.3")
  {
    var raw := "\"score\": 1.2.3";
    assert raw[0..7] == Quoted("score");
    assert SkipSpaces(raw, 7) == 7;
    assert IsSpace(raw[8]) && SkipSpaces(raw, 9) == 9;
    assert ValueStart(raw, "score", 0) == Some(9);
    assert NumberEnd(raw, 9) == |raw|;
    assert raw[9..|raw|] == "1.2.3";
    assert NumberAt(raw, "score", 0) == Some("1.2.3");
  }

  /** A scanned number `float` rejects (such as "1.2.3", see
      `MalformedNumberScan`) raises ValueError, which escapes the chain in place of
      the "cannot parse" error when the earlier stages fall through. */
  lemma MalformedNumberEscapes(loads: Loads, raw: string, num: string)
    requires loads(raw).None?
    requires forall i :: 0 <= i < |raw| ==> raw[i] != '`'
    requires NumberScan(raw, "score") == Some(num) && !IsDecimal(num)
    ensures var r := ParseJudgeResponse(loads, raw);
      r.Err? && r.error == "could not convert string to float: " + num && r.error != UnparsablePrefix + Take(raw, 500)
  {
    NoBackquoteNoFence(raw);
    assert ScanStage(raw) == Raised("could not convert string to float: " + num);
    DecideThird(WholeTextStage(loads, raw), FenceStage(loads, raw), ScanStage(raw));
    assert ("could not convert string to float: " + num)[0] != (UnparsablePrefix + Take(raw, 500))[0];
  }

  /** "1.2.3" is such a number. */
  lemma MalformedDecimal()
    ensures !IsDecimal("1.2.3")
  {
    assert "1.2.3"[1] == '.' && "1.2.3"[3] == '.';
  }

  /** The stage that decides determines the result. */
  lemma DecidingStage(loads: Loads, raw: string, i: nat)
    requires i < 3 && !Stages(loads, raw)[i].NoMatch?
    requires forall j :: 0 <= j < i ==> Stages(loads, raw)[j].NoMatch?
    ensures var st := Stages(loads, raw)[i];
      ParseJudgeResponse(loads, raw) == if st.Found? then Ok(JudgeResult(st.score, st.reasoning, raw)) else Err(st.error)
  {
    DecideFirst(Stages(loads, raw), i);
  }

  /** When the whole text is not a score object, the first fenced block's
      object decides, for any "score" that `float` accepts. */
  lemma FenceStageWins(loads: Loads, raw: string, block: string, d: Entries, v: Value, x: real)
    requires WholeTextStage(loads, raw).NoMatch?
    requires FencedJson(raw) == Some(block) && loads(block) == Some(Dict(d))
    requires Get(d, "score") == Some(v) && ToFloat(v) == Ok(x)
    ensures ParseJudgeResponse(loads, raw) == Ok(JudgeResult(x, GetOr(d, "reasoning", Str("")), raw))
  {
    FenceStageFound(loads, raw, block, d, v, x);
    SecondStageDecides(loads, raw, x, GetOr(d, "reasoning", Str("")));
  }

  lemma SecondStageDecides(loads: Loads, raw: string, x: real, reasoning: Value)
    requires WholeTextStage(loads, raw).NoMatch? && FenceStage(loads, raw) == Found(x, reasoning)
    ensures ParseJudgeResponse(loads, raw) == Ok(JudgeResult(x, reasoning, raw))
  {
    DecideSecond(WholeTextStage(loads, raw), FenceStage(loads, raw), ScanStage(raw));
  }

  lemma DecideThird(a: Stage, b: Stage, c: Stage)
    requires a.NoMatch? && b.NoMatch? && !c.NoMatch?
    ensures Decide([a, b, c]) == c
  {
    DecideFirst([a, b, c], 2);
  }

  lemma DecideSecond(a: Stage, b: Stage, c: Stage)
    requires a.NoMatch? && !b.NoMatch?
    ensures Decide([a, b, c]) == b
  {
    DecideFirst([a, b, c], 1);
  }

  lemma FenceStageFound(loads: Loads, raw: string, block: string, d: Entries, v: Value, x: real)
    requires FencedJson(raw) == Some(block) && loads(block) == Some(Dict(d))
    requires Get(d, "score") == Some(v) && ToFloat(v) == Ok(x)
    ensures FenceStage(loads, raw) == Found(x, GetOr(d, "reasoning", Str("")))
  {
  }

  /** When neither JSON stage yields a score, a scanned decimal is the score and
      the reasoning is the scanned string or else the first 200 characters. */
  lemma ScanStageWins(loads: Loads, raw: string, num: string)
    requires WholeTextStage(loads, raw).NoMatch? && FenceStage(loads, raw).NoMatch?
    requires NumberScan(raw, "score") == Some(num) && IsDecimal(num)
    ensures var r := ParseJudgeResponse(loads, raw);
      && r.Ok?
      && Some(r.value.score) == ParseDecimal(num)
      && r.value.reasoning == Str(match StringScan(raw, "reasoning") case Some(s) => s case None => Take(raw, 200))
  {
    assert ScanStage(raw).Found?;
    DecideThird(WholeTextStage(loads, raw), FenceStage(loads, raw), ScanStage(raw));
  }

  /** The first closing position is the least one. */
  lemma {:induction false} FirstCloseIs(s: string, c: nat, k: nat)
    requires c <= k < |s| && ClosesAt(s, k)
    requires forall j :: c <= j < k ==> !ClosesAt(s, j)
    ensures FirstClose(s, c) == Some(k)
    decreases k - c
  {
    if c < k {
      FirstCloseIs(s, c + 1, k);
    }
  }

  lemma FenceAtParts(s: string, p: nat, b: nat, e: nat)
    requires FenceStartsAt(s, p) && SkipSpaces(s, TagEnd(s, p)) == b
    requires b < |s| && s[b] == '{' && FirstClose(s, b + 1) == Some(e)
    ensures FenceAt(s, p).Some? && FenceAt(s, p).value == s[b..e + 1]
  {
  }

  lemma {:induction false} SkipSpacesTo(s: string, k: nat, m: nat)
    requires k <= m <= |s|
    requires forall i :: k <= i < m ==> IsSpace(s[i])
    requires m == |s| || !IsSpace(s[m])
    ensures SkipSpaces(s, k) == m
    decreases m - k
  {
    if k < m {
      SkipSpacesTo(s, k + 1, m);
    }
  }

  /** The opening fence, tag and spaces end where the object starts. */
  lemma FenceOpening(raw: string, tag: string, before: string, body: string, after: string)
    requires raw == Fence + tag + before + body + after + Fence
    requires tag == "" || tag == "json"
    requires AllSpaces(before) && body != [] && body[0] == '{'
    ensures FenceStartsAt(raw, 0) && SkipSpaces(raw, TagEnd(raw, 0)) == 3 + |tag| + |before|
    ensures 3 + |tag| + |before| < |raw| && raw[3 + |tag| + |before|] == '{'
  {
    var b := 3 + |tag| + |before|;
    assert raw[0] == '`' && raw[1] == '`' && raw[2] == '`';
    if tag == "json" {
      assert raw[3] == 'j' && raw[4] == 's' && raw[5] == 'o' && raw[6] == 'n';
    } else {
      assert raw[3] == if |before| > 0 then before[0] else body[0];
    }
    assert raw[b] == body[0];
    SkipSpacesTo(raw, 3 + |tag|, b);
  }

  /** The object's last brace is the first that is followed by the closing fence. */
  lemma FenceClosing(raw: string, pre: string, body: string, after: string)
    requires raw == pre + body + after + Fence
    requires AllSpaces(after)
    requires |body| >= 2 && body[|body| - 1] == '}'
    requires forall i :: 0 <= i < |body| ==> body[i] != '`'
    ensures FirstClose(raw, |pre| + 1) == Some(|pre| + |body| - 1)
  {
    var b, e := |pre|, |pre| + |body| - 1;
    var f := e + 1 + |after|;
    assert raw[f] == '`' && raw[f + 1] == '`' && raw[f + 2] == '`';
    SkipSpacesTo(raw, e + 1, f);
    assert ClosesAt(raw, e);
    forall j | b + 1 <= j < e ensures !ClosesAt(raw, j) {
      if raw[j] == '}' {
        var m := SkipSpaces(raw, j + 1);
        assert m <= e;
        assert raw[m] == body[m - b];
      }
    }
    FirstCloseIs(raw, b + 1, e);
  }

  lemma FenceRoundTripAt(tag: string, before: string, body: string, after: string)
    requires tag == "" || tag == "json"
    requires AllSpaces(before) && AllSpaces(after)
    requires |body| >= 2 && body[0] == '{' && body[|body| - 1] == '}'
    requires forall i :: 0 <= i < |body| ==> body[i] != '`'
    ensures var raw := Fence + tag + before + body + after + Fence;
      FenceAt(raw, 0).Some? && FenceAt(raw, 0).value == body
  {
    var pre := Fence + tag + before;
    var raw := pre + body + after + Fence;
    var b := |pre|;
    FenceOpening(raw, tag, before, body, after);
    FenceClosing(raw, pre, body, after);
    FenceAtParts(raw, 0, b, b + |body| - 1);
    MiddleSlice(pre, body, after);
  }

  lemma MiddleSlice(pre: string, body: string, after: string)
    ensures (pre + body + after + Fence)[|pre|..|pre| + |body|] == body
  {
  }

  /** Fencing a JSON object (optionally tagged `json`, with any spaces around it)
      and scanning the reply gives the object back, provided it holds no
      backquote. */
  lemma FenceRoundTrip(tag: string, before: string, body: string, after: string)
    requires tag == "" || tag == "json"
    requires AllSpaces(before) && AllSpaces(after)
    requires |body| >= 2 && body[0] == '{' && body[|body| - 1] == '}'
    requires forall i :: 0 <= i < |body| ==> body[i] != '`'
    ensures FencedJson(Fence + tag + before + body + after + Fence) == Some(body)
  {
    FenceRoundTripAt(tag, before, body, after);
  }
}

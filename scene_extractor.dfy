/** `SceneExtractor`: asks the judge model to distil a scene from a real chat
    log, pulls the YAML out of its reply, and stamps the scene with the log's
    path. The model call, `json.loads`, `yaml.dump` and the YAML-plus-schema
    parse of the scene file are parameters. */
module SceneExtractor {
  import opened Wrappers
  import opened Text
  import opened Values
  import opened Schema
  import opened JudgeParser
  import opened LLMJudge

  /** `yaml.dump(data, allow_unicode=True, default_flow_style=False)`. */
  type Dump = Value -> string

  /** `yaml.safe_load` followed by `SceneFile.model_validate`, giving the
      file's scene or the text of the exception raised. */
  type ParseScene = string -> Result<SceneSpec>

  const ExtractSystemPrompt: string :=
    "你是一个资深的对话设计分析师。\n"
    + "你的任务是分析真人客服的优秀对话记录，从中提炼出可复用的「场景」。\n"
    + "\n"
    + "每个场景需要提炼：\n"
    + "1. 场景 ID、名称、触发条件、前置条件\n"
    + "2. 优秀行为特征（good_example 直接引用原文 + bad_example 反面对照 + 权重）\n"
    + "3. 对话阶段模式（几轮完成、每轮关键动作）\n"
    + "\n"
    + "要求：\n"
    + "- 行为特征必须具体可评估，不要笼统描述\n"
    + "- good_example 直接从原文中引用\n"
    + "- bad_example 是该行为的反面对照（你构造的）\n"
    + "- 所有 behavior 的 weight 之和 = 1.0\n"
    + "- 输出严格遵循指定的 YAML 格式\n"
    + "\n"
    + "输出格式：\n"
    + "```yaml\n"
    + "scene:\n"
    + "  id: \"场景ID\"\n"
    + "  name: \"场景名称\"\n"
    + "  description: \"场景说明\"\n"
    + "  context:\n"
    + "    trigger: \"触发条件\"\n"
    + "    precondition: \"前置条件（可选）\"\n"
    + "  behaviors:\n"
    + "    - id: \"行为ID\"\n"
    + "      name: \"行为名称\"\n"
    + "      description: \"行为说明\"\n"
    + "      good_example: \"引用原文\"\n"
    + "      bad_example: \"反面对照\"\n"
    + "      weight: 0.3\n"
    + "  conversation_pattern:\n"
    + "    - phase: \"阶段名称\"\n"
    + "      turns: \"1-2\"\n"
    + "      key_action: \"关键动作\"\n"
    + "```"

  /** The user prompt: the chat log inserted as is. */
  function ExtractUserPrompt(chatText: string): string {
    "请分析以下真人聊天记录，提炼出结构化场景。\n\n## 聊天记录\n" + chatText + "\n\n请输出 YAML 格式的场景描述。"
  }

  // ----- ```(?:yaml)?\s*\n(.*?)```  (DOTALL) -----

  /** Where the optional `yaml` tag after an opening fence at `p` ends. Once
      the tag is present, leaving it out cannot help a match, since `y` is
      neither a space nor a newline. */
  function YamlTagEnd(s: string, p: nat): (e: nat)
    requires p + 3 <= |s|
    ensures p + 3 <= e <= |s|
  {
    if p + 7 <= |s| && s[p + 3..p + 7] == "yaml" then p + 7 else p + 3
  }

  /** The last newline in `s[e..w]`: where the greedy `\s*` gives back just
      enough for the `\n` to match. */
  function LastNewline(s: string, e: nat, w: nat): (k: Option<nat>)
    requires e <= w <= |s|
    ensures k.Some? ==> e <= k.value < w && s[k.value] == '\n' && forall i :: k.value < i < w ==> s[i] != '\n'
    ensures k.None? ==> forall i :: e <= i < w ==> s[i] != '\n'
    decreases w - e
  {
    if w == e then None
    else if s[w - 1] == '\n' then Some(w - 1)
    else LastNewline(s, e, w - 1)
  }

  /** The lazy `(.*?)` followed by a fence: the first fence at or after `g`. */
  function NextFence(s: string, g: nat): (m: Option<nat>)
    requires g <= |s|
    ensures m.Some? ==> g <= m.value && FenceStartsAt(s, m.value) && forall i :: g <= i < m.value ==> !FenceStartsAt(s, i)
    ensures m.None? ==> forall i :: g <= i <= |s| ==> !FenceStartsAt(s, i)
    decreases |s| - g
  {
    if FenceStartsAt(s, g) then Some(g)
    else if g == |s| then None
    else NextFence(s, g + 1)
  }

  /** The group when the fenced-block pattern matches at `p`: the text from
      just after the last newline of the run of spaces that follows the fence
      and its tag, up to the next fence. Had the match started at an earlier
      newline of that run, the group would only gain leading spaces and the
      same closing fence would end it, so no other outcome is possible. */
  function YamlAt(s: string, p: nat): Option<string> {
    if !FenceStartsAt(s, p) then None
    else
      var e := YamlTagEnd(s, p);
      var w := SkipSpaces(s, e);
      match LastNewline(s, e, w)
      case None => None
      case Some(k) =>
        match NextFence(s, k + 1)
        case None => None
        case Some(m) => Some(s[k + 1..m])
  }

  function YamlMatcher(s: string): nat -> Option<string> {
    (p: nat) => YamlAt(s, p)
  }

  /** The group of the leftmost fenced block, if any. */
  function FencedYaml(s: string): Option<string> {
    FirstFrom(YamlMatcher(s), 0, |s|)
  }

  /** `_extract_yaml`: the first of these that applies. A fenced block's
      contents, stripped; else the stripped text when it starts with
      `scene:`; else the text as JSON dumped to YAML; else the text itself. */
  function ExtractYaml(loads: Loads, dump: Dump, raw: string): string {
    match FencedYaml(raw)
    case Some(block) => Strip(block)
    case None =>
      if StartsWith(Strip(raw), "scene:") then Strip(raw)
      else
        match loads(raw)
        case Some(data) => dump(data)
        case None => raw
  }

  /** `SceneExtractor.extract`: the judge's reply, its YAML, the parsed
      scene, with `source` overwritten by the log's path. Every failure is
      the exception raised along the way. */
  function Extract(judge: Judge, loads: Loads, dump: Dump, parse: ParseScene, chatText: string, sourcePath: string): Result<SceneSpec> {
    var reply :- judge(ExtractSystemPrompt, ExtractUserPrompt(chatText));
    var scene :- parse(ExtractYaml(loads, dump, reply.rawText));
    Ok(scene.(source := sourcePath))
  }

  // ----- properties -----

  predicate NoBackquote(s: string) {
    forall i :: 0 <= i < |s| ==> s[i] != '`'
  }

  /** Text in which no three backquotes follow one another holds no fenced
      block, whatever single or double backquotes (inline code) it contains. */
  lemma NoFenceNoBlock(s: string)
    requires forall i: nat :: !FenceStartsAt(s, i)
    ensures FencedYaml(s).None?
  {
    FirstFromLeftmost(YamlMatcher(s), 0, |s|);
  }

  /** Text without a backquote holds no fenced block. */
  lemma NoBackquoteNoBlock(s: string)
    requires NoBackquote(s)
    ensures FencedYaml(s).None?
  {
    forall i: nat ensures !FenceStartsAt(s, i) {
      if i < |s| {
        assert s[i] != '`';
      }
    }
    NoFenceNoBlock(s);
  }

  /** A block opened at `p` whose tag ends at `e`, where a newline
      follows, and closed by the first fence after it, at `close`: the
      pattern matches at `p`, and its group strips to the block's text. */
  lemma {:induction false} BlockAt(s: string, p: nat, e: nat, close: nat)
    requires FenceStartsAt(s, p) && FenceStartsAt(s, close) && YamlTagEnd(s, p) == e && e < close
    requires s[e] == '\n' && forall i :: e < i < close ==> s[i] != '`'
    ensures YamlAt(s, p).Some? && Strip(YamlAt(s, p).value) == Strip(s[e + 1..close])
  {
    var w := SkipSpaces(s, e);
    assert !IsSpace(s[close]);
    assert w <= close;
    var k := LastNewline(s, e, w).value;
    forall i | k + 1 <= i < close ensures !FenceStartsAt(s, i) {
      assert s[i] != '`';
    }
    NextFenceFinds(s, k + 1, close);
    assert YamlAt(s, p) == Some(s[k + 1..close]);
    var body := s[e + 1..close];
    var cut := k - e;
    assert s[k + 1..close] == body[cut..];
    assert AllSpaces(body[..cut]) by {
      forall i | 0 <= i < cut ensures IsSpace(body[..cut][i]) {
        assert body[..cut][i] == s[e + 1 + i];
      }
    }
    var group := body[cut..];
    assert body[..cut] + group + [] == body;
    StripPadding(body[..cut], group, []);
    assert Strip(group) == Strip(body);
  }

  /** Where the parts of a reply built around a block lie. */
  lemma {:induction false} BlockLayout(prefix: string, tag: string, body: string, suffix: string)
    requires tag == "yaml" || tag == ""
    requires NoBackquote(prefix) && NoBackquote(body)
    ensures var s := prefix + "```" + tag + "\n" + body + "```" + suffix;
      var p := |prefix|;
      var e := p + 3 + |tag|;
      var close := e + 1 + |body|;
      && FenceStartsAt(s, p) && FenceStartsAt(s, close) && YamlTagEnd(s, p) == e
      && s[e] == '\n' && NoBackquote(s[..p]) && s[e + 1..close] == body
      && forall i :: e < i < close ==> s[i] != '`'
  {
    var s := prefix + "```" + tag + "\n" + body + "```" + suffix;
    var p := |prefix|;
    var e := p + 3 + |tag|;
    var close := e + 1 + |body|;
    assert s[..p] == prefix;
    assert s[p..e] == "```" + tag;
    assert s[e + 1..close] == body;
    assert s[close..close + 3] == "```";
    if tag == "" { assert s[p + 3] == '\n'; }
    else { assert s[p + 3..p + 7] == tag; }
    forall i | e < i < close ensures s[i] != '`' {
      assert s[i] == s[e + 1..close][i - e - 1];
    }
  }

  /** A match at `p` with no backquote before it is the leftmost one. */
  lemma {:induction false} LeftmostBlock(s: string, p: nat)
    requires p <= |s| && NoBackquote(s[..p]) && YamlAt(s, p).Some?
    ensures FencedYaml(s) == YamlAt(s, p)
  {
    forall i | 0 <= i < p ensures YamlMatcher(s)(i).None? {
      assert s[i] == s[..p][i];
    }
    FirstFromSkips(YamlMatcher(s), 0, p, |s|);
  }

  /** A reply holding a fenced block, tagged `yaml` or not, with a newline
      after the opening fence and no backquote before the block or inside it,
      yields the block's contents stripped, whatever follows. */
  lemma {:induction false} FencedBlockExtracted(loads: Loads, dump: Dump, prefix: string, tag: string, body: string, suffix: string, s: string)
    requires tag == "yaml" || tag == ""
    requires NoBackquote(prefix) && NoBackquote(body)
    requires s == prefix + "```" + tag + "\n" + body + "```" + suffix
    ensures ExtractYaml(loads, dump, s) == Strip(body)
  {
    var p := |prefix|;
    var e := p + 3 + |tag|;
    var close := e + 1 + |body|;
    BlockLayout(prefix, tag, body, suffix);
    ExtractBlockAt(loads, dump, s, p, e, close);
    assert s[e + 1..close] == body;
  }

  lemma {:induction false} ExtractBlockAt(loads: Loads, dump: Dump, s: string, p: nat, e: nat, close: nat)
    requires FenceStartsAt(s, p) && FenceStartsAt(s, close) && YamlTagEnd(s, p) == e && e < close
    requires s[e] == '\n' && forall i :: e < i < close ==> s[i] != '`'
    requires NoBackquote(s[..p])
    ensures ExtractYaml(loads, dump, s) == Strip(s[e + 1..close])
  {
    BlockAt(s, p, e, close);
    LeftmostBlock(s, p);
  }

  lemma {:induction false} NextFenceFinds(s: string, g: nat, m: nat)
    requires g <= m && FenceStartsAt(s, m) && forall i :: g <= i < m ==> !FenceStartsAt(s, i)
    ensures NextFence(s, g) == Some(m)
    decreases m - g
  {
    if g < m {
      NextFenceFinds(s, g + 1, m);
    }
  }

  /** The leftmost search passes over start positions that do not match. */
  lemma {:induction false} FirstFromSkips(at: nat -> Option<string>, p: nat, m: nat, n: nat)
    requires p <= m < n && forall i :: p <= i < m ==> at(i).None?
    ensures FirstFrom(at, p, n) == FirstFrom(at, m, n)
    decreases m - p
  {
    if p < m {
      FirstFromSkips(at, p + 1, m, n);
    }
  }

  /** When the fenced-block pattern finds no block (a reply without any
      backquote is one such, see `NoBackquoteNoBlock`), a reply that starts
      with `scene:` once stripped is taken stripped, before any attempt at JSON. */
  lemma BareSceneTaken(loads: Loads, dump: Dump, raw: string)
    requires FencedYaml(raw).None? && StartsWith(Strip(raw), "scene:")
    ensures ExtractYaml(loads, dump, raw) == Strip(raw)
  {
  }

  /** Otherwise a reply that parses as JSON is re-emitted as YAML, and one
      that does not comes back unchanged. */
  lemma JsonOrRawFallback(loads: Loads, dump: Dump, raw: string)
    requires FencedYaml(raw).None? && !StartsWith(Strip(raw), "scene:")
    ensures loads(raw).Some? ==> ExtractYaml(loads, dump, raw) == dump(loads(raw).value)
    ensures loads(raw).None? ==> ExtractYaml(loads, dump, raw) == raw
  {
  }

  /** The extracted scene is the parsed one with its `source` replaced by the
      log's path, and nothing else changed; the judge saw the fixed system
      prompt and a user prompt holding the log. */
  lemma ExtractStampsSource(judge: Judge, loads: Loads, dump: Dump, parse: ParseScene, chatText: string, sourcePath: string)
    ensures var r := Extract(judge, loads, dump, parse, chatText, sourcePath);
      var reply := judge(ExtractSystemPrompt, ExtractUserPrompt(chatText));
      && (reply.Err? ==> r == Err(reply.error))
      && (r.Ok? ==>
            && reply.Ok?
            && var parsed := parse(ExtractYaml(loads, dump, reply.value.rawText));
            && parsed.Ok?
            && r.value.source == sourcePath
            && r.value == parsed.value.(source := sourcePath)
            && r.value.id == parsed.value.id && r.value.behaviors == parsed.value.behaviors)
  {
  }

  /** The user prompt contains the chat log verbatim. */
  lemma PromptHoldsLog(chatText: string)
    ensures Contains(ExtractUserPrompt(chatText), chatText)
  {
    var pre := "请分析以下真人聊天记录，提炼出结构化场景。\n\n## 聊天记录\n";
    var u := ExtractUserPrompt(chatText);
    assert u[|pre|..|pre| + |chatText|] == chatText;
    assert OccursAt(u, chatText, |pre|);
  }
}

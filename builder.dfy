/** `build_assertion`: an assertion spec becomes the evaluator its `type` names,
    or a descriptive error when a field that evaluator needs is missing. */
module Builder {
  import opened Wrappers
  import opened Values
  import opened Schema
  import opened LLMJudge
  import opened Assertions

  /** Python's `str()` of a scalar spec value. */
  function ScalarText(v: Scalar): string {
    match v
    case ScalarStr(s) => s
    case ScalarBool(b) => if b then "True" else "False"
    case ScalarInt(i) => IntStr(i)
    case ScalarFloat(text) => text
  }

  /** The forbidden words of a `not_contains` spec: `values` when non-empty,
      else the one stringified `value`, else none. */
  function ForbiddenValues(spec: AssertionSpec): (vs: seq<string>)
    ensures spec.values.Some? && spec.values.value != [] ==> vs == spec.values.value
    ensures (spec.values.None? || spec.values.value == []) && spec.value.Some? ==> vs == [ScalarText(spec.value.value)]
    ensures vs == [] <==> (spec.values.None? || spec.values.value == []) && spec.value.None?
  {
    if spec.values.Some? && spec.values.value != [] then spec.values.value
    else if spec.value.Some? then [ScalarText(spec.value.value)]
    else []
  }

  /** The kinds the schema admits but the builder does not build yet. */
  predicate Deferred(kind: string) {
    kind == "scene_judge" || kind == "json_path" || kind == "json_field"
  }

  /** The kinds the builder builds. */
  predicate Buildable(kind: string) {
    kind == "contains" || kind == "not_contains" || kind == "regex" || kind == "equals"
    || kind == "latency_ms" || kind == "token_usage" || kind == "llm_judge"
  }

  /** Everything the evaluator named by `spec.kind` needs is present. */
  predicate Complete(spec: AssertionSpec, hasJudge: bool) {
    match spec.kind
    case "contains" => spec.value.Some?
    case "not_contains" => ForbiddenValues(spec) != []
    case "regex" => spec.pattern.Some?
    case "equals" => spec.value.Some?
    case "latency_ms" => spec.max.Some?
    case "token_usage" => spec.maxTotal.Some?
    case "llm_judge" => spec.criteria.Some? && spec.passThreshold.Some? && hasJudge
    case _ => false
  }

  /** `build_assertion(spec, judge_client)`; `Err` carries the text of the
      `AssertionError_` it raises. */
  function Build(spec: AssertionSpec, judge: Option<Judge>): (r: Result<Assertion>)
    ensures r.Ok? <==> Complete(spec, judge.Some?)
    ensures r.Ok? ==> Kind(r.value) == spec.kind
  {
    match spec.kind
    case "contains" =>
      if spec.value.None? then Err("contains 断言必须指定 value")
      else Ok(ContainsA(ScalarText(spec.value.value)))
    case "not_contains" =>
      var values := ForbiddenValues(spec);
      if values == [] then Err("not_contains 断言必须指定 values 或 value")
      else Ok(NotContainsA(values))
    case "regex" =>
      if spec.pattern.None? then Err("regex 断言必须指定 pattern")
      else Ok(RegexA(spec.pattern.value))
    case "equals" =>
      if spec.value.None? then Err("equals 断言必须指定 value")
      else Ok(EqualsA(ScalarText(spec.value.value)))
    case "latency_ms" =>
      if spec.max.None? then Err("latency_ms 断言必须指定 max")
      else Ok(LatencyA(spec.max.value))
    case "token_usage" =>
      if spec.maxTotal.None? then Err("token_usage 断言必须指定 max_total")
      else Ok(TokenUsageA(spec.maxTotal.value))
    case "llm_judge" =>
      if spec.criteria.None? then Err("llm_judge 断言必须指定 criteria")
      else if spec.passThreshold.None? then Err("llm_judge 断言必须指定 pass_threshold")
      else if judge.None? then Err(NoJudgeMessage)
      else Ok(LLMJudgeA(spec.criteria.value, spec.passThreshold.value, judge.value, spec.dimensions))
    case _ =>
      if Deferred(spec.kind) then Err("断言类型 '" + spec.kind + "' 将在后续阶段实现")
      else Err("未知断言类型: " + spec.kind)
  }

  const NoJudgeMessage: string := "llm_judge 断言需要配置 judge LLM（请在 sandbox.yaml 中配置 judge 段）"

  // ----- properties -----

  /** A built evaluator carries the spec's own fields: the stringified value,
      the pattern, the bounds, and for the judge its criteria, threshold,
      client and dimensions. */
  lemma BuildKeepsFields(spec: AssertionSpec, judge: Option<Judge>)
    requires Build(spec, judge).Ok?
    ensures var a := Build(spec, judge).value;
      && (a.ContainsA? || a.EqualsA? ==> a.value == ScalarText(spec.value.value))
      && (a.NotContainsA? ==> a.values == ForbiddenValues(spec))
      && (a.RegexA? ==> a.pattern == spec.pattern.value)
      && (a.LatencyA? ==> a.maxMs == spec.max.value)
      && (a.TokenUsageA? ==> a.maxTotal == spec.maxTotal.value)
      && (a.LLMJudgeA? ==> a.criteria == spec.criteria.value && a.threshold == spec.passThreshold.value
                           && a.judge == judge.value && a.dims == spec.dimensions)
  {
  }

  /** The builder never makes a scene judge, and it rejects the deferred kinds
      and every kind it does not know, whatever the other fields hold. */
  lemma OnlyKnownKinds(spec: AssertionSpec, judge: Option<Judge>)
    ensures Build(spec, judge).Ok? ==> Buildable(spec.kind) && !Build(spec, judge).value.SceneJudgeA?
    ensures Deferred(spec.kind) ==> Build(spec, judge) == Err("断言类型 '" + spec.kind + "' 将在后续阶段实现")
    ensures !Buildable(spec.kind) && !Deferred(spec.kind) ==> Build(spec, judge) == Err("未知断言类型: " + spec.kind)
  {
  }

  /** The judge checks run in order: criteria, then the threshold, then the
      client, so a spec missing several reports the first. */
  lemma JudgeChecksInOrder(spec: AssertionSpec, judge: Option<Judge>)
    requires spec.kind == "llm_judge"
    ensures spec.criteria.None? ==> Build(spec, judge) == Err("llm_judge 断言必须指定 criteria")
    ensures spec.criteria.Some? && spec.passThreshold.None? ==> Build(spec, judge) == Err("llm_judge 断言必须指定 pass_threshold")
    ensures spec.criteria.Some? && spec.passThreshold.Some? && judge.None? ==> Build(spec, judge) == Err(NoJudgeMessage)
  {
  }

  /** Stringifying an integer value loses nothing: distinct integers are
      stored as distinct texts. */
  lemma IntValueKept(i: int, j: int)
    requires ScalarText(ScalarInt(i)) == ScalarText(ScalarInt(j))
    ensures i == j
  {
    var si, sj := IntStr(i), IntStr(j);
    if i < 0 && j < 0 {
      assert NatStr(-i) == si[1..] == sj[1..] == NatStr(-j);
      NatStrInjective(-i, -j);
    } else if i >= 0 && j >= 0 {
      NatStrInjective(i, j);
    }
  }
}

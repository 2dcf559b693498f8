/** The evaluators behind the one `BaseAssertion.evaluate` contract: each takes
    the reply text, the raw response and the context and gives an
    `AssertionResult`, or raises. */
module Assertions {
  import opened Wrappers
  import opened Values
  import opened Schema
  import opened AssertionBase
  import opened JudgeParser
  import opened StringMatch
  import opened Performance
  import opened LLMJudge
  import opened SceneJudge

  /** One configured evaluator, with the fields its constructor stores. */
  datatype Assertion =
    | ContainsA(value: string)
    | NotContainsA(values: seq<string>)
    | RegexA(pattern: string)
    | EqualsA(value: string)
    | LatencyA(maxMs: int)
    | TokenUsageA(maxTotal: int)
    | LLMJudgeA(criteria: string, threshold: real, judge: Judge, dims: Option<seq<string>>)
    | SceneJudgeA(scene: SceneSpec, sceneJudge: Judge, phase: Option<string>, ids: Option<seq<string>>, sceneThreshold: real)

  /** What the evaluators call out to: the regex engine, the JSON decoder and
      Python's `str()` of a float. */
  datatype Services = Services(search: Search, loads: Loads, floatStr: FloatRepr)

  /** The `assertion_type` tag each evaluator writes into its results. */
  function Kind(a: Assertion): string {
    match a
    case ContainsA(_) => "contains"
    case NotContainsA(_) => "not_contains"
    case RegexA(_) => "regex"
    case EqualsA(_) => "equals"
    case LatencyA(_) => "latency_ms"
    case TokenUsageA(_) => "token_usage"
    case LLMJudgeA(_, _, _, _) => "llm_judge"
    case SceneJudgeA(_, _, _, _, _) => "scene_judge"
  }

  /** `evaluate(response_text, raw_response, context)`, dispatched on the
      evaluator; `Err` is an exception the evaluator lets escape. */
  function Evaluate(a: Assertion, svc: Services, response: string, raw: Entries, ctx: Context): (r: Result<AssertionResult>)
  {
    match a
    case ContainsA(value) => Ok(ContainsCheck(value, response))
    case NotContainsA(values) => Ok(NotContainsCheck(values, response))
    case RegexA(pattern) => RegexCheck(svc.search, pattern, response)
    case EqualsA(value) => Ok(EqualsCheck(value, response))
    case LatencyA(maxMs) => LatencyCheck(maxMs, raw, ctx)
    case TokenUsageA(maxTotal) => TokenUsageCheck(maxTotal, ctx)
    case LLMJudgeA(criteria, threshold, judge, dims) => Ok(LLMJudgeCheck(judge, criteria, threshold, dims, response, ctx))
    case SceneJudgeA(scene, judge, phase, ids, threshold) =>
      SceneJudgeCheck(judge, svc.loads, svc.floatStr, scene, phase, ids, threshold, response, ctx)
  }

  /** Every result an evaluator returns is tagged with that evaluator's kind. */
  lemma EvaluateKind(a: Assertion, svc: Services, response: string, raw: Entries, ctx: Context)
    ensures var r := Evaluate(a, svc, response, raw, ctx); r.Ok? ==> r.value.assertionType == Kind(a)
  {
    match a
    case LLMJudgeA(criteria, threshold, judge, dims) =>
      var r := LLMJudgeCheck(judge, criteria, threshold, dims, response, ctx);
    case SceneJudgeA(scene, judge, phase, ids, threshold) =>
      var r := SceneJudgeCheck(judge, svc.loads, svc.floatStr, scene, phase, ids, threshold, response, ctx);
    case _ =>
  }

  /** The string checks read neither the raw response nor the context. */
  lemma StringChecksIgnoreContext(a: Assertion, svc: Services, response: string,
                                  raw1: Entries, ctx1: Context, raw2: Entries, ctx2: Context)
    requires a.ContainsA? || a.NotContainsA? || a.RegexA? || a.EqualsA?
    ensures Evaluate(a, svc, response, raw1, ctx1) == Evaluate(a, svc, response, raw2, ctx2)
  {
  }

  /** The only evaluators that consult the regex engine or the JSON decoder
      are the regex check and the scene judge; every other result is the same
      whichever engine and decoder are given. */
  lemma ServicesUnused(a: Assertion, s1: Services, s2: Services, response: string, raw: Entries, ctx: Context)
    requires !a.RegexA? && !a.SceneJudgeA?
    ensures Evaluate(a, s1, response, raw, ctx) == Evaluate(a, s2, response, raw, ctx)
  {
  }
}

/** The `llm_judge` check: an external judge scores the reply against criteria,
    and the score is compared with a threshold. */
module LLMJudge {
  import opened Wrappers
  import opened Text
  import opened Values
  import opened Schema
  import opened AssertionBase
  import opened JudgeParser

  /** The judge: given the system prompt and the user prompt, a verdict or the
      text of the exception its call raised. */
  type Judge = (string, string) -> Result<JudgeResult>

  /** The judge as the client builds it: the chat completion returns the reply
      text (or fails), which `ParseJudgeResponse` then reads. */
  function ParsingJudge(complete: (string, string) -> Result<string>, loads: Loads): (judge: Judge) {
    (system: string, user: string) =>
      match complete(system, user)
      case Err(e) => Err(e)
      case Ok(text) => ParseJudgeResponse(loads, text)
  }

  const SystemPrompt: string :=
    "你是一个严格的AI对话质量评估专家。\n你需要根据给定的评估标准，对AI助手的回复进行客观评分。\n\n"
    + "评分规则：\n- 给出 0.0 到 1.0 之间的分数\n- 0.0 = 完全不满足标准\n- 0.5 = 部分满足\n- 1.0 = 完全满足\n"
    + "- 必须输出 JSON 格式: {\"score\": 0.85, \"reasoning\": \"...\"}\n\n"
    + "重要：你的评分必须基于事实和具体证据，不能主观臆断。"

  /** The user prompt: the template with criteria, context and reply filled in. */
  function UserPrompt(criteria: string, ctx: Context, response: string): string {
    "## 评估标准\n" + criteria + "\n\n## 对话上下文\n" + ConversationContext(ctx)
    + "\n\n## 待评估的AI回复\n" + response + "\n\n请严格按照评估标准进行评分，输出 JSON 格式。"
  }

  const JudgeFailedPrefix: string := "LLM Judge 调用失败: "

  /** `LLMJudgeAssertion.evaluate`: any exception of the judge is caught. */
  function LLMJudgeCheck(judge: Judge, criteria: string, threshold: real, dims: Option<seq<string>>,
                         response: string, ctx: Context): (r: AssertionResult)
    ensures r.assertionType == "llm_judge" && r.expected == Fmt([Str("score >= "), Float(threshold)])
    ensures judge(SystemPrompt, UserPrompt(criteria, ctx, response)).Err? ==>
      && !r.passed && r.actual == Str("error") && r.score.None? && r.dimension.None?
      && r.message == Str(JudgeFailedPrefix + judge(SystemPrompt, UserPrompt(criteria, ctx, response)).error)
    ensures judge(SystemPrompt, UserPrompt(criteria, ctx, response)).Ok? ==>
      var j := judge(SystemPrompt, UserPrompt(criteria, ctx, response)).value;
      && (r.passed <==> j.score >= threshold)
      && r.score == Some(j.score) && r.actual == Float(j.score) && r.message == j.reasoning
      && r.dimension == (if dims.Some? && dims.value != [] then Some(dims.value[0]) else None)
  {
    var expected := Fmt([Str("score >= "), Float(threshold)]);
    match judge(SystemPrompt, UserPrompt(criteria, ctx, response))
    case Err(e) => Outcome(false, "llm_judge", Str(JudgeFailedPrefix + e), expected, Str("error"))
    case Ok(j) =>
      var dimension := if dims.Some? && dims.value != [] then Some(dims.value[0]) else None;
      AssertionResult(j.score >= threshold, "llm_judge", j.reasoning, expected, Float(j.score), Some(j.score), dimension, Null)
  }

  // ----- properties -----

  /** A result either carries the judge's score or reports the call failure;
      a score is present exactly when the call did not fail. */
  lemma ScoreIffNoFailure(judge: Judge, criteria: string, threshold: real, dims: Option<seq<string>>,
                          response: string, ctx: Context)
    ensures var r := LLMJudgeCheck(judge, criteria, threshold, dims, response, ctx);
      r.score.Some? <==> r.actual != Str("error")
    ensures var r := LLMJudgeCheck(judge, criteria, threshold, dims, response, ctx);
      r.passed ==> r.score.Some? && r.score.value >= threshold
  {
  }

  /** Lowering the threshold never turns a pass into a failure. */
  lemma ThresholdMonotone(judge: Judge, criteria: string, t1: real, t2: real, dims: Option<seq<string>>,
                          response: string, ctx: Context)
    requires t2 <= t1
    requires LLMJudgeCheck(judge, criteria, t1, dims, response, ctx).passed
    ensures LLMJudgeCheck(judge, criteria, t2, dims, response, ctx).passed
  {
  }

  /** A reply the parser cannot read is a caught failure, not a default score. */
  lemma UnparsableReplyFails(complete: (string, string) -> Result<string>, loads: Loads, text: string,
                             criteria: string, threshold: real, dims: Option<seq<string>>, response: string, ctx: Context)
    requires complete(SystemPrompt, UserPrompt(criteria, ctx, response)) == Ok(text)
    requires forall i :: 0 <= i < 3 ==> Stages(loads, text)[i].NoMatch?
    ensures var r := LLMJudgeCheck(ParsingJudge(complete, loads), criteria, threshold, dims, response, ctx);
      && !r.passed && r.score.None?
      && r.message == Str(JudgeFailedPrefix + UnparsablePrefix + Take(text, 500))
  {
  }
}

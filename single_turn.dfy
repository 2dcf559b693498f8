/** `SingleTurnRunner.execute`: one message to the target, with the suite's
    shared inputs merged under the case's own, and the case's assertions
    checked against the one answer. */
module SingleTurn {
  import opened Wrappers
  import opened Values
  import opened Schema
  import opened AssertionBase
  import opened Builder
  import opened Assertions
  import opened Runner

  const NoInputMessage: string := "单轮测试缺少 input 配置"

  /** `{**(shared_inputs or {}), **(case.input.inputs or {})}`. */
  function CaseInputs(shared: Option<Entries>, input: SingleTurnInput): Entries {
    Merge(shared.GetOr([]), input.inputs.GetOr([]))
  }

  /** `case.input.user or "sandbox_test"`: an absent or empty user falls back
      to the default. */
  function CaseUser(input: SingleTurnInput): string {
    if input.user.Some? && input.user.value != "" then input.user.value else DefaultUser
  }

  /** The one request: a fresh conversation, the merged inputs. */
  function SingleRequest(input: SingleTurnInput, shared: Option<Entries>): ChatRequest {
    ChatRequest(input.query, "", CaseUser(input), CaseInputs(shared, input))
  }

  /** The turn record as built, before its assertion results are attached. */
  function FirstTurn(input: SingleTurnInput, resp: ChatResponse): TurnResult {
    TurnResult(0, input.query, resp.answer, resp.latencyMs, resp.tokenUsage, [])
  }

  /** The case result, and the requests sent (none or one). An exception from
      the target or from an assertion makes an error result with no turns. */
  function SingleTurnRun(target: Target, assess: Assess, c: TestCaseSpec, shared: Option<Entries>): (CaseResult, seq<ChatRequest>) {
    if c.input.None? then (ErrorResult(c.id, NoInputMessage), [])
    else
      var input := c.input.value;
      var req := SingleRequest(input, shared);
      match target(0, req)
      case Err(e) => (ErrorResult(c.id, e), [req])
      case Ok(resp) =>
        var turn := FirstTurn(input, resp);
        match CheckAll(c.assertions.GetOr([]), assess, resp.answer, WithLatency(resp.rawData, resp.latencyMs), Context([turn], 0))
        case Err(e) => (ErrorResult(c.id, e), [req])
        case Ok(rs) => (CaseResult(c.id, Completed, [turn.(assertions := rs)], [], None), [req])
  }

  /** `SingleTurnRunner.execute`. */
  method Execute(target: Target, assess: Assess, c: TestCaseSpec, shared: Option<Entries>)
    returns (result: CaseResult, sent: seq<ChatRequest>)
    ensures (result, sent) == SingleTurnRun(target, assess, c, shared)
  {
    if c.input.None? {
      return ErrorResult(c.id, NoInputMessage), [];
    }
    var input := c.input.value;
    var inputs := Merge(if shared.Some? then shared.value else [], if input.inputs.Some? then input.inputs.value else []);
    var user := if input.user.Some? && input.user.value != "" then input.user.value else DefaultUser;
    var req := ChatRequest(input.query, "", user, inputs);
    assert req == SingleRequest(input, shared);
    sent := [req];
    var reply := target(0, req);
    if reply.Err? {
      return ErrorResult(c.id, reply.error), sent;
    }
    var resp := reply.value;
    var turn := TurnResult(0, input.query, resp.answer, resp.latencyMs, resp.tokenUsage, []);
    var specs := if c.assertions.Some? then c.assertions.value else [];
    var raw := WithLatency(resp.rawData, resp.latencyMs);
    var results := CheckSpecs(specs, assess, resp.answer, raw, Context([turn], 0));
    if results.Err? {
      return ErrorResult(c.id, results.error), sent;
    }
    turn := turn.(assertions := results.value);
    result := CaseResult(c.id, Completed, [turn], [], None);
  }

  // ----- properties -----

  /** Without an input the case is an error naming it, and the target is
      never called. */
  lemma NoInputNoCall(target: Target, assess: Assess, c: TestCaseSpec, shared: Option<Entries>)
    requires c.input.None?
    ensures SingleTurnRun(target, assess, c, shared).1 == []
    ensures SingleTurnRun(target, assess, c, shared).0 == ErrorResult(c.id, NoInputMessage)
  {
  }

  /** With an input exactly one request is sent: the case's query, a fresh
      conversation, the case's user or the default one, and inputs in which
      the case's keys win over the shared ones. */
  lemma OneRequest(target: Target, assess: Assess, c: TestCaseSpec, shared: Option<Entries>, k: string)
    requires c.input.Some?
    ensures var sent := SingleTurnRun(target, assess, c, shared).1;
      var input := c.input.value;
      && |sent| == 1
      && sent[0].query == input.query
      && sent[0].conversationId == ""
      && (input.user.Some? && input.user.value != "" ==> sent[0].user == input.user.value)
      && (input.user.None? || input.user.value == "" ==> sent[0].user == DefaultUser)
      && Get(sent[0].inputs, k) ==
           if k in Keys(input.inputs.GetOr([])) then Get(input.inputs.GetOr([]), k)
           else Get(shared.GetOr([]), k)
  {
    SentIsRequest(target, assess, c, shared);
    MergeGet(shared.GetOr([]), c.input.value.inputs.GetOr([]), k);
  }

  lemma SentIsRequest(target: Target, assess: Assess, c: TestCaseSpec, shared: Option<Entries>)
    requires c.input.Some?
    ensures SingleTurnRun(target, assess, c, shared).1 == [SingleRequest(c.input.value, shared)]
  {
  }

  /** A completed case holds exactly one turn: index 0, the query, the answer,
      and one result per spec, in spec order, each evaluated against the
      answer, its raw data with the latency added, and a context whose
      history is that one turn at index 0. */
  lemma CompletedOneTurn(target: Target, assess: Assess, c: TestCaseSpec, shared: Option<Entries>)
    requires SingleTurnRun(target, assess, c, shared).0.status == Completed
    ensures c.input.Some? && target(0, SingleRequest(c.input.value, shared)).Ok?
    ensures var r := SingleTurnRun(target, assess, c, shared).0;
      var resp := target(0, SingleRequest(c.input.value, shared)).value;
      var specs := c.assertions.GetOr([]);
      var ctx := Context([r.turns[0].(assertions := [])], 0);
      var raw := WithLatency(resp.rawData, resp.latencyMs);
      && |r.turns| == 1 && r.errorMessage.None?
      && r.turns[0].turnIndex == 0 && r.turns[0].userMessage == c.input.value.query
      && r.turns[0].botResponse == resp.answer
      && |r.turns[0].assertions| == |specs|
      && forall j :: 0 <= j < |specs| ==> assess(specs[j], resp.answer, raw, ctx) == Ok(r.turns[0].assertions[j])
  {
    var input := c.input.value;
    var resp := target(0, SingleRequest(input, shared)).value;
    CheckAllResults(c.assertions.GetOr([]), assess, resp.answer, WithLatency(resp.rawData, resp.latencyMs), Context([FirstTurn(input, resp)], 0));
  }

  /** A case that fails keeps no turn at all, unlike the multi-turn runner,
      and its message is the text of what failed: the missing input, the
      target's exception, or the first exception an assertion raised. */
  lemma ErrorKeepsNoTurns(target: Target, assess: Assess, c: TestCaseSpec, shared: Option<Entries>)
    requires SingleTurnRun(target, assess, c, shared).0.status == Error
    ensures var r := SingleTurnRun(target, assess, c, shared).0;
      r.turns == [] && r.caseId == c.id
    ensures c.input.None? ==> SingleTurnRun(target, assess, c, shared).0.errorMessage == Some(NoInputMessage)
    ensures c.input.Some? && target(0, SingleRequest(c.input.value, shared)).Err? ==>
      SingleTurnRun(target, assess, c, shared).0.errorMessage == Some(target(0, SingleRequest(c.input.value, shared)).error)
    ensures c.input.Some? && target(0, SingleRequest(c.input.value, shared)).Ok? ==>
      var resp := target(0, SingleRequest(c.input.value, shared)).value;
      var checked := CheckAll(c.assertions.GetOr([]), assess, resp.answer, WithLatency(resp.rawData, resp.latencyMs),
                              Context([FirstTurn(c.input.value, resp)], 0));
      checked.Err? && SingleTurnRun(target, assess, c, shared).0.errorMessage == Some(checked.error)
  {
  }

  /** An answered case one of whose specs raises is an error. */
  lemma FailingSpecErrors(target: Target, assess: Assess, c: TestCaseSpec, shared: Option<Entries>, j: nat)
    requires c.input.Some? && target(0, SingleRequest(c.input.value, shared)).Ok?
    requires c.assertions.Some? && j < |c.assertions.value|
    requires var resp := target(0, SingleRequest(c.input.value, shared)).value;
      assess(c.assertions.value[j], resp.answer, WithLatency(resp.rawData, resp.latencyMs),
             Context([FirstTurn(c.input.value, resp)], 0)).Err?
    ensures SingleTurnRun(target, assess, c, shared).0.status == Error
  {
    var resp := target(0, SingleRequest(c.input.value, shared)).value;
    CheckAllResults(c.assertions.value, assess, resp.answer, WithLatency(resp.rawData, resp.latencyMs),
                    Context([FirstTurn(c.input.value, resp)], 0));
  }

  /** The runner builds every assertion without a judge client, so an answered
      case with an `llm_judge` spec anywhere in its list is always an error. */
  lemma LLMJudgeAlwaysErrors(target: Target, svc: Services, c: TestCaseSpec, shared: Option<Entries>, j: nat)
    requires c.input.Some? && target(0, SingleRequest(c.input.value, shared)).Ok?
    requires c.assertions.Some? && j < |c.assertions.value| && c.assertions.value[j].kind == "llm_judge"
    ensures SingleTurnRun(target, Assessor(None, svc), c, shared).0.status == Error
  {
    var resp := target(0, SingleRequest(c.input.value, shared)).value;
    JudgeSpecRaises(svc, c.assertions.value[j], resp.answer, WithLatency(resp.rawData, resp.latencyMs),
                    Context([FirstTurn(c.input.value, resp)], 0));
    FailingSpecErrors(target, Assessor(None, svc), c, shared, j);
  }

  lemma JudgeSpecRaises(svc: Services, spec: AssertionSpec, answer: string, raw: Entries, ctx: Context)
    requires spec.kind == "llm_judge"
    ensures Assessor(None, svc)(spec, answer, raw, ctx).Err?
  {
    assert !Complete(spec, false);
    AssessorBuildFails(None, svc, spec, answer, raw, ctx);
  }
}

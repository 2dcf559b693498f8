/** The records of the sandbox: test-case specifications, scenes, configuration,
    and the results and scores the runners and the scorer produce. */
module Schema {
  import opened Wrappers
  import opened Values

  // ----- results -----

  /** One assertion outcome. `message`, `expected`, `actual` and `details` are
      untyped in the source and hold strings, numbers, f-strings or lists. */
  datatype AssertionResult = AssertionResult(
    passed: bool,
    assertionType: string,
    message: Value,
    expected: Value,
    actual: Value,
    score: Option<real>,
    dimension: Option<string>,
    details: Value)

  /** The constructor call with only the required fields, the rest defaulting to `None`. */
  function Outcome(passed: bool, assertionType: string, message: Value, expected: Value, actual: Value): (r: AssertionResult)
    ensures r.passed == passed && r.assertionType == assertionType && r.message == message
    ensures r.expected == expected && r.actual == actual
    ensures r.score.None? && r.dimension.None? && r.details == Null
  {
    AssertionResult(passed, assertionType, message, expected, actual, None, None, Null)
  }

  datatype TurnResult = TurnResult(
    turnIndex: int,
    userMessage: string,
    botResponse: string,
    latencyMs: real,
    tokenUsage: Option<Entries>,
    assertions: seq<AssertionResult>)

  /** The two values the source stores in `CaseResult.status`. */
  datatype Status = Completed | Error

  datatype CaseResult = CaseResult(
    caseId: string,
    status: Status,
    turns: seq<TurnResult>,
    finalAssertions: seq<AssertionResult>,
    errorMessage: Option<string>)

  /** A `CaseResult(case_id=..., status="error", error_message=...)` with no turns. */
  function ErrorResult(caseId: string, message: string): (r: CaseResult)
    ensures r.caseId == caseId && r.status == Error && r.errorMessage == Some(message)
    ensures r.turns == [] && r.finalAssertions == []
  {
    CaseResult(caseId, Error, [], [], Some(message))
  }

  datatype CaseScore = CaseScore(
    caseId: string,
    passed: bool,
    passRate: real,
    overallScore: real,
    dimensionScores: map<string, real>)

  datatype SuiteResult = SuiteResult(suiteName: string, target: string, caseResults: seq<CaseResult>)

  datatype SuiteScore = SuiteScore(
    suiteName: string,
    totalCases: nat,
    passedCases: nat,
    passRate: real,
    avgOverallScore: real,
    dimensionAverages: map<string, real>,
    caseScores: seq<CaseScore>)

  // ----- test-case specifications -----

  /** The scalar types `AssertionSpec.value` admits. A float is carried by its
      Python `str()` text, since the model has no binary floating point. */
  datatype Scalar = ScalarStr(s: string) | ScalarBool(b: bool) | ScalarInt(i: int) | ScalarFloat(text: string)

  /** The assertion-spec fields the builder reads; `kind` is the `type` tag. */
  datatype AssertionSpec = AssertionSpec(
    kind: string,
    value: Option<Scalar>,
    values: Option<seq<string>>,
    pattern: Option<string>,
    criteria: Option<string>,
    passThreshold: Option<real>,
    dimensions: Option<seq<string>>,
    max: Option<int>,
    maxTotal: Option<int>)

  datatype TurnSpec = TurnSpec(user: string, assertions: seq<AssertionSpec>)

  datatype SingleTurnInput = SingleTurnInput(query: string, inputs: Option<Entries>, user: Option<string>)

  datatype TestCaseSpec = TestCaseSpec(
    id: string,
    name: string,
    caseType: string,
    input: Option<SingleTurnInput>,
    turns: Option<seq<TurnSpec>>,
    judgeScene: Option<string>,
    assertions: Option<seq<AssertionSpec>>)

  datatype SuiteMetadata = SuiteMetadata(name: string, target: string, sharedInputs: Option<Entries>)

  datatype TestSuiteSpec = TestSuiteSpec(suite: SuiteMetadata, cases: seq<TestCaseSpec>)

  // ----- scenes -----

  datatype BehaviorSpec = BehaviorSpec(
    id: string,
    name: string,
    description: string,
    goodExample: string,
    badExample: Option<string>,
    weight: real)

  datatype SceneContext = SceneContext(trigger: string, precondition: Option<string>)

  datatype SceneSpec = SceneSpec(
    id: string,
    name: string,
    source: string,
    description: string,
    context: SceneContext,
    behaviors: seq<BehaviorSpec>)
  {
    /** The schema demands at least one behaviour. */
    predicate Valid() {
      |behaviors| >= 1
    }
  }

  // ----- configuration -----

  datatype DimensionConfig = DimensionConfig(weight: real, description: string)

  /** The configured scoring dimensions, in the order the configuration lists them. */
  type Dimensions = seq<(string, DimensionConfig)>

  datatype TargetConfig = TargetConfig(apiBase: string, apiKey: string)

  datatype LLMConfig = LLMConfig(apiBase: string, apiKey: string, model: string)

  datatype ExecutionConfig = ExecutionConfig(concurrency: int, rateLimitRpm: int, rateLimitBurst: int)

  datatype SandboxConfig = SandboxConfig(
    targets: map<string, TargetConfig>,
    judge: LLMConfig,
    execution: ExecutionConfig,
    dimensions: Dimensions)

  // ----- the chat target's interface -----

  /** What a runner hands to the target for one turn. */
  datatype ChatRequest = ChatRequest(query: string, conversationId: string, user: string, inputs: Entries)

  /** What the target returns for one turn: its answer, the conversation id to
      continue with, the raw envelope, the measured latency and token usage. */
  datatype ChatResponse = ChatResponse(
    answer: string,
    conversationId: string,
    rawData: Entries,
    latencyMs: real,
    tokenUsage: Option<Entries>)
}

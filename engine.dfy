/** `TestEngine`: picks the suite's target, runs every case with the runner
    its type names, and collects one result per case, in case order. The
    concurrency of the original (a semaphore and `asyncio.gather`) is
    sequentialised: case `i` is run as the `i`-th task. */
module Engine {
  import opened Wrappers
  import opened Values
  import opened Schema
  import opened LLMJudge
  import opened Assertions
  import opened Runner
  import opened MultiTurn
  import opened SingleTurn

  /** What the engine talks to: the chat target for the `i`-th case of a
      suite, the judge client built from the judge configuration, the
      evaluators' services, and the scene-file loader (`load_and_validate`),
      which gives a scene or the text of the exception it raises. */
  datatype World = World(
    chat: (TargetConfig, nat) -> Target,
    judgeFor: LLMConfig -> Judge,
    svc: Services,
    loadScene: string -> Result<SceneSpec>)

  /** The engine's state: its configuration and the judge client's
      configuration, present when a judge client was made. */
  datatype EngineState = EngineState(config: SandboxConfig, judgeClient: Option<LLMConfig>)

  /** The exception `SingleTurnRunner(judge_client=...)` raises: the class
      defines no constructor, so it accepts no arguments. */
  const InitError: string := "SingleTurnRunner() takes no arguments"

  /** The exception `execute(..., scene=scene)` raises on the single-turn
      runner, whose `execute` has no `scene` parameter. */
  const SceneKwargError: string := "SingleTurnRunner.execute() got an unexpected keyword argument 'scene'"

  const SceneLoadFailed: string := "加载场景文件失败: "

  function UnknownTargetMessage(target: string): string {
    "目标 '" + target + "' 未在配置中定义"
  }

  /** `asyncio.Semaphore(concurrency)` with a negative count. */
  const SemaphoreError: string := "Semaphore initial value must be >= 0"

  /** `60.0 / rpm` in the rate limiter with `rate_limit_rpm` 0. */
  const RateError: string := "float division by zero"

  /** What `TestEngine.__init__` raises before it reaches the runners: the
      semaphore is made first, then the rate limiter. Neither field is
      checked when the configuration is loaded. */
  function EarlyInitError(config: SandboxConfig): (r: Option<string>)
    ensures r.None? <==> config.execution.concurrency >= 0 && config.execution.rateLimitRpm != 0
  {
    if config.execution.concurrency < 0 then Some(SemaphoreError)
    else if config.execution.rateLimitRpm == 0 then Some(RateError)
    else None
  }

  /** `TestEngine.__init__` as written: after the semaphore and the rate
      limiter, the single-turn runner is built with a keyword argument its
      class does not take, so construction always raises. */
  function NewEngineAsWritten(config: SandboxConfig): (r: Result<EngineState>) {
    match EarlyInitError(config)
    case Some(err) => Err(err)
    case None => Err(InitError)
  }

  /** `TestEngine.__init__` with the single-turn runner built without
      arguments: the semaphore and the rate limiter still raise on a negative
      concurrency and a zero rate; otherwise a judge client is made exactly
      when the judge configuration has an API key. */
  function NewEngine(config: SandboxConfig): (r: Result<EngineState>)
    ensures r.Ok? <==> config.execution.concurrency >= 0 && config.execution.rateLimitRpm != 0
    ensures r.Err? && config.execution.concurrency < 0 ==> r.error == SemaphoreError
    ensures r.Err? && config.execution.concurrency >= 0 ==> r.error == RateError
    ensures r.Ok? ==> r.value.config == config
    ensures r.Ok? ==> (r.value.judgeClient.Some? <==> config.judge.apiKey != "")
    ensures r.Ok? && r.value.judgeClient.Some? ==> r.value.judgeClient.value == config.judge
  {
    match EarlyInitError(config)
    case Some(err) => Err(err)
    case None => Ok(EngineState(config, if config.judge.apiKey != "" then Some(config.judge) else None))
  }

  datatype RunnerKind = SingleTurnRunner | MultiTurnRunner

  /** `_get_runner`; `Err` is the `ValueError` it raises. */
  function GetRunner(caseType: string): (r: Result<RunnerKind>)
    ensures r == Ok(SingleTurnRunner) <==> caseType == "single_turn"
    ensures r == Ok(MultiTurnRunner) <==> caseType == "multi_turn"
    ensures r.Err? <==> caseType != "single_turn" && caseType != "multi_turn"
    ensures r.Err? ==> r.error == "Runner 类型 '" + caseType + "' 将在后续阶段实现"
  {
    match caseType
    case "single_turn" => Ok(SingleTurnRunner)
    case "multi_turn" => Ok(MultiTurnRunner)
    case _ => Err("Runner 类型 '" + caseType + "' 将在后续阶段实现")
  }

  /** `if case.judge_scene:`: a scene path that is present and non-empty. */
  predicate SceneRequested(c: TestCaseSpec) {
    c.judgeScene.Some? && c.judgeScene.value != ""
  }

  function JudgeOf(w: World, e: EngineState): Option<Judge> {
    if e.judgeClient.Some? then Some(w.judgeFor(e.judgeClient.value)) else None
  }

  /** `runner.execute(case, target_config, shared_inputs, scene=scene)`;
      `sceneKwarg` says whether the single-turn runner rejects the `scene`
      argument, as it does in the code as written. */
  function Launch(w: World, e: EngineState, kind: RunnerKind, c: TestCaseSpec, target: TargetConfig,
                  shared: Option<Entries>, i: nat, sceneKwarg: bool): Result<CaseResult> {
    match kind
    case SingleTurnRunner =>
      if sceneKwarg then Err(SceneKwargError)
      else Ok(SingleTurnRun(w.chat(target, i), Assessor(None, w.svc), c, shared).0)
    case MultiTurnRunner =>
      Ok(MultiTurnRun(Env(w.chat(target, i), Assessor(JudgeOf(w, e), w.svc)), c, shared).0)
  }

  /** `_run_case_with_semaphore` for case `i`: the runner is chosen first,
      then the scene file is loaded, then the case runs. `Err` is an exception
      that escapes the asyncio task. */
  function RunCaseWith(w: World, e: EngineState, c: TestCaseSpec, target: TargetConfig,
                       shared: Option<Entries>, i: nat, sceneKwarg: bool): Result<CaseResult> {
    match GetRunner(c.caseType)
    case Err(m) => Err(m)
    case Ok(kind) =>
      if SceneRequested(c) && w.loadScene(c.judgeScene.value).Err? then
        Ok(ErrorResult(c.id, SceneLoadFailed + w.loadScene(c.judgeScene.value).error))
      else Launch(w, e, kind, c, target, shared, i, sceneKwarg)
  }

  /** The coroutine for case `i` as written. */
  function RunCaseAsWritten(w: World, e: EngineState, c: TestCaseSpec, target: TargetConfig, shared: Option<Entries>, i: nat): Result<CaseResult> {
    RunCaseWith(w, e, c, target, shared, i, true)
  }

  /** The coroutine for case `i` with the single-turn runner taking (and ignoring)
      the scene, as the engine evidently intends. */
  function RunCase(w: World, e: EngineState, c: TestCaseSpec, target: TargetConfig, shared: Option<Entries>, i: nat): Result<CaseResult> {
    RunCaseWith(w, e, c, target, shared, i, false)
  }

  /** What `asyncio.gather(..., return_exceptions=True)` returns: one outcome
      per case, in case order. `sceneKwarg` is as in `Launch`: `true` is the
      code as written, `false` the evidently intended dispatch. */
  function Outcomes(w: World, e: EngineState, cases: seq<TestCaseSpec>, target: TargetConfig, shared: Option<Entries>,
                    sceneKwarg: bool): (os: seq<Result<CaseResult>>)
    ensures |os| == |cases|
    ensures forall i :: 0 <= i < |cases| ==> os[i] == RunCaseWith(w, e, cases[i], target, shared, i, sceneKwarg)
  {
    seq(|cases|, i requires 0 <= i < |cases| => RunCaseWith(w, e, cases[i], target, shared, i, sceneKwarg))
  }

  /** The result kept for an outcome: an escaped exception becomes an error
      result for its case. */
  function Processed(c: TestCaseSpec, outcome: Result<CaseResult>): CaseResult {
    match outcome
    case Err(m) => ErrorResult(c.id, m)
    case Ok(r) => r
  }

  /** The `processed` loop of `run_suite`: one result per outcome, in order. */
  method Collect(cases: seq<TestCaseSpec>, outcomes: seq<Result<CaseResult>>) returns (processed: seq<CaseResult>)
    requires |outcomes| == |cases|
    ensures |processed| == |cases|
    ensures forall i :: 0 <= i < |cases| ==> processed[i] == Processed(cases[i], outcomes[i])
  {
    processed := [];
    var i := 0;
    while i < |outcomes|
      invariant 0 <= i <= |outcomes|
      invariant |processed| == i
      invariant forall k :: 0 <= k < i ==> processed[k] == Processed(cases[k], outcomes[k])
    {
      if outcomes[i].Err? {
        processed := processed + [ErrorResult(cases[i].id, outcomes[i].error)];
      } else {
        processed := processed + [outcomes[i].value];
      }
      i := i + 1;
    }
  }

  /** `run_suite`'s result; `SuiteRun(w, e, suite, true)` is the code as
      written, `SuiteRun(w, e, suite, false)` the intended dispatch. */
  function SuiteRun(w: World, e: EngineState, suite: TestSuiteSpec, sceneKwarg: bool): SuiteResult {
    var t := suite.suite.target;
    var cases := suite.cases;
    if t !in e.config.targets then
      SuiteResult(suite.suite.name, t, seq(|cases|, i requires 0 <= i < |cases| => ErrorResult(cases[i].id, UnknownTargetMessage(t))))
    else
      var os := Outcomes(w, e, cases, e.config.targets[t], suite.suite.sharedInputs, sceneKwarg);
      SuiteResult(suite.suite.name, t, seq(|cases|, i requires 0 <= i < |cases| => Processed(cases[i], os[i])))
  }

  /** `TestEngine.run_suite`. */
  method RunSuite(w: World, e: EngineState, suite: TestSuiteSpec, sceneKwarg: bool) returns (r: SuiteResult)
    ensures r == SuiteRun(w, e, suite, sceneKwarg)
  {
    var t := suite.suite.target;
    var cases := suite.cases;
    if t !in e.config.targets {
      return SuiteResult(suite.suite.name, t, seq(|cases|, i requires 0 <= i < |cases| => ErrorResult(cases[i].id, UnknownTargetMessage(t))));
    }
    var outcomes := Outcomes(w, e, cases, e.config.targets[t], suite.suite.sharedInputs, sceneKwarg);
    var processed := Collect(cases, outcomes);
    r := SuiteResult(suite.suite.name, t, processed);
  }

  // ----- properties -----

  /** Every run of a case reports that case's id. */
  lemma RunCaseKeepsId(w: World, e: EngineState, c: TestCaseSpec, target: TargetConfig, shared: Option<Entries>, i: nat, sceneKwarg: bool)
    ensures var o := RunCaseWith(w, e, c, target, shared, i, sceneKwarg); o.Ok? ==> o.value.caseId == c.id
  {
  }

  /** An unknown target gives one error result per case, with the cases' ids
      in suite order, and no case is run. */
  lemma UnknownTargetShortCircuits(w: World, e: EngineState, suite: TestSuiteSpec, sceneKwarg: bool)
    requires suite.suite.target !in e.config.targets
    ensures var r := SuiteRun(w, e, suite, sceneKwarg);
      && |r.caseResults| == |suite.cases|
      && forall i :: 0 <= i < |suite.cases| ==>
           r.caseResults[i] == ErrorResult(suite.cases[i].id, UnknownTargetMessage(suite.suite.target))
    ensures forall w2: World, k: bool :: SuiteRun(w2, e, suite, k) == SuiteRun(w, e, suite, sceneKwarg)
  {
  }

  /** The suite's name and target are copied into its result. */
  lemma SuiteNamesCopied(w: World, e: EngineState, suite: TestSuiteSpec, sceneKwarg: bool)
    ensures SuiteRun(w, e, suite, sceneKwarg).suiteName == suite.suite.name
    ensures SuiteRun(w, e, suite, sceneKwarg).target == suite.suite.target
  {
  }

  /** One result per case: result `i` carries case `i`'s id and is what case
      `i`'s own task gave, or the error result for the exception it raised;
      no other case's task affects it. */
  lemma OneResultPerCase(w: World, e: EngineState, suite: TestSuiteSpec, i: nat, sceneKwarg: bool)
    requires i < |suite.cases|
    ensures |SuiteRun(w, e, suite, sceneKwarg).caseResults| == |suite.cases|
    ensures SuiteRun(w, e, suite, sceneKwarg).caseResults[i].caseId == suite.cases[i].id
    ensures var t := suite.suite.target;
      t in e.config.targets ==>
        var o := RunCaseWith(w, e, suite.cases[i], e.config.targets[t], suite.suite.sharedInputs, i, sceneKwarg);
        && (o.Err? ==> SuiteRun(w, e, suite, sceneKwarg).caseResults[i] == ErrorResult(suite.cases[i].id, o.error))
        && (o.Ok? ==> SuiteRun(w, e, suite, sceneKwarg).caseResults[i] == o.value)
  {
    var t := suite.suite.target;
    if t in e.config.targets {
      RunCaseKeepsId(w, e, suite.cases[i], e.config.targets[t], suite.suite.sharedInputs, i, sceneKwarg);
    }
  }

  /** A case type with no runner raises before anything else, and the
      exception becomes that case's error result. */
  lemma UnknownTypeRaises(w: World, e: EngineState, c: TestCaseSpec, target: TargetConfig, shared: Option<Entries>, i: nat)
    requires c.caseType != "single_turn" && c.caseType != "multi_turn"
    ensures RunCase(w, e, c, target, shared, i) == Err("Runner 类型 '" + c.caseType + "' 将在后续阶段实现")
  {
  }

  /** A scene file that fails to load makes an error result naming the
      failure, and the case is not run: the chat target plays no part. */
  lemma SceneLoadFailureSkipsCase(w: World, e: EngineState, c: TestCaseSpec, target: TargetConfig, shared: Option<Entries>, i: nat,
                                  chat: (TargetConfig, nat) -> Target)
    requires c.caseType == "single_turn" || c.caseType == "multi_turn"
    requires SceneRequested(c) && w.loadScene(c.judgeScene.value).Err?
    ensures RunCase(w, e, c, target, shared, i) == Ok(ErrorResult(c.id, SceneLoadFailed + w.loadScene(c.judgeScene.value).error))
    ensures RunCase(w.(chat := chat), e, c, target, shared, i) == RunCase(w, e, c, target, shared, i)
  {
  }

  /** A case of a known type whose scene (if any) loads is run by the runner
      its type names: the single-turn runner without a judge client, the
      multi-turn runner with the engine's. */
  lemma DispatchRunsNamedRunner(w: World, e: EngineState, c: TestCaseSpec, target: TargetConfig, shared: Option<Entries>, i: nat)
    requires !(SceneRequested(c) && w.loadScene(c.judgeScene.value).Err?)
    ensures c.caseType == "single_turn" ==>
      RunCase(w, e, c, target, shared, i) == Ok(SingleTurnRun(w.chat(target, i), Assessor(None, w.svc), c, shared).0)
    ensures c.caseType == "multi_turn" ==>
      RunCase(w, e, c, target, shared, i) == Ok(MultiTurnRun(Env(w.chat(target, i), Assessor(JudgeOf(w, e), w.svc)), c, shared).0)
  {
  }

  /** As written, every single-turn case whose scene (if any) loads ends as
      an error result carrying the `scene` keyword's `TypeError`. */
  lemma SingleTurnRejectedAsWritten(w: World, e: EngineState, c: TestCaseSpec, target: TargetConfig, shared: Option<Entries>, i: nat)
    requires c.caseType == "single_turn"
    requires !(SceneRequested(c) && w.loadScene(c.judgeScene.value).Err?)
    ensures RunCaseAsWritten(w, e, c, target, shared, i) == Err(SceneKwargError)
    ensures Processed(c, RunCaseAsWritten(w, e, c, target, shared, i)) == ErrorResult(c.id, SceneKwargError)
  {
  }

  /** In the suite as written, every single-turn case of a known target whose
      scene (if any) loads is reported as the `scene` keyword's `TypeError`. */
  lemma SuiteSingleTurnAsWritten(w: World, e: EngineState, suite: TestSuiteSpec, i: nat)
    requires i < |suite.cases| && suite.suite.target in e.config.targets
    requires suite.cases[i].caseType == "single_turn"
    requires !(SceneRequested(suite.cases[i]) && w.loadScene(suite.cases[i].judgeScene.value).Err?)
    ensures SuiteRun(w, e, suite, true).caseResults[i] == ErrorResult(suite.cases[i].id, SceneKwargError)
  {
    OneResultPerCase(w, e, suite, i, true);
    SingleTurnRejectedAsWritten(w, e, suite.cases[i], e.config.targets[suite.suite.target], suite.suite.sharedInputs, i);
  }

  /** With the intended dispatch the same case is the single-turn runner's
      own result, against the chat target for case `i`. */
  lemma SuiteSingleTurnRuns(w: World, e: EngineState, suite: TestSuiteSpec, i: nat)
    requires i < |suite.cases| && suite.suite.target in e.config.targets
    requires suite.cases[i].caseType == "single_turn"
    requires !(SceneRequested(suite.cases[i]) && w.loadScene(suite.cases[i].judgeScene.value).Err?)
    ensures var target := e.config.targets[suite.suite.target];
      SuiteRun(w, e, suite, false).caseResults[i]
        == SingleTurnRun(w.chat(target, i), Assessor(None, w.svc), suite.cases[i], suite.suite.sharedInputs).0
  {
    OneResultPerCase(w, e, suite, i, false);
    DispatchRunsNamedRunner(w, e, suite.cases[i], e.config.targets[suite.suite.target], suite.suite.sharedInputs, i);
  }

  /** As written, no configuration yields an engine. The two versions raise
      the same exception wherever the corrected one raises, and exactly where
      it builds an engine the code as written raises the runner's TypeError. */
  lemma EngineConstruction(config: SandboxConfig)
    ensures NewEngineAsWritten(config).Err?
    ensures NewEngine(config).Err? ==> NewEngineAsWritten(config) == NewEngine(config)
    ensures NewEngine(config).Ok? <==> NewEngineAsWritten(config) == Err(InitError)
  {
  }
}

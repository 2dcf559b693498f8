/** What both runners share: the chat target as a function, the default user,
    the raw response handed to assertions, and the loop that builds and
    evaluates a turn's assertion specs. */
module Runner {
  import opened Wrappers
  import opened Values
  import opened Schema
  import opened AssertionBase
  import opened LLMJudge
  import opened Assertions
  import opened Builder

  /** The chat target: the answer to the `n`-th call of a case, given its
      request, or the text of the exception the call raises. */
  type Target = (nat, ChatRequest) -> Result<ChatResponse>

  /** `send_message`'s default user. */
  const DefaultUser: string := "sandbox_test"

  /** `{**response.raw_data, "_latency_ms": response.latency_ms}`. */
  function WithLatency(raw: Entries, latency: real): Entries {
    Put(raw, "_latency_ms", Float(latency))
  }

  /** The raw response handed to assertions holds the measured latency under
      `_latency_ms` and every other key of the raw data unchanged. */
  lemma WithLatencyGet(raw: Entries, latency: real, k: string)
    ensures Get(WithLatency(raw, latency), k) == if k == "_latency_ms" then Some(Float(latency)) else Get(raw, k)
  {
    var extra := [("_latency_ms", Float(latency))];
    assert Keys(extra) == ["_latency_ms"];
    PutMerge(raw, "_latency_ms", Float(latency));
    MergeGet(raw, extra, k);
  }

  /** Building then evaluating one spec against a reply, its raw response
      and the context. */
  type Assess = (AssertionSpec, string, Entries, Context) -> Result<AssertionResult>

  /** `build_assertion(spec, judge_client=...)` followed by
      `assertion.evaluate(answer, raw, ctx)`; a build error and an evaluation
      error both propagate. */
  function Assessor(judge: Option<Judge>, svc: Services): Assess {
    (spec: AssertionSpec, answer: string, raw: Entries, ctx: Context) => BuildAndEvaluate(judge, svc, spec, answer, raw, ctx)
  }

  function BuildAndEvaluate(judge: Option<Judge>, svc: Services, spec: AssertionSpec, answer: string, raw: Entries, ctx: Context): Result<AssertionResult> {
    match Build(spec, judge)
    case Err(e) => Err(e)
    case Ok(a) => Evaluate(a, svc, answer, raw, ctx)
  }

  /** A spec that cannot be built raises before it is evaluated. */
  lemma AssessorBuildFails(judge: Option<Judge>, svc: Services, spec: AssertionSpec, answer: string, raw: Entries, ctx: Context)
    requires Build(spec, judge).Err?
    ensures Assessor(judge, svc)(spec, answer, raw, ctx) == Err(Build(spec, judge).error)
  {
  }

  /** The results of the specs, in order, or the first error met. */
  function CheckAll(specs: seq<AssertionSpec>, assess: Assess, answer: string, raw: Entries, ctx: Context): Result<seq<AssertionResult>>
  {
    if specs == [] then Ok([])
    else
      match CheckAll(specs[..|specs| - 1], assess, answer, raw, ctx)
      case Err(e) => Err(e)
      case Ok(rs) =>
        match assess(specs[|specs| - 1], answer, raw, ctx)
        case Err(e) => Err(e)
        case Ok(x) => Ok(rs + [x])
  }

  /** One result per spec, in spec order, exactly when no spec raises. */
  lemma {:induction false} CheckAllResults(specs: seq<AssertionSpec>, assess: Assess, answer: string, raw: Entries, ctx: Context)
    ensures CheckAll(specs, assess, answer, raw, ctx).Ok? <==>
      forall k :: 0 <= k < |specs| ==> assess(specs[k], answer, raw, ctx).Ok?
    ensures CheckAll(specs, assess, answer, raw, ctx).Ok? ==>
      var rs := CheckAll(specs, assess, answer, raw, ctx).value;
      |rs| == |specs| && forall k :: 0 <= k < |specs| ==> rs[k] == assess(specs[k], answer, raw, ctx).value
  {
    if specs != [] {
      var init := specs[..|specs| - 1];
      CheckAllResults(init, assess, answer, raw, ctx);
      assert forall k :: 0 <= k < |init| ==> init[k] == specs[k];
    }
  }

  /** The first error is the one reported: once a spec raises, later specs
      are never evaluated. */
  lemma {:induction false} CheckAllStops(specs: seq<AssertionSpec>, assess: Assess, answer: string, raw: Entries, ctx: Context, k: nat)
    requires k < |specs| && assess(specs[k], answer, raw, ctx).Err? && CheckAll(specs[..k], assess, answer, raw, ctx).Ok?
    ensures CheckAll(specs, assess, answer, raw, ctx) == Err(assess(specs[k], answer, raw, ctx).error)
  {
    if k < |specs| - 1 {
      var init := specs[..|specs| - 1];
      assert init[..k] == specs[..k] && init[k] == specs[k];
      CheckAllStops(init, assess, answer, raw, ctx, k);
    } else {
      assert specs[..|specs| - 1] == specs[..k];
    }
  }

  /** The assertion loop of a turn: build and evaluate each spec in order,
      appending each result. */
  method CheckSpecs(specs: seq<AssertionSpec>, assess: Assess, answer: string, raw: Entries, ctx: Context)
    returns (r: Result<seq<AssertionResult>>)
    ensures r == CheckAll(specs, assess, answer, raw, ctx)
  {
    var results: seq<AssertionResult> := [];
    var i := 0;
    while i < |specs|
      invariant 0 <= i <= |specs|
      invariant CheckAll(specs[..i], assess, answer, raw, ctx) == Ok(results)
    {
      var x := assess(specs[i], answer, raw, ctx);
      assert specs[..i + 1][..i] == specs[..i];
      if x.Err? {
        CheckAllStops(specs, assess, answer, raw, ctx, i);
        return Err(x.error);
      }
      results := results + [x.value];
      i := i + 1;
    }
    assert specs[..i] == specs;
    r := Ok(results);
  }
}

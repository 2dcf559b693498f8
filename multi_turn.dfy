/** `MultiTurnRunner.execute`: a scripted conversation, turn after turn, with the
    conversation id of each answer carried into the next request. */
module MultiTurn {
  import opened Wrappers
  import opened Values
  import opened Schema
  import opened AssertionBase
  import opened LLMJudge
  import opened Assertions
  import opened Runner

  const NoTurnsMessage: string := "多轮测试缺少 turns 配置"

  /** What a run talks to: the chat target, and the assertion layer (the
      builder with the runner's judge client, then the evaluators). */
  datatype Env = Env(target: Target, assess: Assess)

  /** What the loop carries: the conversation id to send next, the completed
      turns, the requests sent so far, and the exception that ended the loop. */
  datatype Progress = Progress(conversationId: string, done: seq<TurnResult>, sent: seq<ChatRequest>, error: Option<string>)

  /** `shared_inputs if i == 0 else {}`, with `None` sent as `{}`. */
  function TurnInputs(i: nat, shared: Option<Entries>): (inputs: Entries)
    ensures i > 0 ==> inputs == []
    ensures i == 0 ==> inputs == shared.GetOr([])
  {
    if i == 0 && shared.Some? then shared.value else []
  }

  function TurnRequest(turn: TurnSpec, i: nat, conversationId: string, shared: Option<Entries>): ChatRequest {
    ChatRequest(turn.user, conversationId, DefaultUser, TurnInputs(i, shared))
  }

  /** The turn record as built, before its assertion results are attached. */
  function Fresh(i: nat, turn: TurnSpec, resp: ChatResponse): TurnResult {
    TurnResult(i, turn.user, resp.answer, resp.latencyMs, resp.tokenUsage, [])
  }

  /** Turn `i`'s assertions see the completed turns and this one, and the
      answer's raw data with its latency added. */
  function TurnResults(env: Env, history: seq<TurnResult>, i: nat, turn: TurnSpec, resp: ChatResponse): Result<seq<AssertionResult>> {
    CheckAll(turn.assertions, env.assess, resp.answer, WithLatency(resp.rawData, resp.latencyMs),
             Context(history + [Fresh(i, turn, resp)], i))
  }

  /** One turn of the loop; after an exception nothing more happens. */
  function Step(env: Env, turns: seq<TurnSpec>, shared: Option<Entries>, p: Progress, i: nat): Progress
    requires i < |turns|
  {
    if p.error.Some? then p
    else
      var req := TurnRequest(turns[i], i, p.conversationId, shared);
      var sent := p.sent + [req];
      match env.target(i, req)
      case Err(e) => Progress(p.conversationId, p.done, sent, Some(e))
      case Ok(resp) =>
        match TurnResults(env, p.done, i, turns[i], resp)
        case Err(e) => Progress(resp.conversationId, p.done, sent, Some(e))
        case Ok(rs) => Progress(resp.conversationId, p.done + [Fresh(i, turns[i], resp).(assertions := rs)], sent, None)
  }

  /** The state after the first `n` turns. */
  function Steps(env: Env, turns: seq<TurnSpec>, shared: Option<Entries>, n: nat): Progress
    requires n <= |turns|
  {
    if n == 0 then Progress("", [], [], None) else Step(env, turns, shared, Steps(env, turns, shared, n - 1), n - 1)
  }

  /** The case result a finished loop reports. */
  function Finish(caseId: string, p: Progress): CaseResult {
    match p.error
    case None => CaseResult(caseId, Completed, p.done, [], None)
    case Some(e) => CaseResult(caseId, Error, p.done, [], Some(e))
  }

  /** The result of a case and the requests it sent, in order. */
  function MultiTurnRun(env: Env, c: TestCaseSpec, shared: Option<Entries>): (CaseResult, seq<ChatRequest>) {
    if c.turns.None? || c.turns.value == [] then (ErrorResult(c.id, NoTurnsMessage), [])
    else
      var p := Steps(env, c.turns.value, shared, |c.turns.value|);
      (Finish(c.id, p), p.sent)
  }

  /** Once the loop has stopped, later turns change nothing. */
  lemma {:induction false} StoppedStays(env: Env, turns: seq<TurnSpec>, shared: Option<Entries>, k: nat, n: nat)
    requires k <= n <= |turns| && Steps(env, turns, shared, k).error.Some?
    ensures Steps(env, turns, shared, n) == Steps(env, turns, shared, k)
  {
    if n > k {
      StoppedStays(env, turns, shared, k, n - 1);
    }
  }

  /** One pass of the loop body: send turn `i`'s message, then check the
      answer; an exception ends the run with its text. */
  method PlayTurn(env: Env, turns: seq<TurnSpec>, shared: Option<Entries>, i: nat,
                  conversationId: string, done: seq<TurnResult>, sent: seq<ChatRequest>)
    returns (next: Progress)
    requires i < |turns| && Steps(env, turns, shared, i) == Progress(conversationId, done, sent, None)
    ensures next == Steps(env, turns, shared, i + 1)
  {
    var inputs := if i == 0 && shared.Some? then shared.value else [];
    var req := ChatRequest(turns[i].user, conversationId, DefaultUser, inputs);
    assert req == TurnRequest(turns[i], i, conversationId, shared);
    var reply := env.target(i, req);
    if reply.Err? {
      return Progress(conversationId, done, sent + [req], Some(reply.error));
    }
    var resp := reply.value;
    var turn := TurnResult(i, turns[i].user, resp.answer, resp.latencyMs, resp.tokenUsage, []);
    var ctx := Context(done + [turn], i);
    var raw := WithLatency(resp.rawData, resp.latencyMs);
    var results := CheckSpecs(turns[i].assertions, env.assess, resp.answer, raw, ctx);
    if results.Err? {
      return Progress(resp.conversationId, done, sent + [req], Some(results.error));
    }
    turn := turn.(assertions := results.value);
    next := Progress(resp.conversationId, done + [turn], sent + [req], None);
  }

  /** `MultiTurnRunner.execute`. */
  method Execute(env: Env, c: TestCaseSpec, shared: Option<Entries>) returns (result: CaseResult, sent: seq<ChatRequest>)
    ensures (result, sent) == MultiTurnRun(env, c, shared)
  {
    if c.turns.None? || c.turns.value == [] {
      return ErrorResult(c.id, NoTurnsMessage), [];
    }
    var turns := c.turns.value;
    var conversationId := "";
    var done: seq<TurnResult> := [];
    sent := [];
    var i := 0;
    while i < |turns|
      invariant 0 <= i <= |turns|
      invariant Steps(env, turns, shared, i) == Progress(conversationId, done, sent, None)
    {
      var next := PlayTurn(env, turns, shared, i, conversationId, done, sent);
      if next.error.Some? {
        StoppedStays(env, turns, shared, i + 1, |turns|);
        return CaseResult(c.id, Error, next.done, [], next.error), next.sent;
      }
      conversationId, done, sent := next.conversationId, next.done, next.sent;
      i := i + 1;
    }
    result := CaseResult(c.id, Completed, done, [], None);
  }

  // ----- properties -----

  /** The conversation id the `k`-th request must carry: none for the first,
      then the one the previous answer returned. */
  function PrevId(env: Env, sent: seq<ChatRequest>, k: nat): string
    requires k <= |sent|
  {
    if k == 0 then ""
    else match env.target(k - 1, sent[k - 1])
      case Ok(resp) => resp.conversationId
      case Err(_) => ""
  }

  /** Every request sent is the scripted message of its turn, with the
      conversation id of the answer before it, and the shared inputs only on
      the first turn. */
  ghost predicate Threaded(env: Env, turns: seq<TurnSpec>, shared: Option<Entries>, sent: seq<ChatRequest>) {
    && |sent| <= |turns|
    && forall k {:trigger PrevId(env, sent, k)} :: 0 <= k < |sent| ==> sent[k] == TurnRequest(turns[k], k, PrevId(env, sent, k), shared)
  }

  /** Completed turn `k` holds its index, its message, the answer to request
      `k`, and one result per spec, each evaluated with the turns before it
      and itself as history. */
  ghost predicate Recorded(env: Env, turns: seq<TurnSpec>, asked: seq<ChatRequest>, done: seq<TurnResult>) {
    && |done| == |asked| <= |turns|
    && forall k {:trigger done[k]} :: 0 <= k < |done| ==>
         && env.target(k, asked[k]).Ok?
         && var resp := env.target(k, asked[k]).value;
            var rs := TurnResults(env, done[..k], k, turns[k], resp);
            rs.Ok? && done[k] == Fresh(k, turns[k], resp).(assertions := rs.value)
  }

  /** The exception turn `k` raises when request `req` is sent after the
      completed turns `done`: the target's, or else the first one an
      assertion raises; `None` when the turn completes. */
  function FailureText(env: Env, turns: seq<TurnSpec>, done: seq<TurnResult>, k: nat, req: ChatRequest): Option<string>
    requires k < |turns|
  {
    match env.target(k, req)
    case Err(e) => Some(e)
    case Ok(resp) =>
      match TurnResults(env, done, k, turns[k], resp)
      case Err(e) => Some(e)
      case Ok(_) => None
  }

  /** What holds after `n` turns, whether or not the loop has stopped: the
      requests are threaded, each completed turn is recorded against its
      request, and only the last request can lack a completed turn, in which
      case the error is what that request raised. */
  ghost predicate Invariant(env: Env, turns: seq<TurnSpec>, shared: Option<Entries>, p: Progress, n: nat) {
    && Threaded(env, turns, shared, p.sent)
    && |p.done| <= |p.sent| && Recorded(env, turns, p.sent[..|p.done|], p.done)
    && (p.error.None? ==> |p.sent| == n && |p.done| == n && p.conversationId == PrevId(env, p.sent, n))
    && (p.error.Some? ==> |p.done| == |p.sent| - 1 && |p.sent| <= |turns|
                          && p.error == FailureText(env, turns, p.done, |p.done|, p.sent[|p.done|]))
  }

  /** Sending the next scripted request, with the previous answer's id,
      keeps the requests threaded. */
  lemma SendKeeps(env: Env, turns: seq<TurnSpec>, shared: Option<Entries>, sent: seq<ChatRequest>, i: nat)
    requires i < |turns| && |sent| == i && Threaded(env, turns, shared, sent)
    ensures Threaded(env, turns, shared, sent + [TurnRequest(turns[i], i, PrevId(env, sent, i), shared)])
  {
    var s := sent + [TurnRequest(turns[i], i, PrevId(env, sent, i), shared)];
    forall k | 0 <= k < |s|
      ensures s[k] == TurnRequest(turns[k], k, PrevId(env, s, k), shared)
    {
      assert PrevId(env, s, k) == PrevId(env, sent, k);
    }
  }

  /** Recording an answered turn whose assertions all evaluate keeps the
      completed turns recorded. */
  lemma RecordKeeps(env: Env, turns: seq<TurnSpec>, asked: seq<ChatRequest>, done: seq<TurnResult>,
                    req: ChatRequest, resp: ChatResponse, rs: seq<AssertionResult>)
    requires |done| < |turns| && Recorded(env, turns, asked, done)
    requires var i := |done|;
      env.target(i, req) == Ok(resp) && TurnResults(env, done, i, turns[i], resp) == Ok(rs)
    ensures var i := |done|;
      Recorded(env, turns, asked + [req], done + [Fresh(i, turns[i], resp).(assertions := rs)])
  {
    var i := |done|;
    var a := asked + [req];
    var d := done + [Fresh(i, turns[i], resp).(assertions := rs)];
    forall k | 0 <= k < |d|
      ensures && env.target(k, a[k]).Ok?
              && var resp := env.target(k, a[k]).value;
                 var rs := TurnResults(env, d[..k], k, turns[k], resp);
                 rs.Ok? && d[k] == Fresh(k, turns[k], resp).(assertions := rs.value)
    {
      if k < i {
        assert a[k] == asked[k] && d[..k] == done[..k] && d[k] == done[k];
      } else {
        assert a[k] == req && d[..k] == done;
      }
    }
  }

  /** One turn keeps the invariant. */
  lemma StepKeeps(env: Env, turns: seq<TurnSpec>, shared: Option<Entries>, p: Progress, i: nat)
    requires i < |turns| && Invariant(env, turns, shared, p, i)
    ensures Invariant(env, turns, shared, Step(env, turns, shared, p, i), i + 1)
  {
    if p.error.None? {
      var req := TurnRequest(turns[i], i, p.conversationId, shared);
      var sent := p.sent + [req];
      SendKeeps(env, turns, shared, p.sent, i);
      assert p.sent[..i] == p.sent && sent[..i] == p.sent;
      assert sent[i] == req;
      match env.target(i, req)
      case Err(e) =>
      case Ok(resp) =>
        var rs := TurnResults(env, p.done, i, turns[i], resp);
        if rs.Ok? {
          RecordKeeps(env, turns, p.sent, p.done, req, resp, rs.value);
          assert sent[..i + 1] == sent && sent[i] == req;
          assert PrevId(env, sent, i + 1) == resp.conversationId;
        }
    }
  }

  lemma {:induction false} StepsInvariant(env: Env, turns: seq<TurnSpec>, shared: Option<Entries>, n: nat)
    requires n <= |turns|
    ensures Invariant(env, turns, shared, Steps(env, turns, shared, n), n)
  {
    if n > 0 {
      StepsInvariant(env, turns, shared, n - 1);
      StepKeeps(env, turns, shared, Steps(env, turns, shared, n - 1), n - 1);
    }
  }

  /** Request `k` as the invariant describes it. */
  lemma SentAt(env: Env, turns: seq<TurnSpec>, shared: Option<Entries>, sent: seq<ChatRequest>, k: nat)
    requires Threaded(env, turns, shared, sent) && k < |sent|
    ensures k < |turns| && sent[k] == TurnRequest(turns[k], k, PrevId(env, sent, k), shared)
  {
  }

  /** Completed turn `k` as the invariant describes it. */
  lemma DoneAt(env: Env, turns: seq<TurnSpec>, shared: Option<Entries>, p: Progress, n: nat, k: nat)
    requires Invariant(env, turns, shared, p, n) && k < |p.done|
    ensures k < |p.sent| && k < |turns| && env.target(k, p.sent[k]).Ok?
    ensures var resp := env.target(k, p.sent[k]).value;
      var rs := TurnResults(env, p.done[..k], k, turns[k], resp);
      rs.Ok? && p.done[k] == Fresh(k, turns[k], resp).(assertions := rs.value)
  {
    assert p.sent[..|p.done|][k] == p.sent[k];
    assert p.done[k] == p.done[k];
  }

  /** The first request carries no conversation id; each later one carries
      the id the previous answer returned. Shared inputs go with the first
      request only. */
  lemma ConversationThreading(env: Env, c: TestCaseSpec, shared: Option<Entries>, k: nat)
    requires k < |MultiTurnRun(env, c, shared).1|
    ensures c.turns.Some? && k < |c.turns.value|
    ensures var sent := MultiTurnRun(env, c, shared).1;
      && sent[k].query == c.turns.value[k].user
      && (k == 0 ==> sent[k].conversationId == "")
      && (k > 0 ==> env.target(k - 1, sent[k - 1]).Ok?
                    && sent[k].conversationId == env.target(k - 1, sent[k - 1]).value.conversationId)
      && sent[k].inputs == (if k == 0 then shared.GetOr([]) else [])
      && sent[k].user == DefaultUser
  {
    var turns := c.turns.value;
    StepsInvariant(env, turns, shared, |turns|);
    var p := Steps(env, turns, shared, |turns|);
    SentAt(env, turns, shared, p.sent, k);
    if k > 0 {
      DoneAt(env, turns, shared, p, |turns|, k - 1);
    }
  }

  /** A run that completes has one turn per scripted turn, in order, each with
      its index, its message and the answer to its request. */
  lemma CompletedRun(env: Env, c: TestCaseSpec, shared: Option<Entries>)
    requires MultiTurnRun(env, c, shared).0.status == Completed
    ensures c.turns.Some?
    ensures var (r, sent) := MultiTurnRun(env, c, shared);
      && |r.turns| == |c.turns.value| == |sent| && r.errorMessage.None?
      && forall k :: 0 <= k < |r.turns| ==>
           && r.turns[k].turnIndex == k && r.turns[k].userMessage == c.turns.value[k].user
           && env.target(k, sent[k]).Ok? && r.turns[k].botResponse == env.target(k, sent[k]).value.answer
           && |r.turns[k].assertions| == |c.turns.value[k].assertions|
  {
    var turns := c.turns.value;
    StepsInvariant(env, turns, shared, |turns|);
    var p := Steps(env, turns, shared, |turns|);
    forall k | 0 <= k < |p.done|
      ensures && p.done[k].turnIndex == k && p.done[k].userMessage == turns[k].user
              && env.target(k, p.sent[k]).Ok? && p.done[k].botResponse == env.target(k, p.sent[k]).value.answer
              && |p.done[k].assertions| == |turns[k].assertions|
    {
      DoneAt(env, turns, shared, p, |turns|, k);
      var resp := env.target(k, p.sent[k]).value;
      CheckAllResults(turns[k].assertions, env.assess, resp.answer, WithLatency(resp.rawData, resp.latencyMs),
                      Context(p.done[..k] + [Fresh(k, turns[k], resp)], k));
    }
  }

  /** Turn `k`'s assertions are evaluated, spec by spec, against the answer,
      its raw data with the latency added, and a context whose history is the
      turns before it and itself and whose index is `k`. */
  lemma TurnContext(env: Env, c: TestCaseSpec, shared: Option<Entries>, k: nat)
    requires k < |MultiTurnRun(env, c, shared).0.turns|
    ensures c.turns.Some? && k < |c.turns.value| && k < |MultiTurnRun(env, c, shared).1|
    ensures var (r, sent) := MultiTurnRun(env, c, shared);
      && env.target(k, sent[k]).Ok?
      && var resp := env.target(k, sent[k]).value;
         var ctx := Context(r.turns[..k] + [r.turns[k].(assertions := [])], k);
         var raw := WithLatency(resp.rawData, resp.latencyMs);
         var specs := c.turns.value[k].assertions;
         && |r.turns[k].assertions| == |specs|
         && forall j :: 0 <= j < |specs| ==> env.assess(specs[j], resp.answer, raw, ctx) == Ok(r.turns[k].assertions[j])
  {
    var turns := c.turns.value;
    StepsInvariant(env, turns, shared, |turns|);
    var p := Steps(env, turns, shared, |turns|);
    DoneAt(env, turns, shared, p, |turns|, k);
    var resp := env.target(k, p.sent[k]).value;
    assert p.done[k].(assertions := []) == Fresh(k, turns[k], resp);
    CheckAllResults(turns[k].assertions, env.assess, resp.answer, WithLatency(resp.rawData, resp.latencyMs),
                    Context(p.done[..k] + [Fresh(k, turns[k], resp)], k));
  }

  /** On an exception the case is an error carrying its text, and it keeps
      exactly the turns completed before the failing one `k`, each recorded
      against its request. The text is the target's exception for request
      `k`, or else the first exception one of turn `k`'s assertions raised. */
  lemma FailedRunKeepsEarlierTurns(env: Env, c: TestCaseSpec, shared: Option<Entries>)
    requires c.turns.Some? && c.turns.value != []
    requires MultiTurnRun(env, c, shared).0.status == Error
    ensures var (r, sent) := MultiTurnRun(env, c, shared);
      && |sent| >= 1 && |r.turns| == |sent| - 1 && |sent| <= |c.turns.value|
      && forall k :: 0 <= k < |r.turns| ==> r.turns[k].turnIndex == k
    ensures var (r, sent) := MultiTurnRun(env, c, shared);
      var k := |sent| - 1;
      && Recorded(env, c.turns.value, sent[..k], r.turns)
      && (env.target(k, sent[k]).Err? ==> r.errorMessage == Some(env.target(k, sent[k]).error))
      && (env.target(k, sent[k]).Ok? ==>
            var rs := TurnResults(env, r.turns, k, c.turns.value[k], env.target(k, sent[k]).value);
            rs.Err? && r.errorMessage == Some(rs.error))
  {
    var turns := c.turns.value;
    StepsInvariant(env, turns, shared, |turns|);
    var p := Steps(env, turns, shared, |turns|);
    forall k | 0 <= k < |p.done| ensures p.done[k].turnIndex == k {
      DoneAt(env, turns, shared, p, |turns|, k);
    }
  }

  /** Without turns the case is an error naming them, and the target is never
      called. */
  lemma NoTurnsNoCalls(env: Env, c: TestCaseSpec, shared: Option<Entries>)
    requires c.turns.None? || c.turns.value == []
    ensures MultiTurnRun(env, c, shared).1 == []
    ensures MultiTurnRun(env, c, shared).0 == ErrorResult(c.id, NoTurnsMessage)
  {
  }
}

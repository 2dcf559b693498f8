/** The performance checks: the latency and the token usage of the latest turn
    against a configured ceiling. */
module Performance {
  import opened Wrappers
  import opened Values
  import opened Schema
  import opened AssertionBase

  /** The latency the check compares: the latest turn's when there is a history,
      otherwise the raw response's `_latency_ms`, defaulting to 0. */
  function LatencyOf(raw: Entries, ctx: Context): Value {
    if ctx.history != [] then Float(ctx.history[|ctx.history| - 1].latencyMs)
    else GetOr(raw, "_latency_ms", Int(0))
  }

  /** `LatencyAssertion.evaluate`; comparing a non-number raises out of it. */
  function LatencyCheck(maxMs: int, raw: Entries, ctx: Context): (r: Result<AssertionResult>)
    ensures r.Ok? <==> Number(LatencyOf(raw, ctx)).Some?
    ensures r.Ok? ==> (r.value.passed <==> Number(LatencyOf(raw, ctx)).value <= maxMs as real)
    ensures r.Ok? ==> r.value.assertionType == "latency_ms"
    ensures r.Ok? ==> r.value.expected == Fmt([Str("<= "), Int(maxMs), Str("ms")])
    ensures r.Ok? ==> r.value.actual == Fmt([LatencyOf(raw, ctx), Str("ms")])
  {
    var latency := LatencyOf(raw, ctx);
    var passed :- AtMost(latency, maxMs);
    Ok(Outcome(passed, "latency_ms",
      Fmt([Str("延迟 "), latency, Str("ms "), Str(if passed then "<=" else ">"), Str(" "), Int(maxMs), Str("ms")]),
      Fmt([Str("<= "), Int(maxMs), Str("ms")]),
      Fmt([latency, Str("ms")])))
  }

  /** The token total the check compares: the latest turn's `total_tokens`, or
      0 without a history, without a (non-empty) usage dict or without the key. */
  function TokensOf(ctx: Context): Value {
    if ctx.history == [] then Int(0)
    else
      var usage := ctx.history[|ctx.history| - 1].tokenUsage;
      if usage.Some? && usage.value != [] then GetOr(usage.value, "total_tokens", Int(0)) else Int(0)
  }

  /** `TokenUsageAssertion.evaluate`; comparing a non-number raises out of it. */
  function TokenUsageCheck(maxTotal: int, ctx: Context): (r: Result<AssertionResult>)
    ensures r.Ok? <==> Number(TokensOf(ctx)).Some?
    ensures r.Ok? ==> (r.value.passed <==> Number(TokensOf(ctx)).value <= maxTotal as real)
    ensures r.Ok? ==> r.value.assertionType == "token_usage"
    ensures r.Ok? ==> r.value.expected == Fmt([Str("<= "), Int(maxTotal)])
    ensures r.Ok? ==> r.value.actual == Fmt([TokensOf(ctx)])
  {
    var total := TokensOf(ctx);
    var passed :- AtMost(total, maxTotal);
    Ok(Outcome(passed, "token_usage",
      Fmt([Str("Token "), total, Str(" "), Str(if passed then "<=" else ">"), Str(" "), Int(maxTotal)]),
      Fmt([Str("<= "), Int(maxTotal)]),
      Fmt([total])))
  }

  // ----- properties -----

  /** Only the latest turn is consulted: earlier turns, the turn index and the
      raw response never change either check once there is a history. */
  lemma LatestTurnOnly(h: seq<TurnResult>, t: TurnResult, i: int, j: int, raw: Entries, raw2: Entries, maxMs: int, maxTotal: int)
    ensures LatencyCheck(maxMs, raw, Context(h + [t], i)) == LatencyCheck(maxMs, raw2, Context([t], j))
    ensures TokenUsageCheck(maxTotal, Context(h + [t], i)) == TokenUsageCheck(maxTotal, Context([t], j))
  {
    assert (h + [t])[|h + [t]| - 1] == t;
  }

  /** With a history the latency is a number, and the ceiling is inclusive. */
  lemma LatencyFromLastTurn(maxMs: int, raw: Entries, h: seq<TurnResult>, i: int)
    requires h != []
    ensures LatencyCheck(maxMs, raw, Context(h, i)).Ok?
    ensures LatencyCheck(maxMs, raw, Context(h, i)).value.passed <==> h[|h| - 1].latencyMs <= maxMs as real
  {
  }

  /** Without a history the raw `_latency_ms` is compared, 0 when it is absent. */
  lemma LatencyFromRaw(maxMs: int, raw: Entries)
    ensures Get(raw, "_latency_ms").None? ==>
      LatencyCheck(maxMs, raw, DefaultContext) == Ok(Outcome(0 <= maxMs, "latency_ms",
        Fmt([Str("延迟 "), Int(0), Str("ms "), Str(if 0 <= maxMs then "<=" else ">"), Str(" "), Int(maxMs), Str("ms")]),
        Fmt([Str("<= "), Int(maxMs), Str("ms")]), Fmt([Int(0), Str("ms")])))
    ensures Get(raw, "_latency_ms") == Some(Str("slow")) ==> LatencyCheck(maxMs, raw, DefaultContext).Err?
  {
  }

  /** A latency exactly at the ceiling passes; one above it fails. */
  lemma LatencyBoundary(maxMs: int, t: TurnResult, raw: Entries)
    ensures t.latencyMs == maxMs as real ==> LatencyCheck(maxMs, raw, Context([t], 0)).value.passed
    ensures t.latencyMs > maxMs as real ==> !LatencyCheck(maxMs, raw, Context([t], 0)).value.passed
  {
  }

  /** The total is 0, and so the check passes for any non-negative ceiling, when
      there is no history, no usage dict, or no `total_tokens` key. */
  lemma TokensDefaultZero(maxTotal: int, ctx: Context)
    requires ctx.history == []
      || ctx.history[|ctx.history| - 1].tokenUsage.None?
      || Get(ctx.history[|ctx.history| - 1].tokenUsage.value, "total_tokens").None?
    ensures TokensOf(ctx) == Int(0)
    ensures TokenUsageCheck(maxTotal, ctx).Ok? && (TokenUsageCheck(maxTotal, ctx).value.passed <==> 0 <= maxTotal)
  {
  }

  /** A usage total exactly at the ceiling passes; one above it fails. */
  lemma TokenBoundary(maxTotal: int, t: TurnResult, n: int)
    requires t.tokenUsage == Some([("total_tokens", Int(n))])
    ensures n == maxTotal ==> TokenUsageCheck(maxTotal, Context([t], 0)).value.passed
    ensures n > maxTotal ==> !TokenUsageCheck(maxTotal, Context([t], 0)).value.passed
  {
  }
}

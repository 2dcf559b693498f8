/** The evaluation context every assertion receives, and its rendering of the
    conversation so far as text. */
module AssertionBase {
  import opened Text
  import opened Schema

  /** `AssertionContext`: the turns so far (the current one included) and the
      index of the current turn. A default context has no history and index 0. */
  datatype Context = Context(history: seq<TurnResult>, turnIndex: int)

  const DefaultContext: Context := Context([], 0)

  const UserPrefix: string := "用户: "
  const BotPrefix: string := "AI: "

  /** The two lines each turn contributes, turn after turn. */
  function HistoryLines(history: seq<TurnResult>): (lines: seq<string>)
    ensures |lines| == 2 * |history|
    ensures forall i :: 0 <= i < |history| ==>
      lines[2 * i] == UserPrefix + history[i].userMessage && lines[2 * i + 1] == BotPrefix + history[i].botResponse
  {
    if history == [] then []
    else
      var t := history[|history| - 1];
      HistoryLines(history[..|history| - 1]) + [UserPrefix + t.userMessage, BotPrefix + t.botResponse]
  }

  /** The formatted history: the lines joined by newlines. */
  function HistoryText(history: seq<TurnResult>): string {
    Join(HistoryLines(history), "\n")
  }

  /** `AssertionContext.format_history`. */
  method FormatHistory(ctx: Context) returns (text: string)
    ensures text == HistoryText(ctx.history)
  {
    var lines: seq<string> := [];
    var i := 0;
    while i < |ctx.history|
      invariant 0 <= i <= |ctx.history|
      invariant lines == HistoryLines(ctx.history[..i])
    {
      var turn := ctx.history[i];
      assert ctx.history[..i + 1][..i] == ctx.history[..i];
      lines := lines + [UserPrefix + turn.userMessage];
      lines := lines + [BotPrefix + turn.botResponse];
      i := i + 1;
    }
    assert ctx.history[..i] == ctx.history;
    text := Join(lines, "\n");
  }

  lemma {:induction false} JoinAppend(parts: seq<string>, sep: string, x: string)
    requires parts != []
    ensures Join(parts + [x], sep) == Join(parts, sep) + sep + x
  {
    if |parts| > 1 {
      assert (parts + [x])[1..] == parts[1..] + [x];
      JoinAppend(parts[1..], sep, x);
    }
  }

  lemma {:induction false} JoinFirst(parts: seq<string>, sep: string)
    requires parts != [] && parts[0] != []
    ensures Join(parts, sep) != [] && Join(parts, sep)[0] == parts[0][0]
  {
    if |parts| > 1 {
      assert Join(parts, sep) == parts[0] + sep + Join(parts[1..], sep);
    }
  }

  /** The formatted history is empty exactly when there is no history: the LLM
      judges use their placeholder text only then. */
  lemma HistoryTextEmpty(history: seq<TurnResult>)
    ensures HistoryText(history) == [] <==> history == []
  {
    if history != [] {
      var lines := HistoryLines(history);
      assert lines[0] == UserPrefix + history[0].userMessage;
      JoinFirst(lines, "\n");
    }
  }

  /** One more turn appends exactly its two lines, each after a newline: the lines
      keep history order and the text has no trailing newline. */
  lemma HistoryTextAppend(history: seq<TurnResult>, t: TurnResult)
    ensures HistoryText(history + [t]) ==
      if history == [] then UserPrefix + t.userMessage + "\n" + BotPrefix + t.botResponse
      else HistoryText(history) + "\n" + UserPrefix + t.userMessage + "\n" + BotPrefix + t.botResponse
  {
    var h := history + [t];
    assert h[..|h| - 1] == history;
    var lines := HistoryLines(history);
    var u, b := UserPrefix + t.userMessage, BotPrefix + t.botResponse;
    assert HistoryLines(h) == lines + [u] + [b];
    if history == [] {
      assert HistoryLines(h) == [u, b];
      assert HistoryLines(h)[1..] == [b];
    } else {
      assert lines != [];
      JoinAppend(lines, "\n", u);
      JoinAppend(lines + [u], "\n", b);
    }
  }

  const NoContext: string := "(无上下文，首轮对话)"

  /** The conversation section of the prompt: the formatted history, or the
      first-turn placeholder when there is none. */
  function ConversationContext(ctx: Context): (c: string)
    ensures ctx.history == [] ==> c == NoContext
    ensures ctx.history != [] ==> c == HistoryText(ctx.history)
  {
    HistoryTextEmpty(ctx.history);
    var h := HistoryText(ctx.history);
    if h == [] then NoContext else h
  }

  /** On the first turn the prompt holds the placeholder; later it holds the
      formatted history, which the placeholder can never be mistaken for. */
  lemma ContextPlaceholder(ctx: Context)
    ensures ConversationContext(ctx) == NoContext <==> ctx.history == []
  {
    if ctx.history != [] {
      var lines := HistoryLines(ctx.history);
      assert lines[0] == UserPrefix + ctx.history[0].userMessage;
      JoinFirst(lines, "\n");
      assert HistoryText(ctx.history)[0] == UserPrefix[0];
      assert NoContext[0] == '(';
    }
  }
}

/** The string checks: `contains`, `not_contains`, `regex` and `equals`. Each
    reads only the response text and its own configured field. */
module StringMatch {
  import opened Wrappers
  import opened Text
  import opened Seqs
  import opened Values
  import opened Schema

  // ----- contains -----

  /** `ContainsAssertion.evaluate`. */
  function ContainsCheck(value: string, response: string): (r: AssertionResult)
    ensures r.passed <==> Contains(response, value)
    ensures r.assertionType == "contains" && r.expected == Str(value)
    ensures r.actual == Str(if r.passed then "found" else "not found")
    ensures r.score.None? && r.dimension.None?
  {
    var found := Contains(response, value);
    Outcome(found, "contains",
      Str((if found then "包含" else "未包含") + " \"" + value + "\""),
      Str(value),
      Str(if found then "found" else "not found"))
  }

  /** A response that contains the value still does with text around it. */
  lemma ContainsExtends(value: string, pre: string, response: string, post: string)
    requires ContainsCheck(value, response).passed
    ensures ContainsCheck(value, pre + response + post).passed
  {
    var i :| 0 <= i <= |response| && OccursAt(response, value, i);
    var t := pre + response + post;
    assert t[|pre| + i..|pre| + i + |value|] == response[i..i + |value|];
    assert OccursAt(t, value, |pre| + i);
  }

  /** The empty value is in every response. */
  lemma ContainsEmpty(response: string)
    ensures ContainsCheck("", response).passed
  {
    assert OccursAt(response, "", 0);
  }

  // ----- not_contains -----

  /** The configured values that occur in the response, in configured order
      (`Seqs.FilterAppend` gives the order, duplicates included). */
  function FoundValues(values: seq<string>, response: string): seq<string> {
    Filter(values, (v: string) => Contains(response, v))
  }

  /** `NotContainsAssertion.evaluate`. */
  function NotContainsCheck(values: seq<string>, response: string): (r: AssertionResult)
    ensures r.passed <==> forall v :: v in values ==> !Contains(response, v)
    ensures r.assertionType == "not_contains"
    ensures r.expected == Fmt([Str("不包含 "), List(Strs(values))])
    ensures r.passed ==> r.actual == Str("未发现")
    ensures !r.passed ==> r.actual == Fmt([Str("发现 "), List(Strs(FoundValues(values, response)))])
    ensures r.score.None? && r.dimension.None?
  {
    var found := FoundValues(values, response);
    var passed := |found| == 0;
    assert !passed ==> found[0] in found;
    Outcome(passed, "not_contains",
      if passed then Str("通过: 未发现禁止词") else Fmt([Str("失败: 发现禁止词 "), List(Strs(found))]),
      Fmt([Str("不包含 "), List(Strs(values))]),
      if found != [] then Fmt([Str("发现 "), List(Strs(found))]) else Str("未发现"))
  }

  /** A single forbidden word is the negation of `contains` on it. */
  lemma NotContainsDual(v: string, response: string)
    ensures NotContainsCheck([v], response).passed <==> !ContainsCheck(v, response).passed
  {
  }

  /** Adding forbidden words can only turn a pass into a failure. */
  lemma NotContainsMonotone(values: seq<string>, more: seq<string>, response: string)
    requires NotContainsCheck(values + more, response).passed
    ensures NotContainsCheck(values, response).passed
  {
    forall v | v in values ensures !Contains(response, v) {
      assert v in values + more;
    }
  }

  // ----- regex -----

  /** The regex engine: `re.search(pattern, text)` yields the text of the
      leftmost match, no match, or an error for a malformed pattern. */
  type Search = (string, string) -> Result<Option<string>>

  /** An engine whose matches are pieces of the searched text. */
  ghost predicate SoundSearch(search: Search) {
    forall pattern, text :: search(pattern, text).Ok? && search(pattern, text).value.Some? ==>
      Contains(text, search(pattern, text).value.value)
  }

  /** `RegexAssertion.evaluate`; a malformed pattern raises out of it. */
  function RegexCheck(search: Search, pattern: string, response: string): (r: Result<AssertionResult>)
    ensures r.Err? <==> search(pattern, response).Err?
    ensures r.Ok? ==> (r.value.passed <==> search(pattern, response).value.Some?)
    ensures r.Ok? ==> r.value.assertionType == "regex" && r.value.expected == Str(pattern)
    ensures r.Ok? && !r.value.passed ==> r.value.actual == Str("no match")
    ensures r.Ok? && r.value.passed ==> r.value.actual == Str(search(pattern, response).value.value)
  {
    match search(pattern, response)
    case Err(e) => Err(e)
    case Ok(m) =>
      var passed := m.Some?;
      Ok(Outcome(passed, "regex",
        Str((if passed then "匹配" else "未匹配") + " /" + pattern + "/"),
        Str(pattern),
        Str(if passed then m.value else "no match")))
  }

  /** With a sound engine, a passing regex check reports text that is in the response. */
  lemma RegexActualInResponse(search: Search, pattern: string, response: string)
    requires SoundSearch(search)
    requires RegexCheck(search, pattern, response).Ok? && RegexCheck(search, pattern, response).value.passed
    ensures Contains(response, RegexCheck(search, pattern, response).value.actual.s)
  {
  }

  // ----- equals -----

  const ActualLimit: nat := 200

  /** `EqualsAssertion.evaluate`. */
  function EqualsCheck(value: string, response: string): (r: AssertionResult)
    ensures r.passed <==> Strip(response) == Strip(value)
    ensures r.assertionType == "equals" && r.expected == Str(value)
    ensures r.actual.Str? && r.actual.s <= response && |r.actual.s| == if |response| < ActualLimit then |response| else ActualLimit
  {
    var passed := Strip(response) == Strip(value);
    Outcome(passed, "equals", Str(if passed then "完全匹配" else "不匹配"), Str(value), Str(Take(response, ActualLimit)))
  }

  /** Surrounding whitespace on either side never changes the verdict. */
  lemma EqualsIgnoresPadding(value: string, response: string, p: string, q: string)
    requires AllSpaces(p) && AllSpaces(q)
    ensures EqualsCheck(value, p + response + q).passed == EqualsCheck(value, response).passed
    ensures EqualsCheck(p + value + q, response).passed == EqualsCheck(value, response).passed
  {
    StripPadding(p, response, q);
    StripPadding(p, value, q);
  }

  /** Every text equals itself and its own stripped form. */
  lemma EqualsReflexive(value: string)
    ensures EqualsCheck(value, value).passed
    ensures EqualsCheck(value, Strip(value)).passed
  {
    StripIdempotent(value);
  }
}

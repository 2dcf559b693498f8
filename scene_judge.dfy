/** The `scene_judge` check: selected behaviours of a golden scene are scored one
    by one by the judge and combined into a weighted average. */
module SceneJudge {
  import opened Wrappers
  import opened Text
  import opened Values
  import opened Seqs
  import opened Schema
  import opened AssertionBase
  import opened JudgeParser
  import opened LLMJudge

  const DefaultThreshold: real := 0.7

  // ----- selection -----

  /** The behaviours to score: those whose id is listed, in scene order, when a
      non-empty id list is given; all of them otherwise. */
  function Selected(behaviors: seq<BehaviorSpec>, ids: Option<seq<string>>): seq<BehaviorSpec> {
    if ids.Some? && ids.value != [] then Filter(behaviors, (b: BehaviorSpec) => b.id in ids.value) else behaviors
  }

  /** A behaviour is selected exactly when it is in the scene and, if a filter is
      given, its id is listed; the selection keeps scene order. */
  lemma SelectedMembers(behaviors: seq<BehaviorSpec>, ids: Option<seq<string>>, b: BehaviorSpec)
    ensures b in Selected(behaviors, ids) <==> b in behaviors && (ids.None? || ids.value == [] || b.id in ids.value)
    ensures ids.Some? && ids.value != [] ==>
      Selected(behaviors + [b], ids) == Selected(behaviors, ids) + (if b.id in ids.value then [b] else [])
  {
    if ids.Some? && ids.value != [] {
      FilterAppend(behaviors, b, (b: BehaviorSpec) => b.id in ids.value);
    }
  }

  // ----- the behaviour list of the prompt -----

  /** Python's `str(x)` for a float: its shortest round-trip text, which the
      model takes as given. */
  type FloatRepr = real -> string

  function Header(i: nat, b: BehaviorSpec, floatStr: FloatRepr): string {
    NatStr(i) + ". [" + b.id + "] " + b.name + " (权重 " + floatStr(b.weight) + ")"
  }

  /** A bad example is shown only when it is present and non-empty. */
  predicate HasBad(b: BehaviorSpec) {
    b.badExample.Some? && b.badExample.value != []
  }

  /** The lines of the `i`-th behaviour, closed by an empty line. */
  function Block(i: nat, b: BehaviorSpec, floatStr: FloatRepr): (lines: seq<string>)
    ensures |lines| == if HasBad(b) then 5 else 4
    ensures lines[0] == Header(i, b, floatStr) && lines[|lines| - 1] == ""
    ensures HasBad(b) ==> lines[3] == "   反面对照: \"" + b.badExample.value + "\""
  {
    [Header(i, b, floatStr), "   说明: " + b.description, "   优秀示范: \"" + b.goodExample + "\""]
    + (if HasBad(b) then ["   反面对照: \"" + b.badExample.value + "\""] else [])
    + [""]
  }

  /** All blocks, numbered from 1 in list order. */
  function BehaviorLines(bs: seq<BehaviorSpec>, floatStr: FloatRepr): seq<string> {
    if bs == [] then [] else BehaviorLines(bs[..|bs| - 1], floatStr) + Block(|bs|, bs[|bs| - 1], floatStr)
  }

  function BehaviorsText(bs: seq<BehaviorSpec>, floatStr: FloatRepr): string {
    Join(BehaviorLines(bs, floatStr), "\n")
  }

  /** `SceneJudgeAssertion._format_behaviors`. */
  method FormatBehaviors(bs: seq<BehaviorSpec>, floatStr: FloatRepr) returns (text: string)
    ensures text == BehaviorsText(bs, floatStr)
  {
    var lines: seq<string> := [];
    var i := 0;
    while i < |bs|
      invariant 0 <= i <= |bs|
      invariant lines == BehaviorLines(bs[..i], floatStr)
    {
      var b := bs[i];
      assert bs[..i + 1][..i] == bs[..i];
      lines := lines + [Header(i + 1, b, floatStr)];
      lines := lines + ["   说明: " + b.description];
      lines := lines + ["   优秀示范: \"" + b.goodExample + "\""];
      if b.badExample.Some? && b.badExample.value != [] {
        lines := lines + ["   反面对照: \"" + b.badExample.value + "\""];
      }
      lines := lines + [""];
      i := i + 1;
    }
    assert bs[..i] == bs;
    text := Join(lines, "\n");
  }

  /** Four lines per behaviour, and one more for each that has a bad example. */
  lemma {:induction false} BehaviorLinesCount(bs: seq<BehaviorSpec>, floatStr: FloatRepr)
    ensures |BehaviorLines(bs, floatStr)| == 4 * |bs| + |Filter(bs, HasBad)|
  {
    if bs != [] {
      var init := bs[..|bs| - 1];
      assert bs == init + [bs[|bs| - 1]];
      BehaviorLinesCount(init, floatStr);
      FilterAppend(init, bs[|bs| - 1], HasBad);
    }
  }

  /** The lines of a prefix of the behaviours begin the lines of all of them. */
  lemma {:induction false} BehaviorLinesPrefix(bs: seq<BehaviorSpec>, k: nat, floatStr: FloatRepr)
    requires k <= |bs|
    ensures BehaviorLines(bs[..k], floatStr) <= BehaviorLines(bs, floatStr)
  {
    if k < |bs| {
      var init := bs[..|bs| - 1];
      assert init[..k] == bs[..k];
      BehaviorLinesPrefix(init, k, floatStr);
    } else {
      assert bs[..k] == bs;
    }
  }

  /** Behaviour `k` (from 0) is announced by a header numbered `k + 1`, right
      after the lines of the behaviours before it. */
  lemma HeaderAt(bs: seq<BehaviorSpec>, k: nat, floatStr: FloatRepr)
    requires k < |bs|
    ensures var at := |BehaviorLines(bs[..k], floatStr)|;
      at < |BehaviorLines(bs, floatStr)| && BehaviorLines(bs, floatStr)[at] == Header(k + 1, bs[k], floatStr)
  {
    var pre := bs[..k + 1];
    assert pre[..k] == bs[..k];
    BehaviorLinesPrefix(bs, k + 1, floatStr);
    assert BehaviorLines(pre, floatStr)[|BehaviorLines(bs[..k], floatStr)|] == Header(k + 1, bs[k], floatStr);
  }

  // ----- reading the per-behaviour scores -----

  /** The `"behaviors"` entry of a decoded object; any other value gives nothing
      (its lookup fails with an error the parser catches). */
  function BehaviorsIn(data: Value): (r: Option<Value>)
    ensures r.Some? <==> data.Dict? && "behaviors" in Keys(data.entries)
  {
    if data.Dict? then Get(data.entries, "behaviors") else None
  }

  function DecodedBehaviors(loads: Loads, text: string): Option<Value> {
    match loads(text)
    case None => None
    case Some(data) => BehaviorsIn(data)
  }

  function FencedBehaviors(loads: Loads, raw: string): Option<Value> {
    match FencedJson(raw)
    case None => None
    case Some(block) => DecodedBehaviors(loads, block)
  }

  const FallbackReasoning: string := "解析失败，使用总分"
  const DefaultFallback: real := 0.5

  /** The score every behaviour gets when no list can be read: the scanned
      `"overall"` number, or 0.5; a scanned text `float()` rejects raises. */
  function FallbackScore(raw: string): (r: Result<real>)
    ensures NumberScan(raw, "overall").None? ==> r == Ok(DefaultFallback)
    ensures NumberScan(raw, "overall").Some? ==>
      (r.Ok? <==> IsDecimal(NumberScan(raw, "overall").value))
  {
    match NumberScan(raw, "overall")
    case None => Ok(DefaultFallback)
    case Some(num) => ToFloat(Str(num))
  }

  function FallbackEntry(b: BehaviorSpec, score: real): Value {
    Dict([("id", Str(b.id)), ("score", Float(score)), ("reasoning", Str(FallbackReasoning))])
  }

  /** One entry per behaviour, in order, all with the same score. */
  function FallbackScores(bs: seq<BehaviorSpec>, score: real): (r: seq<Value>)
    ensures |r| == |bs| && forall i :: 0 <= i < |bs| ==> r[i] == FallbackEntry(bs[i], score)
  {
    seq(|bs|, i requires 0 <= i < |bs| => FallbackEntry(bs[i], score))
  }

  /** `SceneJudgeAssertion._parse_behavior_scores`: the whole text, then the
      first fenced block, then the uniform fallback. */
  function ParseBehaviorScores(loads: Loads, raw: string, bs: seq<BehaviorSpec>): (r: Result<Value>)
    ensures DecodedBehaviors(loads, raw).Some? ==> r == Ok(DecodedBehaviors(loads, raw).value)
    ensures DecodedBehaviors(loads, raw).None? && FencedBehaviors(loads, raw).Some? ==>
      r == Ok(FencedBehaviors(loads, raw).value)
    ensures DecodedBehaviors(loads, raw).None? && FencedBehaviors(loads, raw).None? ==>
      (r.Ok? <==> FallbackScore(raw).Ok?) && (r.Ok? ==> r.value == List(FallbackScores(bs, FallbackScore(raw).value)))
  {
    match DecodedBehaviors(loads, raw)
    case Some(v) => Ok(v)
    case None =>
      match FencedBehaviors(loads, raw)
      case Some(v) => Ok(v)
      case None =>
        var score :- FallbackScore(raw);
        Ok(List(FallbackScores(bs, score)))
  }

  /** Without a readable list or an `"overall"` number, every selected
      behaviour is scored 0.5, in order, whatever the reply. */
  lemma DefaultFallbackScores(loads: Loads, raw: string, bs: seq<BehaviorSpec>)
    requires DecodedBehaviors(loads, raw).None? && FencedBehaviors(loads, raw).None?
    requires NumberScan(raw, "overall").None?
    ensures var r := ParseBehaviorScores(loads, raw, bs);
      r.Ok? && r.value.List? && |r.value.items| == |bs|
      && forall i :: 0 <= i < |bs| ==> r.value.items[i] == FallbackEntry(bs[i], DefaultFallback)
  {
  }

  /** The list is never invented when the reply carries one, and the fallback
      raises rather than defaults on a malformed `"overall"`. */
  lemma MalformedOverallRaises(loads: Loads, raw: string, bs: seq<BehaviorSpec>, num: string)
    requires DecodedBehaviors(loads, raw).None? && FencedBehaviors(loads, raw).None?
    requires NumberScan(raw, "overall") == Some(num) && !IsDecimal(num)
    ensures ParseBehaviorScores(loads, raw, bs) == Err("could not convert string to float: " + num)
  {
  }

  // ----- the weighted average -----

  /** The id-to-weight dict, as its insertion-ordered entries. */
  type Weights = seq<(string, real)>

  function WeightKeys(d: Weights): (ks: seq<string>)
    ensures |ks| == |d| && forall i :: 0 <= i < |d| ==> ks[i] == d[i].0
  {
    seq(|d|, i requires 0 <= i < |d| => d[i].0)
  }

  /** Where key `k` sits in `d`: its first entry. */
  function KeyIndex(d: Weights, k: string): (j: nat)
    requires k in WeightKeys(d)
    ensures j < |d| && d[j].0 == k
    ensures forall i :: 0 <= i < j ==> d[i].0 != k
  {
    if d[0].0 == k then 0
    else
      assert k in WeightKeys(d[1..]) by {
        var i :| 0 <= i < |d| && WeightKeys(d)[i] == k;
        assert WeightKeys(d[1..])[i - 1] == k;
      }
      1 + KeyIndex(d[1..], k)
  }

  /** `d[k] = w`: an existing key keeps its place and only its weight changes
      (see `PutExisting`), a new one goes last. */
  function Put(d: Weights, k: string, w: real): (r: Weights)
    ensures k !in WeightKeys(d) ==> r == d + [(k, w)]
    ensures |r| == if k in WeightKeys(d) then |d| else |d| + 1
  {
    if d == [] then [(k, w)]
    else if d[0].0 == k then [(k, w)] + d[1..]
    else
      assert k in WeightKeys(d) <==> k in WeightKeys(d[1..]);
      [d[0]] + Put(d[1..], k, w)
  }

  /** Assigning an existing key replaces its first entry in place: the keys
      and their order stay, and every other entry is untouched. */
  lemma {:induction false} PutExisting(d: Weights, k: string, w: real)
    requires k in WeightKeys(d)
    ensures Put(d, k, w) == d[KeyIndex(d, k) := (k, w)]
    ensures WeightKeys(Put(d, k, w)) == WeightKeys(d)
  {
    var j := KeyIndex(d, k);
    if d[0].0 == k {
      assert [(k, w)] + d[1..] == d[0 := (k, w)];
    } else {
      var t := d[1..];
      PutIndexStep(d, k, w);
      PutExisting(t, k, w);
      UpdateAfterHead(d, j, (k, w));
    }
    KeysAfterUpdate(d, j, k, w);
  }

  lemma PutIndexStep(d: Weights, k: string, w: real)
    requires k in WeightKeys(d) && d[0].0 != k
    ensures k in WeightKeys(d[1..]) && KeyIndex(d[1..], k) == KeyIndex(d, k) - 1
    ensures Put(d, k, w) == [d[0]] + Put(d[1..], k, w)
  {
  }

  lemma UpdateAfterHead(d: Weights, j: nat, e: (string, real))
    requires 0 < j < |d|
    ensures [d[0]] + d[1..][j - 1 := e] == d[j := e]
  {
  }

  lemma KeysAfterUpdate(d: Weights, j: nat, k: string, w: real)
    requires j < |d| && d[j].0 == k
    ensures WeightKeys(d[j := (k, w)]) == WeightKeys(d)
  {
  }

  /** `d.get(k)`. */
  function Lookup(d: Weights, k: string): (r: Option<real>)
    ensures r.Some? <==> k in WeightKeys(d)
  {
    if d == [] then None else if d[0].0 == k then Some(d[0].1) else Lookup(d[1..], k)
  }

  lemma {:induction false} PutLookup(d: Weights, k: string, w: real, j: string)
    ensures Lookup(Put(d, k, w), j) == if j == k then Some(w) else Lookup(d, j)
  {
    if d != [] && d[0].0 != k {
      PutLookup(d[1..], k, w, j);
    }
  }

  /** `{b.id: b.weight for b in behaviors}`: the last weight of an id wins. */
  function WeightMap(bs: seq<BehaviorSpec>): Weights {
    if bs == [] then [] else Put(WeightMap(bs[..|bs| - 1]), bs[|bs| - 1].id, bs[|bs| - 1].weight)
  }

  /** `sum(weight_map.values())`. */
  function WeightSum(d: Weights): real {
    if d == [] then 0.0 else WeightSum(d[..|d| - 1]) + d[|d| - 1].1
  }

  function SumWeights(bs: seq<BehaviorSpec>): real {
    if bs == [] then 0.0 else SumWeights(bs[..|bs| - 1]) + bs[|bs| - 1].weight
  }

  predicate DistinctIds(bs: seq<BehaviorSpec>) {
    forall i, j :: 0 <= i < j < |bs| ==> bs[i].id != bs[j].id
  }

  /** The id of the last behaviour wins the lookup; ids not in the list are absent. */
  lemma WeightMapLast(bs: seq<BehaviorSpec>, b: BehaviorSpec, k: string)
    ensures Lookup(WeightMap(bs + [b]), k) == if k == b.id then Some(b.weight) else Lookup(WeightMap(bs), k)
  {
    assert (bs + [b])[..|bs + [b]| - 1] == bs;
    PutLookup(WeightMap(bs), b.id, b.weight, k);
  }

  /** With distinct ids the dict lists every behaviour once, in order, and its
      total is the plain sum of the weights. */
  lemma {:induction false} WeightMapDistinct(bs: seq<BehaviorSpec>)
    requires DistinctIds(bs)
    ensures WeightMap(bs) == seq(|bs|, i requires 0 <= i < |bs| => (bs[i].id, bs[i].weight))
    ensures WeightSum(WeightMap(bs)) == SumWeights(bs)
  {
    if bs != [] {
      var init := bs[..|bs| - 1];
      var b := bs[|bs| - 1];
      assert DistinctIds(init);
      WeightMapDistinct(init);
      var d := WeightMap(init);
      LastIdFresh(bs);
      assert WeightMap(bs) == d + [(b.id, b.weight)];
      PairsAppend(bs);
      WeightSumAppend(d, (b.id, b.weight));
    }
  }

  lemma PairsAppend(bs: seq<BehaviorSpec>)
    requires |bs| > 0
    ensures seq(|bs|, i requires 0 <= i < |bs| => (bs[i].id, bs[i].weight))
      == seq(|bs| - 1, i requires 0 <= i < |bs| - 1 => (bs[i].id, bs[i].weight)) + [(bs[|bs| - 1].id, bs[|bs| - 1].weight)]
  {
  }

  lemma WeightSumAppend(d: Weights, e: (string, real))
    ensures WeightSum(d + [e]) == WeightSum(d) + e.1
  {
    assert (d + [e])[..|d|] == d;
  }

  lemma LastIdFresh(bs: seq<BehaviorSpec>)
    requires |bs| > 0 && DistinctIds(bs)
    requires WeightMap(bs[..|bs| - 1]) == seq(|bs| - 1, i requires 0 <= i < |bs| - 1 => (bs[i].id, bs[i].weight))
    ensures bs[|bs| - 1].id !in WeightKeys(WeightMap(bs[..|bs| - 1]))
  {
    var d := WeightMap(bs[..|bs| - 1]);
    forall i | 0 <= i < |d| ensures WeightKeys(d)[i] != bs[|bs| - 1].id {
      assert bs[i].id != bs[|bs| - 1].id;
    }
  }

  /** What `bs.get(...)` raises on a value that is not a dict. */
  function NoGet(v: Value): string {
    "'" + TypeName(v) + "' object has no attribute 'get'"
  }

  /** `[bs.get("score", 0) for bs in behavior_scores]`. */
  function ScoresOf(items: seq<Value>): (r: Result<seq<Value>>)
    ensures r.Ok? ==> |r.value| == |items|
  {
    if items == [] then Ok([])
    else if !items[0].Dict? then Err(NoGet(items[0]))
    else
      var rest :- ScoresOf(items[1..]);
      Ok([GetOr(items[0].entries, "score", Int(0))] + rest)
  }

  /** The message Python's `+` raises when the running total of `sum` (a
      float once a float was added, an int before) meets a value it cannot add. */
  function AddError(totalIsFloat: bool, v: Value): string {
    "unsupported operand type(s) for +: '" + (if totalIsFloat then "float" else "int") + "' and '" + TypeName(v) + "'"
  }

  /** The arithmetic sum of values that are all numbers. */
  function Total(vs: seq<Value>): real
    requires forall i :: 0 <= i < |vs| ==> Number(vs[i]).Some?
  {
    if vs == [] then 0.0 else Number(vs[0]).value + Total(vs[1..])
  }

  /** Some value before position `k` is a float. */
  predicate FloatBefore(vs: seq<Value>, k: nat) {
    exists j :: 0 <= j < k && j < |vs| && vs[j].Float?
  }

  /** `sum`'s loop over `vs` from the running total `acc`, a float when
      `isFloat`: it stops at the first value that is not a number. */
  function SumFrom(vs: seq<Value>, acc: real, isFloat: bool): (r: Result<real>)
    ensures r.Ok? <==> forall i :: 0 <= i < |vs| ==> Number(vs[i]).Some?
    ensures r.Ok? ==> r.value == acc + Total(vs)
  {
    if vs == [] then Ok(acc)
    else
      match Number(vs[0])
      case None => Err(AddError(isFloat, vs[0]))
      case Some(x) =>
        var r := SumFrom(vs[1..], acc + x, isFloat || vs[0].Float?);
        assert forall i :: 1 <= i < |vs| ==> vs[i] == vs[1..][i - 1];
        r
  }

  /** `sum(scores)`, which starts from the int 0. */
  function NumberSum(vs: seq<Value>): (r: Result<real>)
    ensures r.Ok? <==> forall i :: 0 <= i < |vs| ==> Number(vs[i]).Some?
    ensures r.Ok? ==> r.value == Total(vs)
  {
    SumFrom(vs, 0.0, false)
  }

  lemma FloatBeforeStep(vs: seq<Value>, k: nat)
    requires 0 < k <= |vs|
    ensures FloatBefore(vs, k) <==> vs[0].Float? || FloatBefore(vs[1..], k - 1)
  {
    if FloatBefore(vs, k) && !vs[0].Float? {
      var j :| 0 <= j < k && j < |vs| && vs[j].Float?;
      assert vs[1..][j - 1].Float?;
    }
    if FloatBefore(vs[1..], k - 1) {
      var j :| 0 <= j < k - 1 && j < |vs[1..]| && vs[1..][j].Float?;
      assert vs[j + 1].Float?;
    }
  }

  /** The first value that is not a number stops the loop, and the message
      names the running total's type: `float` when a float came before it (or
      the total started as one), `int` otherwise. */
  lemma {:induction false} SumFromFirstBad(vs: seq<Value>, acc: real, isFloat: bool, k: nat)
    requires k < |vs| && Number(vs[k]).None?
    requires forall j :: 0 <= j < k ==> Number(vs[j]).Some?
    ensures SumFrom(vs, acc, isFloat) == Err(AddError(isFloat || FloatBefore(vs, k), vs[k]))
    decreases k
  {
    if k == 0 {
      assert !FloatBefore(vs, 0);
    } else {
      var x := Number(vs[0]).value;
      assert forall j :: 0 <= j < k - 1 ==> vs[1..][j] == vs[j + 1];
      SumFromFirstBad(vs[1..], acc + x, isFloat || vs[0].Float?, k - 1);
      FloatBeforeStep(vs, k);
    }
  }

  /** `sum(scores)` raises at the first score that is not a number. */
  lemma NumberSumFirstBad(vs: seq<Value>, k: nat)
    requires k < |vs| && Number(vs[k]).None?
    requires forall j :: 0 <= j < k ==> Number(vs[j]).Some?
    ensures NumberSum(vs) == Err(AddError(FloatBefore(vs, k), vs[k]))
  {
    SumFromFirstBad(vs, 0.0, false, k);
  }

  /** A string met first is added to the int total 0. */
  lemma StrMeetsIntTotal()
    ensures NumberSum([Str("x"), Int(1)]) == Err("unsupported operand type(s) for +: 'int' and 'str'")
  {
    NumberSumFirstBad([Str("x"), Int(1)], 0);
  }

  /** After a float the total is a float, and the loop stops at the string
      before it reaches the `None`. */
  lemma StrMeetsFloatTotal()
    ensures NumberSum([Float(0.5), Str("x"), Null]) == Err("unsupported operand type(s) for +: 'float' and 'str'")
  {
    var vs := [Float(0.5), Str("x"), Null];
    assert vs[0].Float?;
    NumberSumFirstBad(vs, 1);
  }

  /** The equal-weight branch: the mean of the scores, 0 when there are none. */
  function PlainMean(items: seq<Value>): (r: Result<real>) {
    var scores :- ScoresOf(items);
    if scores == [] then Ok(0.0)
    else
      var s :- NumberSum(scores);
      Ok(s / |scores| as real)
  }

  /** The weight of a string id: its entry, or 0 when it has none. */
  function Weight(d: Weights, id: string): (w: real)
    ensures id in WeightKeys(d) ==> Some(w) == Lookup(d, id)
    ensures id !in WeightKeys(d) ==> w == 0.0
  {
    match Lookup(d, id)
    case Some(w) => w
    case None => 0.0
  }

  /** `weight_map.get(bid, 0)`: a string id is looked up, an unhashable one
      raises, any other hashable id matches no key. */
  function IdWeight(d: Weights, bid: Value): (r: Result<real>)
    ensures bid.Str? ==> r == Ok(Weight(d, bid.s))
  {
    match bid
    case Str(s) => Ok(Weight(d, s))
    case List(_) => Err("unhashable type: 'list'")
    case Dict(_) => Err("unhashable type: 'dict'")
    case Fmt(_) => Err("an f-string is looked up as text, which the model does not do")
    case _ => Ok(0.0)
  }

  /** `float(bs.get("score", 0))` for an entry's fields. */
  function EntryScore(e: Entries): Result<real> {
    ToFloat(GetOr(e, "score", Int(0)))
  }

  /** `weight_map.get(bs.get("id", ""), 0)` for an entry's fields. */
  function EntryWeight(d: Weights, e: Entries): Result<real> {
    IdWeight(d, GetOr(e, "id", Str("")))
  }

  /** The product of a score and a weight, or the first of their errors. */
  function Scaled(score: Result<real>, weight: Result<real>): Result<real> {
    match score
    case Err(e) => Err(e)
    case Ok(x) =>
      match weight
      case Err(e) => Err(e)
      case Ok(w) => Ok(x * w)
  }

  /** One step of the weighted loop: the entry's score times its id's weight. */
  function ItemTerm(d: Weights, item: Value): Result<real> {
    if !item.Dict? then Err(NoGet(item))
    else Scaled(EntryScore(item.entries), EntryWeight(d, item.entries))
  }

  /** `weighted_sum += term`, where a raised error stops the loop. */
  function AddTerm(acc: Result<real>, term: Result<real>): Result<real> {
    match acc
    case Err(e) => Err(e)
    case Ok(s) =>
      match term
      case Err(e) => Err(e)
      case Ok(x) => Ok(s + x)
  }

  /** What one entry contributes to a running sum. */
  type Term = Value -> Result<real>

  /** The sum of the entries' terms, or the first error met. */
  function TermSum(items: seq<Value>, term: Term): Result<real> {
    if items == [] then Ok(0.0)
    else AddTerm(TermSum(items[..|items| - 1], term), term(items[|items| - 1]))
  }

  function EntryTerm(d: Weights): Term {
    (item: Value) => ItemTerm(d, item)
  }

  /** The weighted sum of the entries, or the first error met. */
  function WeightedScoreSum(d: Weights, items: seq<Value>): Result<real> {
    TermSum(items, EntryTerm(d))
  }

  /** `SceneJudgeAssertion._weighted_average` as a value. */
  function WeightedAverageOf(scores: Value, bs: seq<BehaviorSpec>): Result<real> {
    var d := WeightMap(bs);
    var total := WeightSum(d);
    var items :- Iterate(scores);
    if total == 0.0 then PlainMean(items)
    else
      var s :- WeightedScoreSum(d, items);
      Ok(s / total)
  }

  /** Once an entry raises, the later entries are never reached. */
  lemma {:induction false} ErrorStops(items: seq<Value>, term: Term, k: nat)
    requires k <= |items| && TermSum(items[..k], term).Err?
    ensures TermSum(items, term) == TermSum(items[..k], term)
  {
    if k < |items| {
      var init := items[..|items| - 1];
      assert init[..k] == items[..k];
      ErrorStops(init, term, k);
    } else {
      assert items[..k] == items;
    }
  }

  /** The loop of `SceneJudgeAssertion._weighted_average`: the running sum,
      stopping at the first entry that raises. */
  method SumLoop(items: seq<Value>, term: Term) returns (r: Result<real>)
    ensures r == TermSum(items, term)
  {
    var sum := 0.0;
    var i := 0;
    while i < |items|
      invariant 0 <= i <= |items|
      invariant TermSum(items[..i], term) == Ok(sum)
    {
      var t := term(items[i]);
      assert items[..i + 1][..i] == items[..i];
      if t.Err? {
        ErrorStops(items, term, i + 1);
        return Err(t.error);
      }
      sum := sum + t.value;
      i := i + 1;
    }
    assert items[..i] == items;
    r := Ok(sum);
  }

  /** `SceneJudgeAssertion._weighted_average`. */
  method WeightedAverage(scores: Value, bs: seq<BehaviorSpec>) returns (r: Result<real>)
    ensures r == WeightedAverageOf(scores, bs)
  {
    var d := WeightMap(bs);
    var total := WeightSum(d);
    var items :- Iterate(scores);
    if total == 0.0 {
      return PlainMean(items);
    }
    var s :- SumLoop(items, EntryTerm(d));
    r := Ok(s / total);
  }

  /** A score entry as the judge writes it. */
  function ScoreEntry(id: string, score: real): Value {
    Dict([("id", Str(id)), ("score", Float(score))])
  }

  lemma ScoreEntryFields(x: string, s: real)
    ensures GetOr(ScoreEntry(x, s).entries, "id", Str("")) == Str(x)
    ensures GetOr(ScoreEntry(x, s).entries, "score", Int(0)) == Float(s)
  {
    var e := ScoreEntry(x, s).entries;
    assert Get(e, "id") == Some(Str(x));
    assert e[1..][0].0 == "score";
    assert Get(e, "score") == Some(Float(s));
  }

  lemma ScoreEntryTerm(d: Weights, x: string, s: real)
    ensures ItemTerm(d, ScoreEntry(x, s)) == Ok(s * Weight(d, x))
  {
    var e := ScoreEntry(x, s).entries;
    ScoreEntryFields(x, s);
    assert EntryScore(e) == Ok(s);
    assert EntryWeight(d, e) == Ok(Weight(d, x));
    var v := ScoreEntry(x, s);
    assert v.Dict? && v.entries == e;
    assert ItemTerm(d, v) == Scaled(EntryScore(e), EntryWeight(d, e));
    var r := ItemTerm(d, v);
    assert r.Ok? && r.value == s * Weight(d, x);
  }

  /** Two behaviours with distinct ids: the dict holds both, in order, and
      their weights add up. */
  lemma WeightMapTwo(a: BehaviorSpec, b: BehaviorSpec)
    requires a.id != b.id
    ensures WeightMap([a, b]) == [(a.id, a.weight), (b.id, b.weight)]
    ensures WeightSum(WeightMap([a, b])) == a.weight + b.weight
  {
    assert [a][..0] == [];
    assert WeightMap([a]) == [(a.id, a.weight)];
    assert [a, b][..1] == [a];
    assert WeightKeys([(a.id, a.weight)]) == [a.id];
    var d := [(a.id, a.weight), (b.id, b.weight)];
    assert d[..1] == [(a.id, a.weight)];
    assert [(a.id, a.weight)][..0] == [];
    assert WeightSum([(a.id, a.weight)]) == a.weight;
  }

  /** With a non-zero weight total, the average divides the weighted sum of the
      returned list by that total. */
  lemma WeightedAverageList(items: seq<Value>, bs: seq<BehaviorSpec>)
    requires WeightSum(WeightMap(bs)) != 0.0
    ensures WeightedAverageOf(List(items), bs) ==
      match WeightedScoreSum(WeightMap(bs), items)
      case Ok(s) => Ok(s / WeightSum(WeightMap(bs)))
      case Err(e) => Err(e)
  {
  }

  /** One more entry: its term is added, unless an earlier entry or this one raises. */
  lemma WeightedStep(d: Weights, items: seq<Value>, item: Value)
    ensures WeightedScoreSum(d, items + [item]) == AddTerm(WeightedScoreSum(d, items), ItemTerm(d, item))
  {
    var all := items + [item];
    assert all[..|all| - 1] == items;
    assert EntryTerm(d)(item) == ItemTerm(d, item);
  }

  /** A score entry adds its score times its id's weight, and so an entry
      whose id was not selected adds nothing. */
  lemma EntryAdds(d: Weights, items: seq<Value>, x: string, s: real)
    ensures WeightedScoreSum(d, items + [ScoreEntry(x, s)]) == AddTerm(WeightedScoreSum(d, items), Ok(s * Weight(d, x)))
    ensures x !in WeightKeys(d) ==> WeightedScoreSum(d, items + [ScoreEntry(x, s)]) == WeightedScoreSum(d, items)
  {
    ScoreEntryTerm(d, x, s);
    WeightedStep(d, items, ScoreEntry(x, s));
    if x !in WeightKeys(d) {
      assert s * Weight(d, x) == 0.0;
      AddZero(WeightedScoreSum(d, items));
    }
  }

  lemma AddZero(acc: Result<real>)
    ensures AddTerm(acc, Ok(0.0)) == acc
  {
  }

  /** Two score entries add their two weighted scores. */
  lemma TwoEntries(d: Weights, x: string, s: real, y: string, u: real)
    ensures WeightedScoreSum(d, [ScoreEntry(x, s), ScoreEntry(y, u)]) == Ok(s * Weight(d, x) + u * Weight(d, y))
  {
    ScoreEntryTerm(d, x, s);
    ScoreEntryTerm(d, y, u);
    PairSum(d, ScoreEntry(x, s), ScoreEntry(y, u));
  }

  lemma PairSum(d: Weights, a: Value, b: Value)
    ensures WeightedScoreSum(d, [a, b]) == AddTerm(AddTerm(Ok(0.0), ItemTerm(d, a)), ItemTerm(d, b))
  {
    WeightedStep(d, [], a);
    assert [] + [a] == [a];
    WeightedStep(d, [a], b);
    assert [a] + [b] == [a, b];
  }

  /** Two selected behaviours weighted 0.6 and 0.4, scored 0.9 and 0.8, give
      0.9 * 0.6 + 0.8 * 0.4 = 0.86. */
  lemma TwoBehaviours(a: BehaviorSpec, b: BehaviorSpec)
    requires a.id != b.id && a.weight == 0.6 && b.weight == 0.4
    ensures WeightedAverageOf(List([ScoreEntry(a.id, 0.9), ScoreEntry(b.id, 0.8)]), [a, b]) == Ok(0.86)
  {
    WeightMapTwo(a, b);
    var d := WeightMap([a, b]);
    assert WeightKeys(d) == [a.id, b.id];
    assert Weight(d, a.id) == 0.6;
    assert d[1..] == [(b.id, 0.4)];
    assert Lookup(d[1..], b.id) == Some(0.4);
    assert Weight(d, b.id) == 0.4;
    var items := [ScoreEntry(a.id, 0.9), ScoreEntry(b.id, 0.8)];
    TwoEntries(d, a.id, 0.9, b.id, 0.8);
    WeightedAverageList(items, [a, b]);
    var r := WeightedAverageOf(List(items), [a, b]);
    assert r.Ok? && r.value == 0.86;
  }


  /** A selected behaviour the judge returned no score for still weighs in the
      denominator: with weights `wa` and `wb` and only `a` scored, the average
      is `s * wa / (wa + wb)`. */
  lemma MissingScoreCounts(a: BehaviorSpec, b: BehaviorSpec, s: real)
    requires a.id != b.id && a.weight + b.weight != 0.0
    ensures WeightedAverageOf(List([ScoreEntry(a.id, s)]), [a, b]) == Ok(s * a.weight / (a.weight + b.weight))
  {
    WeightMapTwo(a, b);
    var d := WeightMap([a, b]);
    assert WeightKeys(d) == [a.id, b.id];
    assert Lookup(d, a.id) == Some(a.weight);
    assert Weight(d, a.id) == a.weight;
    var e := ScoreEntry(a.id, s);
    EntryAdds(d, [], a.id, s);
    assert WeightedScoreSum(d, []) == Ok(0.0);
    assert [] + [e] == [e];
    var sum := WeightedScoreSum(d, [e]);
    assert sum.Ok? && sum.value == s * a.weight;
    WeightedAverageList([e], [a, b]);
    var r := WeightedAverageOf(List([e]), [a, b]);
    assert r.Ok? && r.value == s * a.weight / (a.weight + b.weight);
  }


  /** When the selected weights total 0, the average is the plain mean of the
      returned scores, and 0 when none were returned. */
  lemma ZeroWeightsMean(scores: Value, bs: seq<BehaviorSpec>)
    requires WeightSum(WeightMap(bs)) == 0.0
    ensures scores == List([]) ==> WeightedAverageOf(scores, bs) == Ok(0.0)
    ensures scores.List? ==> WeightedAverageOf(scores, bs) == PlainMean(scores.items)
  {
  }

  /** The mean of two numeric scores is their half sum. */
  lemma PlainMeanTwo(x: real, y: real)
    ensures PlainMean([Dict([("score", Float(x))]), Dict([("score", Float(y))])]) == Ok((x + y) / 2.0)
  {
    var items := [Dict([("score", Float(x))]), Dict([("score", Float(y))])];
    assert GetOr(items[1].entries, "score", Int(0)) == Float(y);
    assert GetOr(items[0].entries, "score", Int(0)) == Float(x);
    assert items[1..][1..] == [];
    assert items[1..][0] == items[1];
    var r2 := ScoresOf(items[1..][1..]);
    assert r2.Ok? && r2.value == [];
    var r1 := ScoresOf(items[1..]);
    assert r1.Ok? && r1.value == [Float(y)];
    var r0 := ScoresOf(items);
    assert r0.Ok? && r0.value == [Float(x), Float(y)];
    var vs := [Float(x), Float(y)];
    assert vs[1..] == [Float(y)] && vs[1..][1..] == [];
    assert Total(vs[1..]) == y + 0.0;
    assert Total(vs) == x + (y + 0.0);
    var m := PlainMean(items);
    assert m.Ok? && m.value == (x + y) / 2.0;
  }


  // ----- the check -----

  const SceneSystemPrompt: string :=
    "你是一个严格的AI对话质量评估专家。\n你需要基于真人优秀对话中提炼的行为特征标准，逐项评估AI的回复。\n\n"
    + "对每个行为特征：\n- 参考 good_example（优秀示范）和 bad_example（反面对照）\n- 给出 0.0 到 1.0 的分数\n- 附上具体理由\n\n"
    + "输出 JSON 格式:\n{\n  \"behaviors\": [\n"
    + "    {\"id\": \"natural_transition\", \"score\": 0.9, \"reasoning\": \"...\"},\n"
    + "    {\"id\": \"privacy_mask\", \"score\": 0.3, \"reasoning\": \"...\"}\n"
    + "  ],\n  \"overall\": 0.72\n}"

  /** `self.phase or "全场景"`. */
  function PhaseText(phase: Option<string>): (p: string)
    ensures phase.Some? && phase.value != [] ==> p == phase.value
    ensures phase.None? || phase.value == [] ==> p == "全场景"
  {
    if phase.Some? && phase.value != [] then phase.value else "全场景"
  }

  /** The user prompt: the template with scene name, phase, behaviour list,
      context and reply filled in. */
  function ScenePrompt(name: string, phase: Option<string>, behaviorsText: string, ctx: Context, response: string): string {
    "## 评分标准（来自真人优秀对话场景：" + name + "）\n\n当前评估阶段：" + PhaseText(phase)
    + "\n\n你需要逐项评估以下行为特征：\n\n" + behaviorsText
    + "\n\n## 对话上下文\n" + ConversationContext(ctx)
    + "\n\n## 待评估的AI回复\n" + response + "\n\n请逐项评分并输出 JSON。"
  }

  const SceneFailedPrefix: string := "Scene Judge LLM 调用失败: "

  /** A filter was given and no behaviour of the scene matches it. */
  predicate NoMatch(scene: SceneSpec, ids: Option<seq<string>>) {
    ids.Some? && ids.value != [] && Selected(scene.behaviors, ids) == []
  }

  /** The per-behaviour scores read from the judge's reply and their weighted
      average, or the error either step raises. */
  function Scored(loads: Loads, raw: string, bs: seq<BehaviorSpec>): (r: Result<(Value, real)>)
    ensures r.Ok? <==>
      ParseBehaviorScores(loads, raw, bs).Ok? && WeightedAverageOf(ParseBehaviorScores(loads, raw, bs).value, bs).Ok?
    ensures r.Ok? ==>
      r.value.0 == ParseBehaviorScores(loads, raw, bs).value && r.value.1 == WeightedAverageOf(r.value.0, bs).value
  {
    var scores :- ParseBehaviorScores(loads, raw, bs);
    var overall :- WeightedAverageOf(scores, bs);
    Ok((scores, overall))
  }

  /** `SceneJudgeAssertion.evaluate`. A failing judge call is caught and
      reported; an error raised while reading or averaging the scores is not. */
  function SceneJudgeCheck(judge: Judge, loads: Loads, floatStr: FloatRepr, scene: SceneSpec, phase: Option<string>,
                           ids: Option<seq<string>>, threshold: real, response: string, ctx: Context): (r: Result<AssertionResult>)
    ensures r.Ok? ==> r.value.assertionType == "scene_judge" && r.value.expected == Fmt([Str("score >= "), Float(threshold)])
    ensures NoMatch(scene, ids) ==>
      && r.Ok? && !r.value.passed && r.value.score.None?
      && r.value.actual == Str("no matching behaviors")
      && r.value.message == Fmt([Str("未找到匹配的行为: "), List(Strs(ids.value))])
    ensures !NoMatch(scene, ids) ==>
      var bs := Selected(scene.behaviors, ids);
      var reply := judge(SceneSystemPrompt, ScenePrompt(scene.name, phase, BehaviorsText(bs, floatStr), ctx, response));
      && (reply.Err? ==>
            && r.Ok? && !r.value.passed && r.value.score.None? && r.value.actual == Str("error")
            && r.value.message == Str(SceneFailedPrefix + reply.error))
      && (reply.Ok? ==>
            var s := Scored(loads, reply.value.rawText, bs);
            && (r.Ok? <==> s.Ok?)
            && (r.Ok? ==>
                  && (r.value.passed <==> s.value.1 >= threshold)
                  && r.value.score == Some(s.value.1) && r.value.actual == Float(s.value.1)
                  && r.value.details == s.value.0
                  && r.value.message == Fmt([Str("场景「"), Str(scene.name), Str("」评分: "), Float(s.value.1)])))
  {
    var expected := Fmt([Str("score >= "), Float(threshold)]);
    if NoMatch(scene, ids) then
      Ok(Outcome(false, "scene_judge", Fmt([Str("未找到匹配的行为: "), List(Strs(ids.value))]), expected,
                 Str("no matching behaviors")))
    else
      var bs := Selected(scene.behaviors, ids);
      var prompt := ScenePrompt(scene.name, phase, BehaviorsText(bs, floatStr), ctx, response);
      match judge(SceneSystemPrompt, prompt)
      case Err(e) => Ok(Outcome(false, "scene_judge", Str(SceneFailedPrefix + e), expected, Str("error")))
      case Ok(j) =>
        match Scored(loads, j.rawText, bs)
        case Err(e) => Err(e)
        case Ok((scores, overall)) =>
          var message := Fmt([Str("场景「"), Str(scene.name), Str("」评分: "), Float(overall)]);
          Ok(AssertionResult(overall >= threshold, "scene_judge", message, expected, Float(overall), Some(overall), None, scores))
  }

  // ----- properties of the check -----

  /** When the filter matches nothing the judge is never consulted: any two
      judges, parsers and float renderings give the same result. */
  lemma NoMatchSkipsJudge(j1: Judge, j2: Judge, l1: Loads, l2: Loads, f1: FloatRepr, f2: FloatRepr, scene: SceneSpec,
                          phase: Option<string>, ids: Option<seq<string>>, threshold: real, response: string, ctx: Context)
    requires NoMatch(scene, ids)
    ensures SceneJudgeCheck(j1, l1, f1, scene, phase, ids, threshold, response, ctx)
         == SceneJudgeCheck(j2, l2, f2, scene, phase, ids, threshold, response, ctx)
  {
  }

  /** A pass always carries a score at or above the threshold, and lowering
      the threshold never turns a pass into a failure. */
  lemma SceneThresholdMonotone(judge: Judge, loads: Loads, floatStr: FloatRepr, scene: SceneSpec, phase: Option<string>,
                               ids: Option<seq<string>>, t1: real, t2: real, response: string, ctx: Context)
    requires t2 <= t1
    requires var r := SceneJudgeCheck(judge, loads, floatStr, scene, phase, ids, t1, response, ctx); r.Ok? && r.value.passed
    ensures var r := SceneJudgeCheck(judge, loads, floatStr, scene, phase, ids, t1, response, ctx);
      r.value.score.Some? && r.value.score.value >= t1
    ensures var r := SceneJudgeCheck(judge, loads, floatStr, scene, phase, ids, t2, response, ctx); r.Ok? && r.value.passed
  {
  }
}

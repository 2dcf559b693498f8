/** Dynamically typed values: what Python's `json.loads`/`yaml.safe_load` hand
    back and what the result records hold in their `Any` fields. */
module Values {
  import opened Wrappers
  import opened Text

  /** `Dict` keeps its entries in insertion order, as a Python dict does.
      `Fmt(parts)` is an f-string: its text is `str()` of each part, concatenated;
      the model keeps the parts instead of rendering numbers. */
  datatype Value =
    | Null
    | Bool(b: bool)
    | Int(i: int)
    | Float(x: real)
    | Str(s: string)
    | List(items: seq<Value>)
    | Dict(entries: seq<(string, Value)>)
    | Fmt(parts: seq<Value>)

  type Entries = seq<(string, Value)>

  function Keys(d: Entries): (ks: seq<string>)
    ensures |ks| == |d|
    ensures forall i :: 0 <= i < |d| ==> ks[i] == d[i].0
  {
    if d == [] then [] else [d[0].0] + Keys(d[1..])
  }

  predicate UniqueKeys(d: Entries) {
    forall i, j :: 0 <= i < j < |d| ==> d[i].0 != d[j].0
  }

  /** Python's `d[k]` / `d.get(k)`: the value stored under `k`, if any. */
  function Get(d: Entries, k: string): (r: Option<Value>)
    ensures r.Some? <==> k in Keys(d)
    ensures r.Some? ==> exists i :: 0 <= i < |d| && d[i] == (k, r.value)
    ensures r.Some? && UniqueKeys(d) ==> forall i :: 0 <= i < |d| && d[i].0 == k ==> d[i].1 == r.value
  {
    if d == [] then None
    else if d[0].0 == k then Some(d[0].1)
    else
      var r := Get(d[1..], k);
      assert r.Some? ==> d[1..][0] == d[1];
      r
  }

  /** Python's `d.get(k, default)`. */
  function GetOr(d: Entries, k: string, default: Value): Value {
    Get(d, k).GetOr(default)
  }

  /** The entries of `b` whose key does not occur in `keys`, in order. */
  function NewEntries(b: Entries, keys: seq<string>): (r: Entries)
    ensures forall e :: e in r <==> e in b && e.0 !in keys
  {
    if b == [] then []
    else (if b[0].0 in keys then [] else [b[0]]) + NewEntries(b[1..], keys)
  }

  /** Python's `{**a, **b}`: the keys of `a` in place, each taking `b`'s value when
      `b` has it, then the keys only `b` has, in `b`'s order. */
  function Merge(a: Entries, b: Entries): (r: Entries)
    ensures |r| >= |a|
    ensures Keys(r)[..|a|] == Keys(a)
  {
    Overlay(a, b) + NewEntries(b, Keys(a))
  }

  /** `a` with each value replaced by `b`'s value for the same key, if any. */
  function Overlay(a: Entries, b: Entries): (r: Entries)
    ensures |r| == |a|
    ensures forall i :: 0 <= i < |a| ==> r[i].0 == a[i].0
    ensures forall i :: 0 <= i < |a| ==> r[i].1 == Get(b, a[i].0).GetOr(a[i].1)
  {
    if a == [] then [] else [(a[0].0, Get(b, a[0].0).GetOr(a[0].1))] + Overlay(a[1..], b)
  }

  /** A lookup in two dicts laid end to end finds the first one's entry first. */
  lemma {:induction false} GetAppend(x: Entries, y: Entries, k: string)
    ensures Get(x + y, k) == if k in Keys(x) then Get(x, k) else Get(y, k)
  {
    if x == [] {
      assert x + y == y;
    } else {
      assert (x + y)[0] == x[0];
      assert (x + y)[1..] == x[1..] + y;
      assert Keys(x) == [x[0].0] + Keys(x[1..]);
      if x[0].0 != k {
        GetAppend(x[1..], y, k);
      }
    }
  }

  lemma {:induction false} GetOverlay(a: Entries, b: Entries, k: string)
    ensures Get(Overlay(a, b), k) == if k in Keys(a) then Some(Get(b, k).GetOr(Get(a, k).value)) else None
  {
    if a != [] {
      assert k in Keys(a) <==> a[0].0 == k || k in Keys(a[1..]);
      assert Overlay(a, b)[1..] == Overlay(a[1..], b);
      GetOverlay(a[1..], b, k);
    }
  }

  lemma {:induction false} GetNewEntries(b: Entries, keys: seq<string>, k: string)
    requires k !in keys
    ensures Get(NewEntries(b, keys), k) == Get(b, k)
  {
    if b != [] {
      var head := if b[0].0 in keys then [] else [b[0]];
      GetAppend(head, NewEntries(b[1..], keys), k);
      GetNewEntries(b[1..], keys, k);
    }
  }

  /** `{**a, **b}[k]`: `b`'s value wins where both have the key, and each side
      supplies the keys only it has. */
  lemma MergeGet(a: Entries, b: Entries, k: string)
    ensures Get(Merge(a, b), k) == if k in Keys(b) then Get(b, k) else Get(a, k)
  {
    var o := Overlay(a, b);
    assert Keys(o) == Keys(a);
    GetAppend(o, NewEntries(b, Keys(a)), k);
    GetOverlay(a, b, k);
    if k !in Keys(a) {
      GetNewEntries(b, Keys(a), k);
    }
  }

  /** `{**d, k: v}` for one key, written entry by entry: an entry with key
      `k` takes the value `v` in place, and `k` goes last when `d` lacks it. */
  function Put(d: Entries, k: string, v: Value): Entries {
    if d == [] then [(k, v)]
    else if d[0].0 == k then [(k, v)] + Overlay(d[1..], [(k, v)])
    else [d[0]] + Put(d[1..], k, v)
  }

  /** Putting one key is merging a one-entry dict. */
  lemma {:induction false} PutMerge(d: Entries, k: string, v: Value)
    ensures Put(d, k, v) == Merge(d, [(k, v)])
  {
    var b := [(k, v)];
    assert Keys(b) == [k];
    if d == [] {
      assert NewEntries(b, []) == [(k, v)] + NewEntries([], []);
    } else {
      assert Keys(d) == [d[0].0] + Keys(d[1..]);
      if d[0].0 == k {
        assert NewEntries(b, Keys(d)) == [] + NewEntries([], Keys(d));
      } else {
        PutMerge(d[1..], k, v);
        assert NewEntries(b, Keys(d)) == NewEntries(b, Keys(d[1..]));
        assert Overlay(d, b) == [d[0]] + Overlay(d[1..], b);
      }
    }
  }

  /** Digit strings and their value. */
  predicate AllDigits(s: string) {
    forall i :: 0 <= i < |s| ==> IsDigit(s[i])
  }

  function DigitsValue(s: string): (n: nat)
    requires AllDigits(s)
  {
    if s == [] then 0 else DigitsValue(s[..|s| - 1]) * 10 + (s[|s| - 1] as int - '0' as int)
  }

  /** Python's `str(n)` for a natural number: its decimal digits, without
      leading zeros. */
  function NatStr(n: nat): (s: string)
    ensures s != [] && AllDigits(s)
    ensures s[0] == '0' ==> n == 0
  {
    var d := ['0' + (n % 10) as char];
    if n < 10 then d else NatStr(n / 10) + d
  }

  /** Python's `str(i)` for an integer. */
  function IntStr(i: int): (s: string)
    ensures s != []
  {
    if i < 0 then "-" + NatStr(-i) else NatStr(i)
  }

  /** Reading back the digits gives the number. */
  lemma {:induction false} NatStrRoundTrip(n: nat)
    ensures DigitsValue(NatStr(n)) == n
  {
    var s := NatStr(n);
    if n >= 10 {
      NatStrRoundTrip(n / 10);
      assert s[..|s| - 1] == NatStr(n / 10);
    }
  }

  /** Distinct numbers print differently. */
  lemma NatStrInjective(m: nat, n: nat)
    requires NatStr(m) == NatStr(n)
    ensures m == n
  {
    NatStrRoundTrip(m);
    NatStrRoundTrip(n);
  }

  function Pow10(n: nat): (p: nat)
    ensures p >= 1
  {
    if n == 0 then 1 else 10 * Pow10(n - 1)
  }

  /** A non-empty run of digits with at most one '.' in it and at least one
      digit: the strings matched by the regex `[\d.]+` that `float()` accepts. */
  predicate IsDecimal(s: string) {
    && (forall i :: 0 <= i < |s| ==> IsDigit(s[i]) || s[i] == '.')
    && (forall i, j :: 0 <= i < j < |s| && s[i] == '.' ==> s[j] != '.')
    && (exists i :: 0 <= i < |s| && IsDigit(s[i]))
  }

  function DotIndex(s: string): (k: nat)
    ensures k <= |s|
    ensures forall i :: 0 <= i < k ==> s[i] != '.'
    ensures k < |s| ==> s[k] == '.'
  {
    if s == [] || s[0] == '.' then 0 else 1 + DotIndex(s[1..])
  }

  /** Python's `float(s)` on a string of digits and dots; `None` where `float`
      raises ValueError. */
  function ParseDecimal(s: string): (r: Option<real>)
    ensures r.Some? <==> IsDecimal(s)
    ensures r.Some? ==> r.value >= 0.0
    ensures AllDigits(s) && s != [] ==> r == Some(DigitsValue(s) as real)
  {
    if !IsDecimal(s) then None
    else
      var k := DotIndex(s);
      if k == |s| then
        Some(DigitsValue(s) as real)
      else
        assert AllDigits(s[..k]) && AllDigits(s[k + 1..]);
        Some(DigitsValue(s[..k]) as real + DigitsValue(s[k + 1..]) as real / Pow10(|s| - k - 1) as real)
  }

  /** Python's `float(v)` for a JSON value; an error where it raises. Strings are
      accepted only in the plain decimal form of `ParseDecimal`. */
  function ToFloat(v: Value): (r: Result<real>)
    ensures v.Float? ==> r == Ok(v.x)
    ensures v.Int? ==> r == Ok(v.i as real)
    ensures v.Null? || v.List? || v.Dict? ==> r.Err?
  {
    match v
    case Bool(b) => Ok(if b then 1.0 else 0.0)
    case Int(i) => Ok(i as real)
    case Float(x) => Ok(x)
    case Str(s) =>
      (match ParseDecimal(s)
       case Some(x) => Ok(x)
       case None => Err("could not convert string to float: " + s))
    case Fmt(_) => Err("could not convert string to float")
    case _ => Err("float() argument must be a string or a real number, not '" + TypeName(v) + "'")
  }

  /** The number a value stands for under Python's `sum` and comparisons
      (bool, int and float); `None` for anything `sum` rejects. */
  function Number(v: Value): (r: Option<real>)
    ensures r.Some? <==> v.Bool? || v.Int? || v.Float?
  {
    match v
    case Bool(b) => Some(if b then 1.0 else 0.0)
    case Int(i) => Some(i as real)
    case Float(x) => Some(x)
    case _ => None
  }

  /** The name Python gives the type of a value in its error messages. */
  function TypeName(v: Value): string {
    match v
    case Null => "NoneType"
    case Bool(_) => "bool"
    case Int(_) => "int"
    case Float(_) => "float"
    case Str(_) => "str"
    case List(_) => "list"
    case Dict(_) => "dict"
    case Fmt(_) => "str"
  }

  /** Python's `v <= bound` for an `int` bound: numbers compare, anything else
      raises `TypeError`. */
  function AtMost(v: Value, bound: int): (r: Result<bool>)
    ensures r.Ok? <==> Number(v).Some?
    ensures r.Ok? ==> (r.value <==> Number(v).value <= bound as real)
  {
    match Number(v)
    case Some(x) => Ok(x <= bound as real)
    case None => Err("'<=' not supported between instances of '" + TypeName(v) + "' and 'int'")
  }

  /** A Python list of strings. */
  function Strs(xs: seq<string>): (r: seq<Value>)
    ensures |r| == |xs| && forall i :: 0 <= i < |xs| ==> r[i] == Str(xs[i])
  {
    seq(|xs|, i requires 0 <= i < |xs| => Str(xs[i]))
  }

  function KeyStrs(d: Entries): (r: seq<Value>)
    ensures |r| == |d|
  {
    if d == [] then [] else [Str(d[0].0)] + KeyStrs(d[1..])
  }

  function CharStrs(s: string): (r: seq<Value>)
    ensures |r| == |s|
  {
    if s == [] then [] else [Str([s[0]])] + CharStrs(s[1..])
  }

  /** The elements Python's `for x in v` visits: list items, dict keys, string
      characters; an error for values that are not iterable. */
  function Iterate(v: Value): (r: Result<seq<Value>>)
    ensures v.List? ==> r == Ok(v.items)
    ensures r.Ok? && v.Dict? ==> |r.value| == |v.entries|
    ensures v.Null? || v.Bool? || v.Int? || v.Float? ==> r.Err?
  {
    match v
    case List(items) => Ok(items)
    case Dict(entries) => Ok(KeyStrs(entries))
    case Str(s) => Ok(CharStrs(s))
    case Fmt(_) => Err("an f-string is iterated as text, which the model does not do")
    case _ => Err("'" + TypeName(v) + "' object is not iterable")
  }
}

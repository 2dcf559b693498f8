/** Environment interpolation: every `${NAME}` in a configuration string is
    replaced by the value of the environment variable NAME, where NAME is one
    or more characters other than `}`. The environment is a parameter. */
module Template {
  import opened Wrappers
  import opened Values

  type Environ = map<string, string>

  function UnsetMessage(name: string): string {
    "环境变量未设置: " + name
  }

  /** The position of the first `}` in `s` at or after `k`, if any. */
  function CloseAt(s: string, k: nat): (j: Option<nat>)
    requires k <= |s|
    ensures j.Some? ==> k <= j.value < |s| && s[j.value] == '}' && forall i :: k <= i < j.value ==> s[i] != '}'
    ensures j.None? ==> forall i :: k <= i < |s| ==> s[i] != '}'
    decreases |s| - k
  {
    if k == |s| then None
    else if s[k] == '}' then Some(k)
    else CloseAt(s, k + 1)
  }

  /** Where a reference starting at the head of `s` ends: `${`, then at
      least one non-`}` character, then the `}` at the returned index. */
  function RefEnd(s: string): (j: Option<nat>)
    ensures j.Some? ==> 3 <= j.value + 1 <= |s| && s[..2] == "${" && s[j.value] == '}'
                        && forall i :: 2 <= i < j.value ==> s[i] != '}'
  {
    if |s| >= 3 && s[0] == '$' && s[1] == '{' then
      match CloseAt(s, 2)
      case Some(j) => if j > 2 then Some(j) else None
      case None => None
    else None
  }

  /** `interpolate_env`: a single left-to-right pass; the first reference to
      an unset variable raises. */
  function Interpolate(env: Environ, s: string): (r: Result<string>)
    decreases |s|
  {
    if s == [] then Ok([])
    else
      match RefEnd(s)
      case Some(j) =>
        var name := s[2..j];
        if name !in env then Err(UnsetMessage(name))
        else
          var rest :- Interpolate(env, s[j + 1..]);
          Ok(env[name] + rest)
      case None =>
        var rest :- Interpolate(env, s[1..]);
        Ok([s[0]] + rest)
  }

  /** The variable names `s` references, in the order the pass meets them. */
  function References(s: string): seq<string>
    decreases |s|
  {
    if s == [] then []
    else
      match RefEnd(s)
      case Some(j) => [s[2..j]] + References(s[j + 1..])
      case None => References(s[1..])
  }

  /** The pass succeeds exactly when every referenced variable is set; when
      it fails, it names the first unset one. */
  lemma {:induction false} InterpolateOkIffSet(env: Environ, s: string)
    ensures Interpolate(env, s).Ok? <==> forall n :: n in References(s) ==> n in env
    ensures Interpolate(env, s).Err? ==>
      exists k :: 0 <= k < |References(s)| && References(s)[k] !in env
                  && Interpolate(env, s).error == UnsetMessage(References(s)[k])
                  && forall i :: 0 <= i < k ==> References(s)[i] in env
    decreases |s|
  {
    if s != [] {
      match RefEnd(s)
      case Some(j) =>
        var name := s[2..j];
        var refs := References(s);
        assert refs == [name] + References(s[j + 1..]);
        if name in env {
          InterpolateOkIffSet(env, s[j + 1..]);
          if Interpolate(env, s).Err? {
            var rest := References(s[j + 1..]);
            var k :| 0 <= k < |rest| && rest[k] !in env && Interpolate(env, s[j + 1..]).error == UnsetMessage(rest[k])
                     && forall i :: 0 <= i < k ==> rest[i] in env;
            assert refs[k + 1] == rest[k];
            assert forall i :: 0 <= i < k + 1 ==> refs[i] in env by {
              forall i | 0 <= i < k + 1 ensures refs[i] in env {
                if i > 0 { assert refs[i] == rest[i - 1]; }
              }
            }
          }
        } else {
          assert refs[0] == name;
        }
      case None =>
        InterpolateOkIffSet(env, s[1..]);
    }
  }

  /** Text with no reference comes back unchanged. */
  lemma {:induction false} NoReferenceUnchanged(env: Environ, s: string)
    requires forall k :: 0 <= k <= |s| ==> RefEnd(s[k..]).None?
    ensures Interpolate(env, s) == Ok(s)
    decreases |s|
  {
    if s != [] {
      assert RefEnd(s[0..]).None? && s[0..] == s;
      forall k | 0 <= k <= |s[1..]| ensures RefEnd(s[1..][k..]).None? {
        assert s[1..][k..] == s[k + 1..];
      }
      NoReferenceUnchanged(env, s[1..]);
      assert [s[0]] + s[1..] == s;
    }
  }

  /** A reference is replaced by the variable's value verbatim: the value is
      not scanned again, so a value that itself looks like `${OTHER}` stays
      as it is. */
  lemma ValueNotRescanned(env: Environ, name: string, rest: string)
    requires name != [] && forall i :: 0 <= i < |name| ==> name[i] != '}'
    requires name in env
    ensures var s := "${" + name + "}" + rest;
      Interpolate(env, s).Ok? <==> Interpolate(env, rest).Ok?
    ensures var s := "${" + name + "}" + rest;
      Interpolate(env, rest).Ok? ==> Interpolate(env, s).value == env[name] + Interpolate(env, rest).value
  {
    var s := "${" + name + "}" + rest;
    var j := |name| + 2;
    assert s[j] == '}';
    assert forall i :: 2 <= i < j ==> s[i] == name[i - 2];
    assert CloseAt(s, 2) == Some(j) by {
      CloseAtSkips(s, 2, j);
    }
    assert s[2..j] == name;
    assert s[j + 1..] == rest;
  }

  /** `CloseAt` finds the first `}`. */
  lemma {:induction false} CloseAtSkips(s: string, k: nat, j: nat)
    requires k <= j < |s| && s[j] == '}' && forall i :: k <= i < j ==> s[i] != '}'
    ensures CloseAt(s, k) == Some(j)
    decreases j - k
  {
    if k < j {
      CloseAtSkips(s, k + 1, j);
    }
  }

  /** A list's items: each string interpolated, every other item kept. */
  function InterpolateItems(env: Environ, items: seq<Value>): (r: Result<seq<Value>>)
    ensures r.Ok? ==> |r.value| == |items|
    ensures r.Ok? ==> forall i :: 0 <= i < |items| && !items[i].Str? ==> r.value[i] == items[i]
  {
    if items == [] then Ok([])
    else
      var x :- (if items[0].Str? then
                  (var t :- Interpolate(env, items[0].s); Ok(Str(t)))
                else Ok(items[0]));
      var rest :- InterpolateItems(env, items[1..]);
      Ok([x] + rest)
  }

  /** `interpolate_dict` from entry `i` on: each value interpolated in order,
      or the first error. Strings are interpolated, dicts recursively, the
      strings inside lists (and nothing else inside lists), and every other
      value is kept. */
  function InterpolateFrom(env: Environ, data: Entries, i: nat): Result<Entries>
    requires i <= |data|
    decreases Dict(data), |data| - i
  {
    if i == |data| then Ok([])
    else
      var value := data[i].1;
      assert data[i] in data;
      var v :- match value
        case Str(s) => (var t :- Interpolate(env, s); Ok(Str(t)))
        case Dict(entries) => (var d :- InterpolateFrom(env, entries, 0); Ok(Dict(d)))
        case List(items) => (var xs :- InterpolateItems(env, items); Ok(List(xs)))
        case _ => Ok(value);
      var rest :- InterpolateFrom(env, data, i + 1);
      Ok([(data[i].0, v)] + rest)
  }

  /** `interpolate_dict(data)`. */
  function InterpolateEntries(env: Environ, data: Entries): Result<Entries> {
    InterpolateFrom(env, data, 0)
  }

  /** The result keeps exactly the keys, in order; values that are neither
      strings, dicts nor lists are unchanged, and so are the non-string
      items of lists. */
  lemma {:induction false} InterpolateFromKeepsKeys(env: Environ, data: Entries, i: nat)
    requires i <= |data|
    ensures var r := InterpolateFrom(env, data, i);
      r.Ok? ==>
        && |r.value| == |data| - i
        && (forall k :: i <= k < |data| ==> r.value[k - i].0 == data[k].0)
        && (forall k :: i <= k < |data| && !data[k].1.Str? && !data[k].1.Dict? && !data[k].1.List? ==> r.value[k - i] == data[k])
        && (forall k :: i <= k < |data| && data[k].1.List? ==> r.value[k - i].1.List? && |r.value[k - i].1.items| == |data[k].1.items|)
    decreases |data| - i
  {
    if i < |data| {
      InterpolateFromKeepsKeys(env, data, i + 1);
    }
  }

  lemma InterpolateKeepsKeys(env: Environ, data: Entries)
    ensures var r := InterpolateEntries(env, data);
      r.Ok? ==>
        && Keys(r.value) == Keys(data)
        && forall k :: 0 <= k < |data| && !data[k].1.Str? && !data[k].1.Dict? && !data[k].1.List? ==> r.value[k] == data[k]
  {
    InterpolateFromKeepsKeys(env, data, 0);
  }

  /** A failed pass names a variable the environment lacks. */
  lemma InterpolateErrNamesUnset(env: Environ, s: string)
    ensures Interpolate(env, s).Err? ==>
      exists name :: name !in env && Interpolate(env, s).error == UnsetMessage(name)
  {
    InterpolateOkIffSet(env, s);
    if Interpolate(env, s).Err? {
      var refs := References(s);
      var k :| 0 <= k < |refs| && refs[k] !in env && Interpolate(env, s).error == UnsetMessage(refs[k])
               && forall i :: 0 <= i < k ==> refs[i] in env;
      assert UnsetMessage(refs[k]) == Interpolate(env, s).error;
    }
  }

  lemma {:induction false} ItemsErrNamesUnset(env: Environ, items: seq<Value>)
    ensures InterpolateItems(env, items).Err? ==>
      exists name :: name !in env && InterpolateItems(env, items).error == UnsetMessage(name)
  {
    if items != [] {
      if items[0].Str? {
        InterpolateErrNamesUnset(env, items[0].s);
      }
      ItemsErrNamesUnset(env, items[1..]);
    }
  }

  /** Every error `interpolate_dict` raises is the one for an unset
      variable. */
  lemma {:induction false} EntriesErrNamesUnset(env: Environ, data: Entries, i: nat)
    requires i <= |data|
    ensures InterpolateFrom(env, data, i).Err? ==>
      exists name :: name !in env && InterpolateFrom(env, data, i).error == UnsetMessage(name)
    decreases Dict(data), |data| - i
  {
    if i < |data| {
      var value := data[i].1;
      assert data[i] in data;
      match value {
        case Str(t) => InterpolateErrNamesUnset(env, t);
        case Dict(entries) => EntriesErrNamesUnset(env, entries, 0);
        case List(items) => ItemsErrNamesUnset(env, items);
        case _ =>
      }
      EntriesErrNamesUnset(env, data, i + 1);
    }
  }

  /** The entries already filled in, followed by the outcome for the rest. */
  function After(done: Entries, rest: Result<Entries>): Result<Entries> {
    if rest.Ok? then Ok(done + rest.value) else rest
  }

  lemma AfterAppend(a: Entries, b: Entries, rest: Result<Entries>)
    ensures After(a, After(b, rest)) == After(a + b, rest)
  {
    if rest.Ok? { assert a + (b + rest.value) == (a + b) + rest.value; }
  }

  /** `interpolate_dict`: fills the result entry by entry, recursing into
      nested dicts. */
  method InterpolateDict(env: Environ, data: Entries) returns (r: Result<Entries>)
    ensures r == InterpolateEntries(env, data)
    decreases Dict(data)
  {
    var result: Entries := [];
    var i := 0;
    if InterpolateFrom(env, data, 0).Ok? {
      assert [] + InterpolateFrom(env, data, 0).value == InterpolateFrom(env, data, 0).value;
    }
    while i < |data|
      invariant 0 <= i <= |data|
      invariant InterpolateEntries(env, data) == After(result, InterpolateFrom(env, data, i))
    {
      var key := data[i].0;
      var value := data[i].1;
      var v: Value;
      if value.Str? {
        var t := Interpolate(env, value.s);
        if t.Err? { return Err(t.error); }
        v := Str(t.value);
      } else if value.Dict? {
        assert data[i] in data;
        var d := InterpolateDict(env, value.entries);
        if d.Err? { return Err(d.error); }
        v := Dict(d.value);
      } else if value.List? {
        var xs := InterpolateItems(env, value.items);
        if xs.Err? { return Err(xs.error); }
        v := List(xs.value);
      } else {
        v := value;
      }
      assert InterpolateFrom(env, data, i) == After([(key, v)], InterpolateFrom(env, data, i + 1));
      AfterAppend(result, [(key, v)], InterpolateFrom(env, data, i + 1));
      result := result + [(key, v)];
      i := i + 1;
    }
    assert result + [] == result;
    r := Ok(result);
  }
}

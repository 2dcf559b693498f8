/** Global configuration loading: the `.env` file is read into the process
    environment without overwriting anything already set, then the YAML
    configuration is interpolated against that environment and validated.
    The environment is the `vars` field of an `Environment` object; the
    `.env` file is given as its lines (absent when the file does not exist),
    and the YAML load and the schema validation are parameters. */
module Config {
  import opened Wrappers
  import opened Text
  import opened Values
  import opened Schema
  import opened Template

  // ----- one line of a .env file -----

  /** The index of the first `=` in `s` at or after `k`, if any. */
  function FirstEquals(s: string, k: nat): (r: Option<nat>)
    requires k <= |s|
    ensures r.Some? ==> k <= r.value < |s| && s[r.value] == '=' && forall j :: k <= j < r.value ==> s[j] != '='
    ensures r.None? ==> forall j :: k <= j < |s| ==> s[j] != '='
    decreases |s| - k
  {
    if k == |s| then None
    else if s[k] == '=' then Some(k)
    else FirstEquals(s, k + 1)
  }

  /** The assignment a line makes, if any. The line is stripped; blank lines,
      comments and lines without `=` make none; otherwise the line splits at
      its first `=` and both sides are stripped. */
  function ParseLine(line: string): Option<(string, string)> {
    var s := Strip(line);
    if s == [] || s[0] == '#' then None
    else
      match FirstEquals(s, 0)
      case None => None
      case Some(idx) => Some((Strip(s[..idx]), Strip(s[idx + 1..])))
  }

  /** A line assigns nothing exactly when, stripped, it is blank, a comment
      or without `=`; otherwise it assigns the stripped text before its first
      `=` the stripped text after it. */
  lemma ParseLineMeaning(line: string)
    ensures var s := Strip(line);
      ParseLine(line).None? <==> s == [] || s[0] == '#' || forall j :: 0 <= j < |s| ==> s[j] != '='
    ensures var s := Strip(line);
      ParseLine(line).Some? ==>
        exists idx :: 0 <= idx < |s| && s[idx] == '=' && (forall j :: 0 <= j < idx ==> s[j] != '=')
                      && ParseLine(line).value == (Strip(s[..idx]), Strip(s[idx + 1..]))
  {
  }

  /** What a line assigns: a key and a value, or nothing. */
  type Assignment = Option<(string, string)>

  /** The file's lines, parsed. */
  function Parsed(lines: seq<string>): seq<Assignment> {
    seq(|lines|, j requires 0 <= j < |lines| => ParseLine(lines[j]))
  }

  /** One assignment applied to the environment: a key already present
      keeps its value. */
  function Assign(env: map<string, string>, a: Assignment): map<string, string> {
    match a
    case None => env
    case Some((k, v)) => if k in env then env else env[k := v]
  }

  /** The assignments applied in order. */
  function AssignAll(env: map<string, string>, ps: seq<Assignment>): map<string, string> {
    if ps == [] then env
    else Assign(AssignAll(env, ps[..|ps| - 1]), ps[|ps| - 1])
  }

  lemma AssignStep(env: map<string, string>, ps: seq<Assignment>, i: nat)
    requires i < |ps|
    ensures AssignAll(env, ps[..i + 1]) == Assign(AssignAll(env, ps[..i]), ps[i])
  {
    assert ps[..i + 1][..i] == ps[..i];
  }

  /** `load_dotenv`: a missing file changes nothing. */
  function Dotenv(env: map<string, string>, file: Option<seq<string>>): map<string, string> {
    match file
    case None => env
    case Some(lines) => AssignAll(env, Parsed(lines))
  }

  // ----- load_config -----

  const MissingFilePrefix: string := "配置文件不存在: "
  const InterpolationFailedPrefix: string := "环境变量插值失败: "
  const ValidationFailedPrefix: string := "配置校验失败: "

  /** The outcome of `load_config`: the configuration, a `ConfigError`, or
      another exception (the YAML loader's own) that passes through. */
  datatype ConfigLoad = Loaded(config: SandboxConfig) | ConfigError(message: string) | OtherError(message: string)

  /** `load_config(path)`: the environment afterwards and the outcome.
      `fileExists` says whether the configuration file exists, `dotenv` gives the
      lines of the `.env` file beside it, `loaded` is what loading the YAML
      gives and `validate` is the schema validation. */
  function LoadConfigRun(env: map<string, string>, path: string, fileExists: bool, dotenv: Option<seq<string>>,
                         loaded: Result<Entries>, validate: Entries -> Result<SandboxConfig>): (map<string, string>, ConfigLoad) {
    if !fileExists then (env, ConfigError(MissingFilePrefix + path))
    else
      var env1 := Dotenv(env, dotenv);
      match loaded
      case Err(e) => (env1, OtherError(e))
      case Ok(raw) =>
        match InterpolateEntries(env1, raw)
        case Err(e) => (env1, ConfigError(InterpolationFailedPrefix + e))
        case Ok(data) =>
          match validate(data)
          case Err(e) => (env1, ConfigError(ValidationFailedPrefix + e))
          case Ok(c) => (env1, Loaded(c))
  }

  /** The process environment. */
  class Environment {
    var vars: map<string, string>

    constructor (vars: map<string, string>)
      ensures this.vars == vars
    {
      this.vars := vars;
    }

    /** The body of `load_dotenv`'s loop, for one line as read. */
    method ApplyRawLine(raw: string)
      modifies this
      ensures vars == Assign(old(vars), ParseLine(raw))
    {
      var line := Strip(raw);
      if line != [] && line[0] != '#' {
        var eq := FirstEquals(line, 0);
        if eq.Some? {
          var key := Strip(line[..eq.value]);
          var value := Strip(line[eq.value + 1..]);
          assert ParseLine(raw) == Some((key, value));
          if key !in vars {
            vars := vars[key := value];
          }
        }
      }
    }

    /** `load_dotenv`: reads the file line by line into the environment. */
    method LoadDotenv(file: Option<seq<string>>)
      modifies this
      ensures vars == Dotenv(old(vars), file)
    {
      if file.None? {
        return;
      }
      var lines := file.value;
      ghost var ps := Parsed(lines);
      var i := 0;
      while i < |lines|
        invariant 0 <= i <= |lines|
        invariant vars == AssignAll(old(vars), ps[..i])
      {
        ApplyRawLine(lines[i]);
        AssignStep(old(vars), ps, i);
        i := i + 1;
      }
      assert ps[..i] == ps;
    }

    /** `load_config`. */
    method LoadConfig(path: string, fileExists: bool, dotenv: Option<seq<string>>,
                      loaded: Result<Entries>, validate: Entries -> Result<SandboxConfig>) returns (r: ConfigLoad)
      modifies this
      ensures (vars, r) == LoadConfigRun(old(vars), path, fileExists, dotenv, loaded, validate)
    {
      if !fileExists {
        return ConfigError(MissingFilePrefix + path);
      }
      LoadDotenv(dotenv);
      if loaded.Err? {
        return OtherError(loaded.error);
      }
      var interpolated := InterpolateDict(vars, loaded.value);
      if interpolated.Err? {
        return ConfigError(InterpolationFailedPrefix + interpolated.error);
      }
      var config := validate(interpolated.value);
      if config.Err? {
        return ConfigError(ValidationFailedPrefix + config.error);
      }
      r := Loaded(config.value);
    }
  }

  // ----- properties -----

  /** One assignment adds at most its own key and changes no existing
      value. */
  lemma AssignKeys(env: map<string, string>, a: Assignment, k: string)
    ensures k in Assign(env, a) <==> k in env || (a.Some? && a.value.0 == k)
    ensures k in env ==> Assign(env, a)[k] == env[k]
    ensures k !in env && a.Some? && a.value.0 == k ==> Assign(env, a)[k] == a.value.1
  {
  }

  /** A variable already set is never overwritten, and nothing is removed. */
  lemma {:induction false} NeverOverwrites(env: map<string, string>, ps: seq<Assignment>)
    ensures forall k :: k in env ==> k in AssignAll(env, ps) && AssignAll(env, ps)[k] == env[k]
    decreases |ps|
  {
    if ps != [] {
      NeverOverwrites(env, ps[..|ps| - 1]);
      forall k | k in env ensures k in AssignAll(env, ps) && AssignAll(env, ps)[k] == env[k] {
        AssignKeys(AssignAll(env, ps[..|ps| - 1]), ps[|ps| - 1], k);
      }
    }
  }

  /** The keys the assignments name. */
  function AssignedKeys(ps: seq<Assignment>): set<string> {
    if ps == [] then {}
    else
      var last := ps[|ps| - 1];
      AssignedKeys(ps[..|ps| - 1]) + (if last.Some? then {last.value.0} else {})
  }

  /** The variables the file adds are exactly the keys its lines assign. */
  lemma {:induction false} AddedKeys(env: map<string, string>, ps: seq<Assignment>, k: string)
    ensures k in AssignAll(env, ps) <==> k in env || k in AssignedKeys(ps)
    decreases |ps|
  {
    if ps != [] {
      var n := |ps| - 1;
      AddedKeys(env, ps[..n], k);
      AssignKeys(AssignAll(env, ps[..n]), ps[n], k);
    }
  }

  /** For a key the environment lacks, the first line assigning it decides
      its value: later lines repeating the key are ignored. */
  lemma {:induction false} FirstAssignmentWins(env: map<string, string>, ps: seq<Assignment>, i: nat, k: string, v: string)
    requires i < |ps| && ps[i] == Some((k, v)) && k !in env
    requires k !in AssignedKeys(ps[..i])
    ensures k in AssignAll(env, ps) && AssignAll(env, ps)[k] == v
    decreases |ps|
  {
    var n := |ps| - 1;
    var before := AssignAll(env, ps[..n]);
    if i == n {
      AddedKeys(env, ps[..n], k);
    } else {
      assert ps[..n][..i] == ps[..i];
      FirstAssignmentWins(env, ps[..n], i, k, v);
    }
    AssignKeys(before, ps[n], k);
  }

  /** How `load_config` ends. A missing file is a `ConfigError` and leaves
      the environment alone; otherwise the `.env` file is applied first, and
      the loader's own exception passes through unchanged. A failed
      interpolation is a `ConfigError` naming a variable that neither the
      environment nor the `.env` file set, and a rejected configuration is
      one too. A loaded configuration is the validation of the interpolated
      data. */
  lemma LoadConfigOutcomes(env: map<string, string>, path: string, fileExists: bool, dotenv: Option<seq<string>>,
                           loaded: Result<Entries>, validate: Entries -> Result<SandboxConfig>)
    ensures var (env', r) := LoadConfigRun(env, path, fileExists, dotenv, loaded, validate);
      && (!fileExists ==> env' == env && r == ConfigError(MissingFilePrefix + path))
      && (fileExists ==> env' == Dotenv(env, dotenv))
      && (r.OtherError? <==> fileExists && loaded.Err?)
      && (r.OtherError? ==> r.message == loaded.error)
      && (fileExists && loaded.Ok? && InterpolateEntries(env', loaded.value).Err? ==>
            r.ConfigError? && exists name :: name !in env' && r.message == InterpolationFailedPrefix + UnsetMessage(name))
      && (r.Loaded? ==> fileExists && loaded.Ok? && InterpolateEntries(env', loaded.value).Ok?
                        && validate(InterpolateEntries(env', loaded.value).value) == Ok(r.config))
  {
    if fileExists && loaded.Ok? {
      EntriesErrNamesUnset(Dotenv(env, dotenv), loaded.value, 0);
    }
  }

  /** An unset name in the failed interpolation is set neither in the
      environment nor by any line of the `.env` file. */
  lemma UnsetNowhere(env: map<string, string>, lines: seq<string>, name: string)
    requires name !in Dotenv(env, Some(lines))
    ensures name !in env && name !in AssignedKeys(Parsed(lines))
  {
    AddedKeys(env, Parsed(lines), name);
  }

  /** A line `KEY=VALUE` with nothing to strip assigns the value whole:
      the split is at the first `=`, so `=` signs in the value are kept. */
  lemma SplitAtFirstEquals(key: string, value: string)
    requires key != [] && key[0] != '#' && !IsSpace(key[0]) && !IsSpace(key[|key| - 1])
    requires forall j :: 0 <= j < |key| ==> key[j] != '='
    requires value != [] ==> !IsSpace(value[0]) && !IsSpace(value[|value| - 1])
    ensures ParseLine(key + "=" + value) == Some((key, value))
  {
    var line := key + "=" + value;
    assert line[0] == key[0];
    assert !IsSpace(line[|line| - 1]) by {
      if value != [] { assert line[|line| - 1] == value[|value| - 1]; }
      else { assert line[|line| - 1] == '='; }
    }
    StripNoPadding(line);
    assert line[..|key|] == key && line[|key| + 1..] == value;
    forall j | 0 <= j < |key| ensures line[j] != '=' {
      assert line[j] == line[..|key|][j];
    }
    FirstEqualsFinds(line, 0, |key|);
    StripNoPadding(key);
    StripNoPadding(value);
  }

  lemma {:induction false} FirstEqualsFinds(s: string, k: nat, idx: nat)
    requires k <= idx < |s| && s[idx] == '=' && forall j :: k <= j < idx ==> s[j] != '='
    ensures FirstEquals(s, k) == Some(idx)
    decreases idx - k
  {
    if k < idx {
      FirstEqualsFinds(s, k + 1, idx);
    }
  }
}

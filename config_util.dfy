/** pkg/config: reading environment variables with a fallback, and reading the secrets
    directory into a map from file name to trimmed file content. The process environment
    and the file system are parameters. */
module ConfigUtil {
  import opened Wrappers
  import opened GoStrings

  /** `os.LookupEnv`: the value of a variable, or None when it is unset. */
  type LookupEnv = string -> Option<string>

  /** What `Env` does: return a value, or call the fatal logger (which ends the process). */
  datatype EnvOutcome = Value(value: string) | Fatal(message: string)

  /** `Config`: the injected lookup. The injected fatal logger is the `Fatal` outcome. */
  datatype Config = Config(osEnv: LookupEnv)

  function FatalMessage(name: string): string {
    "Environment variable is not set: " + name
  }

  /** `Env(name, fallback)`. */
  function Env(c: Config, name: string, fallback: string): (r: EnvOutcome)
    ensures c.osEnv(name).Some? ==> r == Value(c.osEnv(name).value)
    ensures c.osEnv(name).None? && fallback != "" ==> r == Value(fallback)
    ensures c.osEnv(name).None? && fallback == "" ==> r == Fatal(FatalMessage(name))
  {
    match c.osEnv(name)
    case Some(v) => Value(v)
    case None => if fallback != "" then Value(fallback) else Fatal(FatalMessage(name))
  }

  /** `Env` yields the empty string only when the variable is set to it: a fallback is never
      empty, and an unset variable without a fallback is fatal. */
  lemma EnvEmptyOnlyWhenSetEmpty(c: Config, name: string, fallback: string)
    ensures Env(c, name, fallback) == Value("") ==> c.osEnv(name) == Some("")
    ensures Env(c, name, fallback).Fatal? <==> c.osEnv(name).None? && fallback == ""
  {
  }

  /** A lookup backed by a fixed table, as in the tests. */
  function FromTable(env: map<string, string>): LookupEnv {
    (s: string) => if s in env then Some(env[s]) else None
  }

  lemma EnvSuccessfulLookup()
    ensures Env(Config(FromTable(map["ABC" := "123"])), "ABC", "") == Value("123")
  {
  }

  lemma EnvBackupValue()
    ensures Env(Config(FromTable(map[])), "ABC", "EFG") == Value("EFG")
  {
  }

  lemma EnvPanicNotFound()
    ensures Env(Config(FromTable(map[])), "ABC", "") == Fatal("Environment variable is not set: ABC")
  {
  }

  /** `ioutil.ReadDir` (the names of the entries, in the order it lists them) and
      `ioutil.ReadFile`. */
  datatype FileSystem = FileSystem(
    readDir: string -> Result<seq<string>, string>,
    readFile: string -> Result<string, string>)

  /** `filepath.Join(d, n)` for a clean directory path and a plain entry name. */
  function JoinPath(d: string, n: string): string {
    d + "/" + n
  }

  const SecretsDir: string := "/secrets"

  /** A secrets map as `readSecrets` stores it: no key is a dot-file, and every value is the
      content of the file of that name with surrounding white space trimmed. */
  predicate Stored(fs: FileSystem, d: string, m: map<string, string>) {
    forall k :: k in m ==>
      !HasPrefix(k, ".")
      && fs.readFile(JoinPath(d, k)).Success?
      && m[k] == TrimSpace(fs.readFile(JoinPath(d, k)).value)
  }

  /** The loop of `readSecrets` from the entry `names[0]` on, with the entries `acc` already
      stored: the map reached and the error that stopped it, if any. */
  function Collect(fs: FileSystem, d: string, names: seq<string>, acc: map<string, string>)
    : (r: (map<string, string>, Option<string>))
    decreases |names|
  {
    if names == [] then (acc, None)
    else if HasPrefix(names[0], ".") then Collect(fs, d, names[1..], acc)
    else
      match fs.readFile(JoinPath(d, names[0]))
      case Failure(e) => (acc, Some(e))
      case Success(data) => Collect(fs, d, names[1..], acc[names[0] := TrimSpace(data)])
  }

  /** The specification of `readSecrets(d)`. */
  function SecretsOf(fs: FileSystem, d: string): (map<string, string>, Option<string>) {
    match fs.readDir(d)
    case Failure(e) => (map[], Some(e))
    case Success(names) => Collect(fs, d, names, map[])
  }

  /** `readSecrets(d)`. */
  method ReadSecrets(fs: FileSystem, d: string) returns (s: map<string, string>, err: Option<string>)
    ensures (s, err) == SecretsOf(fs, d)
    ensures Stored(fs, d, s)
    ensures fs.readDir(d).Failure? ==> s == map[] && err == Some(fs.readDir(d).error)
  {
    s := map[];
    var files := fs.readDir(d);
    if files.Failure? {
      return s, Some(files.error);
    }
    var names := files.value;
    for i := 0 to |names|
      invariant Collect(fs, d, names, map[]) == Collect(fs, d, names[i..], s)
      invariant Stored(fs, d, s)
    {
      var n := names[i];
      assert names[i..][1..] == names[i + 1..];
      if HasPrefix(n, ".") {
        continue;
      }
      var data := fs.readFile(JoinPath(d, n));
      if data.Failure? {
        return s, Some(data.error);
      }
      s := s[n := TrimSpace(data.value)];
    }
    err := None;
  }

  /** `Secrets()`: the secrets directory `/secrets`. */
  method Secrets(fs: FileSystem) returns (s: map<string, string>, err: Option<string>)
    ensures (s, err) == SecretsOf(fs, SecretsDir)
  {
    s, err := ReadSecrets(fs, SecretsDir);
  }

  /** Every stored entry is a non-dot file whose trimmed content is its value. */
  lemma {:induction false} CollectStored(fs: FileSystem, d: string, names: seq<string>, acc: map<string, string>)
    requires Stored(fs, d, acc)
    ensures Stored(fs, d, Collect(fs, d, names, acc).0)
    decreases |names|
  {
    if names != [] {
      if HasPrefix(names[0], ".") {
        CollectStored(fs, d, names[1..], acc);
      } else if fs.readFile(JoinPath(d, names[0])).Success? {
        var next := acc[names[0] := TrimSpace(fs.readFile(JoinPath(d, names[0])).value)];
        assert Stored(fs, d, next);
        CollectStored(fs, d, names[1..], next);
      }
    }
  }

  /** Every stored key either was already stored or is one of the listed names. */
  lemma {:induction false} CollectKeys(fs: FileSystem, d: string, names: seq<string>, acc: map<string, string>)
    ensures forall k :: k in Collect(fs, d, names, acc).0 ==> k in acc || k in names
    decreases |names|
  {
    if names != [] {
      if HasPrefix(names[0], ".") {
        CollectKeys(fs, d, names[1..], acc);
      } else if fs.readFile(JoinPath(d, names[0])).Success? {
        CollectKeys(fs, d, names[1..], acc[names[0] := TrimSpace(fs.readFile(JoinPath(d, names[0])).value)]);
      }
    }
  }

  /** A name whose file can be read; dot-files do not count. */
  predicate Readable(fs: FileSystem, d: string, n: string) {
    HasPrefix(n, ".") || fs.readFile(JoinPath(d, n)).Success?
  }

  /** Without an error every listed non-dot file is stored, and an error is reported exactly
      when some listed non-dot file cannot be read. */
  lemma {:induction false} CollectComplete(fs: FileSystem, d: string, names: seq<string>, acc: map<string, string>)
    ensures Collect(fs, d, names, acc).1.None? <==> forall k :: 0 <= k < |names| ==> Readable(fs, d, names[k])
    ensures Collect(fs, d, names, acc).1.None? ==>
              forall k :: 0 <= k < |names| && !HasPrefix(names[k], ".") ==> names[k] in Collect(fs, d, names, acc).0
    ensures acc.Keys <= Collect(fs, d, names, acc).0.Keys
    decreases |names|
  {
    if names != [] {
      var tail := names[1..];
      assert forall k :: 1 <= k < |names| ==> names[k] == tail[k - 1];
      if HasPrefix(names[0], ".") {
        CollectComplete(fs, d, tail, acc);
      } else if fs.readFile(JoinPath(d, names[0])).Success? {
        var next := acc[names[0] := TrimSpace(fs.readFile(JoinPath(d, names[0])).value)];
        CollectComplete(fs, d, tail, next);
      }
    }
  }

  /** `readSecrets` stops at the first non-dot file it cannot read, and returns the entries of
      the files before it together with that file's error. */
  lemma {:induction false} CollectStopsAtFirstError(fs: FileSystem, d: string, before: seq<string>, n: string,
                                                    after: seq<string>, acc: map<string, string>)
    requires forall k :: 0 <= k < |before| ==> Readable(fs, d, before[k])
    requires !HasPrefix(n, ".") && fs.readFile(JoinPath(d, n)).Failure?
    ensures Collect(fs, d, before + [n] + after, acc)
            == (Collect(fs, d, before, acc).0, Some(fs.readFile(JoinPath(d, n)).error))
    decreases |before|
  {
    var names := before + [n] + after;
    if before == [] {
      assert names == [n] + after;
    } else {
      var tail := before[1..];
      assert names[0] == before[0] && names[1..] == tail + [n] + after;
      forall k | 0 <= k < |tail| ensures Readable(fs, d, tail[k]) {
        assert tail[k] == before[k + 1];
      }
      assert Readable(fs, d, before[0]);
      if HasPrefix(before[0], ".") {
        CollectStopsAtFirstError(fs, d, tail, n, after, acc);
        assert Collect(fs, d, names, acc) == Collect(fs, d, tail + [n] + after, acc);
        assert Collect(fs, d, before, acc) == Collect(fs, d, tail, acc);
      } else {
        var next := acc[before[0] := TrimSpace(fs.readFile(JoinPath(d, before[0])).value)];
        CollectStopsAtFirstError(fs, d, tail, n, after, next);
        assert Collect(fs, d, names, acc) == Collect(fs, d, tail + [n] + after, next);
        assert Collect(fs, d, before, acc) == Collect(fs, d, tail, next);
      }
    }
  }

  lemma TrimBarNewline()
    ensures TrimSpace("bar\n") == "bar"
  {
    var s := "bar\n";
    assert !IsSpace(s[0]);
    assert SpaceEnd(s, 0) == 0;
    assert IsSpace(s[3]) && !IsSpace(s[2]);
    assert SpaceStart(s, 0, 3) == 3;
    assert SpaceStart(s, 0, 4) == 3;
    assert s[0..3] == "bar";
  }

  /** The directory of the repository's test: a file `foo` and a dot-file `.done`, both
      holding "bar\n"; only `foo` is stored, trimmed to "bar". */
  lemma TestReadSecrets(fs: FileSystem, d: string)
    requires fs.readDir(d) == Success([".done", "foo"])
    requires fs.readFile(JoinPath(d, "foo")) == Success("bar\n")
    requires fs.readFile(JoinPath(d, ".done")) == Success("bar\n")
    ensures SecretsOf(fs, d) == (map["foo" := "bar"], None)
  {
    var names := [".done", "foo"];
    assert HasPrefix(names[0], ".") by { assert names[0][..1] == "."; }
    assert names[1..] == ["foo"];
    assert Collect(fs, d, names, map[]) == Collect(fs, d, ["foo"], map[]);
    assert !HasPrefix("foo", ".") by { assert "foo"[..1] == "f"; }
    TrimBarNewline();
    assert ["foo"][1..] == [];
    assert Collect(fs, d, ["foo"], map[]) == Collect(fs, d, [], map["foo" := "bar"]);
  }
}

/** The test script's `.env` loader and its database settings: the file is
    split into lines, each `KEY=value` line is parsed, and every key the
    environment does not already hold is set; the connection settings are
    then read from the environment with fixed defaults.  The environment is
    a map and the file's text a parameter (`None` when it does not exist). */
module EnvLoader {
  import opened Common
  import opened Text
  import Config

  type Env = map<string, string>

  // ---------------------------------------------------------------------
  // Lines.

  /** The line boundaries of Python's `str.splitlines()`; `\r\n` is one
      boundary. */
  predicate IsLineBreak(c: char) {
    || ('\n' <= c <= '\r')
    || ('\U{1C}' <= c <= '\U{1E}')
    || c == '\U{85}' || c == '\U{2028}' || c == '\U{2029}'
  }

  predicate NoBreak(s: string) {
    forall i :: 0 <= i < |s| ==> !IsLineBreak(s[i])
  }

  /** Splits `s`, `cur` being the part of the current line already read. */
  function SplitLinesFrom(s: string, cur: string): (r: seq<string>)
    requires NoBreak(cur)
    ensures forall i :: 0 <= i < |r| ==> NoBreak(r[i])
    decreases |s|
  {
    if s == [] then (if cur == [] then [] else [cur])
    else if s[0] == '\r' && |s| > 1 && s[1] == '\n' then [cur] + SplitLinesFrom(s[2..], [])
    else if IsLineBreak(s[0]) then [cur] + SplitLinesFrom(s[1..], [])
    else SplitLinesFrom(s[1..], cur + [s[0]])
  }

  /** `str.splitlines()`: the lines without their terminators; a final
      terminator does not start an empty line. */
  function SplitLines(s: string): (r: seq<string>)
    ensures forall i :: 0 <= i < |r| ==> NoBreak(r[i])
  {
    SplitLinesFrom(s, [])
  }

  /** Lines written one after another, each ended by `\n`. */
  function Terminated(ls: seq<string>): string {
    if ls == [] then "" else ls[0] + "\n" + Terminated(ls[1..])
  }

  lemma {:induction false} SplitTerminatedLine(x: string, rest: string, cur: string)
    requires NoBreak(cur) && NoBreak(x)
    ensures SplitLinesFrom(x + "\n" + rest, cur) == [cur + x] + SplitLinesFrom(rest, [])
    decreases |x|
  {
    var s := x + "\n" + rest;
    if x == [] {
      assert s == "\n" + rest;
      assert s[1..] == rest;
      assert cur + x == cur;
    } else {
      assert s[0] == x[0];
      assert s[1..] == x[1..] + "\n" + rest;
      SplitTerminatedLine(x[1..], rest, cur + [x[0]]);
      assert cur + [x[0]] + x[1..] == cur + x;
    }
  }

  /** Lines free of line breaks, each written with a `\n`, are split back
      into exactly those lines. */
  lemma {:induction false} SplitLinesTerminated(ls: seq<string>)
    requires forall i :: 0 <= i < |ls| ==> NoBreak(ls[i])
    ensures SplitLines(Terminated(ls)) == ls
    decreases |ls|
  {
    if ls != [] {
      SplitTerminatedLine(ls[0], Terminated(ls[1..]), []);
      assert [] + ls[0] == ls[0];
      SplitLinesTerminated(ls[1..]);
      assert [ls[0]] + ls[1..] == ls;
    }
  }

  // ---------------------------------------------------------------------
  // Entries.

  datatype Entry = Entry(key: string, value: string)

  /** A stripped line: blank lines, `#` comments and lines without `=` are
      skipped; otherwise split at the first `=`, both sides stripped. */
  function ParseStripped(l: string): (r: Option<Entry>)
    ensures r.Some? <==> l != [] && l[0] != '#' && '=' in l
    ensures r.Some? ==> Stripped(r.value.key) && Stripped(r.value.value) && '=' !in r.value.key
  {
    if l == [] || l[0] == '#' || '=' !in l then None
    else
      var k := IndexOf(l, '=');
      var key := Strip(l[..k]);
      assert '=' !in key by {
        forall i | 0 <= i < |key| ensures key[i] != '=' {
          assert key[i] in l[..k];
        }
      }
      Some(Entry(key, Strip(l[k + 1..])))
  }

  /** One line of the file, stripped first. */
  function ParseEntry(line: string): (r: Option<Entry>)
    ensures r.Some? <==> var l := Strip(line); l != [] && l[0] != '#' && '=' in l
    ensures r.Some? ==> Stripped(r.value.key) && Stripped(r.value.value) && '=' !in r.value.key
  {
    ParseStripped(Strip(line))
  }

  /** Text `head=rest`, with no `=` in `head`, splits there. */
  lemma ParseStrippedSplit(head: string, rest: string)
    requires '=' !in head && (head == [] || head[0] != '#')
    ensures ParseStripped(head + "=" + rest) == Some(Entry(Strip(head), Strip(rest)))
  {
    var l := head + "=" + rest;
    assert l != [] && l[0] != '#' && '=' in l by {
      assert l[|head|] == '=';
      if head == [] { assert l[0] == '='; } else { assert l[0] == head[0]; }
    }
    assert IndexOf(l, '=') == |head| by {
      Assoc(head, "=", rest);
      IndexOfAfter(head, '=', "=" + rest);
    }
    assert l[..|head|] == head && l[|head| + 1..] == rest by {
      Slices(head, "=", rest);
    }
  }

  /** Stripping a padded `KEY = value` line leaves the text from the key's
      first character to the value's last. */
  lemma StripEntryLine(pre: string, key: string, sp1: string, sp2: string, value: string, post: string)
    requires AllSpace(pre) && AllSpace(post)
    requires key != [] && Stripped(key) && value != [] && Stripped(value)
    ensures Strip(pre + key + sp1 + "=" + sp2 + value + post) == key + sp1 + "=" + sp2 + value
  {
    var x := key + sp1 + "=" + sp2 + value;
    assert Stripped(x) by {
      assert x[0] == key[0];
      assert x[|x| - 1] == value[|value| - 1];
    }
    assert pre + key + sp1 + "=" + sp2 + value + post == pre + x + post;
    StripPadded(pre, x, post);
  }

  /** Whitespace after a key or before a value is stripped away. */
  lemma StripSides(key: string, sp1: string, sp2: string, value: string)
    requires AllSpace(sp1) && AllSpace(sp2)
    requires key != [] && Stripped(key) && value != [] && Stripped(value)
    ensures Strip(key + sp1) == key && Strip(sp2 + value) == value
  {
    var none: string := [];
    assert none + key == key;
    StripPadded(none, key, sp1);
    assert sp2 + value + none == sp2 + value;
    StripPadded(sp2, value, none);
  }

  /** A line `KEY = value` with any whitespace around the key, the `=` and
      the value is read as exactly that key and value. */
  lemma ParseEntryPadded(pre: string, key: string, sp1: string, sp2: string, value: string, post: string)
    requires AllSpace(pre) && AllSpace(sp1) && AllSpace(sp2) && AllSpace(post)
    requires key != [] && Stripped(key) && '=' !in key && key[0] != '#'
    requires value != [] && Stripped(value)
    ensures ParseEntry(pre + key + sp1 + "=" + sp2 + value + post) == Some(Entry(key, value))
  {
    var head := key + sp1;
    var rest := sp2 + value;
    StripEntryLine(pre, key, sp1, sp2, value, post);
    Assoc(head + "=", sp2, value);
    assert '=' !in head by {
      SpacesHaveNoEquals(sp1);
    }
    assert head[0] == key[0];
    StripSides(key, sp1, sp2, value);
    ParseStrippedSplit(head, rest);
  }

  lemma SpacesHaveNoEquals(sp: string)
    requires AllSpace(sp)
    ensures '=' !in sp
  {
  }

  /** The entries of the file's lines, in order. */
  function Entries(lines: seq<string>): (r: seq<Entry>)
    ensures |r| <= |lines|
  {
    if lines == [] then []
    else match ParseEntry(lines[0])
      case Some(e) => [e] + Entries(lines[1..])
      case None => Entries(lines[1..])
  }

  // ---------------------------------------------------------------------
  // Setting the environment.

  /** What `os.environ[key] = value` refuses with a ValueError: an empty key
      or an embedded NUL in either part. */
  predicate Illegal(e: Entry) {
    e.key == [] || '\0' in e.key || '\0' in e.value
  }

  /** The environment after loading, and whether a ValueError stopped the
      loop (the keys set before it stay set). */
  datatype EnvResult = EnvResult(env: Env, raised: bool)

  /** `os.environ.setdefault` for each entry in turn. */
  function Apply(env: Env, entries: seq<Entry>): (r: EnvResult)
    ensures env.Keys <= r.env.Keys
    ensures forall k :: k in env ==> r.env[k] == env[k]
    decreases |entries|
  {
    if entries == [] then EnvResult(env, false)
    else
      var e := entries[0];
      if e.key in env then Apply(env, entries[1..])
      else if Illegal(e) then EnvResult(env, true)
      else Apply(env[e.key := e.value], entries[1..])
  }

  /** `load_env`: a missing file changes nothing. */
  function LoadEnv(env: Env, file: Option<string>): (r: EnvResult)
    ensures file.None? ==> r == EnvResult(env, false)
    ensures env.Keys <= r.env.Keys
    ensures forall k :: k in env ==> r.env[k] == env[k]
  {
    match file
    case None => EnvResult(env, false)
    case Some(text) => Apply(env, Entries(SplitLines(text)))
  }

  /** The value the first entry for `k` gives, if any. */
  function FirstWith(entries: seq<Entry>, k: string): Option<string> {
    if entries == [] then None
    else if entries[0].key == k then Some(entries[0].value)
    else FirstWith(entries[1..], k)
  }

  /** Without a ValueError, the environment afterwards holds every key it
      held before with its old value, and each other key the file names with
      the value of that key's first entry; nothing else. */
  lemma {:induction false} FirstEntryWins(env: Env, entries: seq<Entry>)
    ensures var r := Apply(env, entries);
      !r.raised ==> forall k :: (k in r.env <==> k in env || FirstWith(entries, k).Some?)
    ensures var r := Apply(env, entries);
      !r.raised ==> forall k :: k in r.env && k !in env ==> r.env[k] == FirstWith(entries, k).value
    decreases |entries|
  {
    if entries != [] {
      var e := entries[0];
      var tail := entries[1..];
      if e.key in env {
        FirstEntryWins(env, tail);
      } else if !Illegal(e) {
        FirstEntryWins(env[e.key := e.value], tail);
      }
    }
  }

  /** Entry `i` is the first for its key and that key is new. */
  predicate FreshAt(env: Env, entries: seq<Entry>, i: nat)
    requires i < |entries|
  {
    entries[i].key !in env && forall j :: 0 <= j < i ==> entries[j].key != entries[i].key
  }

  /** A ValueError is raised exactly when some new key's first entry is
      illegal; an illegal entry for a key already set is skipped. */
  lemma {:induction false} RaisesIffFreshIllegal(env: Env, entries: seq<Entry>)
    ensures Apply(env, entries).raised <==>
      exists i :: 0 <= i < |entries| && FreshAt(env, entries, i) && Illegal(entries[i])
    decreases |entries|
  {
    if entries != [] {
      var e := entries[0];
      var tail := entries[1..];
      var env' := if e.key in env || Illegal(e) then env else env[e.key := e.value];
      if !(e.key !in env && Illegal(e)) {
        RaisesIffFreshIllegal(env', tail);
        // Entry i + 1 of `entries` is entry i of `tail`, and it is fresh in
        // one exactly when it is fresh in the other.
        forall i | 0 <= i < |tail|
          ensures FreshAt(env', tail, i) <==> FreshAt(env, entries, i + 1)
        {
          assert tail[i] == entries[i + 1];
          assert (forall j :: 0 <= j < i ==> tail[j].key != tail[i].key) <==>
                 (forall j :: 1 <= j < i + 1 ==> entries[j].key != entries[i + 1].key) by {
            assert forall j :: 0 <= j < i ==> tail[j] == entries[j + 1];
          }
        }
        if exists i :: 0 <= i < |entries| && FreshAt(env, entries, i) && Illegal(entries[i]) {
          var i :| 0 <= i < |entries| && FreshAt(env, entries, i) && Illegal(entries[i]);
          assert i != 0;
          assert FreshAt(env', tail, i - 1) && Illegal(tail[i - 1]);
        }
        if exists i :: 0 <= i < |tail| && FreshAt(env', tail, i) && Illegal(tail[i]) {
          var i :| 0 <= i < |tail| && FreshAt(env', tail, i) && Illegal(tail[i]);
          assert FreshAt(env, entries, i + 1) && Illegal(entries[i + 1]);
        }
      } else {
        assert FreshAt(env, entries, 0);
      }
    }
  }

  // ---------------------------------------------------------------------
  // The database settings.

  datatype DbConfig = DbConfig(dbname: string, user: string, password: string, host: string, port: string)

  /** `os.getenv(key, default)`: a set variable wins, even when empty. */
  function GetEnv(env: Env, key: string, default: string): (r: string)
    ensures key in env ==> r == env[key]
    ensures key !in env ==> r == default
  {
    if key in env then env[key] else default
  }

  /** `DB_CONFIG`, read from the environment after loading. */
  function ReadDbConfig(env: Env): DbConfig {
    DbConfig(GetEnv(env, "POSTGRES_DB", "sensing_db"),
             GetEnv(env, "POSTGRES_USER", "postgres"),
             GetEnv(env, "POSTGRES_PASSWORD", "dev_password"),
             GetEnv(env, "POSTGRES_HOST", "localhost"),
             GetEnv(env, "POSTGRES_PORT", "5433"))
  }

  /** With nothing set, the script connects with the same defaults the
      backend's settings declare. */
  lemma DbDefaultsMatchBackend()
    ensures var c := ReadDbConfig(map[]);
      && c.dbname == Config.DefaultSettings.postgresDb
      && c.user == Config.DefaultSettings.postgresUser
      && c.password == Config.DefaultSettings.postgresPassword
      && c.host == Config.DefaultSettings.postgresHost
      && ParseInt(c.port) == Some(Config.DefaultSettings.postgresPort)
  {
    assert "5433" == IntToString(5433);
    ParseIntToString(5433);
  }

  /** A variable already in the environment beats the `.env` file: the
      port the script uses is the environment's whatever the file says. */
  lemma EnvironmentBeatsFile(env: Env, file: Option<string>)
    requires "POSTGRES_PORT" in env
    ensures ReadDbConfig(LoadEnv(env, file).env).port == env["POSTGRES_PORT"]
  {
  }
}

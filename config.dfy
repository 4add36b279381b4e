/**
 * `ConfigManager`: dot-path reads and writes over the nested configuration
 * dictionary, resolution of the API key, and the rewrite of the `.env` lines
 * that stores a new key.
 */
module Config {
  import opened Wrappers
  import opened PyText
  import opened Values

  datatype ConfigError = KeyNotFound(path: string) | NotSubscriptable | ApiKeyNotConfigured

  /**
   * `value = value[key]` for each key in turn. None stands for the KeyError of a
   * missing key and for the TypeError of subscripting anything but a dict with a string.
   */
  function Walk(v: Value, keys: seq<string>): (r: Option<Value>)
    ensures keys == [] ==> r == Some(v)
    ensures keys != [] && r.Some? ==> v.VDict? && keys[0] in v.fields
  {
    if keys == [] then Some(v)
    else
      match v
      case VDict(m) => if keys[0] in m then Walk(m[keys[0]], keys[1..]) else None
      case _ => None
  }

  /** Walking a path in two pieces is walking the first and then the second from where it ends. */
  lemma {:induction false} WalkAppend(v: Value, p: seq<string>, q: seq<string>)
    ensures Walk(v, p + q) == match Walk(v, p) case None => None case Some(w) => Walk(w, q)
  {
    if p != [] {
      assert (p + q)[0] == p[0] && (p + q)[1..] == p[1..] + q;
      if v.VDict? && p[0] in v.fields {
        WalkAppend(v.fields[p[0]], p[1..], q);
      }
    } else {
      assert p + q == q;
    }
  }

  /**
   * `get(key_path, default)` on the root dictionary `root`; a `default` of None is `VNull`.
   * A path that walks through gives its value; otherwise the default, or a KeyError naming the
   * path when there is none.
   */
  function Lookup(root: map<string, Value>, path: string, default: Value): (r: Result<Value, ConfigError>)
    ensures default != VNull ==> r.Ok?
    ensures r.Err? <==> Walk(VDict(root), Split(path, '.')).None? && default == VNull
    ensures r.Err? ==> r.error == KeyNotFound(path)
    ensures Walk(VDict(root), Split(path, '.')).Some? ==> r == Ok(Walk(VDict(root), Split(path, '.')).value)
    ensures r.Ok? && Walk(VDict(root), Split(path, '.')).None? ==> r.value == default
  {
    match Walk(VDict(root), Split(path, '.'))
    case Some(v) => Ok(v)
    case None => if default == VNull then Err(KeyNotFound(path)) else Ok(default)
  }

  /**
   * The write that `set` performs at `keys` below the dictionary `m`: a missing
   * intermediate is created as `{}`, an existing dict is descended into, and an
   * existing non-dict intermediate makes the write raise (None) before anything
   * has been created.
   */
  function Assign(m: map<string, Value>, keys: seq<string>, value: Value): (r: Option<map<string, Value>>)
    requires |keys| >= 1
    ensures r.Some? ==> r.value.Keys == m.Keys + {keys[0]}
    ensures r.Some? ==> forall k :: k in m && k != keys[0] ==> r.value[k] == m[k]
    ensures r.Some? && |keys| == 1 ==> r.value[keys[0]] == value
    ensures r.Some? && |keys| > 1 ==> r.value[keys[0]].VDict?
    decreases |keys|
  {
    if |keys| == 1 then Some(m[keys[0] := value])
    else
      var inner := if keys[0] in m then m[keys[0]] else VDict(map[]);
      match inner
      case VDict(sub) =>
        (match Assign(sub, keys[1..], value)
         case None => None
         case Some(sub2) => Some(m[keys[0] := VDict(sub2)]))
      case _ => None
  }

  /** Some proper prefix of `keys` already leads to a value that is not a dict. */
  predicate Blocked(m: map<string, Value>, keys: seq<string>) {
    exists j :: 1 <= j < |keys| && Walk(VDict(m), keys[..j]).Some? && !Walk(VDict(m), keys[..j]).value.VDict?
  }

  /** `set` raises exactly when an existing intermediate on the path is not a dict. */
  lemma {:induction false} AssignFailsIffBlocked(m: map<string, Value>, keys: seq<string>, value: Value)
    requires |keys| >= 1
    ensures Assign(m, keys, value).None? <==> Blocked(m, keys)
    decreases |keys|
  {
    if |keys| > 1 {
      var k := keys[0];
      var inner := if k in m then m[k] else VDict(map[]);
      assert keys[..1] == [k];
      if inner.VDict? {
        AssignFailsIffBlocked(inner.fields, keys[1..], value);
        if k in m {
          // a prefix of `keys` of length j + 1 walks through `inner` along `keys[1..][..j]`
          forall j | 1 <= j < |keys|
            ensures Walk(VDict(m), keys[..j]) == Walk(inner, keys[1..][..j - 1])
          {
            assert keys[..j] == [k] + keys[1..][..j - 1];
            WalkAppend(VDict(m), [k], keys[1..][..j - 1]);
          }
          if Blocked(inner.fields, keys[1..]) {
            var j :| 1 <= j < |keys[1..]| && Walk(inner, keys[1..][..j]).Some? && !Walk(inner, keys[1..][..j]).value.VDict?;
            assert Walk(VDict(m), keys[..j + 1]) == Walk(inner, keys[1..][..j]);
          }
          if Blocked(m, keys) {
            var j :| 1 <= j < |keys| && Walk(VDict(m), keys[..j]).Some? && !Walk(VDict(m), keys[..j]).value.VDict?;
            assert j > 1;
            assert Walk(inner, keys[1..][..j - 1]).Some?;
          }
        } else {
          NothingBelowAbsent(m, keys);
          NeverBlockedInEmpty(keys[1..]);
        }
      } else {
        assert Walk(VDict(m), keys[..1]) == Some(inner);
      }
    }
  }

  /** Below a missing key every walk fails, so nothing there is blocked. */
  lemma NothingBelowAbsent(m: map<string, Value>, keys: seq<string>)
    requires |keys| >= 1 && keys[0] !in m
    ensures !Blocked(m, keys)
  {
    forall j | 1 <= j < |keys|
      ensures Walk(VDict(m), keys[..j]).None?
    {
      assert keys[..j][0] == keys[0];
    }
  }

  /** Writing into a fresh `{}` never raises. */
  lemma {:induction false} NeverBlockedInEmpty(keys: seq<string>)
    requires |keys| >= 1
    ensures !Blocked(map[], keys)
  {
    forall j | 1 <= j < |keys|
      ensures Walk(VDict(map[]), keys[..j]).None?
    {
    }
  }

  /** After a successful write, reading the same path gives the value written. */
  lemma {:induction false} WalkAfterAssign(m: map<string, Value>, keys: seq<string>, value: Value)
    requires |keys| >= 1 && Assign(m, keys, value).Some?
    ensures Walk(VDict(Assign(m, keys, value).value), keys) == Some(value)
    decreases |keys|
  {
    if |keys| > 1 {
      var inner := if keys[0] in m then m[keys[0]] else VDict(map[]);
      WalkAfterAssign(inner.fields, keys[1..], value);
    }
  }

  /** `get` after a successful `set` of the same path gives the value set, whatever the default. */
  lemma LookupAfterAssign(m: map<string, Value>, path: string, value: Value, default: Value)
    requires Assign(m, Split(path, '.'), value).Some?
    ensures Lookup(Assign(m, Split(path, '.'), value).value, path, default) == Ok(value)
  {
    WalkAfterAssign(m, Split(path, '.'), value);
  }

  /** `get` of a path that parts ways with the one `set` wrote reads what it read before. */
  lemma LookupKeepsOthers(m: map<string, Value>, path: string, value: Value, other: string, default: Value)
    requires Assign(m, Split(path, '.'), value).Some?
    requires Diverge(Split(path, '.'), Split(other, '.'))
    ensures Lookup(Assign(m, Split(path, '.'), value).value, other, default) == Lookup(m, other, default)
  {
    AssignKeepsOthers(m, Split(path, '.'), value, Split(other, '.'));
  }

  /** `p` and `q` part ways: at some level they name different keys after a common prefix. */
  predicate Diverge(p: seq<string>, q: seq<string>)
    decreases |p|
  {
    |p| >= 1 && |q| >= 1 && (p[0] != q[0] || Diverge(p[1..], q[1..]))
  }

  /**
   * A write changes nothing off its own path: every path that leaves `keys` at
   * some level reads the same before and after (siblings at every level are untouched).
   */
  lemma {:induction false} AssignKeepsOthers(m: map<string, Value>, keys: seq<string>, value: Value, q: seq<string>)
    requires |keys| >= 1 && Assign(m, keys, value).Some?
    requires Diverge(keys, q)
    ensures Walk(VDict(Assign(m, keys, value).value), q) == Walk(VDict(m), q)
    decreases |keys|
  {
    var m2 := Assign(m, keys, value).value;
    if keys[0] != q[0] {
      assert q[0] in m2 <==> q[0] in m;
      if q[0] in m {
        assert m2[q[0]] == m[q[0]];
      }
    } else {
      var inner := if keys[0] in m then m[keys[0]] else VDict(map[]);
      var sub2 := Assign(inner.fields, keys[1..], value).value;
      assert m2[keys[0]] == VDict(sub2);
      AssignKeepsOthers(inner.fields, keys[1..], value, q[1..]);
      if keys[0] !in m {
        EmptyWalk(q[1..]);
      }
    }
  }

  /** Every non-empty walk in `{}` fails. */
  lemma EmptyWalk(q: seq<string>)
    requires q != []
    ensures Walk(VDict(map[]), q).None?
  {
  }

  /** The configuration store: the root dictionary loaded from the JSON file. */
  class ConfigManager {
    var config: map<string, Value>

    constructor(loaded: map<string, Value>)
      ensures config == loaded
    {
      config := loaded;
    }

    /** `get(key_path, default)` */
    function Get(path: string, default: Value): (r: Result<Value, ConfigError>)
      reads this
      ensures default != VNull ==> r.Ok?
      ensures r.Err? ==> r.error == KeyNotFound(path)
    {
      Lookup(config, path, default)
    }

    /** `set(key_path, value)`: on a non-dict intermediate the TypeError leaves the configuration as it was. */
    method Set(path: string, value: Value) returns (r: Result<(), ConfigError>)
      modifies this
      ensures var res := Assign(old(config), Split(path, '.'), value);
              (res.Some? ==> r.Ok? && config == res.value)
              && (res.None? ==> r == Err(NotSubscriptable) && config == old(config))
    {
      var keys := Split(path, '.');
      var res := Assign(config, keys, value);
      if res.None? {
        return Err(NotSubscriptable);
      }
      config := res.value;
      return Ok(());
    }

    /**
     * `get_api_key`, `env` being the value of `GENAI_API_KEY` in the process
     * environment ("" when unset): the environment wins when non-empty, the
     * configuration (with default "") is the fallback, and an empty or
     * placeholder key raises.
     */
    function GetApiKey(env: string): (r: Result<Value, ConfigError>)
      reads this
      ensures r.Ok? ==> Truthy(r.value) && r.value != VStr(PlaceholderKey)
      ensures r.Err? ==> r.error == ApiKeyNotConfigured
      ensures env != "" ==> (r.Ok? <==> env != PlaceholderKey) && (r.Ok? ==> r.value == VStr(env))
      ensures env == "" ==> var stored := Walk(VDict(config), ["api", "genai_api_key"]);
                           (r.Ok? <==> stored.Some? && Truthy(stored.value) && stored.value != VStr(PlaceholderKey))
                           && (r.Ok? ==> r.value == stored.value)
    {
      ApiKeyPath();
      var key := if env != "" then VStr(env) else Get("api.genai_api_key", VStr("")).value;
      if !Truthy(key) || key == VStr(PlaceholderKey) then Err(ApiKeyNotConfigured) else Ok(key)
    }
  }

  /** The dotted path of the stored key names the section `api` and the key `genai_api_key`. */
  lemma ApiKeyPath()
    ensures Split("api.genai_api_key", '.') == ["api", "genai_api_key"]
  {
    KeyNameAlone();
    ApiKeySplitsOnce();
  }

  lemma KeyNameAlone()
    ensures Split("genai_api_key", '.') == ["genai_api_key"]
  {
    SplitNoSep("genai_api_key", '.');
  }

  lemma ApiKeySplitsOnce()
    ensures Split("api.genai_api_key", '.') == ["api"] + Split("genai_api_key", '.')
  {
    SplitPrefix("api", "genai_api_key", '.');
    ApiKeyJoined();
  }

  lemma ApiKeyJoined()
    ensures "api" + ['.'] + "genai_api_key" == "api.genai_api_key"
  {
  }

  const PlaceholderKey: string := "your_api_key_here"

  const KeyPrefix: string := "GENAI_API_KEY="

  /** The line `set_api_key` writes. */
  function KeyLine(key: string): string {
    KeyPrefix + key + "\n"
  }

  /** A line that defines the key: its stripped form starts with `GENAI_API_KEY=`. */
  predicate IsKeyLine(line: string) {
    StartsWith(Strip(line), KeyPrefix)
  }

  predicate AnyKeyLine(lines: seq<string>) {
    exists i :: 0 <= i < |lines| && IsKeyLine(lines[i])
  }

  /** One line of the rewrite: a key line is replaced, any other line kept. */
  function RewriteLine(line: string, key: string): string {
    if IsKeyLine(line) then KeyLine(key) else line
  }

  /**
   * `out` is the line list `set_api_key` builds from `lines`: each key line replaced, every other
   * line kept as it is, and the key line appended when there was none.
   */
  predicate IsRewriteOf(lines: seq<string>, key: string, out: seq<string>) {
    |out| == |lines| + (if AnyKeyLine(lines) then 0 else 1)
    && (forall i :: 0 <= i < |lines| ==> out[i] == RewriteLine(lines[i], key))
    && (!AnyKeyLine(lines) ==> out[|lines|] == KeyLine(key))
  }

  /** The line rewrite of `set_api_key` over the lines of the `.env` file (none when it does not exist), as written. */
  method RewriteEnvLines(lines: seq<string>, key: string) returns (out: seq<string>)
    ensures IsRewriteOf(lines, key, out)
  {
    out := [];
    var found := false;
    var i := 0;
    while i < |lines|
      invariant 0 <= i <= |lines| && |out| == i
      invariant forall j :: 0 <= j < i ==> out[j] == RewriteLine(lines[j], key)
      invariant found <==> AnyKeyLine(lines[..i])
    {
      AnyKeyLineStep(lines, i);
      if IsKeyLine(lines[i]) {
        out := out + [KeyLine(key)];
        found := true;
      } else {
        out := out + [lines[i]];
      }
      i := i + 1;
    }
    assert lines[..|lines|] == lines;
    if !found {
      out := out + [KeyLine(key)];
    }
  }

  lemma AnyKeyLineStep(lines: seq<string>, i: nat)
    requires i < |lines|
    ensures AnyKeyLine(lines[..i + 1]) <==> AnyKeyLine(lines[..i]) || IsKeyLine(lines[i])
  {
    var p := lines[..i + 1];
    assert p[i] == lines[i];
    assert forall j :: 0 <= j < i ==> p[j] == lines[..i][j];
  }

  /** The written line is itself recognised as the key's line. */
  lemma KeyLineIsKeyLine(key: string)
    ensures IsKeyLine(KeyLine(key))
  {
    var line := KeyLine(key);
    assert line[0] == 'G';
    assert TrimStart(line) == line;
    TrimEndKeeps(line, |KeyPrefix| - 1);
    var t := TrimEnd(line);
    assert t[..|KeyPrefix|] == line[..|KeyPrefix|];
  }

  /**
   * The rewritten line list holds a key line, and every key line in it carries the new key.
   * (Whether the file written from it does is another matter: see `AsWrittenLosesKey`.)
   */
  lemma RewriteDefinesKey(lines: seq<string>, key: string, out: seq<string>)
    requires IsRewriteOf(lines, key, out)
    ensures AnyKeyLine(out)
    ensures forall i :: 0 <= i < |out| && IsKeyLine(out[i]) ==> out[i] == KeyLine(key)
  {
    KeyLineIsKeyLine(key);
    forall i | 0 <= i < |lines|
      ensures IsKeyLine(out[i]) ==> out[i] == KeyLine(key)
      ensures IsKeyLine(lines[i]) ==> IsKeyLine(out[i])
    {
      RewrittenLine(lines[i], key);
    }
    if AnyKeyLine(lines) {
      var i :| 0 <= i < |lines| && IsKeyLine(lines[i]);
      assert IsKeyLine(out[i]);
    } else {
      assert IsKeyLine(out[|lines|]);
    }
  }

  /** A rewritten line is a key line exactly when the original was, and then it is the new key's line. */
  lemma RewrittenLine(line: string, key: string)
    ensures IsKeyLine(RewriteLine(line, key)) <==> IsKeyLine(line)
    ensures IsKeyLine(line) ==> RewriteLine(line, key) == KeyLine(key)
  {
    KeyLineIsKeyLine(key);
  }

  // ---------------------------------------------------------------------
  // The `.env` file as text

  /** The length of the first line of `text`: up to and including the first `\n`, or all of it. */
  function LineLength(text: string): (n: nat)
    requires text != []
    ensures 1 <= n <= |text|
    ensures forall k :: 0 <= k < n - 1 ==> text[k] != '\n'
    ensures n < |text| ==> text[n - 1] == '\n'
  {
    if text[0] == '\n' || |text| == 1 then 1 else 1 + LineLength(text[1..])
  }

  /**
   * The lines `for line in f` yields from `text`, the file's contents after text mode's
   * newline translation (`\r\n` and `\r` already turned into `\n`): each runs up to and
   * including a `\n`, and a text that does not end in `\n` has a last line without one.
   */
  function FileLines(text: string): (r: seq<string>)
    decreases |text|
  {
    if text == [] then [] else [text[..LineLength(text)]] + FileLines(text[LineLength(text)..])
  }

  /** `f.writelines(lines)`: the lines one after another, nothing added between them. */
  function Concat(lines: seq<string>): string {
    if lines == [] then [] else lines[0] + Concat(lines[1..])
  }

  /** A line as a file holds it: non-empty, with a `\n` at most as its last character. */
  predicate IsLine(l: string) {
    l != [] && forall k :: 0 <= k < |l| - 1 ==> l[k] != '\n'
  }

  predicate Terminated(l: string) {
    l != [] && l[|l| - 1] == '\n'
  }

  /** Lines that read back as they are written: every one a line, every one but the last terminated. */
  predicate LineList(ls: seq<string>) {
    (forall i :: 0 <= i < |ls| ==> IsLine(ls[i])) && (forall i :: 0 <= i < |ls| - 1 ==> Terminated(ls[i]))
  }

  /** Reading a text gives a line list, and writing it back gives the text. */
  lemma FileLinesRoundTrip(text: string)
    ensures LineList(FileLines(text))
    ensures Concat(FileLines(text)) == text
  {
    FileLinesAreLines(text);
    ConcatFileLines(text);
  }

  lemma {:induction false} FileLinesAreLines(text: string)
    ensures LineList(FileLines(text))
    decreases |text|
  {
    if text != [] {
      var n := LineLength(text);
      FileLinesAreLines(text[n..]);
      ConsLineList(text[..n], FileLines(text[n..]));
    }
  }

  lemma {:induction false} ConcatFileLines(text: string)
    ensures Concat(FileLines(text)) == text
    decreases |text|
  {
    if text != [] {
      var n := LineLength(text);
      var head, tail := text[..n], text[n..];
      assert text == head + tail;
      ConcatFileLines(tail);
      assert FileLines(text) == [head] + FileLines(tail);
      ConcatCons(head, FileLines(tail));
    }
  }

  lemma ConcatCons(l: string, ls: seq<string>)
    ensures Concat([l] + ls) == l + Concat(ls)
  {
    assert ([l] + ls)[1..] == ls;
  }

  /** A line in front of a line list is a line list again, when it is terminated or alone. */
  lemma ConsLineList(l: string, ls: seq<string>)
    requires IsLine(l) && (Terminated(l) || ls == []) && LineList(ls)
    ensures LineList([l] + ls)
  {
    assert forall i :: 1 <= i < |ls| + 1 ==> ([l] + ls)[i] == ls[i - 1];
  }

  /** The first line of a written line list is the first line written. */
  lemma {:induction false} LineLengthOf(l: string, rest: string)
    requires IsLine(l) && (Terminated(l) || rest == [])
    ensures LineLength(l + rest) == |l|
    decreases |l|
  {
    if |l| > 1 {
      assert (l + rest)[1..] == l[1..] + rest;
      LineLengthOf(l[1..], rest);
    }
  }

  /** Writing a line list and reading the text back gives the same lines. */
  lemma {:induction false} FileLinesOfConcat(ls: seq<string>)
    requires LineList(ls)
    ensures FileLines(Concat(ls)) == ls
    decreases |ls|
  {
    if ls != [] {
      var rest := Concat(ls[1..]);
      assert Concat(ls) == ls[0] + rest;
      if |ls| == 1 {
        assert rest == [];
      }
      LineLengthOf(ls[0], rest);
      assert (ls[0] + rest)[..|ls[0]|] == ls[0] && (ls[0] + rest)[|ls[0]|..] == rest;
      assert LineList(ls[1..]) by {
        assert forall i :: 0 <= i < |ls| - 1 ==> ls[1..][i] == ls[i + 1];
      }
      FileLinesOfConcat(ls[1..]);
    }
  }

  /** The `.env` lines `set_api_key` reads from the translated text `file`: none when the file does not exist. */
  function EnvLines(file: Option<string>): seq<string> {
    if file.None? then [] else FileLines(file.value)
  }

  /**
   * As written, a `.env` whose last line has no `\n` and defines no key gets the key line glued
   * to that last line: the file `FOO=bar` becomes `FOO=barGENAI_API_KEY=k\n`, which defines no key.
   */
  lemma AsWrittenLosesKey(out: seq<string>)
    requires IsRewriteOf(EnvLines(Some("FOO=bar")), "k", out)
    ensures Concat(out) == "FOO=barGENAI_API_KEY=k\n"
    ensures !AnyKeyLine(FileLines(Concat(out)))
  {
    var foo := "FOO=bar";
    assert IsLine(foo) && !Terminated(foo);
    SingleLine(foo);
    NotKeyLine(foo);
    var kl := KeyLine("k");
    RewriteOfPlainLine(foo, "k", out);
    ConcatPair(foo, kl);
    var w := foo + kl;
    GluedText();
    KeyLineIsLine("k");
    GlueLines(foo, kl);
    SingleLine(w);
    assert w[0] == 'F';
    NotKeyLine(w);
  }

  /** A file of one line that defines no key is rewritten as that line followed by the key line. */
  lemma RewriteOfPlainLine(l: string, key: string, out: seq<string>)
    requires !IsKeyLine(l) && IsRewriteOf([l], key, out)
    ensures out == [l, KeyLine(key)]
  {
    assert !AnyKeyLine([l]);
  }

  lemma GluedText()
    ensures "FOO=bar" + KeyLine("k") == "FOO=barGENAI_API_KEY=k\n"
  {
  }

  /** A single line reads back as itself. */
  lemma SingleLine(l: string)
    requires IsLine(l)
    ensures FileLines(l) == [l] && EnvLines(Some(l)) == [l]
  {
    assert [l][1..] == [];
    assert Concat([l]) == l + Concat([]);
    assert l + Concat([]) == l;
    assert LineList([l]);
    FileLinesOfConcat([l]);
  }

  lemma ConcatPair(a: string, b: string)
    ensures Concat([a, b]) == a + b
  {
    assert [a, b][1..] == [b];
    assert Concat([b]) == b + Concat([]);
  }

  /** An unterminated line followed by a line makes one line. */
  lemma GlueLines(a: string, b: string)
    requires IsLine(a) && !Terminated(a) && IsLine(b)
    ensures IsLine(a + b)
  {
    forall k | 0 <= k < |a + b| - 1
      ensures (a + b)[k] != '\n'
    {
      if k >= |a| {
        assert (a + b)[k] == b[k - |a|];
      }
    }
  }

  /** A line that opens with a character other than whitespace and `G` does not define the key. */
  lemma NotKeyLine(l: string)
    requires l != [] && !IsSpace(l[0]) && l[0] != 'G'
    ensures !IsKeyLine(l)
  {
    assert TrimStart(l) == l;
    TrimEndKeeps(l, 0);
    assert Strip(l)[0] == 'F' || Strip(l)[0] == l[0];
    assert KeyPrefix[0] == 'G';
  }

  /** A line with a `\n` at its end. */
  function Terminate(l: string): (r: string)
    ensures IsLine(l) ==> IsLine(r) && Terminated(r)
  {
    if Terminated(l) then l else l + "\n"
  }

  /**
   * The evidently intended rewrite: as before, but with no key line found, a last line without
   * `\n` is terminated before the key line is appended.
   */
  predicate IsFixedRewriteOf(lines: seq<string>, key: string, out: seq<string>) {
    if AnyKeyLine(lines) then IsRewriteOf(lines, key, out)
    else
      |out| == |lines| + 1
      && (forall i :: 0 <= i < |lines| - 1 ==> out[i] == lines[i])
      && (lines != [] ==> out[|lines| - 1] == Terminate(lines[|lines| - 1]))
      && out[|lines|] == KeyLine(key)
  }

  /** The intended rewrite of the `.env` lines: the loop of `set_api_key`, then the last line terminated before an appended key line. */
  method RewriteEnvFile(lines: seq<string>, key: string) returns (out: seq<string>)
    ensures IsFixedRewriteOf(lines, key, out)
  {
    out := RewriteEnvLines(lines, key);
    if |out| > |lines| && lines != [] {
      var last := |lines| - 1;
      NoKeyLineKept(lines, key, out);
      out := out[..last] + [Terminate(out[last])] + [out[|lines|]];
    }
  }

  /** With no key line, the rewrite keeps every line as it is. */
  lemma NoKeyLineKept(lines: seq<string>, key: string, out: seq<string>)
    requires IsRewriteOf(lines, key, out) && !AnyKeyLine(lines)
    ensures forall i :: 0 <= i < |lines| ==> out[i] == lines[i]
  {
    forall i | 0 <= i < |lines|
      ensures out[i] == lines[i]
    {
      assert !IsKeyLine(lines[i]);
    }
  }

  /** `set_api_key` with the intended rewrite: the `.env` text it writes, `file` being the old text if the file exists. */
  method SetApiKeyFile(file: Option<string>, key: string) returns (written: string)
    ensures exists out :: IsFixedRewriteOf(EnvLines(file), key, out) && written == Concat(out)
    ensures '\n' !in key ==> AnyKeyLine(FileLines(written))
    ensures '\n' !in key ==> forall i :: 0 <= i < |FileLines(written)| && IsKeyLine(FileLines(written)[i]) ==>
                                         FileLines(written)[i] == KeyLine(key)
  {
    var lines := EnvLines(file);
    var out := RewriteEnvFile(lines, key);
    written := Concat(out);
    if '\n' !in key {
      FixedRewriteDefinesKey(file, key, out);
    }
  }

  /**
   * With the intended rewrite the file written reads back as the rewritten lines, it defines the
   * key, every line defining it carries the new key, and every other line is kept (the last one
   * perhaps with a `\n` added).
   */
  lemma FixedRewriteDefinesKey(file: Option<string>, key: string, out: seq<string>)
    requires '\n' !in key
    requires IsFixedRewriteOf(EnvLines(file), key, out)
    ensures FileLines(Concat(out)) == out
    ensures AnyKeyLine(out)
    ensures forall i :: 0 <= i < |out| && IsKeyLine(out[i]) ==> out[i] == KeyLine(key)
    ensures forall i :: 0 <= i < |EnvLines(file)| && !IsKeyLine(EnvLines(file)[i]) ==>
              out[i] == EnvLines(file)[i] || out[i] == EnvLines(file)[i] + "\n"
  {
    var lines := EnvLines(file);
    if file.Some? {
      FileLinesRoundTrip(file.value);
    }
    FixedRewriteLines(lines, key, out);
    FixedRewriteKeyLines(lines, key, out);
    FileLinesOfConcat(out);
  }

  /** The intended rewrite of a line list is a line list. */
  lemma FixedRewriteLines(lines: seq<string>, key: string, out: seq<string>)
    requires '\n' !in key && LineList(lines)
    requires IsFixedRewriteOf(lines, key, out)
    ensures LineList(out)
  {
    KeyLineIsLine(key);
    if AnyKeyLine(lines) {
      forall i | 0 <= i < |out|
        ensures IsLine(out[i]) && (i < |out| - 1 ==> Terminated(out[i]))
      {
        assert out[i] == RewriteLine(lines[i], key);
        assert IsLine(lines[i]) && (i < |lines| - 1 ==> Terminated(lines[i]));
      }
    } else {
      forall i | 0 <= i < |out|
        ensures IsLine(out[i]) && (i < |out| - 1 ==> Terminated(out[i]))
      {
        if i < |lines| - 1 {
          assert out[i] == lines[i];
          assert IsLine(lines[i]) && Terminated(lines[i]);
        } else if i == |lines| - 1 {
          assert out[i] == Terminate(lines[i]) && IsLine(lines[i]);
        } else {
          assert out[i] == KeyLine(key);
        }
      }
    }
  }

  /** The intended rewrite defines the key, only with the new key, and keeps the other lines. */
  lemma FixedRewriteKeyLines(lines: seq<string>, key: string, out: seq<string>)
    requires IsFixedRewriteOf(lines, key, out)
    ensures AnyKeyLine(out)
    ensures forall i :: 0 <= i < |out| && IsKeyLine(out[i]) ==> out[i] == KeyLine(key)
    ensures forall i :: 0 <= i < |lines| && !IsKeyLine(lines[i]) ==> out[i] == lines[i] || out[i] == lines[i] + "\n"
  {
    if AnyKeyLine(lines) {
      RewriteDefinesKey(lines, key, out);
      RewriteKeepsOthers(lines, key, out);
    } else {
      AppendedKeyLine(lines, key, out);
    }
  }

  /** The rewrite keeps every line that does not define the key. */
  lemma RewriteKeepsOthers(lines: seq<string>, key: string, out: seq<string>)
    requires IsRewriteOf(lines, key, out)
    ensures forall i :: 0 <= i < |lines| && !IsKeyLine(lines[i]) ==> out[i] == lines[i]
  {
  }

  /** With no key line, the intended rewrite appends the only key line and keeps the others, the last one terminated. */
  lemma AppendedKeyLine(lines: seq<string>, key: string, out: seq<string>)
    requires !AnyKeyLine(lines) && IsFixedRewriteOf(lines, key, out)
    ensures AnyKeyLine(out)
    ensures forall i :: 0 <= i < |out| && IsKeyLine(out[i]) ==> out[i] == KeyLine(key)
    ensures forall i :: 0 <= i < |lines| ==> out[i] == lines[i] || out[i] == lines[i] + "\n"
  {
    KeyLineIsKeyLine(key);
    assert IsKeyLine(out[|lines|]);
    forall i | 0 <= i < |lines|
      ensures !IsKeyLine(out[i]) && (out[i] == lines[i] || out[i] == lines[i] + "\n")
    {
      assert !IsKeyLine(lines[i]);
      KeptLine(lines[i], out[i]);
    }
  }

  /** A line kept, or kept and terminated, still does not define the key. */
  lemma KeptLine(l: string, o: string)
    requires !IsKeyLine(l) && (o == l || o == Terminate(l))
    ensures !IsKeyLine(o) && (o == l || o == l + "\n")
  {
    StripTerminate(l);
  }

  /** The key line is one line, when the key holds no `\n`. */
  lemma KeyLineIsLine(key: string)
    requires '\n' !in key
    ensures IsLine(KeyLine(key)) && Terminated(KeyLine(key))
  {
    var line := KeyLine(key);
    assert line == KeyPrefix + (key + "\n");
    forall k | 0 <= k < |line| - 1
      ensures line[k] != '\n'
    {
      if k >= |KeyPrefix| {
        assert line[k] == key[k - |KeyPrefix|];
      }
    }
  }

  /** Terminating a line does not change whether it defines the key. */
  lemma StripTerminate(l: string)
    ensures IsKeyLine(Terminate(l)) <==> IsKeyLine(l)
  {
    if !Terminated(l) {
      StripAppendSpace(l, '\n');
    }
  }

  /** A trailing whitespace character does not change what `strip` returns. */
  lemma {:induction false} StripAppendSpace(l: string, c: char)
    requires IsSpace(c)
    ensures Strip(l + [c]) == Strip(l)
    decreases |l|
  {
    if l != [] && IsSpace(l[0]) {
      assert (l + [c])[1..] == l[1..] + [c];
      StripAppendSpace(l[1..], c);
    } else if l != [] {
      assert (l + [c])[..|l|] == l;
    }
  }
}

/** `load_dotenv`: KEY=VALUE lines into the process environment, where what is already set
    wins. */
module Dotenv {
  import opened Wrappers
  import opened Text

  /** The process environment. */
  type Env = map<string, string>

  predicate Blank(c: char) {
    c == ' ' || c == '\t'
  }

  predicate Trailing(c: char) {
    c == '\r' || c == '\n' || Blank(c)
  }

  predicate NotEquals(c: char) {
    c != '='
  }

  predicate NotNul(c: char) {
    c != '\0'
  }

  predicate NotNewline(c: char) {
    c != '\n'
  }

  // ---------------------------------------------------------------- one line

  predicate Quoted(v: string) {
    |v| >= 2 && v[0] == v[|v| - 1] && (v[0] == '"' || v[0] == '\'')
  }

  function Unquote(v: string): string {
    if Quoted(v) then v[1..|v| - 1] else v
  }

  /** `c_str()`, as `setenv` reads it. */
  function CString(s: string): string {
    s[..Span(s, NotNul)]
  }

  /** Key and value of a line that starts with its key, with a '=' at `eq`. */
  function KeyOf(body: string, eq: nat): string
    requires eq < |body|
  {
    CString(TrimRight(body[..eq], Blank))
  }

  function ValueOf(body: string, eq: nat): string
    requires eq < |body|
  {
    CString(Unquote(TrimRight(body[eq + 1..], Trailing)))
  }

  function BodyDefines(body: string): Option<(string, string)> {
    if body == "" || body[0] == '#' then None
    else
      var eq := Span(body, NotEquals);
      if eq == |body| || KeyOf(body, eq) == "" then None
      else Some((KeyOf(body, eq), ValueOf(body, eq)))
  }

  /** The definition in terms of trimmed key and value. */
  lemma DefinitionOf(body: string, eq: nat, key: string, value: string)
    requires body != "" && body[0] != '#' && eq == Span(body, NotEquals) < |body|
    requires key == TrimRight(body[..eq], Blank)
    requires value == Unquote(TrimRight(body[eq + 1..], Trailing))
    ensures BodyDefines(body)
         == if CString(key) == "" then None else Some((CString(key), CString(value)))
    ensures key == "" ==> CString(key) == ""
  {
  }

  /** What a line asks `setenv` to set, if it is a definition. */
  function LineDefines(line: string): Option<(string, string)> {
    BodyDefines(line[Span(line, Blank)..])
  }

  /** `setenv` without overwriting. */
  function SetDefault(env: Env, definition: Option<(string, string)>): Env {
    match definition
    case None => env
    case Some((name, value)) => if name in env then env else env[name := value]
  }

  // ---------------------------------------------------------------- all lines

  /** The lines that `std::getline` yields. */
  function Lines(text: string): seq<string>
    decreases |text|
  {
    if text == "" then []
    else
      var n := Span(text, NotNewline);
      [text[..n]] + if n < |text| then Lines(text[n + 1..]) else []
  }

  function LoadLines(env: Env, lines: seq<string>): Env
    decreases |lines|
  {
    if lines == [] then env
    else LoadLines(SetDefault(env, LineDefines(lines[0])), lines[1..])
  }

  function Load(env: Env, text: string): Env {
    LoadLines(env, Lines(text))
  }

  /** `env_or`: an empty value counts as none. */
  function EnvOr(env: Env, name: string, default_: string): string {
    if name in env && env[name] != "" then env[name] else default_
  }

  /** The environment after `Config::from_env` has loaded its file. */
  function FromEnv(env: Env, files: string -> Option<string>): Env {
    match files(EnvOr(env, "GATEWAY_ENV_FILE", ".env"))
    case None => env
    case Some(text) => Load(env, text)
  }

  // ---------------------------------------------------------------- the environment as an object

  class Environment {
    var vars: Env

    constructor (vars: Env)
      ensures this.vars == vars
    {
      this.vars := vars;
    }

    /** The value is ignored for a name that is empty or set. */
    method SetEnv(name: string, value: string)
      modifies this
      ensures vars == if CString(name) == "" then old(vars)
                      else SetDefault(old(vars), Some((CString(name), CString(value))))
    {
      var n := CString(name);
      if n != "" && n !in vars { vars := vars[n := CString(value)]; }
    }

    /** One turn of the loop over lines. */
    method LoadLine(line: string)
      modifies this
      ensures vars == SetDefault(old(vars), LineDefines(line))
    {
      var begin := Span(line, Blank);
      if begin == |line| { return; }
      if line[begin] == '#' { return; }
      LoadBody(line[begin..]);
    }

    /** The rest of the turn, from the first character that is not blank. */
    method LoadBody(body: string)
      requires body != "" && body[0] != '#'
      modifies this
      ensures vars == SetDefault(old(vars), BodyDefines(body))
    {
      var eq := Span(body, NotEquals);
      if eq == |body| { return; }
      var key := PopTrailing(body[..eq], Blank);
      var val := PopTrailing(body[eq + 1..], Trailing);
      if Quoted(val) { val := val[1..|val| - 1]; }
      DefinitionOf(body, eq, key, val);
      if key != "" { SetEnv(key, val); }
    }

    /** `load_dotenv`; a file that cannot be opened changes nothing. */
    method LoadDotenv(file: Option<string>)
      modifies this
      ensures vars == if file.Some? then Load(old(vars), file.value) else old(vars)
    {
      if file == None { return; }
      var rest := file.value;
      while rest != ""
        invariant Load(vars, rest) == Load(old(vars), file.value)
        decreases |rest|
      {
        var n := Span(rest, NotNewline);
        LoadLine(rest[..n]);
        rest := if n < |rest| then rest[n + 1..] else "";
      }
    }

    /** The loading part of `Config::from_env`; `files` holds what can be opened. */
    method LoadConfiguredFile(files: string -> Option<string>)
      modifies this
      ensures vars == FromEnv(old(vars), files)
    {
      LoadDotenv(files(EnvOr(vars, "GATEWAY_ENV_FILE", ".env")));
    }
  }

  // ---------------------------------------------------------------- first definition wins

  predicate Defines(line: string, name: string) {
    LineDefines(line).Some? && LineDefines(line).value.0 == name
  }

  predicate Defined(lines: seq<string>, name: string) {
    exists i :: 0 <= i < |lines| && Defines(lines[i], name)
  }

  /** Line `i` is the first that defines `name`. */
  predicate IsFirst(lines: seq<string>, name: string, i: int) {
    0 <= i < |lines| && Defines(lines[i], name) && forall j :: 0 <= j < i ==> !Defines(lines[j], name)
  }

  lemma {:induction false} SetStays(env: Env, lines: seq<string>, name: string)
    requires name in env
    ensures name in LoadLines(env, lines) && LoadLines(env, lines)[name] == env[name]
    decreases |lines|
  {
    if lines != [] { SetStays(SetDefault(env, LineDefines(lines[0])), lines[1..], name); }
  }

  lemma {:induction false} FirstIsTaken(env: Env, lines: seq<string>, name: string, i: nat)
    requires name !in env && IsFirst(lines, name, i)
    ensures var r := LoadLines(env, lines);
      name in r && r[name] == LineDefines(lines[i]).value.1
    decreases |lines|
  {
    var env' := SetDefault(env, LineDefines(lines[0]));
    if i == 0 {
      SetStays(env', lines[1..], name);
    } else {
      assert !Defines(lines[0], name) && lines[1..][i - 1] == lines[i];
      FirstIsTaken(env', lines[1..], name, i - 1);
    }
  }

  lemma {:induction false} UndefinedStaysUnset(env: Env, lines: seq<string>, name: string)
    requires name !in env && !Defined(lines, name)
    ensures name !in LoadLines(env, lines)
    decreases |lines|
  {
    if lines != [] {
      assert !Defines(lines[0], name);
      forall j | 0 <= j < |lines[1..]| ensures !Defines(lines[1..][j], name) {
        assert !Defines(lines[j + 1], name);
      }
      UndefinedStaysUnset(SetDefault(env, LineDefines(lines[0])), lines[1..], name);
    }
  }

  lemma {:induction false} FirstExists(lines: seq<string>, name: string)
    requires Defined(lines, name)
    ensures exists i :: IsFirst(lines, name, i)
    decreases |lines|
  {
    if Defines(lines[0], name) {
      assert IsFirst(lines, name, 0);
    } else {
      var k :| 0 <= k < |lines| && Defines(lines[k], name);
      assert lines[1..][k - 1] == lines[k];
      FirstExists(lines[1..], name);
      var i :| IsFirst(lines[1..], name, i);
      forall j | 0 <= j < i + 1 ensures !Defines(lines[j], name) {
        if j > 0 { assert lines[1..][j - 1] == lines[j]; }
      }
      assert IsFirst(lines, name, i + 1);
    }
  }

  /** What is set stays; a new name takes the value of the first line that defines it, an empty
      one included; and no other name appears. */
  lemma FirstDefinitionWins(env: Env, text: string, name: string)
    ensures var r := Load(env, text);
      && (name in r <==> name in env || Defined(Lines(text), name))
      && (name in env ==> r[name] == env[name])
      && forall i :: name !in env && IsFirst(Lines(text), name, i) ==>
           r[name] == LineDefines(Lines(text)[i]).value.1
  {
    var lines := Lines(text);
    if name in env {
      SetStays(env, lines, name);
    } else if Defined(lines, name) {
      FirstExists(lines, name);
      forall i | IsFirst(lines, name, i)
        ensures name in Load(env, text)
        ensures Load(env, text)[name] == LineDefines(lines[i]).value.1
      {
        FirstIsTaken(env, lines, name, i);
      }
    } else {
      UndefinedStaysUnset(env, lines, name);
    }
  }

  /** Loading a file a second time changes nothing. */
  lemma LoadIsIdempotent(env: Env, text: string)
    ensures Load(Load(env, text), text) == Load(env, text)
  {
    var once := Load(env, text);
    var twice := Load(once, text);
    forall name ensures name in twice <==> name in once {
      FirstDefinitionWins(env, text, name);
      FirstDefinitionWins(once, text, name);
    }
    forall name | name in once ensures twice[name] == once[name] {
      SetStays(once, Lines(text), name);
    }
  }

  // ---------------------------------------------------------------- two files

  /** The lines, each ended by a newline. */
  function Unlines(lines: seq<string>): string {
    if lines == [] then "" else lines[0] + "\n" + Unlines(lines[1..])
  }

  lemma UnlinesCons(line: string, lines: seq<string>)
    ensures Unlines([line] + lines) == line + "\n" + Unlines(lines)
  {
    assert ([line] + lines)[1..] == lines;
  }

  /** `text`, ended by a newline unless it is empty. */
  function Ended(text: string): string {
    if text == "" || text[|text| - 1] == '\n' then text else text + "\n"
  }

  lemma EndedAfter(line: string, rest: string)
    ensures Ended(line + "\n" + rest) == line + "\n" + Ended(rest)
  {
    var text := line + "\n" + rest;
    if rest == "" {
      assert text == line + "\n";
    } else {
      assert text[|text| - 1] == rest[|rest| - 1];
      assert text + "\n" == line + "\n" + (rest + "\n");
    }
  }

  lemma {:induction false} LinesAreLines(text: string)
    ensures forall line :: line in Lines(text) ==> All(line, NotNewline)
    decreases |text|
  {
    var n := Span(text, NotNewline);
    if n < |text| { LinesAreLines(text[n + 1..]); }
  }

  /** The lines are the text, cut at its newlines; the last newline is optional. */
  lemma {:induction false} LinesAreTheText(text: string)
    ensures Unlines(Lines(text)) == Ended(text)
    decreases |text|
  {
    var n := Span(text, NotNewline);
    if n < |text| {
      var rest := text[n + 1..];
      LinesAreTheText(rest);
      assert text == text[..n] + "\n" + rest;
      UnlinesCons(text[..n], Lines(rest));
      EndedAfter(text[..n], rest);
    } else if text != "" {
      assert text[..n] == text;
      assert Lines(text) == [text] + [];
      UnlinesCons(text, []);
      assert NotNewline(text[|text| - 1]);
    }
  }

  lemma {:induction false} LoadLinesAppend(env: Env, a: seq<string>, b: seq<string>)
    ensures LoadLines(env, a + b) == LoadLines(LoadLines(env, a), b)
    decreases |a|
  {
    if a == [] {
      assert a + b == b;
    } else {
      assert (a + b)[1..] == a[1..] + b;
      LoadLinesAppend(SetDefault(env, LineDefines(a[0])), a[1..], b);
    }
  }

  lemma FirstLine(line: string, rest: string)
    requires All(line, NotNewline)
    ensures Lines(line + "\n" + rest) == [line] + Lines(rest)
  {
    var text := line + "\n" + rest;
    assert text == line + ("\n" + rest);
    SpanOf(line, "\n" + rest, NotNewline);
    assert Span("\n" + rest, NotNewline) == 0;
    assert text[..|line|] == line && text[|line| + 1..] == rest;
  }

  /** Loading two files in turn is loading their text joined by a newline. */
  lemma {:induction false} LoadTwoFiles(env: Env, a: string, b: string)
    ensures Load(Load(env, a), b) == Load(env, a + "\n" + b)
    decreases |a|
  {
    var n := Span(a, NotNewline);
    if n < |a| {
      var rest := a[n + 1..];
      assert a == a[..n] + "\n" + rest;
      assert a + "\n" + b == a[..n] + "\n" + (rest + "\n" + b);
      FirstLine(a[..n], rest);
      FirstLine(a[..n], rest + "\n" + b);
      LoadLinesAppend(env, [a[..n]], Lines(rest));
      LoadLinesAppend(env, [a[..n]], Lines(rest + "\n" + b));
      LoadTwoFiles(LoadLines(env, [a[..n]]), rest, b);
    } else {
      assert a[..n] == a;
      FirstLine(a, b);
      LoadLinesAppend(env, [a], Lines(b));
      assert LoadLines(env, [a]) == Load(env, a) by {
        if a == "" { assert LineDefines("") == None; } else { assert Lines(a) == [a]; }
      }
    }
  }

  // ---------------------------------------------------------------- printing and loading

  function Quote(value: string): string {
    "\"" + value + "\""
  }

  function PrintLine(key: string, value: string): string {
    key + ("=" + Quote(value))
  }

  predicate GoodKey(key: string) {
    && key != "" && !Blank(key[0]) && !Blank(key[|key| - 1]) && key[0] != '#'
    && All(key, NotEquals) && All(key, NotNul)
  }

  lemma SpanAll(s: string, ok: char -> bool)
    ensures Span(s, ok) == |s| <==> All(s, ok)
  {
    if Span(s, ok) == |s| { assert s[..|s|] == s; }
  }

  lemma CStringIff(s: string)
    ensures |CString(s)| <= |s| && All(CString(s), NotNul)
    ensures CString(s) == s <==> All(s, NotNul)
  {
    SpanAll(s, NotNul);
    if CString(s) == s { assert |s| == Span(s, NotNul); } else { assert s[..|s|] == s; }
  }

  lemma QuoteIsUndone(value: string)
    ensures Unquote(TrimRight(Quote(value), Trailing)) == value
  {
    var quoted := Quote(value);
    assert |quoted| == |value| + 2 && quoted[0] == quoted[|quoted| - 1] == '"';
    assert TrimRight(quoted, Trailing) == quoted;
    assert quoted[1..|quoted| - 1] == value;
  }

  lemma PrintedParts(key: string, value: string)
    requires All(key, NotEquals)
    ensures var line := PrintLine(key, value);
      && Span(line, NotEquals) == |key| < |line|
      && line[..|key|] == key && line[|key| + 1..] == Quote(value)
  {
    var line := PrintLine(key, value);
    var rest := "=" + Quote(value);
    SpanOf(key, rest, NotEquals);
    assert Span(rest, NotEquals) == 0;
    assert line == key + rest && rest[1..] == Quote(value);
    assert line[|key| + 1..] == rest[1..];
  }

  /** The value of a printed line is the value without what follows a NUL. */
  lemma PrintedValue(key: string, value: string)
    requires All(key, NotEquals)
    ensures var line := PrintLine(key, value);
      && Span(line, NotEquals) == |key| < |line|
      && line[..|key|] == key
      && ValueOf(line, |key|) == CString(value)
  {
    PrintedParts(key, value);
    QuoteIsUndone(value);
  }

  lemma GoodLine(key: string, value: string)
    requires GoodKey(key)
    ensures LineDefines(PrintLine(key, value)) == Some((key, CString(value)))
  {
    var line := PrintLine(key, value);
    assert line[0] == key[0];
    assert line[Span(line, Blank)..] == line;
    PrintedValue(key, value);
    CStringIff(key);
  }

  /** What any line defines has a key that starts where the line's blanks end. */
  lemma DefinedKey(line: string)
    requires LineDefines(line).Some?
    ensures var begin := Span(line, Blank); var key := LineDefines(line).value.0;
      && key != "" && begin < |line| && line[begin] != '#' && key[0] == line[begin]
      && All(key, NotEquals) && All(key, NotNul)
  {
    BodyKey(line[Span(line, Blank)..]);
  }

  lemma BodyKey(body: string)
    requires BodyDefines(body).Some?
    ensures var key := BodyDefines(body).value.0;
      && key != "" && body[0] != '#' && key[0] == body[0]
      && All(key, NotEquals) && All(key, NotNul)
  {
    var eq := Span(body, NotEquals);
    var trimmed := TrimRight(body[..eq], Blank);
    CStringIff(trimmed);
    assert forall i :: 0 <= i < |CString(trimmed)| ==> CString(trimmed)[i] == body[i];
  }

  lemma OnlyGoodKeys(key: string, value: string)
    requires LineDefines(PrintLine(key, value)).Some?
    requires LineDefines(PrintLine(key, value)).value.0 == key
    ensures GoodKey(key)
  {
    var line := PrintLine(key, value);
    DefinedKey(line);
    assert line[0] == key[0];
    assert Span(line, Blank) == 0 && line[0..] == line;
    PrintedValue(key, value);
    assert CString(TrimRight(key, Blank)) == key;
    CStringIff(TrimRight(key, Blank));
  }

  /** A printed line reads back as its key and value exactly when the key is good and the value
      has no NUL. */
  lemma PrintedLineIff(key: string, value: string)
    ensures LineDefines(PrintLine(key, value)) == Some((key, value))
       <==> GoodKey(key) && All(value, NotNul)
  {
    CStringIff(value);
    if GoodKey(key) {
      GoodLine(key, value);
    } else if LineDefines(PrintLine(key, value)) == Some((key, value)) {
      OnlyGoodKeys(key, value);
    }
  }

  function PrintFile(pairs: seq<(string, string)>): string {
    if pairs == [] then ""
    else PrintLine(pairs[0].0, pairs[0].1) + "\n" + PrintFile(pairs[1..])
  }

  predicate Printable(pair: (string, string)) {
    && GoodKey(pair.0) && All(pair.0, NotNewline)
    && All(pair.1, NotNul) && All(pair.1, NotNewline)
  }

  lemma {:induction false} PrintedLines(pairs: seq<(string, string)>)
    requires forall i :: 0 <= i < |pairs| ==> Printable(pairs[i])
    ensures |Lines(PrintFile(pairs))| == |pairs|
    ensures forall i :: 0 <= i < |pairs| ==>
      Lines(PrintFile(pairs))[i] == PrintLine(pairs[i].0, pairs[i].1)
  {
    if pairs != [] {
      assert Printable(pairs[0]);
      FirstLine(PrintLine(pairs[0].0, pairs[0].1), PrintFile(pairs[1..]));
      PrintedLines(pairs[1..]);
    }
  }

  lemma PrintedDefinitions(pairs: seq<(string, string)>)
    requires forall i :: 0 <= i < |pairs| ==> Printable(pairs[i])
    ensures var lines := Lines(PrintFile(pairs));
      |lines| == |pairs|
      && forall i :: 0 <= i < |pairs| ==> LineDefines(lines[i]) == Some(pairs[i])
  {
    PrintedLines(pairs);
    forall i | 0 <= i < |pairs|
      ensures LineDefines(PrintLine(pairs[i].0, pairs[i].1)) == Some(pairs[i])
    {
      assert Printable(pairs[i]);
      PrintedLineIff(pairs[i].0, pairs[i].1);
    }
  }

  /** `env` holds the pairs, and nothing else. */
  ghost predicate Holds(env: Env, pairs: seq<(string, string)>) {
    && (forall i :: 0 <= i < |pairs| ==> pairs[i].0 in env && env[pairs[i].0] == pairs[i].1)
    && (forall name :: name in env ==> exists i :: 0 <= i < |pairs| && pairs[i].0 == name)
  }

  ghost predicate AllPrintable(pairs: seq<(string, string)>) {
    && (forall i :: 0 <= i < |pairs| ==> Printable(pairs[i]))
    && (forall i, j :: 0 <= i < j < |pairs| ==> pairs[i].0 != pairs[j].0)
  }

  /** Round trip: pairs with different keys, printed and loaded into an empty environment, come
      back as exactly those pairs. */
  lemma RoundTrip(pairs: seq<(string, string)>, text: string, env: Env)
    requires AllPrintable(pairs) && text == PrintFile(pairs) && env == Load(map[], text)
    ensures Holds(env, pairs)
  {
    PrintedDefinitions(pairs);
    LoadsDefinitions(PrintFile(pairs), pairs);
  }

  lemma LoadsDefinitions(text: string, pairs: seq<(string, string)>)
    requires |Lines(text)| == |pairs|
    requires forall i :: 0 <= i < |pairs| ==> LineDefines(Lines(text)[i]) == Some(pairs[i])
    requires forall i, j :: 0 <= i < j < |pairs| ==> pairs[i].0 != pairs[j].0
    ensures Holds(Load(map[], text), pairs)
  {
    var r := Load(map[], text);
    forall i | 0 <= i < |pairs| ensures pairs[i].0 in r && r[pairs[i].0] == pairs[i].1 {
      assert IsFirst(Lines(text), pairs[i].0, i);
      FirstDefinitionWins(map[], text, pairs[i].0);
    }
    forall name | name in r ensures exists i :: 0 <= i < |pairs| && pairs[i].0 == name {
      FirstDefinitionWins(map[], text, name);
      var i :| 0 <= i < |pairs| && Defines(Lines(text)[i], name);
      assert pairs[i].0 == name;
    }
  }

  // ---------------------------------------------------------------- settings

  /** The value of a setting: the variable if it is set, else the first definition in the file;
      an empty one gives the default, and still hides the ones behind it. */
  lemma SettingOf(env: Env, text: string, name: string, default_: string)
    ensures var value := EnvOr(Load(env, text), name, default_);
      && (name in env ==> value == EnvOr(env, name, default_))
      && (forall i :: name !in env && IsFirst(Lines(text), name, i) ==>
          var first := LineDefines(Lines(text)[i]).value.1;
          value == if first != "" then first else default_)
      && (name !in env && !Defined(Lines(text), name) ==> value == default_)
  {
    FirstDefinitionWins(env, text, name);
    forall i | name !in env && IsFirst(Lines(text), name, i)
      ensures name in Load(env, text)
    {
      assert Defines(Lines(text)[i], name);
    }
  }
}

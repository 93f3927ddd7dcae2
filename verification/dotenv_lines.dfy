/** What each form of line in a `.env` file sets, and what the loader does with the files it is
    pointed to. */
module DotenvLines {
  import opened Wrappers
  import opened Text
  import opened Dotenv

  predicate IsBlank(s: string) {
    forall i :: 0 <= i < |s| ==> s[i] == ' ' || s[i] == '\t'
  }

  /** Blanks and line ends, which are dropped behind a value. */
  predicate IsTrailing(s: string) {
    forall i :: 0 <= i < |s| ==> s[i] == ' ' || s[i] == '\t' || s[i] == '\r' || s[i] == '\n'
  }

  predicate IsKey(s: string) {
    && s != "" && s[0] != ' ' && s[0] != '\t' && s[0] != '#'
    && s[|s| - 1] != ' ' && s[|s| - 1] != '\t'
    && forall i :: 0 <= i < |s| ==> s[i] != '=' && s[i] != '\0'
  }

  /** A value as it stands in the line, quotes included. */
  predicate IsValue(s: string) {
    && (s != "" ==>
        var c := s[|s| - 1]; c != ' ' && c != '\t' && c != '\r' && c != '\n')
    && forall i :: 0 <= i < |s| ==> s[i] != '\0'
  }

  predicate InQuotes(s: string) {
    && |s| >= 2
    && ((s[0] == '"' && s[|s| - 1] == '"') || (s[0] == '\'' && s[|s| - 1] == '\''))
  }

  // ---------------------------------------------------------------- trimming

  lemma {:induction false} TrimmedIs(s: string, t: string, drop: char -> bool)
    requires forall i :: 0 <= i < |t| ==> drop(t[i])
    requires s == "" || !drop(s[|s| - 1])
    ensures TrimRight(s + t, drop) == s
    decreases |t|
  {
    if t == "" {
      assert s + t == s;
    } else {
      assert (s + t)[..|s + t| - 1] == s + t[..|t| - 1];
      TrimmedIs(s, t[..|t| - 1], drop);
    }
  }

  lemma SpanOver(a: string, b: string, ok: char -> bool)
    requires All(a, ok) && (b == "" || !ok(b[0]))
    ensures Span(a + b, ok) == |a| && (a + b)[..|a|] == a && (a + b)[|a|..] == b
  {
    SpanOf(a, b, ok);
  }

  // ---------------------------------------------------------------- lines

  lemma BodyOf(key: string, gap: string, rest: string)
    requires IsKey(key) && IsBlank(gap)
    ensures var body := key + (gap + ("=" + rest));
      && body != "" && body[0] == key[0]
      && Span(body, NotEquals) == |key + gap| < |body|
      && body[..|key + gap|] == key + gap && body[|key + gap| + 1..] == rest
  {
    var body := key + (gap + ("=" + rest));
    assert body == (key + gap) + ("=" + rest);
    SpanOver(key + gap, "=" + rest, NotEquals);
    assert ("=" + rest)[1..] == rest;
    assert body[|key + gap| + 1..] == body[|key + gap|..][1..];
  }

  /** The value without its quotes. */
  function Stripped(value: string): string {
    if InQuotes(value) then value[1..|value| - 1] else value
  }

  lemma NoNul(value: string)
    requires IsValue(value)
    ensures Unquote(value) == Stripped(value) && CString(Stripped(value)) == Stripped(value)
  {
    CStringIff(Stripped(value));
  }

  lemma BodySets(body: string, eq: nat, key: string, gap: string, value: string, trail: string)
    requires IsKey(key) && IsBlank(gap) && IsValue(value) && IsTrailing(trail)
    requires body != "" && body[0] != '#' && eq == Span(body, NotEquals) < |body|
    requires body[..eq] == key + gap && body[eq + 1..] == value + trail
    ensures BodyDefines(body) == Some((key, Stripped(value)))
  {
    TrimmedIs(key, gap, Blank);
    TrimmedIs(value, trail, Trailing);
    NoNul(value);
    DefinitionOf(body, eq, key, Stripped(value));
    CStringIff(key);
  }

  /** KEY=VALUE, with blanks in front of the key, behind it, and behind the value: the value is
      what stands in quotes of one kind, and else all of it. */
  lemma LineSets(lead: string, key: string, gap: string, value: string, trail: string)
    requires IsBlank(lead) && IsKey(key) && IsBlank(gap) && IsValue(value) && IsTrailing(trail)
    ensures LineDefines(lead + (key + (gap + ("=" + (value + trail)))))
         == Some((key, Stripped(value)))
  {
    var body := key + (gap + ("=" + (value + trail)));
    BodyOf(key, gap, value + trail);
    BodySets(body, |key + gap|, key, gap, value, trail);
    SpanOver(lead, body, Blank);
  }

  /** A blank line, a comment, and a line without '=' or with nothing in front of it set nothing. */
  lemma LineSetsNothing(lead: string, rest: string)
    requires IsBlank(lead) && (rest != "" ==> rest[0] != ' ' && rest[0] != '\t')
    requires rest == "" || rest[0] == '#' || rest[0] == '=' || '=' !in rest
    ensures LineDefines(lead + rest) == None
  {
    SpanOver(lead, rest, Blank);
    if rest != "" && rest[0] != '#' {
      if rest[0] == '=' {
        assert Span(rest, NotEquals) == 0 && rest[..0] == "";
      } else {
        SpanAll(rest, NotEquals);
      }
    }
  }

  // ---------------------------------------------------------------- files

  /** The file that is loaded is the one that GATEWAY_ENV_FILE names, unless it names none, and
      ".env" then; a name that is set already keeps its value, and one that cannot be opened
      changes nothing. */
  lemma FileLoaded(env: Env, files: string -> Option<string>, name: string)
    requires name == if "GATEWAY_ENV_FILE" in env && env["GATEWAY_ENV_FILE"] != ""
                     then env["GATEWAY_ENV_FILE"] else ".env"
    ensures files(name) == None ==> FromEnv(env, files) == env
    ensures files(name).Some? ==> FromEnv(env, files) == Load(env, files(name).value)
  {
  }

  /** A file of one line, read back as a setting. */
  lemma OneLineIsRead(lead: string, key: string, gap: string, value: string, trail: string,
                      default_: string)
    requires IsBlank(lead) && IsKey(key) && IsBlank(gap) && IsValue(value) && IsTrailing(trail)
    requires '\n' !in lead + (key + (gap + ("=" + (value + trail))))
    ensures var line := lead + (key + (gap + ("=" + (value + trail))));
      EnvOr(Load(map[], line), key, default_)
      == if Stripped(value) != "" then Stripped(value) else default_
  {
    var line := lead + (key + (gap + ("=" + (value + trail))));
    LineSets(lead, key, gap, value, trail);
    SpanAll(line, NotNewline);
    assert line[..|line|] == line;
    assert Lines(line) == [line];
    assert IsFirst(Lines(line), key, 0);
    SettingOf(map[], line, key, default_);
  }
}

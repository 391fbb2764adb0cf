/** Shell text the ctl renders: quoted values, the `setup-env` script and the launch command, read
    back by the quoting rules of sections 2.2.1 and 2.2.2 of the POSIX.1-2017 Shell Command Language. */
module Quoting {
  import opened Wrappers
  import Decimal
  import Env = RequestEnv

  /** `replace('\'', "'\\''")`. */
  function ShellEscape(value: string): string {
    if value == "" then ""
    else (if value[0] == '\'' then "'\\''" else [value[0]]) + ShellEscape(value[1..])
  }

  // ------------------------------------------------------------- the shell

  datatype Token = Word(text: string) | AndIf | Newline

  /** Characters that mean something unquoted and are outside this subset. */
  predicate Special(c: char) {
    || c == '|' || c == '&' || c == ';' || c == '<' || c == '>' || c == '(' || c == ')'
    || c == '$' || c == '`' || c == '"' || c == '*' || c == '?' || c == '[' || c == ']'
    || c == '#' || c == '~' || c == '{' || c == '}' || c == '!'
  }

  function Opened(word: Option<string>): string {
    if word.Some? then word.value else ""
  }

  function Flush(word: Option<string>): seq<Token> {
    if word.Some? then [Word(word.value)] else []
  }

  function After(front: seq<Token>, rest: Option<seq<Token>>): Option<seq<Token>> {
    if rest.None? then None else Some(front + rest.value)
  }

  /** Read `s`, with `word` begun and, if `quoted`, a single quote open. `None`: a quote is not closed,
      or the text is outside the subset. */
  function Lex(s: string, word: Option<string>, quoted: bool): Option<seq<Token>>
    decreases |s|
  {
    if quoted then
      if s == "" then None
      else if s[0] == '\'' then Lex(s[1..], Some(Opened(word)), false)
      else Lex(s[1..], Some(Opened(word) + [s[0]]), true)
    else if s == "" then Some(Flush(word))
    else if s[0] == '\'' then Lex(s[1..], Some(Opened(word)), true)
    else if s[0] == '\\' then
      if |s| == 1 then None
      else if s[1] == '\n' then Lex(s[2..], word, false)
      else Lex(s[2..], Some(Opened(word) + [s[1]]), false)
    else if s[0] == ' ' || s[0] == '\t' then After(Flush(word), Lex(s[1..], None, false))
    else if s[0] == '\n' then After(Flush(word) + [Newline], Lex(s[1..], None, false))
    else if |s| >= 2 && s[0] == '&' && s[1] == '&' then After(Flush(word) + [AndIf], Lex(s[2..], None, false))
    else if Special(s[0]) then None
    else Lex(s[1..], Some(Opened(word) + [s[0]]), false)
  }

  function Tokens(s: string): Option<seq<Token>> {
    Lex(s, None, false)
  }

  // ---------------------------------------------------------- reading back

  lemma {:induction false} InsideQuotes(v: string, after: string, word: string)
    ensures Lex(ShellEscape(v) + ("'" + after), Some(word), true) == Lex(after, Some(word + v), false)
    decreases |v|
  {
    var s := ShellEscape(v) + ("'" + after);
    if v == "" {
      assert s == "'" + after && s[1..] == after && word + v == word;
    } else {
      var rest := ShellEscape(v[1..]) + ("'" + after);
      InsideQuotes(v[1..], after, word + [v[0]]);
      assert (word + [v[0]]) + v[1..] == word + v;
      if v[0] == '\'' {
        assert s == "'\\''" + rest;
        EscapedQuote(rest, word);
      } else {
        assert s == [v[0]] + rest && s[1..] == rest;
      }
    }
  }

  lemma EscapedQuote(rest: string, word: string)
    ensures Lex("'\\''" + rest, Some(word), true) == Lex(rest, Some(word + "'"), true)
  {
    var s := "'\\''" + rest;
    var t := "\\''" + rest;
    var u := "'" + rest;
    assert s[0] == '\'' && s[1..] == t;
    assert Lex(s, Some(word), true) == Lex(t, Some(word), false);
    assert t[0] == '\\' && t[1] == '\'' && t[2..] == u;
    assert Lex(t, Some(word), false) == Lex(u, Some(word + "'"), false);
    assert u[0] == '\'' && u[1..] == rest;
  }

  function Quoted(v: string): string {
    "'" + ShellEscape(v) + "'"
  }

  lemma QuotedContinues(v: string, after: string, word: Option<string>)
    ensures Lex(Quoted(v) + after, word, false) == Lex(after, Some(Opened(word) + v), false)
  {
    var s := Quoted(v) + after;
    assert s[0] == '\'' && s[1..] == ShellEscape(v) + ("'" + after);
    InsideQuotes(v, after, Opened(word));
  }

  /** A quoted value reads back as exactly the one word it quotes, whatever is in it. */
  lemma QuotedIsOneWord(v: string)
    ensures Tokens(Quoted(v)) == Some([Word(v)])
  {
    QuotedContinues(v, "", None);
    assert Quoted(v) + "" == Quoted(v) && "" + v == v;
  }

  predicate PlainChar(c: char) {
    'a' <= c <= 'z' || 'A' <= c <= 'Z' || '0' <= c <= '9' || c == '_' || c == '-' || c == '='
  }

  predicate AllPlain(text: string) {
    forall k :: 0 <= k < |text| ==> PlainChar(text[k])
  }

  /** A bare word: no quote, no blank, nothing special. */
  predicate Plain(text: string) {
    text != "" && AllPlain(text)
  }

  lemma {:induction false} PlainContinues(text: string, after: string, word: Option<string>)
    requires Plain(text)
    ensures Lex(text + after, word, false) == Lex(after, Some(Opened(word) + text), false)
    decreases |text|
  {
    var s := text + after;
    var w := Opened(word) + [text[0]];
    assert s[0] == text[0] && PlainChar(text[0]);
    assert s[1..] == text[1..] + after;
    assert Lex(s, word, false) == Lex(s[1..], Some(w), false);
    assert w + text[1..] == Opened(word) + text;
    if |text| == 1 {
      assert text[1..] + after == after && w == Opened(word) + text;
    } else {
      PlainContinues(text[1..], after, Some(w));
    }
  }

  lemma PlainThen(text: string, rest: string)
    requires Plain(text)
    ensures Tokens(text + (" " + rest)) == After([Word(text)], Tokens(rest))
  {
    PlainContinues(text, " " + rest, None);
    assert "" + text == text && (" " + rest)[1..] == rest;
  }

  lemma PlainEnds(text: string)
    requires Plain(text)
    ensures Tokens(text) == Some([Word(text)])
  {
    PlainContinues(text, "", None);
    assert text + "" == text && "" + text == text;
  }

  lemma QuotedThen(v: string, rest: string)
    ensures Tokens(Quoted(v) + (" " + rest)) == After([Word(v)], Tokens(rest))
  {
    QuotedContinues(v, " " + rest, None);
    assert "" + v == v && (" " + rest)[1..] == rest;
  }

  lemma AndThen(rest: string)
    ensures Tokens("&& " + rest) == After([AndIf], Tokens(rest))
  {
    var s, t := "&& " + rest, " " + rest;
    assert s[0] == '&' && s[1] == '&' && s[2..] == t && t[1..] == rest;
    assert Lex(t, None, false) == After([], Tokens(rest));
    assert Flush(None) + [AndIf] == [AndIf];
    if Tokens(rest).Some? {
      assert [AndIf] + ([] + Tokens(rest).value) == [AndIf] + Tokens(rest).value;
    }
  }

  // ------------------------------------------------------ the launch command

  datatype LogLevel = Debug | Info | Warning | Error

  function Tag(level: LogLevel): string {
    match level
    case Debug => "debug"
    case Info => "info"
    case Warning => "warning"
    case Error => "error"
  }

  /** The command the container runs. */
  function Launch(envFile: string, server: string, socket: string, logDir: string, timeout: nat, level: LogLevel): string {
    "source '" + (ShellEscape(envFile) + ("' && exec '" + (ShellEscape(server)
    + ("' --socket '" + (ShellEscape(socket) + ("' --log-dir '" + (ShellEscape(logDir)
    + ("' --timeout " + (Decimal.Of(timeout) + (" --log-level " + Tag(level)))))))))))
  }

  lemma {:induction false} DigitsArePlain(s: string)
    requires Decimal.AllDigits(s)
    ensures AllPlain(s)
  {
    assert forall k :: 0 <= k < |s| ==> s[k] in s;
  }

  lemma PlainNames()
    ensures Plain("source") && Plain("exec") && Plain("export")
    ensures Plain("--socket") && Plain("--log-dir") && Plain("--timeout") && Plain("--log-level")
  {
  }

  lemma OptionReads(name: string, v: string, rest: string)
    requires Plain(name)
    ensures Tokens(name + (" " + (Quoted(v) + (" " + rest)))) == After([Word(name), Word(v)], Tokens(rest))
  {
    QuotedThen(v, rest);
    PlainThen(name, Quoted(v) + (" " + rest));
    if Tokens(rest).Some? {
      assert [Word(name)] + ([Word(v)] + Tokens(rest).value) == [Word(name), Word(v)] + Tokens(rest).value;
    }
  }

  lemma BareOptionReads(name: string, v: string, rest: string)
    requires Plain(name) && Plain(v)
    ensures Tokens(name + (" " + (v + (" " + rest)))) == After([Word(name), Word(v)], Tokens(rest))
    ensures Tokens(name + (" " + v)) == Some([Word(name), Word(v)])
  {
    PlainThen(v, rest);
    PlainThen(name, v + (" " + rest));
    PlainEnds(v);
    PlainThen(name, v);
    assert [Word(name)] + [Word(v)] == [Word(name), Word(v)];
    if Tokens(rest).Some? {
      assert [Word(name)] + ([Word(v)] + Tokens(rest).value) == [Word(name), Word(v)] + Tokens(rest).value;
    }
  }

  /** The launch string lexes to exactly its words, whatever the four paths are. */
  lemma LaunchReadsBack(envFile: string, server: string, socket: string, logDir: string, timeout: nat, level: LogLevel)
    ensures Tokens(Launch(envFile, server, socket, logDir, timeout, level)) == Some([
      Word("source"), Word(envFile), AndIf,
      Word("exec"), Word(server),
      Word("--socket"), Word(socket),
      Word("--log-dir"), Word(logDir),
      Word("--timeout"), Word(Decimal.Of(timeout)),
      Word("--log-level"),
      Word(if level == Debug then "debug" else if level == Info then "info" else if level == Warning then "warning" else "error")])
  {
    var digits := Decimal.Of(timeout);
    var t5 := "--log-level" + (" " + Tag(level));
    var t4 := "--timeout" + (" " + (digits + (" " + t5)));
    var t3 := "--log-dir" + (" " + (Quoted(logDir) + (" " + t4)));
    var t2 := "--socket" + (" " + (Quoted(socket) + (" " + t3)));
    var t1 := "exec" + (" " + (Quoted(server) + (" " + t2)));
    var t0 := "source" + (" " + (Quoted(envFile) + (" " + ("&& " + t1))));
    LaunchIsCut(envFile, server, socket, logDir, timeout, level);
    LaunchOptions(socket, logDir, timeout, level);
    PlainNames();
    OptionReads("exec", server, t2);
    AndThen(t1);
    OptionReads("source", envFile, "&& " + t1);
    var options := [
      Word("--socket"), Word(socket), Word("--log-dir"), Word(logDir),
      Word("--timeout"), Word(digits), Word("--log-level"), Word(Tag(level))];
    assert [Word("source"), Word(envFile)] + ([AndIf] + ([Word("exec"), Word(server)] + options)) == [
      Word("source"), Word(envFile), AndIf, Word("exec"), Word(server),
      Word("--socket"), Word(socket), Word("--log-dir"), Word(logDir),
      Word("--timeout"), Word(digits), Word("--log-level"), Word(Tag(level))];
  }

  lemma LaunchOptions(socket: string, logDir: string, timeout: nat, level: LogLevel)
    ensures var t5 := "--log-level" + (" " + Tag(level));
            var t4 := "--timeout" + (" " + (Decimal.Of(timeout) + (" " + t5)));
            var t3 := "--log-dir" + (" " + (Quoted(logDir) + (" " + t4)));
            var t2 := "--socket" + (" " + (Quoted(socket) + (" " + t3)));
            Tokens(t2) == Some([
              Word("--socket"), Word(socket), Word("--log-dir"), Word(logDir),
              Word("--timeout"), Word(Decimal.Of(timeout)), Word("--log-level"), Word(Tag(level))])
  {
    var digits := Decimal.Of(timeout);
    var t5 := "--log-level" + (" " + Tag(level));
    var t4 := "--timeout" + (" " + (digits + (" " + t5)));
    var t3 := "--log-dir" + (" " + (Quoted(logDir) + (" " + t4)));
    PlainNames();
    DigitsArePlain(digits);
    BareOptionReads("--log-level", Tag(level), "");
    BareOptionReads("--timeout", digits, t5);
    OptionReads("--log-dir", logDir, t4);
    OptionReads("--socket", socket, t3);
    var o5, o4 := [Word("--log-level"), Word(Tag(level))], [Word("--timeout"), Word(digits)];
    var o3, o2 := [Word("--log-dir"), Word(logDir)], [Word("--socket"), Word(socket)];
    assert o2 + (o3 + (o4 + o5)) == [
      Word("--socket"), Word(socket), Word("--log-dir"), Word(logDir),
      Word("--timeout"), Word(digits), Word("--log-level"), Word(Tag(level))];
  }

  /** The literals of the format string, cut where a word begins. */
  lemma Literals(x: string)
    ensures " --log-level " + x == " " + ("--log-level" + (" " + x))
    ensures "' --timeout " + x == "' " + ("--timeout" + (" " + x))
    ensures "' --log-dir '" + x == "' " + ("--log-dir" + (" " + ("'" + x)))
    ensures "' --socket '" + x == "' " + ("--socket" + (" " + ("'" + x)))
    ensures "' && exec '" + x == "' " + ("&& " + ("exec" + (" " + ("'" + x))))
    ensures "source '" + x == "source" + (" " + ("'" + x))
  {
  }

  lemma Close(v: string, rest: string)
    ensures "'" + (ShellEscape(v) + ("' " + rest)) == Quoted(v) + (" " + rest)
  {
    var e := ShellEscape(v);
    assert "' " + rest == "'" + (" " + rest);
    assert "'" + (e + ("'" + (" " + rest))) == ("'" + e + "'") + (" " + rest);
  }

  lemma LaunchIsCut(envFile: string, server: string, socket: string, logDir: string, timeout: nat, level: LogLevel)
    ensures var t5 := "--log-level" + (" " + Tag(level));
            var t4 := "--timeout" + (" " + (Decimal.Of(timeout) + (" " + t5)));
            var t3 := "--log-dir" + (" " + (Quoted(logDir) + (" " + t4)));
            var t2 := "--socket" + (" " + (Quoted(socket) + (" " + t3)));
            var t1 := "exec" + (" " + (Quoted(server) + (" " + t2)));
            Launch(envFile, server, socket, logDir, timeout, level) == "source" + (" " + (Quoted(envFile) + (" " + ("&& " + t1))))
  {
    var t5 := "--log-level" + (" " + Tag(level));
    var t4 := "--timeout" + (" " + (Decimal.Of(timeout) + (" " + t5)));
    var t3 := "--log-dir" + (" " + (Quoted(logDir) + (" " + t4)));
    var t2 := "--socket" + (" " + (Quoted(socket) + (" " + t3)));
    var t1 := "exec" + (" " + (Quoted(server) + (" " + t2)));
    Literals(Tag(level));
    Literals(Decimal.Of(timeout) + (" " + t5));
    Literals(ShellEscape(logDir) + ("' " + t4));
    Literals(ShellEscape(socket) + ("' " + t3));
    Literals(ShellEscape(server) + ("' " + t2));
    Literals(ShellEscape(envFile) + ("' " + ("&& " + t1)));
    Close(logDir, t4);
    Close(socket, t3);
    Close(server, t2);
    Close(envFile, "&& " + t1);
  }

  // -------------------------------------------------------- the setup script

  function Line(p: (string, string)): string {
    "export " + p.0 + "='" + ShellEscape(p.1) + "'\n"
  }

  function Script(pairs: seq<(string, string)>): string {
    if pairs == [] then "" else Line(pairs[0]) + Script(pairs[1..])
  }

  method RenderExports(pairs: seq<(string, string)>) returns (out: string)
    ensures out == Script(pairs)
  {
    out := "";
    for i := 0 to |pairs|
      invariant out + Script(pairs[i..]) == Script(pairs)
    {
      assert pairs[i..][1..] == pairs[i + 1..];
      assert out + (Line(pairs[i]) + Script(pairs[i + 1..])) == (out + Line(pairs[i])) + Script(pairs[i + 1..]);
      out := out + Line(pairs[i]);
    }
    assert pairs[|pairs|..] == [] && out + "" == out;
  }

  /** The assignments a list of tokens makes, if it is nothing but `export NAME=VALUE` lines. */
  function Assignments(ts: seq<Token>): Option<seq<(string, string)>> {
    if ts == [] then Some([])
    else if |ts| >= 3 && ts[0] == Word("export") && ts[1].Word? && ts[2] == Newline && Env.SplitOnce(ts[1].text).Some? then
      var rest := Assignments(ts[3..]);
      if rest.None? then None else Some([Env.SplitOnce(ts[1].text).value] + rest.value)
    else None
  }

  lemma LineIsCut(p: (string, string), rest: string)
    ensures Line(p) + rest == "export" + (" " + ((p.0 + "=") + (Quoted(p.1) + ("\n" + rest))))
  {
  }

  lemma LineReads(p: (string, string), rest: string)
    requires Plain(p.0)
    ensures Tokens(Line(p) + rest) == After([Word("export"), Word(p.0 + "=" + p.1), Newline], Tokens(rest))
  {
    var tail := Quoted(p.1) + ("\n" + rest);
    var name := p.0 + "=";
    LineIsCut(p, rest);
    PlainNames();
    PlainThen("export", name + tail);
    PlainContinues(name, tail, None);
    assert "" + name == name;
    QuotedContinues(p.1, "\n" + rest, Some(name));
    assert ("\n" + rest)[1..] == rest;
    if Tokens(rest).Some? {
      var r := Tokens(rest).value;
      assert [Word("export")] + ([Word(name + p.1)] + [Newline] + r) == [Word("export"), Word(name + p.1), Newline] + r;
    }
  }

  /** A script of any values read by the shell makes exactly the assignments it was rendered from. */
  lemma {:induction false} ScriptReadsBack(pairs: seq<(string, string)>)
    requires forall p <- pairs :: Plain(p.0) && '=' !in p.0
    ensures Tokens(Script(pairs)).Some? && Assignments(Tokens(Script(pairs)).value) == Some(pairs)
    decreases |pairs|
  {
    if pairs != [] {
      var p := pairs[0];
      ScriptReadsBack(pairs[1..]);
      LineReads(p, Script(pairs[1..]));
      Env.SplitJoined(p.0, p.1);
      var line, rest := [Word("export"), Word(p.0 + "=" + p.1), Newline], Tokens(Script(pairs[1..])).value;
      assert (line + rest)[3..] == rest;
      assert [p] + pairs[1..] == pairs;
    }
  }

  function SetupPairs(project: string, container: string, socket: string, cacheDir: string, logDir: string): seq<(string, string)> {
    [("NCAP_PROJECT", project), ("NCAP_CONTAINER", container), ("NCAP_SOCKET", socket),
     ("NCAP_CACHE_DIR", cacheDir), ("NCAP_LOG_DIR", logDir)]
  }

  lemma SetupNames()
    ensures forall n <- ["NCAP_PROJECT", "NCAP_CONTAINER", "NCAP_SOCKET", "NCAP_CACHE_DIR", "NCAP_LOG_DIR"] :: Plain(n) && '=' !in n
  {
  }

  /** `setup_env`, from the five resolved values on. */
  method SetupEnv(project: string, container: string, socket: string, cacheDir: string, logDir: string) returns (out: string)
    ensures Tokens(out).Some?
    ensures Assignments(Tokens(out).value) == Some([
      ("NCAP_PROJECT", project), ("NCAP_CONTAINER", container), ("NCAP_SOCKET", socket),
      ("NCAP_CACHE_DIR", cacheDir), ("NCAP_LOG_DIR", logDir)])
  {
    var pairs := SetupPairs(project, container, socket, cacheDir, logDir);
    out := RenderExports(pairs);
    SetupNames();
    ScriptReadsBack(pairs);
  }
}

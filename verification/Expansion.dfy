/** `$NAME` and `${NAME}` in option values: a cursor that walks a template once, and the grammar of
    what it reads. */
module Expansion {
  import opened Wrappers

  predicate IsAlpha(c: char) {
    'a' <= c <= 'z' || 'A' <= c <= 'Z'
  }

  predicate IsNameStart(c: char) {
    IsAlpha(c) || c == '_'
  }

  predicate IsNameChar(c: char) {
    IsNameStart(c) || '0' <= c <= '9'
  }

  predicate IsEnvName(name: string) {
    name != "" && IsNameStart(name[0]) && forall c <- name[1..] :: IsNameChar(c)
  }

  // ------------------------------------------------------------- grammar

  datatype Token = Text(text: string) | Var(name: string, braced: bool)

  function Source(t: Token): string {
    match t
    case Text(text) => text
    case Var(name, braced) => if braced then "${" + name + "}" else "$" + name
  }

  function SourceOf(ts: seq<Token>): string {
    if ts == [] then "" else Source(ts[0]) + SourceOf(ts[1..])
  }

  ghost predicate NonName(text: string) {
    && |text| >= 3 && text[0] == '$' && text[1] == '{' && text[|text| - 1] == '}'
    && '}' !in text[2..|text| - 1] && !IsEnvName(text[2..|text| - 1])
  }

  ghost predicate Unterminated(text: string) {
    |text| >= 2 && text[0] == '$' && text[1] == '{' && '}' !in text[2..]
  }

  /** The shapes a token can have, in front of the text `after` it: a name is as long as it can be, a
      lone `$` starts nothing, and a `${` without a closing brace takes everything. */
  ghost predicate Shaped(t: Token, after: string) {
    match t
    case Var(name, true) => IsEnvName(name)
    case Var(name, false) => IsEnvName(name) && (after == "" || !IsNameChar(after[0]))
    case Text(text) =>
      || (|text| == 1 && text[0] != '$')
      || (text == "$" && (after == "" || (after[0] != '{' && !IsNameStart(after[0]))))
      || NonName(text)
      || (Unterminated(text) && after == "")
  }

  ghost predicate Grammatical(ts: seq<Token>) {
    ts != [] ==> Shaped(ts[0], SourceOf(ts[1..])) && Grammatical(ts[1..])
  }

  // ------------------------------------------------------------- reading

  /** The length of the longest run of name characters. */
  function NameRun(s: string): (n: nat)
    ensures n <= |s|
    ensures forall c <- s[..n] :: IsNameChar(c)
    ensures n < |s| ==> !IsNameChar(s[n])
  {
    if s == "" || !IsNameChar(s[0]) then 0
    else
      var n := NameRun(s[1..]);
      assert s[..n + 1] == [s[0]] + s[1..][..n];
      n + 1
  }

  /** The number of characters before the first `}`. */
  function BodyRun(s: string): (n: nat)
    ensures n <= |s|
    ensures '}' !in s[..n]
    ensures n < |s| ==> s[n] == '}'
  {
    if s == "" || s[0] == '}' then 0
    else
      var n := BodyRun(s[1..]);
      assert s[..n + 1] == [s[0]] + s[1..][..n];
      n + 1
  }

  function First(s: string): (t: Token)
    requires s != ""
    ensures 0 < |Source(t)| <= |s| && s[..|Source(t)|] == Source(t)
  {
    if s[0] != '$' || s == "$" then Text(s[..1])
    else if s[1] == '{' then
      var body := s[2..][..BodyRun(s[2..])];
      assert s[..2 + |body|] == "${" + body;
      if 2 + |body| == |s| then Text(s)
      else
        assert s[..3 + |body|] == "${" + body + "}";
        if IsEnvName(body) then Var(body, true) else Text(s[..3 + |body|])
    else if IsNameStart(s[1]) then
      var name := s[1..][..NameRun(s[1..])];
      assert s[..1 + |name|] == "$" + name;
      Var(name, false)
    else Text("$")
  }

  function Tokenize(s: string): seq<Token> {
    if s == "" then [] else var t := First(s); [t] + Tokenize(s[|Source(t)|..])
  }

  /** A template has a reading in the grammar, */
  lemma {:induction false} ReadingExists(s: string)
    ensures SourceOf(Tokenize(s)) == s && Grammatical(Tokenize(s))
    decreases |s|
  {
    if s != "" {
      var t := First(s);
      var after := s[|Source(t)|..];
      ReadingExists(after);
      assert Tokenize(s)[1..] == Tokenize(after);
      assert s == Source(t) + after;
      FirstIsShaped(s);
    }
  }

  lemma FirstIsShaped(s: string)
    requires s != ""
    ensures Shaped(First(s), s[|Source(First(s))|..])
  {
    if s[0] == '$' && s != "$" {
      if s[1] == '{' {
        var body := s[2..][..BodyRun(s[2..])];
        if 2 + |body| == |s| {
          assert s[2..] == body;
        } else if !IsEnvName(body) {
          assert s[..3 + |body|][2..2 + |body|] == body;
        }
      } else if IsNameStart(s[1]) {
        assert s[1..][..NameRun(s[1..])][0] == s[1];
      }
    }
  }

  /** and only one. */
  lemma {:induction false} ReadingIsUnique(ts: seq<Token>)
    requires Grammatical(ts)
    ensures Tokenize(SourceOf(ts)) == ts
    decreases |ts|
  {
    if ts != [] {
      TokenRead(ts[0], SourceOf(ts[1..]));
      ReadingIsUnique(ts[1..]);
      assert [ts[0]] + ts[1..] == ts;
    }
  }

  lemma TokenRead(t: Token, after: string)
    requires Shaped(t, after)
    ensures Tokenize(Source(t) + after) == [t] + Tokenize(after)
  {
    ShapedIsFirst(t, after);
    assert (Source(t) + after)[|Source(t)|..] == after;
  }

  lemma ShapedIsFirst(t: Token, after: string)
    requires Shaped(t, after)
    ensures Source(t) != "" && First(Source(t) + after) == t
  {
    match t {
      case Var(name, true) =>
        NameHasNoBrace(name);
        FirstBraced(name, after);
      case Var(name, false) =>
        FirstUnbraced(name, after);
      case Text(text) =>
        if NonName(text) {
          var body := text[2..|text| - 1];
          FirstBraced(body, after);
          assert text == "${" + body + "}";
        } else if Unterminated(text) && after == "" {
          FirstUnterminated(text[2..]);
          assert text == "${" + text[2..] && text + after == text;
        } else {
          assert (text + after)[..1] == text;
        }
    }
  }

  lemma NameHasNoBrace(name: string)
    requires IsEnvName(name)
    ensures forall c <- name :: IsNameChar(c)
    ensures '}' !in name
  {
    assert name == [name[0]] + name[1..];
  }

  lemma FirstBraced(body: string, after: string)
    requires '}' !in body
    ensures First("${" + body + "}" + after) == if IsEnvName(body) then Var(body, true) else Text("${" + body + "}")
  {
    var s := "${" + body + "}" + after;
    BodyOf(body, "}" + after);
    assert s[2..] == body + ("}" + after);
    assert s[..3 + |body|] == "${" + body + "}";
  }

  lemma FirstUnterminated(body: string)
    requires '}' !in body
    ensures First("${" + body) == Text("${" + body)
  {
    var s := "${" + body;
    BodyOf(body, "");
    assert s[2..] == body && body + "" == body;
  }

  lemma FirstUnbraced(name: string, after: string)
    requires IsEnvName(name) && (after == "" || !IsNameChar(after[0]))
    ensures First("$" + name + after) == Var(name, false)
  {
    var s := "$" + name + after;
    NameHasNoBrace(name);
    NameOf(name, after);
    assert s[1..] == name + after;
    assert s[1] == name[0];
  }

  lemma {:induction false} BodyOf(body: string, rest: string)
    requires '}' !in body && (rest == "" || rest[0] == '}')
    ensures BodyRun(body + rest) == |body|
    ensures (body + rest)[..|body|] == body
    decreases |body|
  {
    if body != "" {
      assert (body + rest)[1..] == body[1..] + rest;
      BodyOf(body[1..], rest);
    }
  }

  lemma {:induction false} NameOf(name: string, rest: string)
    requires (forall c <- name :: IsNameChar(c)) && (rest == "" || !IsNameChar(rest[0]))
    ensures NameRun(name + rest) == |name|
    ensures (name + rest)[..|name|] == name
    decreases |name|
  {
    if name != "" {
      assert (name + rest)[1..] == name[1..] + rest;
      NameOf(name[1..], rest);
    }
  }

  // ------------------------------------------------------------ expansion

  type Lookup = string -> Option<string>

  function Unset(t: Token, lookup: Lookup): Option<string> {
    if t.Var? && lookup(t.name).None? then Some(t.name) else None
  }

  function Meaning(t: Token, lookup: Lookup): string
    requires Unset(t, lookup).None?
  {
    match t
    case Text(text) => text
    case Var(name, _) => lookup(name).value
  }

  /** The meanings joined, or the first unset name. */
  function Meanings(ts: seq<Token>, lookup: Lookup): Result<string, string> {
    if ts == [] then Ok("")
    else if Unset(ts[0], lookup).Some? then Err(ts[0].name)
    else match Meanings(ts[1..], lookup)
      case Err(name) => Err(name)
      case Ok(rest) => Ok(Meaning(ts[0], lookup) + rest)
  }

  lemma BracedAt(input: string, start: nat, end: nat, name: string)
    requires 2 <= start <= end <= |input| && input[start - 2] == '$' && input[start - 1] == '{'
    requires name == input[start..end] && '}' !in name && (end < |input| ==> input[end] == '}')
    ensures First(input[start - 2..]) ==
              if end == |input| then Text("${" + name)
              else if IsEnvName(name) then Var(name, true)
              else Text("${" + name + "}")
  {
    var s := input[start - 2..];
    if end == |input| {
      assert s == "${" + name;
      FirstUnterminated(name);
    } else {
      assert s == "${" + name + "}" + input[end + 1..];
      FirstBraced(name, input[end + 1..]);
    }
  }

  function Both(a: Result<string, string>, b: Result<string, string>): Result<string, string> {
    if a.Err? then a else if b.Err? then b else Ok(a.value + b.value)
  }

  lemma Reading(s: string, lookup: Lookup)
    requires s != ""
    ensures var t := First(s);
            var rest := Meanings(Tokenize(s[|Source(t)|..]), lookup);
            Meanings(Tokenize(s), lookup) == if Unset(t, lookup).Some? then Err(t.name) else Both(Ok(Meaning(t, lookup)), rest)
  {
    var t := First(s);
    var after := Tokenize(s[|Source(t)|..]);
    assert Tokenize(s) == [t] + after;
    assert ([t] + after)[1..] == after;
  }

  lemma BothAssoc(a: string, b: string, c: Result<string, string>)
    ensures Both(Ok(a), Both(Ok(b), c)) == Both(Ok(a + b), c)
  {
    if c.Ok? {
      assert a + (b + c.value) == (a + b) + c.value;
    }
  }

  lemma BothUnit(r: Result<string, string>)
    ensures Both(Ok(""), r) == r && (r.Ok? ==> Both(r, Ok("")) == r)
  {
    if r.Ok? {
      assert "" + r.value == r.value && r.value + "" == r.value;
    }
  }

  /** The walk over one template. */
  class Template {
    const input: string
    var at: nat
    var out: string

    constructor (input: string)
      ensures this.input == input && at == 0 && out == ""
    {
      this.input := input;
      at, out := 0, "";
    }

    /** The characters before the closing brace, or all that are left. */
    method ReadBody() returns (name: string)
      requires at <= |input|
      modifies this`at
      ensures old(at) <= at <= |input|
      ensures name == input[old(at)..at] && '}' !in name
      ensures at < |input| ==> input[at] == '}'
    {
      name := "";
      ghost var start := at;
      while at < |input| && input[at] != '}'
        invariant start <= at <= |input|
        invariant name == input[start..at] && '}' !in name
      {
        name := name + [input[at]];
        at := at + 1;
      }
    }

    /** One `${...}` form, its `$` and `{` already consumed. */
    method ExpandBraced(lookup: Lookup) returns (failed: Option<string>)
      requires 2 <= at <= |input| && input[at - 2] == '$' && input[at - 1] == '{'
      modifies this
      ensures var t := First(input[old(at) - 2..]);
              && failed == Unset(t, lookup)
              && (failed.None? ==> at == old(at) - 2 + |Source(t)| && out == old(out) + Meaning(t, lookup))
    {
      ghost var start := at;
      var name := ReadBody();
      BracedAt(input, start, at, name);
      if at == |input| {
        out := out + ("${" + name);
        return None;
      }
      at := at + 1;
      if !IsEnvName(name) {
        out := out + ("${" + name + "}");
        return None;
      }
      match lookup(name) {
        case Some(val) =>
          out := out + val;
          return None;
        case None =>
          return Some(name);
      }
    }

    /** One `$NAME` form, its `$` already consumed and a first name character seen. */
    method ExpandUnbraced(lookup: Lookup) returns (failed: Option<string>)
      requires 1 <= at < |input| && input[at - 1] == '$' && IsNameStart(input[at])
      modifies this
      ensures var t := First(input[old(at) - 1..]);
              && failed == Unset(t, lookup)
              && (failed.None? ==> at == old(at) - 1 + |Source(t)| && out == old(out) + Meaning(t, lookup))
    {
      ghost var s := input[at - 1..];
      ghost var start := at;
      assert s[1..] == input[at..];
      var name := "";
      while at < |input| && IsNameChar(input[at])
        invariant start <= at <= |input|
        invariant name == input[start..at] && (forall c <- name :: IsNameChar(c)) && out == old(out)
      {
        name := name + [input[at]];
        at := at + 1;
      }
      assert name[0] == input[start] && forall c <- name[1..] :: c in name;
      assert s == "$" + name + input[at..];
      FirstUnbraced(name, input[at..]);
      match lookup(name) {
        case Some(val) =>
          out := out + val;
          return None;
        case None =>
          return Some(name);
      }
    }

    /** One turn of the outer loop reads one token. */
    method ExpandNext(lookup: Lookup) returns (failed: Option<string>)
      requires at < |input|
      modifies this
      ensures var t := First(input[old(at)..]);
              && failed == Unset(t, lookup)
              && (failed.None? ==> at == old(at) + |Source(t)| && out == old(out) + Meaning(t, lookup))
    {
      ghost var s := input[at..];
      var c := input[at];
      at := at + 1;
      failed := None;
      if c != '$' {
        out := out + [c];
      } else if at < |input| && input[at] == '{' {
        at := at + 1;
        failed := ExpandBraced(lookup);
      } else if at < |input| && IsNameStart(input[at]) {
        failed := ExpandUnbraced(lookup);
      } else {
        out := out + "$";
      }
    }
  }

  method ExpandWith(input: string, lookup: Lookup) returns (r: Result<string, string>)
    ensures r == Meanings(Tokenize(input), lookup)
  {
    var walk := new Template(input);
    ghost var whole := Meanings(Tokenize(input), lookup);
    assert input[0..] == input;
    BothUnit(whole);
    while walk.at < |input|
      invariant walk.at <= |input| && fresh(walk) && walk.input == input
      invariant whole == Both(Ok(walk.out), Meanings(Tokenize(input[walk.at..]), lookup))
    {
      ghost var before, s := walk.out, input[walk.at..];
      ghost var t := First(s);
      Reading(s, lookup);
      var failed := walk.ExpandNext(lookup);
      if failed.Some? {
        return Err(failed.value);
      }
      assert s[|Source(t)|..] == input[walk.at..];
      BothAssoc(before, Meaning(t, lookup), Meanings(Tokenize(input[walk.at..]), lookup));
    }
    assert input[walk.at..] == "";
    BothUnit(Ok(walk.out));
    return Ok(walk.out);
  }

  // ------------------------------------------------------------- theorems

  function Expand(s: string, lookup: Lookup): Result<string, string> {
    Meanings(Tokenize(s), lookup)
  }

  ghost predicate NamesUnset(t: Token, lookup: Lookup) {
    t.Var? && lookup(t.name).None?
  }

  ghost predicate Leftmost(ts: seq<Token>, k: nat, lookup: Lookup)
    requires k < |ts|
  {
    NamesUnset(ts[k], lookup) && forall j :: 0 <= j < k ==> !NamesUnset(ts[j], lookup)
  }

  /** Expansion fails exactly when some name token is unset, and it names the leftmost. */
  lemma {:induction false} FailsOnLeftmostUnset(ts: seq<Token>, lookup: Lookup)
    ensures Meanings(ts, lookup).Ok? <==> forall t <- ts :: !NamesUnset(t, lookup)
    ensures forall k :: 0 <= k < |ts| && Leftmost(ts, k, lookup) ==> Meanings(ts, lookup) == Err(ts[k].name)
  {
    if ts != [] {
      FailsOnLeftmostUnset(ts[1..], lookup);
      assert ts == [ts[0]] + ts[1..];
      if !NamesUnset(ts[0], lookup) {
        forall k | 0 < k < |ts| && Leftmost(ts, k, lookup) ensures Leftmost(ts[1..], k - 1, lookup) {
          assert forall j :: 0 <= j < k - 1 ==> ts[1..][j] == ts[j + 1];
        }
      }
    }
  }

  predicate HasName(ts: seq<Token>) {
    exists t <- ts :: t.Var?
  }

  lemma {:induction false} TextMeansItself(ts: seq<Token>, lookup: Lookup)
    requires !HasName(ts)
    ensures Meanings(ts, lookup) == Ok(SourceOf(ts))
  {
    if ts != [] {
      assert ts[0] in ts && forall t <- ts[1..] :: t in ts;
      TextMeansItself(ts[1..], lookup);
    }
  }

  lemma NamelessIsFixed(s: string, lookup: Lookup)
    requires !HasName(Tokenize(s))
    ensures Expand(s, lookup) == Ok(s)
  {
    ReadingExists(s);
    TextMeansItself(Tokenize(s), lookup);
  }

  function Nothing(name: string): Option<string> {
    None
  }

  lemma NamesCanFail(s: string)
    requires HasName(Tokenize(s))
    ensures Expand(s, Nothing).Err?
  {
    FailsOnLeftmostUnset(Tokenize(s), Nothing);
    var t :| t in Tokenize(s) && t.Var?;
    assert NamesUnset(t, Nothing);
  }

  ghost predicate Fixed(s: string) {
    forall lookup: Lookup :: Expand(s, lookup) == Ok(s)
  }

  /** A template is left as it is in every environment exactly when it has no name token: `${5}`,
      an unterminated `${NAME` and a trailing `$` are text. */
  lemma FixedIffNameless(s: string)
    ensures Fixed(s) <==> !HasName(Tokenize(s))
  {
    if HasName(Tokenize(s)) {
      NamesCanFail(s);
    } else {
      forall lookup: Lookup ensures Expand(s, lookup) == Ok(s) {
        NamelessIsFixed(s, lookup);
      }
    }
  }

  lemma {:induction false} MeaningsAppend(a: seq<Token>, b: seq<Token>, lookup: Lookup)
    ensures Meanings(a + b, lookup) == Both(Meanings(a, lookup), Meanings(b, lookup))
    decreases |a|
  {
    if a == [] {
      assert a + b == b;
      BothUnit(Meanings(b, lookup));
    } else {
      assert (a + b)[1..] == a[1..] + b;
      MeaningsAppend(a[1..], b, lookup);
      if Unset(a[0], lookup).None? && Meanings(a[1..], lookup).Ok? {
        BothAssoc(Meaning(a[0], lookup), Meanings(a[1..], lookup).value, Meanings(b, lookup));
      }
    }
  }

  lemma {:induction false} SourceAppend(a: seq<Token>, b: seq<Token>)
    ensures SourceOf(a + b) == SourceOf(a) + SourceOf(b)
    decreases |a|
  {
    if a == [] {
      assert a + b == b;
    } else {
      assert (a + b)[1..] == a[1..] + b;
      SourceAppend(a[1..], b);
    }
  }

  lemma {:induction false} CutIsGrammatical(a: seq<Token>, b: seq<Token>)
    requires Grammatical(a + b)
    ensures Grammatical(a) && Grammatical(b)
    decreases |a|
  {
    if a == [] {
      assert a + b == b;
    } else {
      assert (a + b)[1..] == a[1..] + b;
      CutIsGrammatical(a[1..], b);
      SourceAppend(a[1..], b);
    }
  }

  /** Expansion distributes over concatenation at token boundaries: cutting a template between two of
      its tokens, expanding the halves and joining the results is expanding the whole. What was
      inserted for a name is therefore never read again. */
  lemma DistributesAtBoundaries(s: string, k: nat, lookup: Lookup)
    requires k <= |Tokenize(s)|
    ensures var left, right := SourceOf(Tokenize(s)[..k]), SourceOf(Tokenize(s)[k..]);
            && s == left + right
            && Expand(s, lookup) == Both(Expand(left, lookup), Expand(right, lookup))
  {
    var a, b := Tokenize(s)[..k], Tokenize(s)[k..];
    ReadingExists(s);
    assert Tokenize(s) == a + b;
    CutIsGrammatical(a, b);
    SourceAppend(a, b);
    ReadingIsUnique(a);
    ReadingIsUnique(b);
    MeaningsAppend(a, b, lookup);
  }

  function Value(name: string, lookup: Lookup): Result<string, string> {
    match lookup(name)
    case Some(val) => Ok(val)
    case None => Err(name)
  }

  /** A name in either form stands for its value, whatever characters that value has. */
  lemma NamesExpand(name: string, lookup: Lookup)
    requires IsEnvName(name)
    ensures Expand("${" + name + "}", lookup) == Value(name, lookup)
    ensures Expand("$" + name, lookup) == Value(name, lookup)
  {
    SingleToken(Var(name, true), lookup);
    SingleToken(Var(name, false), lookup);
  }

  lemma SingleToken(t: Token, lookup: Lookup)
    requires Shaped(t, "")
    ensures Expand(Source(t), lookup) == if Unset(t, lookup).Some? then Err(t.name) else Ok(Meaning(t, lookup))
  {
    TokenRead(t, "");
    assert Source(t) + "" == Source(t);
    var ts := Tokenize(Source(t));
    assert ts == [t] + Tokenize("") == [t] && ts[1..] == [];
    assert Meanings(ts[1..], lookup) == Ok("");
    if Unset(t, lookup).None? {
      assert Meaning(t, lookup) + "" == Meaning(t, lookup);
    }
  }

  // --------------------------------------------- the expansion, by equations

  /** The names that are read, `[A-Za-z_][A-Za-z0-9_]*`, written out. */
  ghost predicate Opener(c: char) {
    'A' <= c <= 'Z' || c == '_' || 'a' <= c <= 'z'
  }

  ghost predicate Follower(c: char) {
    '0' <= c <= '9' || 'A' <= c <= 'Z' || c == '_' || 'a' <= c <= 'z'
  }

  ghost predicate NameText(s: string) {
    s != "" && Opener(s[0]) && forall c <- s :: Follower(c)
  }

  lemma NameTexts(s: string)
    ensures IsEnvName(s) <==> NameText(s)
  {
    if s != "" {
      assert s == [s[0]] + s[1..];
      assert (forall c <- s[1..] :: IsNameChar(c)) <==> forall c <- s[1..] :: Follower(c);
      assert forall c <- s :: c == s[0] || c in s[1..];
      assert s[0] in s && forall c <- s[1..] :: c in s;
    }
  }

  lemma ReadsOn(t: Token, after: string, lookup: Lookup)
    requires Shaped(t, after)
    ensures Expand(Source(t) + after, lookup) ==
              Both(if t.Var? then Value(t.name, lookup) else Ok(t.text), Expand(after, lookup))
  {
    TokenRead(t, after);
    assert ([t] + Tokenize(after))[1..] == Tokenize(after);
  }

  /** The expansion of every template, from its front: an ordinary character stays; */
  lemma OrdinaryStays(c: char, after: string, lookup: Lookup)
    requires c != '$'
    ensures Expand([c] + after, lookup) == Both(Ok([c]), Expand(after, lookup))
    ensures Expand("", lookup) == Ok("")
  {
    ReadsOn(Text([c]), after, lookup);
  }

  /** a `$` in front of anything but a letter, `_` or `{` stays (a digit included), as does one at the end; */
  lemma LoneDollarStays(after: string, lookup: Lookup)
    requires after == "" || (after[0] != '{' && !Opener(after[0]))
    ensures Expand("$" + after, lookup) == Both(Ok("$"), Expand(after, lookup))
  {
    ReadsOn(Text("$"), after, lookup);
  }

  /** `$NAME` takes the longest name; */
  lemma LongestName(name: string, after: string, lookup: Lookup)
    requires NameText(name) && (after == "" || !Follower(after[0]))
    ensures Expand("$" + name + after, lookup) == Both(Value(name, lookup), Expand(after, lookup))
  {
    NameTexts(name);
    ReadsOn(Var(name, false), after, lookup);
  }

  /** and `${...}` reaches to the first closing brace, and without one to the end, and stays as it is
      unless there is a name in it. */
  lemma BracesReadAName(body: string, after: string, lookup: Lookup)
    requires '}' !in body
    ensures Expand("${" + body + "}" + after, lookup) ==
              Both(if NameText(body) then Value(body, lookup) else Ok("${" + body + "}"), Expand(after, lookup))
    ensures Expand("${" + body, lookup) == Ok("${" + body)
  {
    NameTexts(body);
    var all, open := "${" + body + "}", "${" + body;
    assert all[2..|all| - 1] == body && open[2..] == body;
    ReadsOn(if NameText(body) then Var(body, true) else Text(all), after, lookup);
    ReadsOn(Text(open), "", lookup);
    assert open + "" == open;
  }
}

/** The environment of a request: the client merges forwarded names and `--env` flags into a list of
    `KEY=VALUE` entries, and the server lays that list over the environment it inherited. */
module RequestEnv {
  import opened Wrappers
  import S = ServerConnection

  type Entry = (string, string)

  datatype EnvError = BadForwardList | EmptyKey(flag: string)

  /** `NCAP_ENV_FORWARD`: absent, not a JSON array of names, or the names it lists. */
  datatype Forward = Absent | Malformed | Names(names: seq<string>)

  // ------------------------------------------------------------ splitting

  /** The text before and after the first `=`. */
  function SplitOnce(s: string): (r: Option<(string, string)>)
    ensures r.None? <==> '=' !in s
    ensures r.Some? ==> '=' !in r.value.0 && s == r.value.0 + "=" + r.value.1
  {
    if s == [] then None
    else if s[0] == '=' then Some(("", s[1..]))
    else match SplitOnce(s[1..])
      case None => None
      case Some(kv) => Some(([s[0]] + kv.0, kv.1))
  }

  lemma {:induction false} SplitJoined(key: string, value: string)
    requires '=' !in key
    ensures SplitOnce(key + "=" + value) == Some((key, value))
    decreases |key|
  {
    var s := key + "=" + value;
    if key == [] {
      assert s[1..] == value;
    } else {
      SplitJoined(key[1..], value);
      assert s[1..] == key[1..] + "=" + value;
      assert [key[0]] + key[1..] == key;
    }
  }

  function Join(e: Entry): string {
    e.0 + "=" + e.1
  }

  // ---------------------------------------------------------- the client

  /** One `--env` flag. */
  function ResolveFlag(flag: string, lookup: string -> Option<string>): Result<Option<Entry>, EnvError> {
    match SplitOnce(flag)
    case Some(kv) => if kv.0 == "" then Err(EmptyKey(flag)) else Ok(Some(kv))
    case None =>
      if flag == "" then Err(EmptyKey(flag))
      else match lookup(flag)
        case None => Ok(None)
        case Some(value) => Ok(Some((flag, value)))
  }

  /** The list the merge keeps, updated in place. */
  class EntryList {
    var entries: seq<Entry>

    constructor ()
      ensures entries == []
    {
      entries := [];
    }

    /** Replace the value of a key that is there, where it is; otherwise append. */
    method Apply(key: string, value: string)
      modifies this
      ensures entries == Put(old(entries), key, value)
    {
      var k := 0;
      while k < |entries| && entries[k].0 != key
        invariant 0 <= k <= |entries|
        invariant entries == old(entries)
        invariant forall j :: 0 <= j < k ==> entries[j].0 != key
      {
        k := k + 1;
      }
      PutAt(entries, k, key, value);
      if k < |entries| {
        entries := entries[k := (key, value)];
      } else {
        entries := entries + [(key, value)];
      }
    }
  }

  lemma {:induction false} PutAt(entries: seq<Entry>, k: nat, key: string, value: string)
    requires k <= |entries| && forall j :: 0 <= j < k ==> entries[j].0 != key
    requires k < |entries| ==> entries[k].0 == key
    ensures Put(entries, key, value) == if k < |entries| then entries[k := (key, value)] else entries + [(key, value)]
    decreases k
  {
    if k == 0 {
      assert entries == [] || entries[0 := (key, value)] == [(key, value)] + entries[1..];
      assert entries == [] ==> entries + [(key, value)] == [(key, value)];
    } else {
      assert forall j :: 0 <= j < k - 1 ==> entries[1..][j] == entries[j + 1];
      PutAt(entries[1..], k - 1, key, value);
      assert entries == [entries[0]] + entries[1..];
    }
  }

  function Put(entries: seq<Entry>, key: string, value: string): seq<Entry> {
    if entries == [] then [(key, value)]
    else if entries[0].0 == key then [(key, value)] + entries[1..]
    else [entries[0]] + Put(entries[1..], key, value)
  }

  function PutAll(entries: seq<Entry>, arrivals: seq<Entry>): seq<Entry>
    decreases |arrivals|
  {
    if arrivals == [] then entries else PutAll(Put(entries, arrivals[0].0, arrivals[0].1), arrivals[1..])
  }

  /** The forwarded names that are set, with their values, in list order. */
  function Forwarded(names: seq<string>, lookup: string -> Option<string>): seq<Entry> {
    if names == [] then []
    else
      var rest := Forwarded(names[1..], lookup);
      match lookup(names[0])
      case None => rest
      case Some(value) => [(names[0], value)] + rest
  }

  /** The flags' entries in order, or the error of the first flag with an empty key. */
  function FlagEntries(flags: seq<string>, lookup: string -> Option<string>): Result<seq<Entry>, EnvError> {
    if flags == [] then Ok([])
    else match ResolveFlag(flags[0], lookup)
      case Err(e) => Err(e)
      case Ok(entry) => match FlagEntries(flags[1..], lookup)
        case Err(e) => Err(e)
        case Ok(rest) => Ok(if entry.Some? then [entry.value] + rest else rest)
  }

  function JoinAll(entries: seq<Entry>): seq<string> {
    if entries == [] then [] else [Join(entries[0])] + JoinAll(entries[1..])
  }

  function NamesOf(forward: Forward): seq<string> {
    if forward.Names? then forward.names else []
  }

  lemma {:induction false} PutAllSnoc(entries: seq<Entry>, arrivals: seq<Entry>, e: Entry)
    ensures PutAll(entries, arrivals + [e]) == Put(PutAll(entries, arrivals), e.0, e.1)
    decreases |arrivals|
  {
    if arrivals == [] {
      assert [] + [e] == [e] && [e][1..] == [];
    } else {
      assert (arrivals + [e])[1..] == arrivals[1..] + [e];
      PutAllSnoc(Put(entries, arrivals[0].0, arrivals[0].1), arrivals[1..], e);
    }
  }

  lemma {:induction false} PutAllAppend(entries: seq<Entry>, a: seq<Entry>, b: seq<Entry>)
    ensures PutAll(entries, a + b) == PutAll(PutAll(entries, a), b)
    decreases |a|
  {
    if a == [] {
      assert [] + b == b;
    } else {
      assert (a + b)[1..] == a[1..] + b;
      PutAllAppend(Put(entries, a[0].0, a[0].1), a[1..], b);
    }
  }

  /** What the merge amounts to: every arrival put in turn, forwarded names before flags. */
  function Merged(forward: Forward, flags: seq<string>, lookup: string -> Option<string>): Result<seq<string>, EnvError> {
    if forward.Malformed? then Err(BadForwardList)
    else match FlagEntries(flags, lookup)
      case Err(e) => Err(e)
      case Ok(entries) => Ok(JoinAll(PutAll([], Forwarded(NamesOf(forward), lookup) + entries)))
  }

  method AddForwarded(list: EntryList, names: seq<string>, lookup: string -> Option<string>)
    modifies list
    ensures list.entries == PutAll(old(list.entries), Forwarded(names, lookup))
  {
    for i := 0 to |names|
      invariant PutAll(list.entries, Forwarded(names[i..], lookup)) == PutAll(old(list.entries), Forwarded(names, lookup))
    {
      assert names[i..][0] == names[i] && names[i..][1..] == names[i + 1..];
      match lookup(names[i]) {
        case None =>
        case Some(value) =>
          ghost var rest := Forwarded(names[i + 1..], lookup);
          assert ([(names[i], value)] + rest)[1..] == rest;
          list.Apply(names[i], value);
      }
    }
  }

  method AddFlags(list: EntryList, flags: seq<string>, lookup: string -> Option<string>) returns (failed: Option<EnvError>)
    modifies list
    ensures failed.None? <==> FlagEntries(flags, lookup).Ok?
    ensures failed.Some? ==> FlagEntries(flags, lookup) == Err(failed.value)
    ensures failed.None? ==> list.entries == PutAll(old(list.entries), FlagEntries(flags, lookup).value)
  {
    ghost var all := FlagEntries(flags, lookup);
    for i := 0 to |flags|
      invariant var rest := FlagEntries(flags[i..], lookup);
                && rest.Ok? == all.Ok?
                && (all.Err? ==> rest == all)
                && (all.Ok? ==> PutAll(list.entries, rest.value) == PutAll(old(list.entries), all.value))
    {
      assert flags[i..][0] == flags[i] && flags[i..][1..] == flags[i + 1..];
      ghost var rest := FlagEntries(flags[i + 1..], lookup);
      match ResolveFlag(flags[i], lookup) {
        case Err(e) =>
          return Some(e);
        case Ok(None) =>
        case Ok(Some(entry)) =>
          assert rest.Ok? ==> ([entry] + rest.value)[1..] == rest.value;
          list.Apply(entry.0, entry.1);
      }
    }
    failed := None;
  }

  method Render(entries: seq<Entry>) returns (out: seq<string>)
    ensures out == JoinAll(entries)
  {
    out := [];
    for i := 0 to |entries|
      invariant out + JoinAll(entries[i..]) == JoinAll(entries)
    {
      assert entries[i..][1..] == entries[i + 1..];
      assert out + ([Join(entries[i])] + JoinAll(entries[i + 1..])) == (out + [Join(entries[i])]) + JoinAll(entries[i + 1..]);
      out := out + [Join(entries[i])];
    }
    assert entries[|entries|..] == [] && out + [] == out;
  }

  method BuildEnv(flags: seq<string>, forward: Forward, lookup: string -> Option<string>)
    returns (r: Result<seq<string>, EnvError>)
    ensures r == Merged(forward, flags, lookup)
  {
    if forward.Malformed? {
      return Err(BadForwardList);
    }
    var list := new EntryList();
    AddForwarded(list, NamesOf(forward), lookup);
    var failed := AddFlags(list, flags, lookup);
    if failed.Some? {
      return Err(failed.value);
    }
    PutAllAppend([], Forwarded(NamesOf(forward), lookup), FlagEntries(flags, lookup).value);
    var out := Render(list.entries);
    return Ok(out);
  }

  // ------------------------------------------------- which errors, and when

  predicate HasEmptyKey(flag: string) {
    flag == "" || flag[0] == '='
  }

  ghost predicate FirstEmpty(flags: seq<string>, k: nat)
    requires k < |flags|
  {
    HasEmptyKey(flags[k]) && forall j :: 0 <= j < k ==> !HasEmptyKey(flags[j])
  }

  /** The merge fails exactly when the forward list is malformed or some flag has an empty key, and
      then it names the first such flag. */
  lemma FailsOnFirstEmptyKey(forward: Forward, flags: seq<string>, lookup: string -> Option<string>)
    ensures Merged(forward, flags, lookup) == Err(BadForwardList) <==> forward.Malformed?
    ensures Merged(forward, flags, lookup).Ok? <==> !forward.Malformed? && forall f <- flags :: !HasEmptyKey(f)
    ensures forall k :: 0 <= k < |flags| && !forward.Malformed? && FirstEmpty(flags, k) ==> Merged(forward, flags, lookup) == Err(EmptyKey(flags[k]))
  {
    FlagsFail(flags, lookup);
    forall k | 0 <= k < |flags| && FirstEmpty(flags, k)
      ensures FlagEntries(flags, lookup) == Err(EmptyKey(flags[k]))
    {
      FirstFails(flags, lookup, k);
    }
  }

  lemma {:induction false} FlagsFail(flags: seq<string>, lookup: string -> Option<string>)
    ensures FlagEntries(flags, lookup).Ok? <==> forall f <- flags :: !HasEmptyKey(f)
    ensures FlagEntries(flags, lookup).Err? ==> FlagEntries(flags, lookup).error != BadForwardList
    decreases |flags|
  {
    if flags != [] {
      OneFlagFails(flags[0], lookup);
      FlagsFail(flags[1..], lookup);
      assert flags == [flags[0]] + flags[1..];
    }
  }

  lemma OneFlagFails(flag: string, lookup: string -> Option<string>)
    ensures ResolveFlag(flag, lookup).Err? <==> HasEmptyKey(flag)
    ensures HasEmptyKey(flag) ==> ResolveFlag(flag, lookup) == Err(EmptyKey(flag))
  {
    if flag != "" && flag[0] != '=' {
      match SplitOnce(flag) {
        case None =>
        case Some(kv) => assert kv.0 != "";
      }
    }
  }

  lemma {:induction false} FirstFails(flags: seq<string>, lookup: string -> Option<string>, k: nat)
    requires k < |flags| && HasEmptyKey(flags[k])
    requires forall j :: 0 <= j < k ==> !HasEmptyKey(flags[j])
    ensures FlagEntries(flags, lookup) == Err(EmptyKey(flags[k]))
    decreases k
  {
    OneFlagFails(flags[0], lookup);
    if k > 0 {
      assert forall j :: 0 <= j < k - 1 ==> flags[1..][j] == flags[j + 1];
      FirstFails(flags[1..], lookup, k - 1);
    }
  }

  // ------------------------------------------------------- order and layers

  function Keys(entries: seq<Entry>): seq<string> {
    if entries == [] then [] else [entries[0].0] + Keys(entries[1..])
  }

  /** Each element once, where it first occurs. */
  function Firsts(keys: seq<string>): seq<string> {
    if keys == [] then []
    else
      var front := Firsts(keys[..|keys| - 1]);
      if keys[|keys| - 1] in front then front else front + [keys[|keys| - 1]]
  }

  lemma {:induction false} PutKeys(entries: seq<Entry>, key: string, value: string)
    ensures Keys(Put(entries, key, value)) == if key in Keys(entries) then Keys(entries) else Keys(entries) + [key]
  {
    if entries == [] {
      assert [(key, value)][1..] == [] && [] + [key] == [key];
    } else if entries[0].0 == key {
      assert ([(key, value)] + entries[1..])[1..] == entries[1..];
    } else {
      PutKeys(entries[1..], key, value);
      assert ([entries[0]] + Put(entries[1..], key, value))[1..] == Put(entries[1..], key, value);
      assert [entries[0].0] + (Keys(entries[1..]) + [key]) == ([entries[0].0] + Keys(entries[1..])) + [key];
    }
  }

  lemma {:induction false} KeysSnoc(entries: seq<Entry>, e: Entry)
    ensures Keys(entries + [e]) == Keys(entries) + [e.0]
  {
    if entries == [] {
      assert [] + [e] == [e] && [e][1..] == [];
    } else {
      KeysSnoc(entries[1..], e);
      assert (entries + [e])[1..] == entries[1..] + [e];
      assert [entries[0].0] + (Keys(entries[1..]) + [e.0]) == ([entries[0].0] + Keys(entries[1..])) + [e.0];
    }
  }

  /** The merged list has each key once, in the order of first arrival. */
  lemma {:induction false} KeysInFirstOrder(arrivals: seq<Entry>)
    ensures Keys(PutAll([], arrivals)) == Firsts(Keys(arrivals))
    decreases |arrivals|
  {
    if arrivals != [] {
      var front, last := arrivals[..|arrivals| - 1], arrivals[|arrivals| - 1];
      assert arrivals == front + [last];
      KeysInFirstOrder(front);
      PutAllSnoc([], front, last);
      PutKeys(PutAll([], front), last.0, last.1);
      KeysSnoc(front, last);
      assert (Keys(front) + [last.0])[..|Keys(front)|] == Keys(front);
    }
  }

  lemma {:induction false} FirstsDistinct(keys: seq<string>)
    ensures forall i, j :: 0 <= i < j < |Firsts(keys)| ==> Firsts(keys)[i] != Firsts(keys)[j]
    ensures forall k :: k in Firsts(keys) <==> k in keys
    decreases |keys|
  {
    if keys != [] {
      FirstsDistinct(keys[..|keys| - 1]);
      assert keys == keys[..|keys| - 1] + [keys[|keys| - 1]];
    }
  }

  type Env = map<string, string>

  /** Entries laid over an environment, left to right. */
  function Layer(env: Env, entries: seq<Entry>): Env
    decreases |entries|
  {
    if entries == [] then env else Layer(env[entries[0].0 := entries[0].1], entries[1..])
  }

  /** What the server makes of a request's list: `None` if it rejects an entry. */
  function ChildEnv(env: Env, list: seq<string>): Option<Env>
    decreases |list|
  {
    if list == [] then Some(env)
    else match SplitOnce(list[0])
      case None => None
      case Some(kv) => ChildEnv(env[kv.0 := kv.1], list[1..])
  }

  lemma {:induction false} LayerAppend(env: Env, a: seq<Entry>, b: seq<Entry>)
    ensures Layer(env, a + b) == Layer(Layer(env, a), b)
    decreases |a|
  {
    if a == [] {
      assert [] + b == b;
    } else {
      assert (a + b)[1..] == a[1..] + b;
      LayerAppend(env[a[0].0 := a[0].1], a[1..], b);
    }
  }

  lemma {:induction false} LayerIgnores(env: Env, entries: seq<Entry>, key: string, value: string)
    requires key !in Keys(entries)
    ensures Layer(env[key := value], entries) == Layer(env, entries)[key := value]
    decreases |entries|
  {
    if entries != [] {
      var e := entries[0];
      assert e.0 in Keys(entries);
      assert env[key := value][e.0 := e.1] == env[e.0 := e.1][key := value];
      assert forall k :: k in Keys(entries[1..]) ==> k in Keys(entries);
      LayerIgnores(env[e.0 := e.1], entries[1..], key, value);
    }
  }

  ghost predicate Distinct(keys: seq<string>) {
    forall i, j :: 0 <= i < j < |keys| ==> keys[i] != keys[j]
  }

  lemma HeadOccursOnce(keys: seq<string>)
    requires Distinct(keys) && keys != []
    ensures keys[0] !in keys[1..]
  {
    assert forall j :: 0 <= j < |keys| - 1 ==> keys[1..][j] == keys[j + 1];
  }

  /** Replacing in place is overriding. */
  lemma {:induction false} PutIsOverride(env: Env, entries: seq<Entry>, key: string, value: string)
    requires Distinct(Keys(entries))
    ensures Layer(env, Put(entries, key, value)) == Layer(env, entries)[key := value]
    decreases |entries|
  {
    if entries == [] {
      assert [(key, value)][1..] == [];
    } else {
      var e, rest := entries[0], entries[1..];
      assert Keys(entries)[1..] == Keys(rest);
      assert forall j :: 0 <= j < |Keys(rest)| ==> Keys(rest)[j] == Keys(entries)[j + 1];
      if e.0 == key {
        assert ([(key, value)] + rest)[1..] == rest;
        HeadOccursOnce(Keys(entries));
        LayerIgnores(env, rest, key, value);
        LayerIgnores(env, rest, key, e.1);
        assert Layer(env, rest)[key := e.1][key := value] == Layer(env, rest)[key := value];
      } else {
        assert ([e] + Put(rest, key, value))[1..] == Put(rest, key, value);
        PutIsOverride(env[e.0 := e.1], rest, key, value);
      }
    }
  }

  lemma {:induction false} MergeIsLayering(env: Env, arrivals: seq<Entry>)
    ensures Layer(env, PutAll([], arrivals)) == Layer(env, arrivals)
    decreases |arrivals|
  {
    if arrivals != [] {
      var front, last := arrivals[..|arrivals| - 1], arrivals[|arrivals| - 1];
      assert arrivals == front + [last];
      MergeIsLayering(env, front);
      PutAllSnoc([], front, last);
      KeysInFirstOrder(front);
      FirstsDistinct(Keys(front));
      PutIsOverride(env, PutAll([], front), last.0, last.1);
      LayerAppend(env, front, [last]);
      assert [last][1..] == [];
    }
  }

  // ------------------------------------------------------------ end to end

  /** No forwarded name that is set has a `=` in it. */
  predicate Plain(names: seq<string>, lookup: string -> Option<string>) {
    forall name <- names :: lookup(name).Some? ==> '=' !in name
  }

  ghost predicate Splittable(entries: seq<Entry>) {
    forall k <- Keys(entries) :: '=' !in k
  }

  lemma {:induction false} ForwardedSplittable(names: seq<string>, lookup: string -> Option<string>)
    ensures Splittable(Forwarded(names, lookup)) <==> Plain(names, lookup)
    decreases |names|
  {
    if names != [] {
      assert names == [names[0]] + names[1..];
      ForwardedSplittable(names[1..], lookup);
      if lookup(names[0]).Some? {
        var rest := Forwarded(names[1..], lookup);
        assert ([(names[0], lookup(names[0]).value)] + rest)[1..] == rest;
      }
    }
  }

  lemma {:induction false} FlagsSplittable(flags: seq<string>, lookup: string -> Option<string>)
    requires FlagEntries(flags, lookup).Ok?
    ensures Splittable(FlagEntries(flags, lookup).value)
    decreases |flags|
  {
    if flags != [] {
      FlagsSplittable(flags[1..], lookup);
      var rest := FlagEntries(flags[1..], lookup).value;
      var entry := ResolveFlag(flags[0], lookup).value;
      if entry.Some? {
        assert ([entry.value] + rest)[1..] == rest;
      }
    }
  }

  lemma {:induction false} KeysAppend(a: seq<Entry>, b: seq<Entry>)
    ensures Keys(a + b) == Keys(a) + Keys(b)
    decreases |a|
  {
    if a == [] {
      assert a + b == b && [] + Keys(b) == Keys(b);
    } else {
      KeysAppend(a[1..], b);
      assert (a + b)[1..] == a[1..] + b;
      assert [a[0].0] + (Keys(a[1..]) + Keys(b)) == ([a[0].0] + Keys(a[1..])) + Keys(b);
    }
  }

  lemma {:induction false} ServerReadsBack(env: Env, entries: seq<Entry>)
    requires Splittable(entries)
    ensures ChildEnv(env, JoinAll(entries)) == Some(Layer(env, entries))
    ensures S.FirstBadEntry(JoinAll(entries)) == None
    decreases |entries|
  {
    if entries != [] {
      var e, rest := entries[0], entries[1..];
      assert e.0 in Keys(entries);
      assert forall k :: k in Keys(rest) ==> k in Keys(entries);
      SplitJoined(e.0, e.1);
      assert ([Join(e)] + JoinAll(rest))[1..] == JoinAll(rest);
      ServerReadsBack(env[e.0 := e.1], rest);
    }
  }

  lemma {:induction false} JoinedAt(entries: seq<Entry>)
    ensures |JoinAll(entries)| == |Keys(entries)| == |entries|
    ensures forall k :: 0 <= k < |entries| ==> JoinAll(entries)[k] == Join(entries[k]) && Keys(entries)[k] == entries[k].0
  {
    if entries != [] {
      JoinedAt(entries[1..]);
    }
  }

  lemma PairSurvives(e: Entry)
    ensures SplitOnce(Join(e)).Some?
    ensures SplitOnce(Join(e)) == Some(e) <==> '=' !in e.0
  {
    assert Join(e)[|e.0|] == '=';
    if '=' !in e.0 {
      SplitJoined(e.0, e.1);
    }
  }

  /** No merged entry is ever one the server rejects; and its split at the first `=` gives back every
      pair exactly when no forwarded name that is set contains a `=`. */
  lemma PairsSurvive(forward: Forward, flags: seq<string>, lookup: string -> Option<string>)
    requires Merged(forward, flags, lookup).Ok?
    ensures var list := Merged(forward, flags, lookup).value;
            var pairs := PutAll([], Forwarded(NamesOf(forward), lookup) + FlagEntries(flags, lookup).value);
            && |list| == |pairs|
            && (forall k :: 0 <= k < |list| ==> SplitOnce(list[k]).Some?)
            && ((forall k :: 0 <= k < |list| ==> SplitOnce(list[k]) == Some(pairs[k])) <==> Plain(NamesOf(forward), lookup))
  {
    var forwarded, own := Forwarded(NamesOf(forward), lookup), FlagEntries(flags, lookup).value;
    var pairs := PutAll([], forwarded + own);
    JoinedAt(pairs);
    forall k | 0 <= k < |pairs|
      ensures SplitOnce(Join(pairs[k])).Some? && (SplitOnce(Join(pairs[k])) == Some(pairs[k]) <==> '=' !in Keys(pairs)[k])
    {
      PairSurvives(pairs[k]);
    }
    ForwardedSplittable(NamesOf(forward), lookup);
    FlagsSplittable(flags, lookup);
    KeysAppend(forwarded, own);
    KeysInFirstOrder(forwarded + own);
    FirstsDistinct(Keys(forwarded + own));
    assert Splittable(pairs) <==> Splittable(forwarded);
  }

  /** End to end: the server accepts every entry of a merged list, and the child's environment is the
      inherited one, overridden by the forwarded variables, overridden by the flags, left to right. */
  lemma EnvLayering(inherited: Env, forward: Forward, flags: seq<string>, lookup: string -> Option<string>)
    requires Plain(NamesOf(forward), lookup) && Merged(forward, flags, lookup).Ok?
    ensures var list := Merged(forward, flags, lookup).value;
            && S.FirstBadEntry(list) == None
            && ChildEnv(inherited, list) ==
                 Some(Layer(Layer(inherited, Forwarded(NamesOf(forward), lookup)), FlagEntries(flags, lookup).value))
  {
    var forwarded, own := Forwarded(NamesOf(forward), lookup), FlagEntries(flags, lookup).value;
    var arrivals := forwarded + own;
    ForwardedSplittable(NamesOf(forward), lookup);
    FlagsSplittable(flags, lookup);
    KeysAppend(forwarded, own);
    KeysInFirstOrder(arrivals);
    FirstsDistinct(Keys(arrivals));
    ServerReadsBack(inherited, PutAll([], arrivals));
    MergeIsLayering(inherited, arrivals);
    LayerAppend(inherited, forwarded, own);
  }

  /** And each key of it occurs once, in the order of first arrival. */
  lemma EnvOrder(forward: Forward, flags: seq<string>, lookup: string -> Option<string>)
    requires Merged(forward, flags, lookup).Ok?
    ensures var arrivals := Forwarded(NamesOf(forward), lookup) + FlagEntries(flags, lookup).value;
            && Merged(forward, flags, lookup).value == JoinAll(PutAll([], arrivals))
            && Keys(PutAll([], arrivals)) == Firsts(Keys(arrivals))
            && Distinct(Firsts(Keys(arrivals)))
  {
    var arrivals := Forwarded(NamesOf(forward), lookup) + FlagEntries(flags, lookup).value;
    KeysInFirstOrder(arrivals);
    FirstsDistinct(Keys(arrivals));
  }

  /** The forms of a flag: `KEY=VALUE`, where the value may contain `=`, and `KEY` alone, which copies
      the variable if it is set. */
  lemma FlagForms(key: string, value: string, lookup: string -> Option<string>)
    requires key != "" && '=' !in key
    ensures ResolveFlag(key + "=" + value, lookup) == Ok(Some((key, value)))
    ensures ResolveFlag(key, lookup) == Ok(if lookup(key).Some? then Some((key, lookup(key).value)) else None)
  {
    SplitJoined(key, value);
  }

  /** The value a list of entries gives a key: that of its last entry. */
  function LastValue(entries: seq<Entry>, key: string): Option<string> {
    if entries == [] then None
    else if entries[|entries| - 1].0 == key then Some(entries[|entries| - 1].1)
    else LastValue(entries[..|entries| - 1], key)
  }

  lemma {:induction false} LastWins(env: Env, entries: seq<Entry>, key: string)
    ensures key in Layer(env, entries) <==> key in env || LastValue(entries, key).Some?
    ensures key in Layer(env, entries) ==>
              Layer(env, entries)[key] == if LastValue(entries, key).Some? then LastValue(entries, key).value else env[key]
    decreases |entries|
  {
    if entries != [] {
      var front, last := entries[..|entries| - 1], entries[|entries| - 1];
      assert entries == front + [last];
      LastWins(env, front, key);
      LayerAppend(env, front, [last]);
      assert [last][1..] == [];
    }
  }

  lemma {:induction false} ForwardedValue(names: seq<string>, lookup: string -> Option<string>, key: string)
    ensures LastValue(Forwarded(names, lookup), key) == if key in names then lookup(key) else None
    decreases |names|
  {
    if names != [] {
      ForwardedValue(names[1..], lookup, key);
      assert names == [names[0]] + names[1..];
      if lookup(names[0]).Some? {
        LastValueCons((names[0], lookup(names[0]).value), Forwarded(names[1..], lookup), key);
      }
    }
  }

  lemma {:induction false} LastValueCons(e: Entry, entries: seq<Entry>, key: string)
    ensures LastValue([e] + entries, key) ==
              if LastValue(entries, key).Some? then LastValue(entries, key) else if e.0 == key then Some(e.1) else None
    decreases |entries|
  {
    var all := [e] + entries;
    if entries == [] {
      assert all[..0] == [];
    } else {
      var front := entries[..|entries| - 1];
      assert all[..|all| - 1] == [e] + front;
      LastValueCons(e, front, key);
    }
  }

  /** What the child sees of one variable: the last flag for it; without one, the value forwarded; without
      that, what the server inherited; else nothing. */
  lemma ChildSees(inherited: Env, forward: Forward, flags: seq<string>, lookup: string -> Option<string>, key: string)
    requires Plain(NamesOf(forward), lookup) && Merged(forward, flags, lookup).Ok?
    ensures var child := ChildEnv(inherited, Merged(forward, flags, lookup).value);
            var flag := LastValue(FlagEntries(flags, lookup).value, key);
            var forwarded := if key in NamesOf(forward) then lookup(key) else None;
            && child.Some?
            && (key in child.value <==> flag.Some? || forwarded.Some? || key in inherited)
            && (key in child.value ==>
                  child.value[key] == if flag.Some? then flag.value else if forwarded.Some? then forwarded.value else inherited[key])
  {
    var forwarded := Forwarded(NamesOf(forward), lookup);
    EnvLayering(inherited, forward, flags, lookup);
    LastWins(inherited, forwarded, key);
    LastWins(Layer(inherited, forwarded), FlagEntries(flags, lookup).value, key);
    ForwardedValue(NamesOf(forward), lookup, key);
  }

  // -------------------------------------------------------- by position

  /** What a flag gives a key: the value after its first `=`, or for a bare key the variable's. */
  predicate Gives(flag: string, lookup: string -> Option<string>, key: string, value: string) {
    && key != "" && '=' !in key
    && (flag == key + "=" + value || (flag == key && lookup(key) == Some(value)))
  }

  function KeyOf(flag: string, lookup: string -> Option<string>): Option<string> {
    var r := ResolveFlag(flag, lookup);
    if r.Ok? && r.value.Some? then Some(r.value.value.0) else None
  }

  /** A flag that is no error resolves to exactly what it gives. */
  lemma GivesIff(flag: string, lookup: string -> Option<string>, key: string, value: string)
    ensures ResolveFlag(flag, lookup) == Ok(Some((key, value))) <==> Gives(flag, lookup, key, value)
  {
    if Gives(flag, lookup, key, value) {
      FlagForms(key, value, lookup);
    }
  }

  lemma {:induction false} NoFlagFor(flags: seq<string>, lookup: string -> Option<string>, key: string)
    requires FlagEntries(flags, lookup).Ok?
    requires forall j :: 0 <= j < |flags| ==> KeyOf(flags[j], lookup) != Some(key)
    ensures LastValue(FlagEntries(flags, lookup).value, key) == None
    decreases |flags|
  {
    if flags != [] {
      assert KeyOf(flags[0], lookup) != Some(key);
      assert forall j :: 0 <= j < |flags| - 1 ==> flags[1..][j] == flags[j + 1];
      NoFlagFor(flags[1..], lookup, key);
      var entry := ResolveFlag(flags[0], lookup).value;
      if entry.Some? {
        LastValueCons(entry.value, FlagEntries(flags[1..], lookup).value, key);
      }
    }
  }

  lemma {:induction false} FlagAt(flags: seq<string>, lookup: string -> Option<string>, k: nat, key: string, value: string)
    requires FlagEntries(flags, lookup).Ok? && k < |flags|
    requires ResolveFlag(flags[k], lookup) == Ok(Some((key, value)))
    requires forall j :: k < j < |flags| ==> KeyOf(flags[j], lookup) != Some(key)
    ensures LastValue(FlagEntries(flags, lookup).value, key) == Some(value)
    decreases k
  {
    assert forall j :: 0 <= j < |flags| - 1 ==> flags[1..][j] == flags[j + 1];
    var entry := ResolveFlag(flags[0], lookup).value;
    if k == 0 {
      NoFlagFor(flags[1..], lookup, key);
    } else {
      FlagAt(flags[1..], lookup, k - 1, key, value);
    }
    if entry.Some? {
      LastValueCons(entry.value, FlagEntries(flags[1..], lookup).value, key);
    }
  }

  /** The later flag wins: if flag `k` gives a key a value and no flag after it resolves to that key, the
      child sees that value, whatever was forwarded or inherited. */
  lemma LastFlagWins(inherited: Env, forward: Forward, flags: seq<string>, lookup: string -> Option<string>,
                     k: nat, key: string, value: string)
    requires Plain(NamesOf(forward), lookup) && Merged(forward, flags, lookup).Ok?
    requires k < |flags| && Gives(flags[k], lookup, key, value)
    requires forall j, v :: k < j < |flags| ==> !Gives(flags[j], lookup, key, v)
    ensures var child := ChildEnv(inherited, Merged(forward, flags, lookup).value);
            child.Some? && key in child.value && child.value[key] == value
  {
    GivesIff(flags[k], lookup, key, value);
    forall j | k < j < |flags| ensures KeyOf(flags[j], lookup) != Some(key) {
      NotItsKey(flags[j], lookup, key);
    }
    FlagAt(flags, lookup, k, key, value);
    ChildSees(inherited, forward, flags, lookup, key);
  }

  lemma NotItsKey(flag: string, lookup: string -> Option<string>, key: string)
    requires forall v :: !Gives(flag, lookup, key, v)
    ensures KeyOf(flag, lookup) != Some(key)
  {
    var r := ResolveFlag(flag, lookup);
    if r.Ok? && r.value.Some? {
      GivesIff(flag, lookup, key, r.value.value.1);
    }
  }

  /** Without a flag for it, a variable that was forwarded and is set is the client's; any other is the
      inherited one, or absent. */
  lemma WithoutFlag(inherited: Env, forward: Forward, flags: seq<string>, lookup: string -> Option<string>, key: string)
    requires Plain(NamesOf(forward), lookup) && Merged(forward, flags, lookup).Ok?
    requires forall j, v :: 0 <= j < |flags| ==> !Gives(flags[j], lookup, key, v)
    ensures var child := ChildEnv(inherited, Merged(forward, flags, lookup).value);
            && child.Some?
            && (key in NamesOf(forward) && lookup(key).Some? ==> key in child.value && child.value[key] == lookup(key).value)
            && (key !in NamesOf(forward) || lookup(key).None? ==>
                  && (key in child.value <==> key in inherited)
                  && (key in inherited ==> child.value[key] == inherited[key]))
  {
    forall j | 0 <= j < |flags| ensures KeyOf(flags[j], lookup) != Some(key) {
      NotItsKey(flags[j], lookup, key);
    }
    NoFlagFor(flags, lookup, key);
    ChildSees(inherited, forward, flags, lookup, key);
  }

  /** The key each forwarded name and then each flag brings, if any. */
  function Brought(names: seq<string>, flags: seq<string>, lookup: string -> Option<string>): seq<Option<string>> {
    seq(|names| + |flags|, p requires 0 <= p < |names| + |flags| =>
      if p < |names| then (if lookup(names[p]).Some? then Some(names[p]) else None)
      else KeyOf(flags[p - |names|], lookup))
  }

  function Somes(brought: seq<Option<string>>): seq<string> {
    if brought == [] then []
    else (if brought[0].Some? then [brought[0].value] else []) + Somes(brought[1..])
  }

  lemma Regroup<T>(a: seq<T>, b: seq<T>, c: seq<T>)
    ensures a + (b + c) == (a + b) + c
  {
  }

  lemma {:induction false} SomesSnoc(brought: seq<Option<string>>, o: Option<string>)
    ensures Somes(brought + [o]) == Somes(brought) + if o.Some? then [o.value] else []
  {
    if brought == [] {
      assert brought + [o] == [o] && [o][1..] == [];
    } else {
      assert (brought + [o])[1..] == brought[1..] + [o];
      SomesSnoc(brought[1..], o);
      var first := if brought[0].Some? then [brought[0].value] else [];
      var last := if o.Some? then [o.value] else [];
      Regroup(first, Somes(brought[1..]), last);
    }
  }

  lemma {:induction false} FlagsBrought(flags: seq<string>, lookup: string -> Option<string>)
    requires FlagEntries(flags, lookup).Ok?
    ensures Keys(FlagEntries(flags, lookup).value) == Somes(Brought([], flags, lookup))
    decreases |flags|
  {
    if flags != [] {
      FlagsBrought(flags[1..], lookup);
      BroughtTail([], flags, lookup);
      var entry, rest := ResolveFlag(flags[0], lookup).value, FlagEntries(flags[1..], lookup).value;
      assert Brought([], flags, lookup)[0] == KeyOf(flags[0], lookup);
      if entry.Some? {
        assert ([entry.value] + rest)[1..] == rest;
      } else {
        assert FlagEntries(flags, lookup).value == rest;
        assert [] + Keys(rest) == Keys(rest);
      }
    }
  }

  lemma BroughtTail(names: seq<string>, flags: seq<string>, lookup: string -> Option<string>)
    requires names + flags != []
    ensures names != [] ==> Brought(names, flags, lookup)[1..] == Brought(names[1..], flags, lookup)
    ensures names == [] ==> Brought(names, flags, lookup)[1..] == Brought(names, flags[1..], lookup)
  {
  }

  lemma ForwardBrings(names: seq<string>, lookup: string -> Option<string>)
    requires names != []
    ensures var rest := Keys(Forwarded(names[1..], lookup));
            Keys(Forwarded(names, lookup)) == if lookup(names[0]).Some? then [names[0]] + rest else rest
  {
    if lookup(names[0]).Some? {
      var e, rest := (names[0], lookup(names[0]).value), Forwarded(names[1..], lookup);
      assert ([e] + rest)[1..] == rest;
    }
  }

  lemma {:induction false} NamesBrought(names: seq<string>, flags: seq<string>, lookup: string -> Option<string>)
    requires FlagEntries(flags, lookup).Ok?
    ensures Keys(Forwarded(names, lookup)) + Keys(FlagEntries(flags, lookup).value) == Somes(Brought(names, flags, lookup))
    decreases |names|
  {
    if names == [] {
      FlagsBrought(flags, lookup);
    } else {
      NamesBrought(names[1..], flags, lookup);
      BroughtTail(names, flags, lookup);
      ForwardBrings(names, lookup);
      Regroup([names[0]], Keys(Forwarded(names[1..], lookup)), Keys(FlagEntries(flags, lookup).value));
    }
  }

  lemma ArrivalsBrought(names: seq<string>, flags: seq<string>, lookup: string -> Option<string>)
    requires FlagEntries(flags, lookup).Ok?
    ensures Keys(Forwarded(names, lookup) + FlagEntries(flags, lookup).value) == Somes(Brought(names, flags, lookup))
  {
    KeysAppend(Forwarded(names, lookup), FlagEntries(flags, lookup).value);
    NamesBrought(names, flags, lookup);
  }

  ghost predicate FirstAt(brought: seq<Option<string>>, p: nat, key: string) {
    p < |brought| && brought[p] == Some(key) && forall q :: 0 <= q < p ==> brought[q] != Some(key)
  }

  lemma {:induction false} SomesHas(brought: seq<Option<string>>, key: string)
    ensures key in Somes(brought) <==> Some(key) in brought
  {
    if brought != [] {
      SomesHas(brought[1..], key);
      assert brought == [brought[0]] + brought[1..];
    }
  }

  lemma {:induction false} FirstsInOrder(brought: seq<Option<string>>, i: nat, j: nat, p: nat, q: nat)
    requires i < j < |Firsts(Somes(brought))|
    requires FirstAt(brought, p, Firsts(Somes(brought))[i]) && FirstAt(brought, q, Firsts(Somes(brought))[j])
    ensures p < q
    decreases |brought|
  {
    if brought != [] {
      var front, o := brought[..|brought| - 1], brought[|brought| - 1];
      assert brought == front + [o];
      SomesSnoc(front, o);
      var before := Firsts(Somes(front));
      FirstsDistinct(Somes(front));
      if o.Some? {
        assert (Somes(front) + [o.value])[..|Somes(front)|] == Somes(front);
        assert Firsts(Somes(brought)) == if o.value in before then before else before + [o.value];
      } else {
        assert Somes(front) + [] == Somes(front);
      }
      var x, y := Firsts(Somes(brought))[i], Firsts(Somes(brought))[j];
      SomesHas(front, x);
      SomesHas(front, y);
      FoundBefore(front, o, p, x);
      if j < |before| {
        FoundBefore(front, o, q, y);
        FirstsInOrder(front, i, j, p, q);
      } else {
        OnlyLast(front, o, q, y);
      }
    }
  }

  lemma OnlyLast(front: seq<Option<string>>, o: Option<string>, q: nat, key: string)
    requires FirstAt(front + [o], q, key) && Some(key) !in front
    ensures q == |front|
  {
    assert forall k :: 0 <= k < |front| ==> front[k] in front && (front + [o])[k] == front[k];
  }

  lemma FoundBefore(front: seq<Option<string>>, o: Option<string>, p: nat, key: string)
    requires FirstAt(front + [o], p, key) && Some(key) in front
    ensures FirstAt(front, p, key)
  {
    var k :| 0 <= k < |front| && front[k] == Some(key);
    assert (front + [o])[k] == Some(key);
    assert forall q :: 0 <= q < p ==> front[q] == (front + [o])[q];
  }

  /** The merged list holds exactly the keys that forwarded names and flags bring, each once, in the order
      in which names and then flags first bring them. */
  lemma KeysByPosition(forward: Forward, flags: seq<string>, lookup: string -> Option<string>)
    requires Merged(forward, flags, lookup).Ok?
    ensures var brought := Brought(NamesOf(forward), flags, lookup);
            var keys := Keys(PutAll([], Forwarded(NamesOf(forward), lookup) + FlagEntries(flags, lookup).value));
            && Merged(forward, flags, lookup).value == JoinAll(PutAll([], Forwarded(NamesOf(forward), lookup) + FlagEntries(flags, lookup).value))
            && (forall key :: key in keys <==> Some(key) in brought)
            && Distinct(keys)
            && forall i: nat, j: nat, p: nat, q: nat ::
                 i < j < |keys| && FirstAt(brought, p, keys[i]) && FirstAt(brought, q, keys[j]) ==> p < q
  {
    var names := NamesOf(forward);
    var brought := Brought(names, flags, lookup);
    var arrivals := Forwarded(names, lookup) + FlagEntries(flags, lookup).value;
    KeysInFirstOrder(arrivals);
    ArrivalsBrought(names, flags, lookup);
    FirstsDistinct(Keys(arrivals));
    forall key ensures key in Keys(PutAll([], arrivals)) <==> Some(key) in brought {
      SomesHas(brought, key);
    }
    forall i: nat, j: nat, p: nat, q: nat |
      i < j < |Firsts(Somes(brought))| && FirstAt(brought, p, Firsts(Somes(brought))[i]) && FirstAt(brought, q, Firsts(Somes(brought))[j])
      ensures p < q
    {
      FirstsInOrder(brought, i, j, p, q);
    }
  }
}

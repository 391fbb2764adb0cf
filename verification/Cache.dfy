/** The env-dump cache: when it counts as fresh, and how `ensure_cache` refreshes it, step by step and
    possibly cut short. */
module Cache {
  import opened Wrappers
  import opened Protocol
  import Digest

  datatype Freshness = Fresh | Stale | Missing

  /** The two files: the env dump, and the stored digest (`None`: absent, or not readable as text). */
  datatype Files = Files(env: Option<seq<byte>>, hash: Option<string>)

  predicate IsSpace(c: char) {
    c == ' ' || '\t' <= c <= '\r' || c == '\U{0085}' || c == '\U{00A0}' || c == '\U{1680}'
    || '\U{2000}' <= c <= '\U{200A}' || c == '\U{2028}' || c == '\U{2029}' || c == '\U{202F}'
    || c == '\U{205F}' || c == '\U{3000}'
  }

  function TrimStart(s: string): (t: string)
    ensures |t| <= |s|
  {
    if s != "" && IsSpace(s[0]) then TrimStart(s[1..]) else s
  }

  function TrimEnd(s: string): (t: string)
    ensures |t| <= |s|
  {
    if s != "" && IsSpace(s[|s| - 1]) then TrimEnd(s[..|s| - 1]) else s
  }

  function Trim(s: string): (t: string)
    ensures |t| <= |s|
  {
    TrimEnd(TrimStart(s))
  }

  /** The stored text names this digest. */
  predicate Matches(hash: Option<string>, digest: Option<string>) {
    hash.Some? && digest.Some? && Trim(hash.value) == digest.value
  }

  /** `check`, with the digest of the watched files (`None`: it cannot be computed). */
  function Check(c: Files, digest: Option<string>): Freshness {
    if c.env.None? then Missing
    else if Matches(c.hash, digest) then Fresh
    else Stale
  }

  datatype End = AlreadyFresh | EvalFailed | DigestFailed | Stopped | Done

  /** How far a write of `size` units gets with a budget. */
  function Spent(budget: nat, size: nat): nat {
    if budget < size then budget else size
  }

  /** A file being written: created empty for the first unit, then a unit a byte. */
  function Partial<T>(was: Option<seq<T>>, data: seq<T>, units: nat): Option<seq<T>> {
    if units == 0 then was
    else if units <= |data| then Some(data[..units - 1])
    else Some(data)
  }

  /** What a run leaves, whether it evaluated, and how it ended. `now`: the digest when the run looks;
      `later`: when it stores; `output`: what the evaluation prints (`None`: it fails); the run is cut
      after `budget` units of writing. */
  function Refresh(c: Files, now: Option<string>, later: Option<string>, output: Option<seq<byte>>, budget: nat): (Files, nat, End) {
    if Check(c, now) == Fresh then (c, 0, AlreadyFresh)
    else if output.None? then (c, 1, EvalFailed)
    else
      var envCost := 1 + |output.value|;
      var c1 := c.(env := Partial(c.env, output.value, budget));
      if budget < envCost then (c1, 1, Stopped)
      else if later.None? then (c1, 1, DigestFailed)
      else
        var left := budget - envCost;
        var c2 := c1.(hash := Partial(c1.hash, later.value, left));
        (c2, 1, if left < 1 + |later.value| then Stopped else Done)
  }

  /** The cache directory as `ensure_cache` works on it. */
  class CacheDir {
    var env: Option<seq<byte>>
    var hash: Option<string>
    var budget: nat
    var evaluations: nat

    ghost function View(): Files
      reads this
    {
      Files(env, hash)
    }

    constructor (c: Files, budget: nat)
      ensures View() == c && this.budget == budget && evaluations == 0
    {
      env, hash, this.budget, evaluations := c.env, c.hash, budget, 0;
    }

    /** `fs::write` of the env file: truncate or create, then byte after byte. */
    method WriteEnv(output: seq<byte>) returns (finished: bool)
      modifies this`env, this`budget
      ensures env == Partial(old(env), output, old(budget))
      ensures budget == old(budget) - Spent(old(budget), 1 + |output|)
      ensures finished <==> old(budget) >= 1 + |output|
    {
      if budget == 0 {
        return false;
      }
      env := Some([]);
      budget := budget - 1;
      var n := 0;
      while n < |output| && budget > 0
        invariant n <= |output| && budget == old(budget) - 1 - n
        invariant env == Some(output[..n])
      {
        env := Some(env.value + [output[n]]);
        assert output[..n + 1] == output[..n] + [output[n]];
        n := n + 1;
        budget := budget - 1;
      }
      assert output[..|output|] == output;
      finished := n == |output|;
    }

    /** `store`: the same on the hash file. */
    method Store(digest: string) returns (finished: bool)
      modifies this`hash, this`budget
      ensures hash == Partial(old(hash), digest, old(budget))
      ensures budget == old(budget) - Spent(old(budget), 1 + |digest|)
      ensures finished <==> old(budget) >= 1 + |digest|
    {
      if budget == 0 {
        return false;
      }
      hash := Some("");
      budget := budget - 1;
      var n := 0;
      while n < |digest| && budget > 0
        invariant n <= |digest| && budget == old(budget) - 1 - n
        invariant hash == Some(digest[..n])
      {
        hash := Some(hash.value + [digest[n]]);
        assert digest[..n + 1] == digest[..n] + [digest[n]];
        n := n + 1;
        budget := budget - 1;
      }
      assert digest[..|digest|] == digest;
      finished := n == |digest|;
    }

    method CheckNow(digest: Option<string>) returns (r: Freshness)
      ensures r == Check(View(), digest)
    {
      if env.None? {
        return Missing;
      }
      if hash.None? {
        return Stale;
      }
      if digest.Some? && Trim(hash.value) == digest.value {
        return Fresh;
      }
      return Stale;
    }

    /** `ensure_cache`: the watched files are read twice, as `before` the evaluation and `after` it. */
    method EnsureCache(entries: seq<Digest.Name>, before: Digest.Tree, after: Digest.Tree, hasher: Digest.Hash,
                       output: Option<seq<byte>>)
      returns (end: End)
      modifies this
      ensures (View(), evaluations - old(evaluations), end) ==
              Refresh(old(View()), Digest.Sum(entries, before, hasher), Digest.Sum(entries, after, hasher), output, old(budget))
    {
      var now := Digest.Compute(entries, before, hasher);
      var freshness := CheckNow(now);
      if freshness == Fresh {
        return AlreadyFresh;
      }
      evaluations := evaluations + 1;
      if output.None? {
        return EvalFailed;
      }
      var written := WriteEnv(output.value);
      if !written {
        return Stopped;
      }
      var later := Digest.Compute(entries, after, hasher);
      if later.None? {
        return DigestFailed;
      }
      var stored := Store(later.value);
      return if stored then Done else Stopped;
    }
  }

  // ------------------------------------------------------------- theorems

  /** A digest: sixteen hex digits, hence no blank. */
  ghost predicate IsDigest(d: string) {
    |d| == 16 && forall c <- d :: Digest.IsHex(c)
  }

  lemma TrimDigest(d: string)
    requires IsDigest(d)
    ensures Trim(d) == d
  {
    assert d[0] in d && d[15] in d;
  }

  lemma SumIsDigest(entries: seq<Digest.Name>, t: Digest.Tree, hash: Digest.Hash)
    ensures Digest.Sum(entries, t, hash).Some? <==> Digest.Readable(entries, t)
    ensures Digest.Sum(entries, t, hash).Some? ==> IsDigest(Digest.Sum(entries, t, hash).value)
  {
  }

  /** Watched files, as one run meets them: when it looks and when it stores; and a hash. */
  datatype Watch = Watch(entries: seq<Digest.Name>, looked: Digest.Tree, stored: Digest.Tree, hash: Digest.Hash)

  function SumOf(w: Watch, t: Digest.Tree): Option<string> {
    Digest.Sum(w.entries, t, w.hash)
  }

  /** `ensure_cache` over these files. */
  function Run(c: Files, w: Watch, output: Option<seq<byte>>, budget: nat): (Files, nat, End) {
    Refresh(c, SumOf(w, w.looked), SumOf(w, w.stored), output, budget)
  }

  /** A digest cut short is no match for a whole one. */
  lemma TornHashDiffers(d: string, units: nat, other: Option<string>)
    requires IsDigest(d) && 1 <= units <= |d|
    requires other.Some? ==> IsDigest(other.value)
    ensures !Matches(Some(d[..units - 1]), other)
  {
  }

  /** Exactly when a run that did not reach its end leaves a cache that counts as fresh, for any state of
      the watched files when it looked, when it stored, and now: the digest stored before matches the
      files as they are now, there is an env file by now, and the hash file was not yet touched. */
  lemma StoppedIsFreshIff(c: Files, w: Watch, now: Digest.Tree, output: seq<byte>, budget: nat)
    requires Check(c, SumOf(w, w.looked)) != Fresh
    requires Run(c, w, Some(output), budget).2 != Done
    ensures Check(Run(c, w, Some(output), budget).0, SumOf(w, now)) == Fresh <==>
              && Matches(c.hash, SumOf(w, now))
              && (c.env.Some? || budget >= 1)
              && (budget <= 1 + |output| || !Digest.Readable(w.entries, w.stored))
  {
    var later := SumOf(w, w.stored);
    SumIsDigest(w.entries, w.stored, w.hash);
    SumIsDigest(w.entries, now, w.hash);
    if budget > 1 + |output| && later.Some? {
      TornHashDiffers(later.value, budget - (1 + |output|), SumOf(w, now));
    }
  }

  ghost predicate Unchanged(w: Watch, now: Digest.Tree) {
    w.looked == w.stored == now
  }

  /** With the files unchanged throughout, that is: there was no env file, its digest was left over, and
      the run was cut in or right behind the write of the env file. */
  lemma UnchangedStopIsFreshIff(c: Files, w: Watch, now: Digest.Tree, output: seq<byte>, budget: nat)
    requires Unchanged(w, now) && Check(c, SumOf(w, now)) != Fresh
    requires Run(c, w, Some(output), budget).2 != Done
    ensures Check(Run(c, w, Some(output), budget).0, SumOf(w, now)) == Fresh <==>
              Matches(c.hash, SumOf(w, now)) && 1 <= budget <= 1 + |output|
  {
    StoppedIsFreshIff(c, w, now, output, budget);
    SumIsDigest(w.entries, now, w.hash);
  }

  /** From `Stale`, with the files unchanged, it therefore never does: a cut run is done again. */
  lemma StaleStaysUnfresh(c: Files, w: Watch, now: Digest.Tree, output: Option<seq<byte>>, budget: nat)
    requires Unchanged(w, now) && Check(c, SumOf(w, now)) == Stale
    requires Run(c, w, output, budget).2 != Done
    ensures Check(Run(c, w, output, budget).0, SumOf(w, now)) != Fresh
  {
    if output.Some? {
      UnchangedStopIsFreshIff(c, w, now, output.value, budget);
    }
  }

  /** From `Missing` it can: the dump was removed and its digest was not, and the new dump is cut in
      its first byte. */
  lemma TornDumpCountsAsFresh(w: Watch, now: Digest.Tree, first: byte, second: byte)
    requires Unchanged(w, now) && Digest.Readable(w.entries, now)
    ensures var c := Files(None, SumOf(w, now));
            var cut := Run(c, w, Some([first, second]), 2);
            && Check(c, SumOf(w, now)) == Missing
            && cut.2 == Stopped
            && cut.0.env == Some([first])
            && Check(cut.0, SumOf(w, now)) == Fresh
  {
    SumIsDigest(w.entries, now, w.hash);
    TrimDigest(SumOf(w, now).value);
    assert [first, second][..1] == [first];
    UnchangedStopIsFreshIff(Files(None, SumOf(w, now)), w, now, [first, second], 2);
  }

  /** And from `Stale` it can if the files change while it runs: the cache was made for the files as they
      are now, a run looks while they are different, starts to write the dump and is cut, and they are
      changed back. */
  lemma ChangedBackCountsAsFresh(w: Watch, now: Digest.Tree, dump: seq<byte>, first: byte, second: byte)
    requires Digest.Readable(w.entries, now) && SumOf(w, w.looked) != SumOf(w, now)
    ensures var c := Files(Some(dump), SumOf(w, now));
            var cut := Run(c, w, Some([first, second]), 2);
            && Check(c, SumOf(w, w.looked)) == Stale
            && cut.2 == Stopped
            && cut.0.env == Some([first])
            && Check(cut.0, SumOf(w, now)) == Fresh
  {
    SumIsDigest(w.entries, now, w.hash);
    TrimDigest(SumOf(w, now).value);
    assert [first, second][..1] == [first];
    StoppedIsFreshIff(Files(Some(dump), SumOf(w, now)), w, now, [first, second], 2);
  }

  /** A run that reaches its end leaves the cache fresh, with the evaluation's output in it, for the
      watched files as they were when it stored; and the next run on those evaluates and writes nothing. */
  lemma DoneIsFresh(c: Files, w: Watch, output: Option<seq<byte>>, budget: nat, again: Watch,
                    next: Option<seq<byte>>, more: nat)
    requires Run(c, w, output, budget).2 == Done
    requires SumOf(again, again.looked) == SumOf(w, w.stored)
    ensures var c' := Run(c, w, output, budget).0;
            && c'.env == output
            && Check(c', SumOf(w, w.stored)) == Fresh
            && Run(c', again, next, more) == (c', 0, AlreadyFresh)
  {
    SumIsDigest(w.entries, w.stored, w.hash);
    TrimDigest(SumOf(w, w.stored).value);
  }

  /** What freshness is for. After a run that reached its end the cache counts as fresh exactly as long as
      every watched file is as it was when the run stored, if no entry and none of those files holds a NUL
      byte and the two streams do not collide in the hash. */
  lemma FreshIffUnchanged(c: Files, w: Watch, output: Option<seq<byte>>, budget: nat, now: Digest.Tree)
    requires Run(c, w, output, budget).2 == Done
    requires Digest.NulFreeNames(w.entries) && Digest.NulFreeFiles(w.entries, w.stored) && Digest.Readable(w.entries, now)
    requires var before, after := Digest.Stream(w.entries, w.stored), Digest.Stream(w.entries, now);
             w.hash(before) == w.hash(after) ==> before == after
    ensures Check(Run(c, w, output, budget).0, SumOf(w, now)) == Fresh <==>
            forall n <- w.entries :: Digest.At(w.stored, n) == Digest.At(now, n)
  {
    var before, after := Digest.Stream(w.entries, w.stored), Digest.Stream(w.entries, now);
    SumIsDigest(w.entries, w.stored, w.hash);
    TrimDigest(SumOf(w, w.stored).value);
    Digest.StreamTellsEveryChange(w.entries, w.stored, now);
    if SumOf(w, w.stored) == SumOf(w, now) {
      Digest.DigestIsInjective(w.hash(before), w.hash(after));
    }
  }

  /** A refresh whose evaluation works reaches its end exactly if the watched files can be read when it
      stores and nothing cuts its writes. */
  lemma RunsToTheEnd(c: Files, w: Watch, output: seq<byte>, budget: nat)
    requires Check(c, SumOf(w, w.looked)) != Fresh
    ensures Run(c, w, Some(output), budget).2 == Done <==>
            Digest.Readable(w.entries, w.stored) && budget >= 18 + |output|
  {
    SumIsDigest(w.entries, w.stored, w.hash);
  }

  /** What a run leaves behind, by how it ended. A fresh cache and a failed evaluation leave both files as
      they were; unreadable watched files leave the new dump with the old digest; a cut run leaves a front
      part of what it was writing, and has touched the digest only behind a whole dump. It evaluates once,
      unless the cache was fresh. */
  lemma WhatARunLeaves(c: Files, w: Watch, output: Option<seq<byte>>, budget: nat)
    ensures var left, evaluations, end := Run(c, w, output, budget).0, Run(c, w, output, budget).1, Run(c, w, output, budget).2;
            && (end == AlreadyFresh <==> c.env.Some? && Matches(c.hash, SumOf(w, w.looked)))
            && (end == AlreadyFresh ==> c.hash.Some? && Digest.Readable(w.entries, w.looked))
            && evaluations == (if end == AlreadyFresh then 0 else 1)
            && (end == EvalFailed <==> end != AlreadyFresh && output.None?)
            && (end == AlreadyFresh || end == EvalFailed ==> left == c)
            && (end == DigestFailed ==> left == Files(output, c.hash) && !Digest.Readable(w.entries, w.stored))
            && (end == Done ==> left == Files(output, SumOf(w, w.stored)) && left.hash.Some?)
            && (end == Stopped ==> output.Some? && LeftByACut(c, left, output.value, SumOf(w, w.stored), budget))
  {
    SumIsDigest(w.entries, w.stored, w.hash);
    SumIsDigest(w.entries, w.looked, w.hash);
  }

  /** The files behind a run cut after `budget` units of writing. */
  ghost predicate LeftByACut(c: Files, left: Files, output: seq<byte>, digest: Option<string>, budget: nat) {
    if budget == 0 then left == c
    else if budget <= |output| then left == Files(Some(output[..budget - 1]), c.hash)
    else if budget == 1 + |output| then left == Files(Some(output), c.hash)
    else
      && digest.Some? && budget - 2 - |output| < |digest.value|
      && left == Files(Some(output), Some(digest.value[..budget - 2 - |output|]))
  }

  // ------------------------------------------------- the stored digest's text

  predicate Blank(s: string) {
    forall c <- s :: IsSpace(c)
  }

  lemma {:induction false} TrimStartSplits(s: string) returns (front: string)
    ensures s == front + TrimStart(s) && Blank(front)
    decreases |s|
  {
    if s != "" && IsSpace(s[0]) {
      var rest := TrimStartSplits(s[1..]);
      front := [s[0]] + rest;
      assert s == [s[0]] + s[1..];
    } else {
      front := "";
    }
  }

  lemma {:induction false} TrimEndSplits(s: string) returns (back: string)
    ensures s == TrimEnd(s) + back && Blank(back)
    decreases |s|
  {
    if s != "" && IsSpace(s[|s| - 1]) {
      var rest := TrimEndSplits(s[..|s| - 1]);
      back := rest + [s[|s| - 1]];
      assert s == s[..|s| - 1] + [s[|s| - 1]];
    } else {
      back := "";
    }
  }

  lemma {:induction false} BlankStart(front: string, s: string)
    requires Blank(front) && s != "" && !IsSpace(s[0])
    ensures TrimStart(front + s) == s
    decreases |front|
  {
    if front == "" {
      assert front + s == s;
    } else {
      assert front[0] in front && forall c <- front[1..] :: c in front;
      assert (front + s)[1..] == front[1..] + s;
      BlankStart(front[1..], s);
    }
  }

  lemma {:induction false} BlankEnd(s: string, back: string)
    requires Blank(back) && s != "" && !IsSpace(s[|s| - 1])
    ensures TrimEnd(s + back) == s
    decreases |back|
  {
    if back == "" {
      assert s + back == s;
    } else {
      var last := |back| - 1;
      assert back[last] in back && forall c <- back[..last] :: c in back;
      assert (s + back)[..|s + back| - 1] == s + back[..last];
      BlankEnd(s, back[..last]);
    }
  }

  /** A stored text names a digest exactly if it is that digest between blanks; so a hand-written line break
      at its end does no harm. */
  lemma TrimTolerates(text: string, digest: string)
    requires IsDigest(digest)
    ensures Matches(Some(text), Some(digest)) <==>
            exists front, back :: Blank(front) && Blank(back) && text == front + digest + back
    ensures Matches(Some(digest + "\n"), Some(digest)) && Matches(Some(" \t" + digest + "\r\n"), Some(digest))
  {
    if Matches(Some(text), Some(digest)) {
      var front := TrimStartSplits(text);
      var back := TrimEndSplits(TrimStart(text));
      assert text == front + (digest + back) == front + digest + back;
    }
    forall front, back | Blank(front) && Blank(back) ensures Trim(front + digest + back) == digest {
      Surrounded(front, digest, back);
    }
    assert digest + "\n" == "" + digest + "\n" && Blank("\n") && Blank("");
    assert " \t" + digest + "\r\n" == " \t" + digest + "\r\n" && Blank(" \t") && Blank("\r\n");
  }

  lemma Surrounded(front: string, digest: string, back: string)
    requires IsDigest(digest) && Blank(front) && Blank(back)
    ensures Trim(front + digest + back) == digest
  {
    assert digest[0] in digest && digest[15] in digest;
    assert front + digest + back == front + (digest + back);
    BlankStart(front, digest + back);
    BlankEnd(digest, back);
  }
}

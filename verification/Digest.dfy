/** The freshness digest: one record per watched file, in name order, through a hash. */
module Digest {
  import opened Wrappers
  import opened Protocol
  import Sorting

  type Name = seq<byte>     // an entry, as the bytes of its text
  type Path = string

  /** What opening and reading a path to its end yields. */
  datatype File = Present(contents: seq<byte>) | Absent | Unreadable

  newtype hash64 = x: int | 0 <= x < 0x1_0000_0000_0000_0000

  /** Where entries lead (several may lead to one file), and what is there. */
  datatype Tree = Tree(resolve: Name -> Path, files: Path -> File)

  function At(t: Tree, name: Name): File {
    t.files(t.resolve(name))
  }

  // ------------------------------------------------------------- the order

  /** Byte by byte; a proper prefix comes first. */
  predicate Le(a: Name, b: Name) {
    a == [] || (b != [] && (a[0] < b[0] || (a[0] == b[0] && Le(a[1..], b[1..]))))
  }

  lemma {:induction false} LeTotal(a: Name, b: Name)
    ensures Le(a, b) || Le(b, a)
    ensures Le(a, b) && Le(b, a) ==> a == b
  {
    if a != [] && b != [] && a[0] == b[0] {
      LeTotal(a[1..], b[1..]);
      assert a == [a[0]] + a[1..] && b == [b[0]] + b[1..];
    }
  }

  lemma {:induction false} LeTransitive(a: Name, b: Name, c: Name)
    requires Le(a, b) && Le(b, c)
    ensures Le(a, c)
  {
    if a != [] && a[0] == b[0] == c[0] {
      LeTransitive(a[1..], b[1..], c[1..]);
    }
  }

  const BY_NAME: (Name, Name) -> bool := (a: Name, b: Name) => Le(a, b)

  lemma NameOrder()
    ensures Sorting.TotalPreorder(BY_NAME) && Sorting.Antisymmetric(BY_NAME)
  {
    forall a: Name, b: Name ensures (BY_NAME(a, b) || BY_NAME(b, a)) && (BY_NAME(a, b) && BY_NAME(b, a) ==> a == b) {
      LeTotal(a, b);
    }
    forall a: Name, b: Name, c: Name | BY_NAME(a, b) && BY_NAME(b, c) ensures BY_NAME(a, c) {
      LeTransitive(a, b, c);
    }
  }

  // ------------------------------------------------------------ the stream

  function Body(f: File): seq<byte> {
    if f.Present? then f.contents else []
  }

  function Flag(f: File): byte {
    if f.Present? then '1' as byte else '0' as byte
  }

  function Record(name: Name, f: File): seq<byte> {
    name + [0, Flag(f), 0] + Body(f)
  }

  function Records(names: seq<Name>, t: Tree): seq<byte> {
    if names == [] then [] else Record(names[0], At(t, names[0])) + Records(names[1..], t)
  }

  predicate Readable(names: seq<Name>, t: Tree) {
    forall n <- names :: !At(t, n).Unreadable?
  }

  /** What is hashed. */
  function Stream(entries: seq<Name>, t: Tree): seq<byte> {
    Records(Sorting.SortBy(entries, BY_NAME), t)
  }

  predicate IsHex(c: char) {
    '0' <= c <= '9' || 'a' <= c <= 'f'
  }

  function Hex(d: nat): (c: char)
    requires d < 16
    ensures IsHex(c)
  {
    "0123456789abcdef"[d]
  }

  function HexDigits(n: nat, width: nat): (s: string)
    ensures |s| == width
    ensures forall c <- s :: IsHex(c)
  {
    if width == 0 then "" else HexDigits(n / 16, width - 1) + [Hex(n % 16)]
  }

  type Hash = seq<byte> -> hash64

  function Sum(entries: seq<Name>, t: Tree, hash: Hash): Option<string> {
    if Readable(entries, t) then Some(HexDigits(hash(Stream(entries, t)) as nat, 16)) else None
  }

  /** The hasher: what it makes of writes depends on their concatenation only. */
  class Hasher {
    var written: seq<byte>

    constructor ()
      ensures written == []
    {
      written := [];
    }

    method Write(bytes: seq<byte>)
      modifies this
      ensures written == old(written) + bytes
    {
      written := written + bytes;
    }

    /** `io::copy`: the file goes through in pieces. */
    method CopyFrom(contents: seq<byte>)
      modifies this
      ensures written == old(written) + contents
    {
      var at := 0;
      while at < |contents|
        invariant 0 <= at <= |contents|
        invariant written == old(written) + contents[..at]
      {
        var n := if |contents| - at < 8192 then |contents| - at else 8192;
        assert contents[..at + n] == contents[..at] + contents[at..at + n];
        Write(contents[at..at + n]);
        at := at + n;
      }
      assert contents[..at] == contents;
    }

    method WriteRecord(name: Name, f: File)
      requires !f.Unreadable?
      modifies this
      ensures written == old(written) + Record(name, f)
    {
      ghost var before := written;
      Write(name);
      Write([0]);
      Write([if f.Present? then '1' as byte else '0' as byte]);
      Write([0]);
      assert written == before + (name + [0, Flag(f), 0]);
      if f.Present? {
        CopyFrom(f.contents);
      }
      assert written == before + (name + [0, Flag(f), 0] + Body(f));
    }
  }

  method HashRecords(hasher: Hasher, names: seq<Name>, t: Tree) returns (ok: bool)
    modifies hasher
    ensures ok <==> Readable(names, t)
    ensures ok ==> hasher.written == old(hasher.written) + Records(names, t)
  {
    ghost var start := hasher.written;
    ghost var whole := start + Records(names, t);
    assert names[0..] == names;
    for i := 0 to |names|
      invariant hasher.written + Records(names[i..], t) == whole
      invariant Readable(names[..i], t)
    {
      var f := At(t, names[i]);
      if f.Unreadable? {
        return false;
      }
      HashStep(hasher.written, names, i, t);
      hasher.WriteRecord(names[i], f);
      assert names[..i + 1] == names[..i] + [names[i]];
    }
    assert names[..|names|] == names && names[|names|..] == [];
    assert hasher.written + [] == hasher.written;
    ok := true;
  }

  lemma HashStep(before: seq<byte>, names: seq<Name>, i: nat, t: Tree)
    requires i < |names|
    ensures before + Records(names[i..], t) == before + Record(names[i], At(t, names[i])) + Records(names[i + 1..], t)
  {
    assert names[i..][1..] == names[i + 1..];
    var r, rest := Record(names[i], At(t, names[i])), Records(names[i + 1..], t);
    assert before + (r + rest) == (before + r) + rest;
  }

  /** `compute`; `None` is an I/O error. */
  method Compute(entries: seq<Name>, t: Tree, hash: Hash) returns (digest: Option<string>)
    ensures digest == Sum(entries, t, hash)
  {
    var sorted := Sorting.SortBy(entries, BY_NAME);
    SortedReadable(entries, t);
    var hasher := new Hasher();
    var ok := HashRecords(hasher, sorted, t);
    if !ok {
      return None;
    }
    assert [] + Records(sorted, t) == Records(sorted, t);
    return Some(HexDigits(hash(hasher.written) as nat, 16));
  }

  lemma SortedReadable(entries: seq<Name>, t: Tree)
    ensures Readable(Sorting.SortBy(entries, BY_NAME), t) <==> Readable(entries, t)
  {
    var sorted := Sorting.SortBy(entries, BY_NAME);
    Sorting.SortElements(entries, BY_NAME);
    assert forall n :: n in sorted <==> n in multiset(sorted);
    assert forall n :: n in entries <==> n in multiset(entries);
  }

  // ------------------------------------------------------------- theorems

  /** The order in which the entries are given does not matter. */
  lemma OrderDoesNotMatter(a: seq<Name>, b: seq<Name>, t: Tree, hash: Hash)
    requires multiset(a) == multiset(b)
    ensures Stream(a, t) == Stream(b, t) && Sum(a, t, hash) == Sum(b, t, hash)
  {
    NameOrder();
    Sorting.SortElements(a, BY_NAME);
    Sorting.SortElements(b, BY_NAME);
    Sorting.SortSorted(a, BY_NAME);
    Sorting.SortSorted(b, BY_NAME);
    Sorting.SortedUnique(Sorting.SortBy(a, BY_NAME), Sorting.SortBy(b, BY_NAME), BY_NAME);
    SortedReadable(a, t);
    SortedReadable(b, t);
  }

  ghost predicate DiffersOnlyAt(s: Tree, t: Tree, p: Path) {
    && s.resolve == t.resolve
    && s.files(p) != t.files(p)
    && forall q :: q != p ==> s.files(q) == t.files(q)
  }

  ghost predicate Watched(names: seq<Name>, t: Tree, p: Path) {
    exists n <- names :: t.resolve(n) == p
  }

  lemma WatchedTail(names: seq<Name>, t: Tree, p: Path)
    requires names != [] && Watched(names, t, p) && t.resolve(names[0]) != p
    ensures Watched(names[1..], t, p)
  {
    var n :| n in names && t.resolve(n) == p;
    assert names == [names[0]] + names[1..];
  }

  lemma {:induction false} LongerFile(names: seq<Name>, s: Tree, t: Tree, p: Path)
    requires DiffersOnlyAt(s, t, p) && |Body(s.files(p))| < |Body(t.files(p))|
    ensures |Records(names, s)| <= |Records(names, t)|
    ensures Watched(names, s, p) ==> |Records(names, s)| < |Records(names, t)|
  {
    if names != [] {
      LongerFile(names[1..], s, t, p);
      if s.resolve(names[0]) != p && Watched(names, s, p) {
        WatchedTail(names, s, p);
      }
    }
  }

  lemma {:induction false} SameLengthFile(names: seq<Name>, s: Tree, t: Tree, p: Path)
    requires DiffersOnlyAt(s, t, p) && |Body(s.files(p))| == |Body(t.files(p))|
    requires !s.files(p).Unreadable? && !t.files(p).Unreadable?
    requires Watched(names, s, p)
    ensures Records(names, s) != Records(names, t)
  {
    if names != [] {
      var n, x, y := names[0], Records(names[1..], s), Records(names[1..], t);
      if s.resolve(n) == p {
        RecordsDiffer(n, s.files(p), t.files(p), x, y);
      } else {
        WatchedTail(names, s, p);
        SameLengthFile(names[1..], s, t, p);
        var r := Record(n, At(s, n));
        assert (r + x)[|r|..] == x && (r + y)[|r|..] == y;
      }
    }
  }

  lemma RecordsDiffer(n: Name, f: File, g: File, x: seq<byte>, y: seq<byte>)
    requires f != g && |Body(f)| == |Body(g)| && !f.Unreadable? && !g.Unreadable?
    ensures Record(n, f) + x != Record(n, g) + y
  {
    var r, q := Record(n, f), Record(n, g);
    assert (r + x)[..|r|] == r && (q + y)[..|q|] == q;
    assert r[|n| + 1] == Flag(f) && q[|n| + 1] == Flag(g);
    assert r[|n| + 3..] == Body(f) && q[|n| + 3..] == Body(g);
  }

  /** Two states of the tree that differ in exactly one watched file, in its contents or its presence,
      are hashed as different streams, even if several entries lead to that file or repeat. */
  lemma OneFileChanges(entries: seq<Name>, s: Tree, t: Tree, p: Path)
    requires DiffersOnlyAt(s, t, p) && Watched(entries, s, p)
    requires Readable(entries, s) && Readable(entries, t)
    ensures Stream(entries, s) != Stream(entries, t)
  {
    var names := Sorting.SortBy(entries, BY_NAME);
    var n :| n in entries && s.resolve(n) == p;
    Sorting.SortElements(entries, BY_NAME);
    assert n in multiset(entries);
    assert n in multiset(names);
    assert !At(s, n).Unreadable? && !At(t, n).Unreadable?;
    var a, b := |Body(s.files(p))|, |Body(t.files(p))|;
    if a < b {
      LongerFile(names, s, t, p);
    } else if b < a {
      LongerFile(names, t, s, p);
    } else {
      SameLengthFile(names, s, t, p);
    }
  }

  // ------------------------------------------------ any number of changes

  function Nuls(bytes: seq<byte>): nat {
    if bytes == [] then 0 else Nuls(bytes[..|bytes| - 1]) + if bytes[|bytes| - 1] == 0 then 1 else 0
  }

  lemma {:induction false} NulsAppend(a: seq<byte>, b: seq<byte>)
    ensures Nuls(a + b) == Nuls(a) + Nuls(b)
    decreases |b|
  {
    if b == [] {
      assert a + b == a;
    } else {
      assert (a + b)[..|a + b| - 1] == a + b[..|b| - 1];
      NulsAppend(a, b[..|b| - 1]);
    }
  }

  predicate NulFree(bytes: seq<byte>) {
    forall k :: 0 <= k < |bytes| ==> bytes[k] != 0
  }

  lemma {:induction false} NoNul(bytes: seq<byte>)
    ensures Nuls(bytes) == 0 <==> NulFree(bytes)
  {
    if bytes != [] {
      NoNul(bytes[..|bytes| - 1]);
      assert bytes == bytes[..|bytes| - 1] + [bytes[|bytes| - 1]];
    }
  }

  /** Every record has two NULs of its own. */
  lemma RecordNuls(n: Name, f: File)
    requires NulFree(n)
    ensures Nuls(Record(n, f)) == 2 + Nuls(Body(f))
  {
    var frame: seq<byte> := [0, Flag(f), 0];
    NoNul(n);
    NulsAppend(n, frame);
    NulsAppend(n + frame, Body(f));
    assert frame[..2] == [0, Flag(f)] && frame[..2][..1] == [0] && frame[..2][..1][..0] == [];
    assert Nuls([0]) == 1 && Nuls([0, Flag(f)]) == 1;
  }

  ghost predicate NulFreeNames(names: seq<Name>) {
    forall n <- names :: NulFree(n)
  }

  ghost predicate NulFreeFiles(names: seq<Name>, t: Tree) {
    forall n <- names :: NulFree(Body(At(t, n)))
  }

  /** The NULs of a stream tell whether any file has one. */
  lemma {:induction false} RecordsNuls(names: seq<Name>, t: Tree)
    requires NulFreeNames(names)
    ensures Nuls(Records(names, t)) >= 2 * |names|
    ensures Nuls(Records(names, t)) == 2 * |names| <==> NulFreeFiles(names, t)
  {
    if names != [] {
      var n := names[0];
      assert names == [n] + names[1..];
      RecordsNuls(names[1..], t);
      RecordNuls(n, At(t, n));
      NoNul(Body(At(t, n)));
      NulsAppend(Record(n, At(t, n)), Records(names[1..], t));
    }
  }

  /** The place of the first NUL cuts two equal byte strings alike. */
  lemma FirstNul(a: seq<byte>, x: seq<byte>, b: seq<byte>, y: seq<byte>)
    requires NulFree(a) && NulFree(b) && a + [0] + x == b + [0] + y
    ensures a == b && x == y
  {
    var s, t := a + [0] + x, b + [0] + y;
    assert s[|a|] == 0 && t[|b|] == 0;
    assert forall k :: 0 <= k < |a| ==> s[k] == a[k];
    assert forall k :: 0 <= k < |b| ==> t[k] == b[k];
    assert |a| == |b|;
    assert s[..|a|] == a && t[..|b|] == b;
    assert s[|a| + 1..] == x && t[|b| + 1..] == y;
  }

  lemma NulFreeBoth(a: seq<byte>, b: seq<byte>)
    requires NulFree(a) && NulFree(b)
    ensures NulFree(a + b)
  {
  }

  /** What comes behind the name and its NUL. */
  function Behind(names: seq<Name>, t: Tree): seq<byte>
    requires names != []
  {
    [Flag(At(t, names[0])), 0] + Body(At(t, names[0])) + Records(names[1..], t)
  }

  lemma CutBehindName(front: seq<byte>, n: Name, flag: byte, body: seq<byte>, rest: seq<byte>)
    ensures front + (n + [0, flag, 0] + body + rest) == (front + n) + [0] + ([flag, 0] + body + rest)
  {
    assert n + [0, flag, 0] + body + rest == (n + [0]) + ([flag, 0] + body + rest);
  }

  lemma HeadAndBehind(front: seq<byte>, names: seq<Name>, t: Tree)
    requires names != []
    ensures front + Records(names, t) == (front + names[0]) + [0] + Behind(names, t)
  {
    CutBehindName(front, names[0], Flag(At(t, names[0])), Body(At(t, names[0])), Records(names[1..], t));
  }

  /** Equal streams of NUL-free files: the first body and what is behind it are equal. */
  lemma BodiesCut(names: seq<Name>, s: Tree, t: Tree, f: seq<byte>, g: seq<byte>)
    requires NulFreeNames(names) && NulFree(f) && NulFree(g)
    requires f + Records(names, s) == g + Records(names, t)
    ensures f == g && Records(names, s) == Records(names, t)
  {
    if names == [] {
      assert f + [] == f && g + [] == g;
    } else {
      var n := names[0];
      HeadAndBehind(f, names, s);
      HeadAndBehind(g, names, t);
      NulFreeBoth(f, n);
      NulFreeBoth(g, n);
      FirstNul(f + n, Behind(names, s), g + n, Behind(names, t));
      assert (f + n)[..|f|] == f && (g + n)[..|g|] == g;
      assert (f + Records(names, s))[|f|..] == Records(names, s) && (g + Records(names, t))[|g|..] == Records(names, t);
    }
  }

  lemma RecordSplit(n: Name, f: File, rest: seq<byte>)
    ensures var r := Record(n, f) + rest;
            |r| >= |n| + 3 && r[|n| + 1] == Flag(f) && r[|n| + 3..] == Body(f) + rest
  {
    assert Record(n, f) + rest == (n + [0, Flag(f), 0]) + (Body(f) + rest);
  }

  lemma {:induction false} RecordsDetermine(names: seq<Name>, s: Tree, t: Tree)
    requires NulFreeNames(names) && NulFreeFiles(names, s) && NulFreeFiles(names, t)
    requires Readable(names, s) && Readable(names, t)
    requires Records(names, s) == Records(names, t)
    ensures forall n <- names :: At(s, n) == At(t, n)
  {
    if names != [] {
      var n, rest := names[0], names[1..];
      assert names == [n] + rest;
      RecordSplit(n, At(s, n), Records(rest, s));
      RecordSplit(n, At(t, n), Records(rest, t));
      BodiesCut(rest, s, t, Body(At(s, n)), Body(At(t, n)));
      RecordsDetermine(rest, s, t);
    }
  }

  lemma {:induction false} SameFilesSameRecords(names: seq<Name>, s: Tree, t: Tree)
    requires forall n <- names :: At(s, n) == At(t, n)
    ensures Records(names, s) == Records(names, t)
  {
    if names != [] {
      assert names == [names[0]] + names[1..];
      SameFilesSameRecords(names[1..], s, t);
    }
  }

  /** The exact condition for any change at all: if the entries and the files watched before hold no NUL
      byte, the stream is the same afterwards exactly if every watched file is. */
  lemma StreamTellsEveryChange(entries: seq<Name>, s: Tree, t: Tree)
    requires NulFreeNames(entries) && NulFreeFiles(entries, s)
    requires Readable(entries, s) && Readable(entries, t)
    ensures Stream(entries, s) == Stream(entries, t) <==> forall n <- entries :: At(s, n) == At(t, n)
  {
    var names := Sorting.SortBy(entries, BY_NAME);
    SortedHolds(entries);
    RecordsNuls(names, s);
    RecordsNuls(names, t);
    if Stream(entries, s) == Stream(entries, t) {
      RecordsDetermine(names, s, t);
    }
    if forall n <- entries :: At(s, n) == At(t, n) {
      SameFilesSameRecords(names, s, t);
    }
  }

  lemma SortedHolds(entries: seq<Name>)
    ensures forall n :: n in Sorting.SortBy(entries, BY_NAME) <==> n in entries
  {
    Sorting.SortElements(entries, BY_NAME);
    assert forall n :: n in Sorting.SortBy(entries, BY_NAME) <==> n in multiset(Sorting.SortBy(entries, BY_NAME));
    assert forall n :: n in entries <==> n in multiset(entries);
  }

  /** Two files changed at once can cancel out: contents are not length-prefixed, so what leaves the
      end of one file can reappear at the end of the next. */
  lemma TwoFilesCanCancel(s: Tree, t: Tree)
    requires s.resolve([97]) == t.resolve([97]) == "a" && s.resolve([98]) == t.resolve([98]) == "b"
    requires s.files("a") == Present([]) && s.files("b") == Present([98, 0, '1' as byte, 0])
    requires t.files("a") == Present([98, 0, '1' as byte, 0]) && t.files("b") == Present([])
    ensures Stream([[97], [98]], s) == Stream([[97], [98]], t)
  {
    var head: seq<byte> := [98, 0, '1' as byte, 0];
    InNameOrder([97], [98]);
    TwoRecords([97], [98], s);
    TwoRecords([97], [98], t);
    assert Record([97], Present([])) + Record([98], Present(head)) == Record([97], Present(head)) + Record([98], Present([]));
  }

  lemma InNameOrder(a: Name, b: Name)
    requires Le(a, b)
    ensures Sorting.SortBy([a, b], BY_NAME) == [a, b]
  {
    NameOrder();
    assert BY_NAME(a, b);
    Sorting.SortElements([a, b], BY_NAME);
    Sorting.SortSorted([a, b], BY_NAME);
    Sorting.SortedUnique([a, b], Sorting.SortBy([a, b], BY_NAME), BY_NAME);
  }

  lemma TwoRecords(a: Name, b: Name, t: Tree)
    ensures Records([a, b], t) == Record(a, At(t, a)) + Record(b, At(t, b))
  {
    assert [a, b][1..] == [b] && [b][1..] == [];
    var r := Record(b, At(t, b));
    assert Records([b], t) == r + [] == r;
  }

  lemma {:induction false} InsertLength(n: Name, names: seq<Name>, t: Tree)
    ensures |Records(Sorting.Insert(n, names, BY_NAME), t)| == |Records(names, t)| + |Record(n, At(t, n))|
  {
    if names != [] && BY_NAME(names[0], n) {
      InsertLength(n, names[1..], t);
    } else {
      assert ([n] + names)[1..] == names;
    }
  }

  /** Watching one file more, wherever it stands in the list, always changes the stream. */
  lemma OneEntryMore(entries: seq<Name>, more: seq<Name>, n: Name, t: Tree)
    requires multiset(more) == multiset(entries) + multiset{n}
    ensures |Stream(more, t)| == |Stream(entries, t)| + |n| + 3 + |Body(At(t, n))|
    ensures Stream(more, t) != Stream(entries, t)
  {
    var grown := entries + [n];
    assert multiset(grown) == multiset(more);
    OrderDoesNotMatter(more, grown, t, _ => 0);
    assert grown[..|grown| - 1] == entries;
    InsertLength(n, Sorting.SortBy(entries, BY_NAME), t);
  }

  // ----------------------------------------------------- text of the digest

  function HexValue(c: char): nat
    requires IsHex(c)
  {
    if c <= '9' then c as nat - '0' as nat else c as nat - 'a' as nat + 10
  }

  function FromHex(s: string): nat
    requires forall c <- s :: IsHex(c)
  {
    if s == "" then 0 else 16 * FromHex(s[..|s| - 1]) + HexValue(s[|s| - 1])
  }

  function Pow16(k: nat): nat {
    if k == 0 then 1 else 16 * Pow16(k - 1)
  }

  lemma {:induction false} HexReadsBack(n: nat, width: nat)
    requires n < Pow16(width)
    ensures FromHex(HexDigits(n, width)) == n
  {
    if width > 0 {
      HexReadsBack(n / 16, width - 1);
      var s := HexDigits(n, width);
      assert s[..width - 1] == HexDigits(n / 16, width - 1);
    }
  }

  /** The digest text loses nothing of the hash. */
  lemma DigestIsInjective(x: hash64, y: hash64)
    requires HexDigits(x as nat, 16) == HexDigits(y as nat, 16)
    ensures x == y
  {
    assert Pow16(4) == 0x1_0000 && Pow16(8) == 0x1_0000_0000 && Pow16(12) == 0x1_0000_0000_0000;
    assert Pow16(16) == 0x1_0000_0000_0000_0000;
    HexReadsBack(x as nat, 16);
    HexReadsBack(y as nat, 16);
  }

  /** What a digest says: sixteen lower-case hex digits whose value is the hash of the stream. */
  lemma SumReadsBack(entries: seq<Name>, t: Tree, hash: Hash)
    ensures var sum := Sum(entries, t, hash);
            && (sum.Some? <==> forall n <- entries :: !At(t, n).Unreadable?)
            && (sum.Some? ==> |sum.value| == 16 && FromHex(sum.value) == hash(Stream(entries, t)) as nat)
  {
    assert Pow16(4) == 0x1_0000 && Pow16(8) == 0x1_0000_0000 && Pow16(12) == 0x1_0000_0000_0000;
    assert Pow16(16) == 0x1_0000_0000_0000_0000;
    HexReadsBack(hash(Stream(entries, t)) as nat, 16);
  }

  // -------------------------------------------------- the stream, by records

  /** `a` comes before `b`, or is `b`: a front part of it, or less at the first byte that differs. */
  ghost predicate NotAfter(a: Name, b: Name) {
    || (|a| <= |b| && a == b[..|a|])
    || exists k :: 0 <= k < |a| && k < |b| && a[..k] == b[..k] && a[k] < b[k]
  }

  lemma {:induction false} LeIsOrder(a: Name, b: Name)
    requires NotAfter(a, b)
    ensures Le(a, b)
    decreases |a|
  {
    if a != [] && b != [] && a[0] == b[0] {
      if |a| <= |b| && a == b[..|a|] {
        assert a[1..] == b[1..][..|a| - 1];
      } else {
        var k :| 0 <= k < |a| && k < |b| && a[..k] == b[..k] && a[k] < b[k];
        assert a[1..][..k - 1] == a[..k][1..] == b[..k][1..] == b[1..][..k - 1];
        assert a[1..][k - 1] < b[1..][k - 1];
      }
      LeIsOrder(a[1..], b[1..]);
    } else if a != [] && b != [] {
      FirstDecides(a, b);
    }
  }

  lemma FirstDecides(a: Name, b: Name)
    requires NotAfter(a, b) && a != [] && b != []
    ensures a[0] <= b[0]
  {
    if |a| <= |b| && a == b[..|a|] {
      assert a[0] == b[..|a|][0];
    } else {
      var k :| 0 <= k < |a| && k < |b| && a[..k] == b[..k] && a[k] < b[k];
      if k > 0 {
        assert a[..k][0] == b[..k][0];
      }
    }
  }

  ghost predicate InOrder(names: seq<Name>) {
    forall i, j :: 0 <= i < j < |names| ==> NotAfter(names[i], names[j])
  }

  lemma OrderedIsSorted(names: seq<Name>)
    requires InOrder(names)
    ensures Sorting.SortBy(names, BY_NAME) == names
  {
    NameOrder();
    forall i, j | 0 <= i < j < |names| ensures BY_NAME(names[i], names[j]) {
      LeIsOrder(names[i], names[j]);
    }
    Sorting.SortElements(names, BY_NAME);
    Sorting.SortSorted(names, BY_NAME);
    Sorting.SortedUnique(Sorting.SortBy(names, BY_NAME), names, BY_NAME);
  }

  lemma {:induction false} RecordsAppend(a: seq<Name>, b: seq<Name>, t: Tree)
    ensures Records(a + b, t) == Records(a, t) + Records(b, t)
    decreases |a|
  {
    if a == [] {
      assert a + b == b;
    } else {
      assert (a + b)[1..] == a[1..] + b;
      RecordsAppend(a[1..], b, t);
      var r, x, y := Record(a[0], At(t, a[0])), Records(a[1..], t), Records(b, t);
      assert r + (x + y) == (r + x) + y;
    }
  }

  /** The stream, record by record. One entry's is its text, a zero, `1` or `0` for whether the file is there,
      a zero, and what the file holds; and that of entries in the order of their bytes is that of the first
      few followed by that of the others. */
  lemma StreamByRecords(name: Name, names: seq<Name>, k: nat, t: Tree)
    requires k <= |names| && InOrder(names)
    ensures At(t, name).Present? ==> Stream([name], t) == name + [0, 49, 0] + At(t, name).contents
    ensures At(t, name).Absent? ==> Stream([name], t) == name + [0, 48, 0]
    ensures Stream(names, t) == Stream(names[..k], t) + Stream(names[k..], t)
  {
    OrderedIsSorted([name]);
    assert Records([name], t) == Record(name, At(t, name)) + [];
    assert name + [0, 48, 0] + [] == name + [0, 48, 0];
    OrderedIsSorted(names);
    OrderedIsSorted(names[..k]);
    OrderedIsSorted(names[k..]);
    assert names == names[..k] + names[k..];
    RecordsAppend(names[..k], names[k..], t);
  }
}

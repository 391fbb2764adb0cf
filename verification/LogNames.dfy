/** The names of the per-run server logs: rendering, recognising, and the epoch-ordered scan. */
module LogNames {
  import opened Wrappers
  import D = Decimal
  import Sorting

  const PREFIX: string := "ncap-server-"
  const SUFFIX: string := ".log"
  const U64: nat := 0x1_0000_0000_0000_0000

  function ServerLogName(epoch: nat): string {
    PREFIX + D.Of(epoch) + SUFFIX
  }

  function StripPrefix(s: string, prefix: string): Option<string> {
    if prefix <= s then Some(s[|prefix|..]) else None
  }

  function StripSuffix(s: string, suffix: string): Option<string> {
    if |suffix| <= |s| && s[|s| - |suffix|..] == suffix then Some(s[..|s| - |suffix|]) else None
  }

  /** The epoch in a log name; `None` for any other name, and for an epoch no `u64` holds. */
  function ParseEpoch(name: string): Option<nat> {
    match StripPrefix(name, PREFIX)
    case None => None
    case Some(rest) => match StripSuffix(rest, SUFFIX)
      case None => None
      case Some(body) =>
        if body == "" || !(forall c <- body :: D.IsDigit(c)) then None
        else if D.Value(body) < U64 then Some(D.Value(body))
        else None
  }

  lemma ParseBody(body: string)
    ensures ParseEpoch(PREFIX + body + SUFFIX) ==
              if body != "" && D.AllDigits(body) && D.Value(body) < U64 then Some(D.Value(body)) else None
  {
    var name := PREFIX + body + SUFFIX;
    assert PREFIX <= name && name[|PREFIX|..] == body + SUFFIX;
    assert (body + SUFFIX)[|body|..] == SUFFIX && (body + SUFFIX)[..|body|] == body;
  }

  /** Parsing gives back the epoch a name was made from, whenever a `u64` holds it. */
  lemma ParseInvertsName(epoch: nat)
    ensures ParseEpoch(ServerLogName(epoch)) == if epoch < U64 then Some(epoch) else None
  {
    ParseBody(D.Of(epoch));
    D.ValueOf(epoch);
  }

  /** Exactly the names with a nonempty body of digits that fits are log names. */
  lemma AcceptsExactly(name: string, epoch: nat)
    ensures ParseEpoch(name) == Some(epoch) <==>
            exists body: string ::
              && name == "ncap-server-" + body + ".log" && body != "" && (forall c <- body :: '0' <= c <= '9')
              && D.AllDigits(body) && D.Value(body) == epoch < 18446744073709551616
  {
    if ParseEpoch(name).Some? {
      var rest := name[|PREFIX|..];
      var body := rest[..|rest| - |SUFFIX|];
      assert rest == body + SUFFIX;
      assert name == PREFIX + rest;
      assert name == PREFIX + body + SUFFIX;
      ParseBody(body);
    }
    forall body: string | name == PREFIX + body + SUFFIX && body != "" && D.AllDigits(body) && D.Value(body) < U64
      ensures ParseEpoch(name) == Some(D.Value(body))
    {
      ParseBody(body);
    }
  }

  // ------------------------------------------------------------- the scan

  datatype ServerLog = ServerLog(epoch: nat, name: string)

  const BY_EPOCH: (ServerLog, ServerLog) -> bool := (a: ServerLog, b: ServerLog) => a.epoch <= b.epoch

  function Recognised(names: seq<string>): seq<ServerLog> {
    if names == [] then []
    else
      var rest := Recognised(names[1..]);
      match ParseEpoch(names[0])
      case None => rest
      case Some(epoch) => [ServerLog(epoch, names[0])] + rest
  }

  function Scan(names: seq<string>): seq<ServerLog> {
    Sorting.SortBy(Recognised(names), BY_EPOCH)
  }

  /** The log directory in listing order (`None`: it cannot be read), as its logs in epoch order. */
  method SortedServerLogs(dir: Option<seq<string>>) returns (entries: seq<ServerLog>)
    ensures entries == Scan(if dir.Some? then dir.value else [])
  {
    entries := [];
    if dir.None? {
      return;
    }
    var names := dir.value;
    for i := 0 to |names|
      invariant entries + Recognised(names[i..]) == Recognised(names)
    {
      assert names[i..][0] == names[i] && names[i..][1..] == names[i + 1..];
      ghost var rest := Recognised(names[i + 1..]);
      match ParseEpoch(names[i]) {
        case None =>
        case Some(epoch) =>
          assert entries + ([ServerLog(epoch, names[i])] + rest) == (entries + [ServerLog(epoch, names[i])]) + rest;
          entries := entries + [ServerLog(epoch, names[i])];
      }
    }
    assert names[|names|..] == [] && entries + [] == entries;
    entries := Sorting.SortBy(entries, BY_EPOCH);
  }

  ghost predicate Ascending(scan: seq<ServerLog>) {
    forall i, j :: 0 <= i < j < |scan| ==> scan[i].epoch <= scan[j].epoch
  }

  lemma {:induction false} RecognisedHas(names: seq<string>, log: ServerLog)
    ensures log in Recognised(names) <==> log.name in names && ParseEpoch(log.name) == Some(log.epoch)
  {
    if names != [] {
      RecognisedHas(names[1..], log);
      assert names == [names[0]] + names[1..];
    }
  }

  function OfEpoch(logs: seq<ServerLog>, epoch: nat): seq<ServerLog> {
    Sorting.Keep(logs, (l: ServerLog) => l.epoch == epoch)
  }

  /** The scan holds exactly the directory's log files, */
  lemma ScanHas(names: seq<string>, log: ServerLog)
    ensures log in Scan(names) <==> log.name in names && ParseEpoch(log.name) == Some(log.epoch)
  {
    var logs := Recognised(names);
    RecognisedHas(names, log);
    Sorting.SortElements(logs, BY_EPOCH);
    assert log in Scan(names) <==> log in multiset(Scan(names));
    assert log in logs <==> log in multiset(logs);
  }

  /** in numeric order, so that its last entry has the greatest epoch, */
  lemma ScanAscends(names: seq<string>)
    ensures Ascending(Scan(names))
    ensures Scan(names) != [] ==> forall log <- Scan(names) :: log.epoch <= Scan(names)[|Scan(names)| - 1].epoch
  {
    Sorting.SortSorted(Recognised(names), BY_EPOCH);
    forall i, j | 0 <= i < j < |Scan(names)| ensures Scan(names)[i].epoch <= Scan(names)[j].epoch {
      assert BY_EPOCH(Scan(names)[i], Scan(names)[j]);
    }
  }

  /** and files of one epoch (`007` and `7`) stay in listing order. */
  lemma ScanIsStable(names: seq<string>, epoch: nat)
    ensures OfEpoch(Scan(names), epoch) == OfEpoch(Recognised(names), epoch)
  {
    Sorting.SortStable(Recognised(names), BY_EPOCH, (l: ServerLog) => l.epoch == epoch);
  }

  ghost predicate Distinct(names: seq<string>) {
    forall i, j :: 0 <= i < j < |names| ==> names[i] != names[j]
  }

  lemma {:induction false} RecognisedOnce(names: seq<string>)
    requires Distinct(names)
    ensures Sorting.NoDuplicates(Recognised(names))
  {
    if names != [] {
      RecognisedOnce(names[1..]);
      if ParseEpoch(names[0]).Some? {
        var log := ServerLog(ParseEpoch(names[0]).value, names[0]);
        RecognisedHas(names[1..], log);
        assert forall j :: 0 <= j < |names| - 1 ==> names[1..][j] == names[j + 1];
        assert log !in Recognised(names[1..]);
      }
    }
  }

  /** A directory lists each name once; so does the scan. */
  lemma ScanOnce(names: seq<string>)
    requires Distinct(names)
    ensures forall i, j :: 0 <= i < j < |Scan(names)| ==> Scan(names)[i].name != Scan(names)[j].name
  {
    RecognisedOnce(names);
    Sorting.SortNoDuplicates(Recognised(names), BY_EPOCH);
    forall i, j | 0 <= i < j < |Scan(names)| ensures Scan(names)[i].name != Scan(names)[j].name {
      ScanHas(names, Scan(names)[i]);
      ScanHas(names, Scan(names)[j]);
      assert Scan(names)[i] != Scan(names)[j];
    }
  }

  // ------------------------------------------------- attaching newer files

  /** What a re-scan attaches after a file of epoch `last`: the scan without its front that is no newer. */
  function AttachmentsAfter(last: nat, scan: seq<ServerLog>): seq<ServerLog> {
    if scan != [] && scan[0].epoch <= last then AttachmentsAfter(last, scan[1..]) else scan
  }

  lemma {:induction false} AfterIsSuffix(last: nat, scan: seq<ServerLog>) returns (k: nat)
    ensures k <= |scan| && AttachmentsAfter(last, scan) == scan[k..]
    ensures forall i :: 0 <= i < k ==> scan[i].epoch <= last
  {
    if scan != [] && scan[0].epoch <= last {
      var n := AfterIsSuffix(last, scan[1..]);
      k := n + 1;
      assert scan[1..][n..] == scan[k..];
      assert forall i :: 0 < i < k ==> scan[i] == scan[1..][i - 1];
    } else {
      k := 0;
      assert scan[0..] == scan;
    }
  }

  /** On an ordered scan, skipping the front is keeping the greater epochs. */
  lemma {:induction false} AttachmentsAreNewer(last: nat, scan: seq<ServerLog>)
    requires Ascending(scan)
    ensures AttachmentsAfter(last, scan) == Sorting.Keep(scan, (l: ServerLog) => l.epoch > last)
    ensures forall log :: log in AttachmentsAfter(last, scan) <==> log in scan && log.epoch > last
  {
    if scan != [] {
      assert scan == [scan[0]] + scan[1..];
      if scan[0].epoch <= last {
        AttachmentsAreNewer(last, scan[1..]);
      } else {
        assert forall k :: 0 <= k < |scan| ==> scan[k].epoch > last;
        KeepAll(scan, (l: ServerLog) => l.epoch > last);
      }
    }
  }

  /** The last attachment is the newest file of the scan; without one, none is newer than `last`. */
  lemma NewestIsAttached(last: nat, scan: seq<ServerLog>)
    requires Ascending(scan)
    ensures var newer := AttachmentsAfter(last, scan);
            forall log <- scan :: log.epoch <= if newer == [] then last else newer[|newer| - 1].epoch
  {
    var newer := AttachmentsAfter(last, scan);
    var k := AfterIsSuffix(last, scan);
    if newer != [] {
      assert newer[|newer| - 1] == scan[|scan| - 1];
    }
  }

  lemma {:induction false} KeepAll(scan: seq<ServerLog>, p: ServerLog -> bool)
    requires forall log <- scan :: p(log)
    ensures Sorting.Keep(scan, p) == scan
  {
    if scan != [] {
      KeepAll(scan[1..], p);
    }
  }
}

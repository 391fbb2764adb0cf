/** `log --follow`: the newest server log is streamed while servers write, appear and are cleaned
    away; newer logs are attached as re-scans find them. */
module LogFollow {
  import opened Wrappers
  import opened Protocol
  import N = LogNames

  const CHUNK: nat := 8192

  /** The files: what each one holds (kept while a handle may be open), and which are in the directory. */
  datatype World = World(contents: map<string, seq<byte>>, linked: set<string>)

  /** Writers append, files appear and are removed; no name is given to different contents. */
  predicate Evolves(w: World, v: World) {
    && v.linked <= v.contents.Keys
    && forall name <- w.contents :: name in v.contents && w.contents[name] <= v.contents[name]
  }

  /** A file name in a log directory is ASCII if it is a log's, so its characters are its bytes. */
  function Ascii(s: string): seq<byte> {
    seq(|s|, k requires 0 <= k < |s| => (s[k] as int % 256) as byte)
  }

  function Banner(log: N.ServerLog): seq<byte> {
    Ascii("==> following " + log.name + " <==\n")
  }

  datatype Phase =
    | Announcing(next: N.ServerLog)
    | Opening
    | Reading
    | Writing(chunk: seq<byte>)
    | Polling
    | Scanning
    | Interrupted
    | Failed(torn: seq<byte>, of: Option<N.ServerLog>)   // what went out of the last write; `of`: of this log's banner

  /** One attachment as the terminal shows it, and the epochs of the scans before the one it came from. */
  datatype Shown = Shown(log: N.ServerLog, printed: seq<byte>, past: set<nat>)

  datatype Follow = Follow(
    phase: Phase,
    polled: bool,                 // the running drain is the poll's: a re-scan comes after it
    attached: N.ServerLog,
    pos: nat,
    queue: seq<N.ServerLog>,      // attachments of the current scan still to come
    out: seq<byte>,
    shown: seq<Shown>,
    earlier: set<nat>,            // epochs in all scans before the current one
    seen: set<nat>,               // and with it
    world: World)

  datatype Event =
    | FilesChange(to: World)
    | Wrote
    | WriteFails(size: nat)
    | Opens
    | OpenFails
    | Reads(size: nat)
    | ReadFails
    | Tick
    | CtrlC
    | Lists(names: seq<string>)

  function Epochs(logs: seq<N.ServerLog>): set<nat> {
    set log <- logs :: log.epoch
  }

  /** What `log --follow` starts from: the newest log of the first scan. */
  function Begin(world: World, names: seq<string>): Follow
    requires N.Scan(names) != []
  {
    var scan := N.Scan(names);
    var first := scan[|scan| - 1];
    Follow(Announcing(first), false, first, 0, [], [], [], {}, Epochs(scan), world)
  }

  function Drained(f: Follow): Follow {
    if f.polled then f.(phase := Scanning)
    else if f.queue == [] then f.(phase := Polling)
    else f.(phase := Announcing(f.queue[0]), queue := f.queue[1..])
  }

  predicate Listing(names: seq<string>, world: World) {
    && (forall i, j :: 0 <= i < j < |names| ==> names[i] != names[j])
    && forall name <- names :: name in world.contents
  }

  function Held(world: World, name: string): seq<byte> {
    if name in world.contents then world.contents[name] else []
  }

  function Contents(f: Follow): seq<byte> {
    Held(f.world, f.attached.name)
  }

  function Print(shown: seq<Shown>, bytes: seq<byte>): seq<Shown>
    requires shown != []
  {
    var last := shown[|shown| - 1];
    shown[..|shown| - 1] + [last.(printed := last.printed + bytes)]
  }

  function Announce(f: Follow, log: N.ServerLog, e: Event): Follow {
    if e.Wrote? then
      f.(phase := Opening, polled := false, attached := log, pos := 0, out := f.out + Banner(log),
         shown := f.shown + [Shown(log, [], f.earlier)])
    else if e.WriteFails? && e.size <= |Banner(log)| then
      f.(phase := Failed(Banner(log)[..e.size], Some(log)), out := f.out + Banner(log)[..e.size])
    else f
  }

  function Open(f: Follow, e: Event): Follow {
    if e.Opens? then (if f.attached.name in f.world.linked then f.(phase := Reading) else Drained(f))
    else if e.OpenFails? then f.(phase := Failed([], None))
    else f
  }

  function Read(f: Follow, e: Event): Follow {
    if e.Reads? && f.pos >= |Contents(f)| then Drained(f)
    else if e.Reads? && 0 < e.size <= CHUNK && f.pos + e.size <= |Contents(f)| then
      f.(phase := Writing(Contents(f)[f.pos..f.pos + e.size]))
    else if e.ReadFails? then f.(phase := Failed([], None))
    else f
  }

  function Write(f: Follow, chunk: seq<byte>, e: Event): Follow
    requires f.shown != []
  {
    if e.Wrote? then
      f.(phase := Reading, pos := f.pos + |chunk|, out := f.out + chunk, shown := Print(f.shown, chunk))
    else if e.WriteFails? && e.size <= |chunk| then
      f.(phase := Failed(chunk[..e.size], None), out := f.out + chunk[..e.size])
    else f
  }

  function Rescan(f: Follow, names: seq<string>): Follow {
    var scan := N.Scan(names);
    Drained(f.(polled := false, queue := N.AttachmentsAfter(f.attached.epoch, scan),
               earlier := f.seen, seen := f.seen + Epochs(scan)))
  }

  /** One step of the loop, or of the world around it; a step that is not enabled changes nothing. */
  function Next(f: Follow, e: Event): Follow {
    if e.FilesChange? then (if Evolves(f.world, e.to) then f.(world := e.to) else f)
    else match f.phase
      case Announcing(log) => Announce(f, log, e)
      case Opening => Open(f, e)
      case Reading => Read(f, e)
      case Writing(chunk) => if f.shown != [] then Write(f, chunk, e) else f
      case Polling =>
        if e.Tick? then f.(phase := Opening, polled := true)
        else if e.CtrlC? then f.(phase := Interrupted)
        else f
      case Scanning => if e.Lists? && Listing(e.names, f.world) then Rescan(f, e.names) else f
      case _ => f
  }

  function Execute(f: Follow, events: seq<Event>): Follow
    decreases |events|
  {
    if events == [] then f else Execute(Next(f, events[0]), events[1..])
  }

  /** The loop with its variables; what was shown for which attachment is kept for the proofs. */
  class FollowTask {
    var phase: Phase
    var polled: bool
    var attached: N.ServerLog
    var pos: nat
    var queue: seq<N.ServerLog>
    var out: seq<byte>
    var world: World
    ghost var shown: seq<Shown>
    ghost var earlier: set<nat>
    ghost var seen: set<nat>

    ghost function View(): Follow
      reads this
    {
      Follow(phase, polled, attached, pos, queue, out, shown, earlier, seen, world)
    }

    constructor (world: World, names: seq<string>)
      requires N.Scan(names) != []
      ensures View() == Begin(world, names)
    {
      var scan := N.Scan(names);
      phase, polled, attached := Announcing(scan[|scan| - 1]), false, scan[|scan| - 1];
      pos, queue, out := 0, [], [];
      this.world := world;
      shown, earlier, seen := [], {}, Epochs(scan);
    }

    method EndDrain()
      modifies this
      ensures View() == Drained(old(View()))
    {
      if polled {
        phase := Scanning;
      } else if queue == [] {
        phase := Polling;
      } else {
        phase := Announcing(queue[0]);
        queue := queue[1..];
      }
    }

    method AnnounceAttach(log: N.ServerLog, e: Event)
      modifies this
      ensures View() == Announce(old(View()), log, e)
    {
      var banner := Banner(log);
      if e.Wrote? {
        out := out + banner;
        attached := log;
        pos := 0;
        polled := false;
        shown := shown + [Shown(log, [], earlier)];
        phase := Opening;
      } else if e.WriteFails? && e.size <= |banner| {
        out := out + banner[..e.size];
        phase := Failed(banner[..e.size], Some(log));
      }
    }

    method OpenLog(e: Event)
      modifies this
      ensures View() == Open(old(View()), e)
    {
      if e.Opens? {
        if attached.name in world.linked {
          phase := Reading;
        } else {
          EndDrain();
        }
      } else if e.OpenFails? {
        phase := Failed([], None);
      }
    }

    method ReadLog(e: Event)
      modifies this
      ensures View() == Read(old(View()), e)
    {
      var contents := if attached.name in world.contents then world.contents[attached.name] else [];
      if e.Reads? && pos >= |contents| {
        EndDrain();
      } else if e.Reads? && 0 < e.size <= CHUNK && pos + e.size <= |contents| {
        phase := Writing(contents[pos..pos + e.size]);
      } else if e.ReadFails? {
        phase := Failed([], None);
      }
    }

    method WriteChunk(chunk: seq<byte>, e: Event)
      requires shown != []
      modifies this
      ensures View() == Write(old(View()), chunk, e)
    {
      if e.Wrote? {
        out := out + chunk;
        pos := pos + |chunk|;
        shown := Print(shown, chunk);
        phase := Reading;
      } else if e.WriteFails? && e.size <= |chunk| {
        out := out + chunk[..e.size];
        phase := Failed(chunk[..e.size], None);
      }
    }

    method ScanAgain(names: seq<string>)
      modifies this
      ensures View() == Rescan(old(View()), names)
    {
      var scan := N.SortedServerLogs(Some(names));
      polled := false;
      queue := N.AttachmentsAfter(attached.epoch, scan);
      earlier, seen := seen, seen + Epochs(scan);
      EndDrain();
    }

    method OnEvent(e: Event)
      requires Accounted(View())
      modifies this
      ensures View() == Next(old(View()), e)
    {
      if e.FilesChange? {
        if Evolves(world, e.to) { world := e.to; }
        return;
      }
      match phase {
        case Announcing(log) => AnnounceAttach(log, e);
        case Opening => OpenLog(e);
        case Reading => ReadLog(e);
        case Writing(chunk) => WriteChunk(chunk, e);
        case Polling =>
          if e.Tick? {
            phase := Opening;
            polled := true;
          } else if e.CtrlC? {
            phase := Interrupted;
          }
        case Scanning =>
          if e.Lists? && Listing(e.names, world) { ScanAgain(e.names); }
        case _ =>
      }
    }

    /** The loop over everything that happens. */
    method Drive(events: seq<Event>)
      requires Accounted(View())
      modifies this
      ensures View() == Execute(old(View()), events) && Accounted(View())
    {
      ghost var whole := Execute(View(), events);
      var k := 0;
      while k < |events|
        invariant 0 <= k <= |events|
        invariant Accounted(View()) && Execute(View(), events[k..]) == whole
      {
        assert events[k..][0] == events[k] && events[k..][1..] == events[k + 1..];
        AccountedNext(View(), events[k]);
        OnEvent(events[k]);
        k := k + 1;
      }
    }
  }

  // ------------------------------------------------------------ invariants

  /** The terminal as a list of attachments. */
  function Rendered(shown: seq<Shown>): seq<byte> {
    if shown == [] then []
    else
      var last := shown[|shown| - 1];
      Rendered(shown[..|shown| - 1]) + (Ascii("==> following " + last.log.name + " <==\n") + last.printed)
  }

  function Torn(p: Phase): seq<byte> {
    if p.Failed? then p.torn else []
  }

  /** Every attachment shows a prefix of its file. */
  ghost predicate Backed(shown: seq<Shown>, world: World) {
    forall s <- shown :: s.log.name in world.contents && s.printed <= world.contents[s.log.name]
  }

  ghost predicate Exist(logs: seq<N.ServerLog>, world: World) {
    forall log <- logs :: log.name in world.contents
  }

  /** Bytes of the attached file that are on their way to the terminal, or were when it failed. */
  function Pending(p: Phase): Option<seq<byte>> {
    match p
    case Writing(chunk) => Some(chunk)
    case Failed(torn, None) => Some(torn)
    case _ => None
  }

  /** What was printed, and where each byte came from. */
  ghost predicate Accounted(f: Follow) {
    && f.out == Rendered(f.shown) + Torn(f.phase)
    && Backed(f.shown, f.world)
    && Exist(Coming(f), f.world)
    && (f.shown != [] ==> f.attached == f.shown[|f.shown| - 1].log && f.pos == |f.shown[|f.shown| - 1].printed|)
    && (f.shown == [] ==> f.phase.Announcing? || f.phase.Failed?)
    && (Pending(f.phase).Some? ==> f.shown != [] && f.shown[|f.shown| - 1].printed + Pending(f.phase).value <= Contents(f))
    && (f.phase.Failed? && f.phase.of.Some? ==> f.phase.torn <= Banner(f.phase.of.value))
    && f.world.linked <= f.world.contents.Keys
  }

  /** The attachments still to come from scans that were made. */
  function Coming(f: Follow): seq<N.ServerLog> {
    if f.phase.Announcing? then [f.phase.next] + f.queue else f.queue
  }

  function Top(f: Follow): nat {
    if Coming(f) == [] then f.attached.epoch else Coming(f)[|Coming(f)| - 1].epoch
  }

  function Logs(shown: seq<Shown>): seq<N.ServerLog> {
    seq(|shown|, k requires 0 <= k < |shown| => shown[k].log)
  }

  ghost predicate DistinctNames(logs: seq<N.ServerLog>) {
    forall i, j :: 0 <= i < j < |logs| ==> logs[i].name != logs[j].name
  }

  ghost predicate Named(logs: seq<N.ServerLog>) {
    forall log <- logs :: N.ParseEpoch(log.name) == Some(log.epoch)
  }

  /** No file twice, among those attached and those to come. */
  ghost predicate Apart(shown: seq<Shown>, coming: seq<N.ServerLog>) {
    DistinctNames(Logs(shown) + coming) && Named(Logs(shown) + coming)
  }

  /** Attached files were newer than every scan before theirs. */
  ghost predicate Newer(shown: seq<Shown>) {
    forall s <- shown, e <- s.past :: e < s.log.epoch
  }

  ghost predicate Scanned(shown: seq<Shown>, coming: seq<N.ServerLog>, earlier: set<nat>, seen: set<nat>) {
    && (forall log <- coming, e <- earlier :: e < log.epoch)
    && (forall s <- shown :: s.log.epoch in seen)
    && (forall log <- coming :: log.epoch in seen)
  }

  ghost predicate Below(seen: set<nat>, top: nat) {
    forall e <- seen :: e <= top
  }

  ghost predicate History(shown: seq<Shown>, coming: seq<N.ServerLog>, earlier: set<nat>, seen: set<nat>) {
    Apart(shown, coming) && Newer(shown) && Scanned(shown, coming, earlier, seen)
  }

  /** Which files were attached, and after which. */
  ghost predicate Ordered(f: Follow) {
    && History(f.shown, Coming(f), f.earlier, f.seen)
    && (!f.phase.Failed? ==> Below(f.seen, Top(f)))
    && (f.shown != [] ==> f.attached == f.shown[|f.shown| - 1].log)
    && (f.shown == [] ==> f.phase.Announcing? || f.phase.Failed?)
    && (f.phase.Polling? || f.phase.Scanning? || f.polled ==> f.queue == [])
  }

  lemma RenderedSnoc(shown: seq<Shown>, s: Shown)
    ensures Rendered(shown + [s]) == Rendered(shown) + (Banner(s.log) + s.printed)
  {
    assert (shown + [s])[..|shown|] == shown;
  }

  lemma DrainedComing(f: Follow)
    requires !f.phase.Announcing?
    ensures !f.polled ==> Coming(Drained(f)) == Coming(f)
    ensures f.polled && f.queue == [] ==> Coming(Drained(f)) == Coming(f) == []
  {
    if f.queue != [] {
      assert [f.queue[0]] + f.queue[1..] == f.queue;
    }
  }

  lemma DrainedAccounted(f: Follow)
    requires Accounted(f) && (f.phase.Opening? || f.phase.Reading? || f.phase.Scanning?)
    ensures Accounted(Drained(f))
  {
    DrainedComing(f);
  }

  lemma AnnounceAccounted(f: Follow, e: Event)
    requires Accounted(f) && f.phase.Announcing?
    ensures Accounted(Announce(f, f.phase.next, e))
  {
    var log := f.phase.next;
    assert log in Coming(f) && forall q <- f.queue :: q in Coming(f);
    if e.Wrote? {
      BannerWritten(f, log);
    } else if e.WriteFails? && e.size <= |Banner(log)| {
      WriteTorn(f, Banner(log)[..e.size], Some(log));
    }
  }

  lemma PrefixExtends(p: seq<byte>, chunk: seq<byte>, n: nat)
    requires n <= |chunk|
    ensures p + chunk[..n] <= p + chunk
  {
    assert p + chunk == (p + chunk[..n]) + chunk[n..];
  }

  lemma WriteTorn(f: Follow, torn: seq<byte>, of: Option<N.ServerLog>)
    requires Accounted(f) && !f.phase.Failed? && Exist(f.queue, f.world)
    requires of.Some? ==> torn <= Banner(of.value)
    requires of.None? ==> f.shown != [] && f.shown[|f.shown| - 1].printed + torn <= Contents(f)
    ensures Accounted(f.(phase := Failed(torn, of), out := f.out + torn))
  {
    assert Rendered(f.shown) + [] == Rendered(f.shown);
  }

  lemma BannerWritten(f: Follow, log: N.ServerLog)
    requires Accounted(f) && f.phase.Announcing? && log.name in f.world.contents && Exist(f.queue, f.world)
    ensures Accounted(f.(phase := Opening, polled := false, attached := log, pos := 0, out := f.out + Banner(log),
                        shown := f.shown + [Shown(log, [], f.earlier)]))
  {
    assert Rendered(f.shown) + [] == Rendered(f.shown);
    BannerShown(f.shown, log, f.earlier);
    BackedMore(f.shown, log, f.earlier, f.world);
  }

  lemma BannerShown(shown: seq<Shown>, log: N.ServerLog, past: set<nat>)
    ensures Rendered(shown) + Banner(log) + [] == Rendered(shown + [Shown(log, [], past)])
  {
    RenderedSnoc(shown, Shown(log, [], past));
    assert Banner(log) + [] == Banner(log);
    var out := Rendered(shown) + Banner(log);
    assert out + [] == out;
  }

  lemma BackedMore(shown: seq<Shown>, log: N.ServerLog, past: set<nat>, world: World)
    requires Backed(shown, world) && log.name in world.contents
    ensures Backed(shown + [Shown(log, [], past)], world)
  {
  }

  lemma NothingPending(f: Follow)
    requires Accounted(f) && (f.phase.Opening? || f.phase.Reading?)
    ensures Accounted(f.(phase := Failed([], None)))
  {
    var last := f.shown[|f.shown| - 1];
    assert last in f.shown;
    assert last.printed + [] == last.printed;
    assert f.out + [] == f.out;
  }

  lemma OpenAccounted(f: Follow, e: Event)
    requires Accounted(f) && f.phase.Opening?
    ensures Accounted(Open(f, e))
  {
    DrainedAccounted(f);
    NothingPending(f);
  }

  lemma ReadAccounted(f: Follow, e: Event)
    requires Accounted(f) && f.phase.Reading?
    ensures Accounted(Read(f, e))
  {
    if e.Reads? && f.pos >= |Contents(f)| {
      DrainedAccounted(f);
    } else if e.Reads? && 0 < e.size <= CHUNK && f.pos + e.size <= |Contents(f)| {
      var last := f.shown[|f.shown| - 1];
      assert last in f.shown;
      ChunkExtends(Contents(f), last.printed, e.size);
    } else if e.ReadFails? {
      NothingPending(f);
    }
  }

  lemma ChunkExtends(c: seq<byte>, p: seq<byte>, n: nat)
    requires p <= c && |p| + n <= |c|
    ensures p + c[|p|..|p| + n] <= c
  {
    assert p + c[|p|..|p| + n] == c[..|p| + n];
  }

  lemma PrintRendered(shown: seq<Shown>, bytes: seq<byte>)
    requires shown != []
    ensures Rendered(Print(shown, bytes)) == Rendered(shown) + bytes
  {
    var front, last := shown[..|shown| - 1], shown[|shown| - 1];
    assert shown == front + [last];
    RenderedSnoc(front, last);
    RenderedSnoc(front, last.(printed := last.printed + bytes));
    var r, b, p := Rendered(front), Banner(last.log), last.printed;
    assert r + (b + (p + bytes)) == (r + (b + p)) + bytes;
  }

  lemma ChunkAccounted(f: Follow)
    requires Accounted(f) && f.phase.Writing?
    ensures Accounted(Write(f, f.phase.chunk, Wrote))
  {
    ChunkRendered(f.shown, f.phase.chunk, f.out);
    PrintBacked(f.shown, f.phase.chunk, f.world);
    LastPrinted(f.shown, f.phase.chunk);
  }

  lemma ChunkRendered(shown: seq<Shown>, chunk: seq<byte>, out: seq<byte>)
    requires shown != [] && out == Rendered(shown) + []
    ensures out + chunk == Rendered(Print(shown, chunk)) + []
  {
    PrintRendered(shown, chunk);
    assert Rendered(shown) + [] == Rendered(shown);
    assert (out + chunk) + [] == out + chunk;
  }

  lemma LastPrinted(shown: seq<Shown>, chunk: seq<byte>)
    requires shown != []
    ensures var last, now := shown[|shown| - 1], Print(shown, chunk)[|shown| - 1];
            |Print(shown, chunk)| == |shown| && now.log == last.log && |now.printed| == |last.printed| + |chunk|
  {
  }

  lemma WriteAccounted(f: Follow, e: Event)
    requires Accounted(f) && f.phase.Writing?
    ensures Accounted(Write(f, f.phase.chunk, e))
  {
    var chunk := f.phase.chunk;
    if e.Wrote? {
      ChunkAccounted(f);
    } else if e.WriteFails? && e.size <= |chunk| {
      PrefixExtends(f.shown[|f.shown| - 1].printed, chunk, e.size);
      WriteTorn(f, chunk[..e.size], None);
    }
  }

  lemma PrintBacked(shown: seq<Shown>, bytes: seq<byte>, world: World)
    requires shown != [] && Backed(shown, world)
    requires var last := shown[|shown| - 1];
             last.log.name in world.contents && last.printed + bytes <= world.contents[last.log.name]
    ensures Backed(Print(shown, bytes), world)
  {
  }

  lemma RescanAccounted(f: Follow, names: seq<string>)
    requires Accounted(f) && f.phase.Scanning? && Listing(names, f.world)
    ensures Accounted(Rescan(f, names))
  {
    var scan := N.Scan(names);
    N.ScanAscends(names);
    N.AttachmentsAreNewer(f.attached.epoch, scan);
    forall log <- N.AttachmentsAfter(f.attached.epoch, scan) ensures log.name in f.world.contents {
      N.ScanHas(names, log);
    }
    DrainedAccounted(f.(polled := false, queue := N.AttachmentsAfter(f.attached.epoch, scan),
                       earlier := f.seen, seen := f.seen + Epochs(scan)));
  }

  lemma WorldAccounted(f: Follow, to: World)
    requires Accounted(f) && Evolves(f.world, to)
    ensures Accounted(f.(world := to))
  {
    if Pending(f.phase).Some? {
      var last := f.shown[|f.shown| - 1];
      assert last in f.shown;
      assert f.world.contents[last.log.name] <= to.contents[last.log.name];
    }
  }

  lemma AccountedNext(f: Follow, e: Event)
    requires Accounted(f)
    ensures Accounted(Next(f, e))
  {
    if e.FilesChange? {
      if Evolves(f.world, e.to) {
        WorldAccounted(f, e.to);
      }
    } else if f.phase.Announcing? {
      AnnounceAccounted(f, e);
    } else if f.phase.Opening? {
      OpenAccounted(f, e);
    } else if f.phase.Reading? {
      ReadAccounted(f, e);
    } else if f.phase.Writing? {
      WriteAccounted(f, e);
    } else if f.phase.Scanning? && e.Lists? && Listing(e.names, f.world) {
      RescanAccounted(f, e.names);
    }
  }

  // ------------------------------------------------------------- the order

  lemma NewerLogs(last: nat, names: seq<string>, newer: seq<N.ServerLog>)
    requires newer == N.AttachmentsAfter(last, N.Scan(names))
    ensures forall log <- newer :: log.epoch > last && log in N.Scan(names)
    ensures Named(newer)
  {
    N.ScanAscends(names);
    N.AttachmentsAreNewer(last, N.Scan(names));
    forall log <- newer ensures N.ParseEpoch(log.name) == Some(log.epoch) {
      N.ScanHas(names, log);
    }
  }

  lemma NewerOnce(last: nat, names: seq<string>, newer: seq<N.ServerLog>)
    requires N.Distinct(names) && newer == N.AttachmentsAfter(last, N.Scan(names))
    ensures DistinctNames(newer)
  {
    var scan := N.Scan(names);
    N.ScanOnce(names);
    var k := N.AfterIsSuffix(last, scan);
    forall i, j | 0 <= i < j < |newer| ensures newer[i].name != newer[j].name {
      assert newer[i] == scan[k + i] && newer[j] == scan[k + j];
    }
  }

  /** A re-scan brings only names newer than the attached file, each once, up to the newest of all. */
  lemma NewAttachments(f: Follow, names: seq<string>, newer: seq<N.ServerLog>)
    requires f.phase.Scanning? && Listing(names, f.world)
    requires newer == N.AttachmentsAfter(f.attached.epoch, N.Scan(names))
    ensures forall log <- newer :: log.epoch > f.attached.epoch && log.epoch in Epochs(N.Scan(names))
    ensures Named(newer) && DistinctNames(newer)
    ensures forall e <- Epochs(N.Scan(names)) :: e <= if newer == [] then f.attached.epoch else newer[|newer| - 1].epoch
  {
    NewerLogs(f.attached.epoch, names, newer);
    NewerOnce(f.attached.epoch, names, newer);
    N.ScanAscends(names);
    N.NewestIsAttached(f.attached.epoch, N.Scan(names));
  }

  /** The parts `Ordered` speaks of, and the phases between which they carry over. */
  predicate SameHistory(f: Follow, g: Follow) {
    && g.shown == f.shown && Coming(g) == Coming(f) && g.earlier == f.earlier && g.seen == f.seen && g.attached == f.attached
    && !f.phase.Failed? && !f.phase.Announcing?
    && (g.phase.Polling? || g.phase.Scanning? || g.polled ==> g.queue == [])
  }

  lemma CarriesOver(f: Follow, g: Follow)
    requires Ordered(f) && SameHistory(f, g)
    ensures Ordered(g)
  {
  }

  lemma DrainedSame(f: Follow)
    requires (f.phase.Opening? || f.phase.Reading?) && (f.polled ==> f.queue == [])
    ensures SameHistory(f, Drained(f))
  {
    DrainedComing(f);
  }

  lemma OpenSame(f: Follow, e: Event)
    requires f.phase.Opening? && (f.polled ==> f.queue == [])
    ensures SameHistory(f, Open(f, e))
  {
    DrainedSame(f);
  }

  lemma ReadSame(f: Follow, e: Event)
    requires f.phase.Reading? && (f.polled ==> f.queue == [])
    ensures SameHistory(f, Read(f, e))
  {
    DrainedSame(f);
  }

  lemma AnnounceOrdered(f: Follow, e: Event)
    requires Ordered(f) && f.phase.Announcing?
    ensures Ordered(Announce(f, f.phase.next, e))
  {
    if e.Wrote? {
      AnnouncedHistory(f.shown, f.phase.next, f.queue, f.earlier, f.seen);
    } else if e.WriteFails? {
      SkippedHistory(f.shown, f.phase.next, f.queue, f.earlier, f.seen);
    }
  }

  lemma AnnouncedHistory(shown: seq<Shown>, log: N.ServerLog, queue: seq<N.ServerLog>, earlier: set<nat>, seen: set<nat>)
    requires History(shown, [log] + queue, earlier, seen)
    ensures History(shown + [Shown(log, [], earlier)], queue, earlier, seen)
  {
    assert log in [log] + queue && forall q <- queue :: q in [log] + queue;
    AnnouncedApart(shown, log, queue, earlier);
    NewerMore(shown, log, earlier);
  }

  lemma SkippedHistory(shown: seq<Shown>, log: N.ServerLog, queue: seq<N.ServerLog>, earlier: set<nat>, seen: set<nat>)
    requires History(shown, [log] + queue, earlier, seen)
    ensures History(shown, queue, earlier, seen)
  {
    assert forall q <- queue :: q in [log] + queue;
    SkippedApart(shown, log, queue);
  }

  lemma AnnouncedApart(shown: seq<Shown>, log: N.ServerLog, queue: seq<N.ServerLog>, past: set<nat>)
    requires Apart(shown, [log] + queue)
    ensures Apart(shown + [Shown(log, [], past)], queue)
  {
    assert Logs(shown + [Shown(log, [], past)]) + queue == Logs(shown) + ([log] + queue);
  }

  lemma NewerMore(shown: seq<Shown>, log: N.ServerLog, past: set<nat>)
    requires Newer(shown) && forall e <- past :: e < log.epoch
    ensures Newer(shown + [Shown(log, [], past)])
  {
  }

  lemma SkippedApart(shown: seq<Shown>, log: N.ServerLog, queue: seq<N.ServerLog>)
    requires Apart(shown, [log] + queue)
    ensures Apart(shown, queue)
  {
    var a := Logs(shown);
    var all, fewer := a + ([log] + queue), a + queue;
    forall q <- fewer ensures q in all {
      assert q in a || q in queue;
    }
    forall i, j | 0 <= i < j < |fewer| ensures fewer[i].name != fewer[j].name {
      var m, n := if i < |a| then i else i + 1, if j < |a| then j else j + 1;
      assert fewer[i] == all[m] && fewer[j] == all[n];
    }
  }

  lemma WriteOrdered(f: Follow, e: Event)
    requires Ordered(f) && f.phase.Writing?
    ensures Ordered(Write(f, f.phase.chunk, e))
  {
    if e.Wrote? {
      PrintSame(f.shown, f.phase.chunk, f.seen);
    }
  }

  lemma PrintSame(shown: seq<Shown>, bytes: seq<byte>, seen: set<nat>)
    requires shown != []
    ensures Logs(Print(shown, bytes)) == Logs(shown)
    ensures Newer(shown) ==> Newer(Print(shown, bytes))
    ensures (forall s <- shown :: s.log.epoch in seen) ==> (forall s <- Print(shown, bytes) :: s.log.epoch in seen)
  {
    var last := shown[|shown| - 1];
    assert last in shown;
    forall s <- Print(shown, bytes) ensures s in shown || (s.log == last.log && s.past == last.past) {
    }
  }

  lemma RescanApart(shown: seq<Shown>, newer: seq<N.ServerLog>, seen: set<nat>)
    requires Apart(shown, []) && Named(newer) && DistinctNames(newer)
    requires forall s <- shown :: s.log.epoch in seen
    requires forall log <- newer :: log.epoch !in seen
    ensures Apart(shown, newer)
  {
    var a := Logs(shown);
    assert a + [] == a;
    forall i, j | 0 <= i < |a| && 0 <= j < |newer| ensures a[i].name != newer[j].name {
      assert shown[i] in shown && a[i] in a && newer[j] in newer;
    }
    forall log <- a + newer ensures N.ParseEpoch(log.name) == Some(log.epoch) {
      assert log in a || log in newer;
    }
  }

  lemma RescanOrdered(f: Follow, names: seq<string>)
    requires Ordered(f) && f.phase.Scanning? && Listing(names, f.world)
    ensures Ordered(Rescan(f, names))
  {
    var newer := N.AttachmentsAfter(f.attached.epoch, N.Scan(names));
    NewAttachments(f, names, newer);
    RescanApart(f.shown, newer, f.seen);
    DrainedComing(f.(polled := false, queue := newer, earlier := f.seen, seen := f.seen + Epochs(N.Scan(names))));
  }

  lemma OrderedNext(f: Follow, e: Event)
    requires Ordered(f)
    ensures Ordered(Next(f, e))
  {
    if e.FilesChange? {
    } else if f.phase.Announcing? {
      AnnounceOrdered(f, e);
    } else if f.phase.Opening? {
      OpenSame(f, e);
      CarriesOver(f, Open(f, e));
    } else if f.phase.Reading? {
      ReadSame(f, e);
      CarriesOver(f, Read(f, e));
    } else if f.phase.Writing? {
      WriteOrdered(f, e);
    } else if f.phase.Polling? {
      CarriesOver(f, f.(phase := Opening, polled := true));
      CarriesOver(f, f.(phase := Interrupted));
    } else if f.phase.Scanning? && e.Lists? && Listing(e.names, f.world) {
      RescanOrdered(f, e.names);
    }
  }

  // ------------------------------------------------------------- theorems

  ghost predicate Reached(world: World, names: seq<string>, events: seq<Event>, f: Follow) {
    && Listing(names, world) && N.Scan(names) != [] && world.linked <= world.contents.Keys
    && f == Execute(Begin(world, names), events)
  }

  lemma BeginAccounted(world: World, names: seq<string>)
    requires Listing(names, world) && N.Scan(names) != [] && world.linked <= world.contents.Keys
    ensures Accounted(Begin(world, names))
  {
    var scan := N.Scan(names);
    N.ScanHas(names, scan[|scan| - 1]);
    assert Coming(Begin(world, names)) == [scan[|scan| - 1]];
  }

  lemma BeginOrdered(world: World, names: seq<string>)
    requires N.Scan(names) != []
    ensures Ordered(Begin(world, names))
  {
    var scan := N.Scan(names);
    var f := Begin(world, names);
    N.ScanAscends(names);
    N.ScanHas(names, scan[|scan| - 1]);
    assert Coming(f) == [scan[|scan| - 1]] && Logs([]) == [];
    assert Logs([]) + Coming(f) == Coming(f);
  }

  lemma BeginHolds(world: World, names: seq<string>)
    requires Listing(names, world) && N.Scan(names) != [] && world.linked <= world.contents.Keys
    ensures Accounted(Begin(world, names)) && Ordered(Begin(world, names))
  {
    BeginAccounted(world, names);
    BeginOrdered(world, names);
  }

  lemma {:induction false} Always(f: Follow, events: seq<Event>)
    requires Accounted(f) && Ordered(f)
    ensures Accounted(Execute(f, events)) && Ordered(Execute(f, events))
    decreases |events|
  {
    if events != [] {
      AccountedNext(f, events[0]);
      OrderedNext(f, events[0]);
      Always(Next(f, events[0]), events[1..]);
    }
  }

  /** In every run, whatever writers, restarts and cleanups do: the output is each attachment's banner
      and a prefix of its file, in attach order, and the position is the number of bytes printed from the
      attached file. Behind that, after a failed write, comes the part of it that went out: of the next
      banner, or of the next bytes of the attached file. */
  lemma OutputIsTheLogs(world: World, names: seq<string>, events: seq<Event>, f: Follow)
    requires Reached(world, names, events, f)
    ensures f.out == Rendered(f.shown) + Torn(f.phase)
    ensures f.phase.Failed? ==>
              if f.phase.of.Some? then f.phase.torn <= Banner(f.phase.of.value)
              else f.shown != [] && f.shown[|f.shown| - 1].printed + f.phase.torn <= Contents(f)
    ensures forall s <- f.shown :: s.log.name in f.world.contents && s.printed <= f.world.contents[s.log.name]
    ensures f.shown != [] ==> f.attached == f.shown[|f.shown| - 1].log && f.pos == |f.shown[|f.shown| - 1].printed|
  {
    BeginHolds(world, names);
    Always(Begin(world, names), events);
  }

  /** No file attaches twice, and a file attaches only if it is newer than every log of every scan
      before the one that brought it. */
  lemma AttachedOnceAndUpward(world: World, names: seq<string>, events: seq<Event>, f: Follow)
    requires Reached(world, names, events, f)
    ensures forall i, j :: 0 <= i < j < |f.shown| ==> f.shown[i].log.name != f.shown[j].log.name
    ensures forall s <- f.shown :: N.ParseEpoch(s.log.name) == Some(s.log.epoch) && forall e <- s.past :: e < s.log.epoch
  {
    BeginHolds(world, names);
    Always(Begin(world, names), events);
    var all := Logs(f.shown) + Coming(f);
    assert forall k :: 0 <= k < |f.shown| ==> all[k] == f.shown[k].log;
    forall s <- f.shown ensures N.ParseEpoch(s.log.name) == Some(s.log.epoch) {
      assert s.log in all;
    }
  }

  /** A drain of an opened file ends only where everything the file held at that moment is printed. */
  lemma DrainsToTheEnd(world: World, names: seq<string>, events: seq<Event>, f: Follow, e: Event)
    requires Reached(world, names, events, f)
    requires f.phase.Reading? && !Next(f, e).phase.Reading?
    ensures || Next(f, e).phase.Failed?
            || Next(f, e).phase.Writing?
            || (f.shown != [] && f.attached.name in f.world.contents
                && f.shown[|f.shown| - 1].printed == f.world.contents[f.attached.name])
  {
    BeginHolds(world, names);
    Always(Begin(world, names), events);
    ReadsToTheEnd(f, e);
  }

  lemma ReadsToTheEnd(f: Follow, e: Event)
    requires Accounted(f) && f.phase.Reading? && !Next(f, e).phase.Reading?
    ensures || Next(f, e).phase.Failed?
            || Next(f, e).phase.Writing?
            || (f.shown != [] && f.attached.name in f.world.contents
                && f.shown[|f.shown| - 1].printed == f.world.contents[f.attached.name])
  {
    assert f.shown[|f.shown| - 1] in f.shown;
  }

  // ----------------------------------------------------- what a drain owes

  /** What the attached file held when its running or latest drain began, and whether that drain found
      the file gone when it opened it. */
  datatype Watch = Watch(due: seq<byte>, gone: bool)

  /** A drain begins with a poll and with a banner written. */
  function Observe(w: Watch, f: Follow, e: Event): Watch {
    if f.phase.Polling? && e.Tick? then Watch(Held(f.world, f.attached.name), false)
    else if f.phase.Announcing? && e.Wrote? then Watch(Held(f.world, f.phase.next.name), false)
    else if f.phase.Opening? && e.Opens? then w.(gone := f.attached.name !in f.world.linked)
    else w
  }

  function Watched(f: Follow, events: seq<Event>, w: Watch): Watch
    decreases |events|
  {
    if events == [] then w else Watched(Next(f, events[0]), events[1..], Observe(w, f, events[0]))
  }

  predicate InDrain(p: Phase) {
    p.Opening? || p.Reading? || p.Writing?
  }

  /** Between drains all that was due is printed, unless the file was gone; during one it is in the file. */
  ghost predicate Owed(f: Follow, w: Watch) {
    f.shown != [] ==>
      && (InDrain(f.phase) ==> w.due <= Contents(f) && !w.gone)
      && (!InDrain(f.phase) && !f.phase.Failed? && !w.gone ==> w.due <= f.shown[|f.shown| - 1].printed)
  }

  lemma WorldOwed(f: Follow, to: World, w: Watch)
    requires Accounted(f) && Owed(f, w) && Evolves(f.world, to)
    ensures Owed(f.(world := to), w)
  {
    if f.shown != [] {
      var last := f.shown[|f.shown| - 1];
      assert last in f.shown;
      assert f.world.contents[last.log.name] <= to.contents[last.log.name];
    }
  }

  lemma DrainOwed(f: Follow, e: Event, w: Watch)
    requires Accounted(f) && Owed(f, w) && !e.FilesChange? && InDrain(f.phase)
    ensures Owed(Next(f, e), Observe(w, f, e))
  {
    var last := f.shown[|f.shown| - 1];
    assert last in f.shown;
    if f.phase.Reading? && e.Reads? && f.pos >= |Contents(f)| {
      assert last.printed == Contents(f);
    }
  }

  lemma OwedNext(f: Follow, e: Event, w: Watch)
    requires Accounted(f) && Owed(f, w)
    ensures Owed(Next(f, e), Observe(w, f, e))
  {
    if e.FilesChange? {
      if Evolves(f.world, e.to) {
        WorldOwed(f, e.to, w);
      }
    } else if InDrain(f.phase) {
      DrainOwed(f, e, w);
    }
  }

  lemma {:induction false} OwedAlways(f: Follow, events: seq<Event>, w: Watch)
    requires Accounted(f) && Owed(f, w)
    ensures Owed(Execute(f, events), Watched(f, events, w))
    decreases |events|
  {
    if events != [] {
      AccountedNext(f, events[0]);
      OwedNext(f, events[0], w);
      OwedAlways(Next(f, events[0]), events[1..], Observe(w, f, events[0]));
    }
  }

  /** Drain, then switch: in every run, wherever a re-scan, a wait or a new banner comes after an
      attachment, everything its file held when the latest poll (or the attachment) began has been printed,
      unless the file was gone when it was opened; so all of the file, if it has not grown since. */
  lemma DrainThenSwitch(world: World, names: seq<string>, events: seq<Event>, f: Follow, w: Watch)
    requires Reached(world, names, events, f) && w == Watched(Begin(world, names), events, Watch([], false))
    requires f.shown != [] && (f.phase.Polling? || f.phase.Scanning? || f.phase.Announcing? || f.phase.Interrupted?)
    requires !w.gone
    ensures w.due <= f.shown[|f.shown| - 1].printed <= Held(f.world, f.attached.name)
    ensures w.due == Held(f.world, f.attached.name) ==> f.shown[|f.shown| - 1].printed == Held(f.world, f.attached.name)
  {
    BeginHolds(world, names);
    Always(Begin(world, names), events);
    OwedAlways(Begin(world, names), events, Watch([], false));
    assert f.shown[|f.shown| - 1] in f.shown;
  }

  // -------------------------------------------------------- nothing skipped

  /** What is attached and what is to come, in order. */
  function Course(f: Follow): seq<N.ServerLog> {
    Logs(f.shown) + Coming(f)
  }

  /** Waits and polls have no attachment outstanding. */
  predicate Unqueued(f: Follow) {
    f.phase.Polling? || f.phase.Scanning? || f.phase.Interrupted? || f.polled ==> f.queue == []
  }

  lemma UnqueuedNext(f: Follow, e: Event)
    requires Unqueued(f)
    ensures Unqueued(Next(f, e))
  {
  }

  lemma RescanCourse(f: Follow, names: seq<string>)
    requires f.phase.Scanning? && f.queue == []
    ensures Course(Rescan(f, names)) == Logs(f.shown) + N.AttachmentsAfter(f.attached.epoch, N.Scan(names))
  {
    DrainedComing(f.(polled := false, queue := N.AttachmentsAfter(f.attached.epoch, N.Scan(names)),
                     earlier := f.seen, seen := f.seen + Epochs(N.Scan(names))));
  }

  lemma WriteCourse(f: Follow, chunk: seq<byte>, e: Event)
    requires f.phase.Writing? && f.shown != []
    ensures !Write(f, chunk, e).phase.Failed? ==> Course(Write(f, chunk, e)) == Course(f)
  {
    PrintSame(f.shown, chunk, f.seen);
  }

  lemma CourseNext(f: Follow, e: Event)
    requires Unqueued(f)
    ensures !Next(f, e).phase.Failed? ==> Course(f) <= Course(Next(f, e))
  {
    if e.FilesChange? {
    } else if f.phase.Announcing? {
      if e.Wrote? {
        AnnouncedCourse(f.shown, f.phase.next, f.queue, f.earlier);
      }
    } else if f.phase.Opening? {
      OpenSame(f, e);
    } else if f.phase.Reading? {
      ReadSame(f, e);
    } else if f.phase.Writing? {
      if f.shown != [] {
        WriteCourse(f, f.phase.chunk, e);
      }
    } else if f.phase.Scanning? && e.Lists? && Listing(e.names, f.world) {
      RescanCourse(f, e.names);
      assert Logs(f.shown) + [] == Logs(f.shown);
    }
  }

  lemma AnnouncedCourse(shown: seq<Shown>, log: N.ServerLog, queue: seq<N.ServerLog>, past: set<nat>)
    ensures Logs(shown) + ([log] + queue) == Logs(shown + [Shown(log, [], past)]) + queue
  {
    assert Logs(shown + [Shown(log, [], past)]) == Logs(shown) + [log];
  }

  lemma {:induction false} CourseGrows(f: Follow, events: seq<Event>)
    requires Unqueued(f)
    ensures Unqueued(Execute(f, events))
    ensures !Execute(f, events).phase.Failed? ==> Course(f) <= Course(Execute(f, events))
    decreases |events|
  {
    if events != [] {
      var g := Next(f, events[0]);
      UnqueuedNext(f, events[0]);
      CourseNext(f, events[0]);
      CourseGrows(g, events[1..]);
      if g.phase.Failed? {
        EndedStays(g, events[1..]);
      }
    }
  }

  lemma {:induction false} ExecuteAppend(f: Follow, a: seq<Event>, b: seq<Event>)
    ensures Execute(f, a + b) == Execute(Execute(f, a), b)
    decreases |a|
  {
    if a == [] {
      assert [] + b == b;
    } else {
      assert (a + b)[1..] == a[1..] + b;
      ExecuteAppend(Next(f, a[0]), a[1..], b);
    }
  }

  /** The first attachment is a newest log of the first listing. */
  lemma StartsAtTheNewest(world: World, names: seq<string>, events: seq<Event>, f: Follow)
    requires Reached(world, names, events, f) && !f.phase.Failed?
    ensures var course := Logs(f.shown) + Coming(f);
            && course != [] && course[0].name in names && N.ParseEpoch(course[0].name) == Some(course[0].epoch)
            && forall name <- names :: N.ParseEpoch(name).Some? ==> N.ParseEpoch(name).value <= course[0].epoch
  {
    var first := Begin(world, names);
    CourseGrows(first, events);
    var scan := N.Scan(names);
    assert Course(first) == [scan[|scan| - 1]];
    N.ScanAscends(names);
    N.ScanHas(names, scan[|scan| - 1]);
    forall name <- names | N.ParseEpoch(name).Some? ensures N.ParseEpoch(name).value <= scan[|scan| - 1].epoch {
      N.ScanHas(names, N.ServerLog(N.ParseEpoch(name).value, name));
    }
  }

  /** No newer log is passed over: a re-scan's listing puts every log in it that is newer than the attached
      one on the way, whatever happens afterwards; and it is attached by the next wait that is reached. */
  lemma NothingIsSkipped(world: World, names: seq<string>, before: seq<Event>, f: Follow,
                         listed: seq<string>, rest: seq<Event>, g: Follow, name: string)
    requires Reached(world, names, before, f) && f.phase.Scanning? && Listing(listed, f.world)
    requires g == Execute(f, [Lists(listed)] + rest) && !g.phase.Failed?
    requires name in listed && N.ParseEpoch(name).Some? && N.ParseEpoch(name).value > f.attached.epoch
    ensures N.ServerLog(N.ParseEpoch(name).value, name) in Logs(g.shown) + Coming(g)
    ensures g.phase.Polling? || g.phase.Scanning? || g.phase.Interrupted? ==>
              exists s <- g.shown :: s.log == N.ServerLog(N.ParseEpoch(name).value, name)
  {
    CourseGrows(Begin(world, names), before);
    var log := N.ServerLog(N.ParseEpoch(name).value, name);
    ListedComes(f, listed, log);
    CourseGrows(Next(f, Lists(listed)), rest);
    ExecuteAppend(f, [Lists(listed)], rest);
    OneStep(f, Lists(listed));
    StillIn(Course(Next(f, Lists(listed))), Course(g), log);
    if g.queue == [] && !g.phase.Announcing? {
      WasShown(g.shown, log);
    }
  }

  lemma ListedComes(f: Follow, listed: seq<string>, log: N.ServerLog)
    requires Unqueued(f) && f.phase.Scanning? && Listing(listed, f.world) && log.name in listed
    requires N.ParseEpoch(log.name) == Some(log.epoch) && log.epoch > f.attached.epoch
    ensures log in Course(Next(f, Lists(listed))) && Unqueued(Next(f, Lists(listed)))
  {
    UnqueuedNext(f, Lists(listed));
    RescanCourse(f, listed);
    ListedIsNewer(f.attached.epoch, listed, log);
    InSecond(Logs(f.shown), N.AttachmentsAfter(f.attached.epoch, N.Scan(listed)), log);
    ListsRescan(f, listed);
  }

  lemma ListsRescan(f: Follow, listed: seq<string>)
    requires f.phase.Scanning? && Listing(listed, f.world)
    ensures Next(f, Lists(listed)) == Rescan(f, listed)
  {
  }

  lemma InSecond<T>(a: seq<T>, b: seq<T>, x: T)
    requires x in b
    ensures x in a + b
  {
  }

  lemma StillIn<T>(a: seq<T>, b: seq<T>, x: T)
    requires a <= b && x in a
    ensures x in b
  {
    var k :| 0 <= k < |a| && a[k] == x;
    assert b[k] == x;
  }

  lemma WasShown(shown: seq<Shown>, log: N.ServerLog)
    requires log in Logs(shown) + []
    ensures exists s <- shown :: s.log == log
  {
    var k :| 0 <= k < |shown| && Logs(shown)[k] == log;
    assert shown[k] in shown;
  }

  lemma ListedIsNewer(last: nat, listed: seq<string>, log: N.ServerLog)
    requires log.name in listed && N.ParseEpoch(log.name) == Some(log.epoch) && log.epoch > last
    ensures log in N.AttachmentsAfter(last, N.Scan(listed))
  {
    N.ScanAscends(listed);
    N.ScanHas(listed, log);
    N.AttachmentsAreNewer(last, N.Scan(listed));
  }

  // ------------------------------------------------------ how a follow ends

  predicate Fault(e: Event) {
    e.WriteFails? || e.OpenFails? || e.ReadFails?
  }

  /** A follow goes on until Ctrl-C or a failed write, open or read: a vanished file, an empty listing and a
      server's restart never end it. */
  lemma {:induction false} KeepsFollowing(f: Follow, events: seq<Event>)
    requires !f.phase.Failed? && !f.phase.Interrupted?
    ensures Execute(f, events).phase.Failed? ==> exists e <- events :: Fault(e)
    ensures Execute(f, events).phase.Interrupted? ==> exists e <- events :: e.CtrlC?
    decreases |events|
  {
    if events != [] {
      var g := Next(f, events[0]);
      assert events[0] in events && forall e <- events[1..] :: e in events;
      if !g.phase.Failed? && !g.phase.Interrupted? {
        KeepsFollowing(g, events[1..]);
      } else {
        EndedStays(g, events[1..]);
      }
    }
  }

  lemma {:induction false} EndedStays(f: Follow, events: seq<Event>)
    requires f.phase.Failed? || f.phase.Interrupted?
    ensures Execute(f, events).phase == f.phase
    decreases |events|
  {
    if events != [] {
      EndedStays(Next(f, events[0]), events[1..]);
    }
  }

  function Rank(p: Phase): nat {
    match p
    case Writing(_) => 4
    case Opening => 3
    case Reading => 2
    case Announcing(_) => 1
    case _ => 0
  }

  predicate Works(events: seq<Event>) {
    forall e <- events :: !Fault(e) && !e.CtrlC? && !e.FilesChange?
  }

  ghost predicate CaughtUp(f: Follow) {
    f.phase.Polling? && Settled(f)
  }

  lemma Ahead(f: Follow, first: seq<Event>, rest: seq<Event>)
    requires Works(first) && Works(rest)
    ensures Works(first + rest) && Execute(f, first + rest) == Execute(Execute(f, first), rest)
  {
    ExecuteAppend(f, first, rest);
  }

  lemma OneStep(f: Follow, e: Event)
    ensures Execute(f, [e]) == Next(f, e)
  {
    assert [e][1..] == [];
  }

  lemma TwoSteps(f: Follow, a: Event, b: Event)
    ensures Execute(f, [a, b]) == Next(Next(f, a), b)
  {
    assert [a, b][1..] == [b];
    OneStep(Next(f, a), b);
  }

  function Remaining(f: Follow): nat {
    if f.pos <= |Contents(f)| then |Contents(f)| - f.pos else 0
  }

  /** How far the next wait is: attachments to come, the place in the drain, and the bytes left. */
  predicate Nearer(g: Follow, f: Follow) {
    || |Coming(g)| < |Coming(f)|
    || (|Coming(g)| == |Coming(f)| && Rank(g.phase) < Rank(f.phase))
    || (|Coming(g)| == |Coming(f)| && Rank(g.phase) == Rank(f.phase) && Remaining(g) < Remaining(f))
  }

  predicate OnTheWay(p: Phase) {
    InDrain(p) || p.Announcing?
  }

  /** Between drains the attached file, if it is there, is printed in full. */
  ghost predicate Settled(f: Follow) {
    && (f.phase.Polling? || f.phase.Scanning?)
    && f.shown != []
    && (f.attached.name in f.world.linked ==> f.shown[|f.shown| - 1].printed == Held(f.world, f.attached.name))
  }

  ghost predicate Progress(f: Follow, g: Follow) {
    && g.world == f.world
    && (OnTheWay(g.phase) || Settled(g))
    && Nearer(g, f)
  }

  lemma DrainedProgress(f: Follow)
    requires Ordered(f) && (f.phase.Opening? || f.phase.Reading?)
    requires Settled(f.(phase := Polling))
    ensures Progress(f, Drained(f))
  {
    DrainedComing(f);
  }

  lemma ReadForward(f: Follow) returns (first: seq<Event>)
    requires Accounted(f) && Ordered(f) && f.phase.Reading?
    ensures Works(first) && Progress(f, Execute(f, first))
  {
    assert f.shown[|f.shown| - 1] in f.shown;
    if f.pos >= |Contents(f)| {
      first := [Reads(0)];
      OneStep(f, Reads(0));
      DrainedProgress(f);
    } else {
      var size := if Remaining(f) < CHUNK then Remaining(f) else CHUNK;
      first := [Reads(size), Wrote];
      TwoSteps(f, Reads(size), Wrote);
    }
  }

  lemma Forward(f: Follow) returns (first: seq<Event>)
    requires Accounted(f) && Ordered(f) && OnTheWay(f.phase)
    ensures Works(first) && Progress(f, Execute(f, first))
  {
    if f.phase.Reading? {
      first := ReadForward(f);
    } else if f.phase.Opening? {
      first := [Opens];
      OneStep(f, Opens);
      if f.attached.name !in f.world.linked {
        DrainedProgress(f);
      }
    } else {
      first := [Wrote];
      OneStep(f, Wrote);
    }
  }

  lemma {:induction false} ToTheWait(f: Follow) returns (events: seq<Event>)
    requires Accounted(f) && Ordered(f) && (OnTheWay(f.phase) || Settled(f))
    ensures Works(events) && Execute(f, events).world == f.world && CaughtUp(Execute(f, events))
    decreases |Coming(f)|, Rank(f.phase), Remaining(f)
  {
    if f.phase.Polling? {
      events := [];
    } else if f.phase.Scanning? {
      events := [Lists([])];
      OneStep(f, Lists([]));
      assert N.Scan([]) == [];
    } else {
      var first := Forward(f);
      Always(f, first);
      var rest := ToTheWait(Execute(f, first));
      Ahead(f, first, rest);
      events := first + rest;
    }
  }

  /** From a wait or before a re-scan, the next poll's drain begins. */
  lemma ToThePoll(f: Follow) returns (first: seq<Event>)
    requires f.phase.Polling? || f.phase.Scanning?
    ensures Works(first) && Execute(f, first).world == f.world && Execute(f, first).phase.Opening?
  {
    if f.phase.Polling? {
      first := [Tick];
      OneStep(f, Tick);
    } else {
      first := [Lists([]), Tick];
      TwoSteps(f, Lists([]), Tick);
      assert N.Scan([]) == [];
    }
  }

  /** A follow never gets stuck and catches up: from any point of any run at which it has not ended, if the
      files hold still and nothing fails, it can go on to a wait at which the attached file, if it is still
      there, has been printed to its end. */
  lemma CatchesUp(world: World, names: seq<string>, before: seq<Event>, f: Follow) returns (events: seq<Event>)
    requires Reached(world, names, before, f) && !f.phase.Failed? && !f.phase.Interrupted?
    ensures Works(events) && Execute(f, events).world == f.world && CaughtUp(Execute(f, events))
  {
    BeginHolds(world, names);
    Always(Begin(world, names), before);
    var first := [];
    if !OnTheWay(f.phase) {
      first := ToThePoll(f);
    }
    Always(f, first);
    var rest := ToTheWait(Execute(f, first));
    Ahead(f, first, rest);
    events := first + rest;
  }
}

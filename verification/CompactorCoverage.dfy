/**
 What a published snapshot contains, when all compactors list the ledger and every new
 ledger file sorts after the files already there: the batchwise fold of exactly the files
 at or below the watermark, each covered once.
 */
module CompactorCoverage {
  import opened ObjectStore
  import opened LexOrder
  import opened CompactorFold
  import opened CompactorProtocol

  ghost predicate InOrder(ledger: seq<LedgerFile>) {
    && (forall i, j :: 0 <= i < j < |ledger| ==> Less(ledger[i].name, ledger[j].name))
    && (forall i :: 0 <= i < |ledger| ==> IsEventName(ledger[i].name))
  }

  /** The events of the files from position `a` up to `b`. */
  ghost function Batch(ledger: seq<LedgerFile>, a: nat, b: nat): (es: seq<Event>)
    requires a <= b <= |ledger|
    ensures |es| == b - a && forall i :: 0 <= i < b - a ==> es[i] == ledger[a + i].event
  {
    seq(b - a, i requires 0 <= i < b - a => ledger[a + i].event)
  }

  /** The snapshot after a batch. */
  ghost function Onto(fold: BatchFold, m: Snapshot, es: seq<Event>): Snapshot {
    match fold(m, es)
    case Some(m') => m'
    case None => m
  }

  ghost predicate AllUnreadable(es: seq<Event>) { forall i :: 0 <= i < |es| ==> es[i].Bad? }

  /** The laws: a batch applies something iff it has a readable event, and unreadable events leave no trace. */
  ghost predicate FoldLaws(fold: BatchFold) {
    && (forall m, es :: fold(m, es).None? <==> AllUnreadable(es))
    && (forall m, bad, es :: AllUnreadable(bad) ==> fold(m, bad + es) == fold(m, es))
  }

  // ------------------------------------------------------------------
  // Names in order
  // ------------------------------------------------------------------

  /** The watermark is the name of the n-th file, and absent when n is 0. */
  ghost predicate WatermarkAt(ledger: seq<LedgerFile>, w: Option<string>, n: nat) {
    n <= |ledger| && w == if n == 0 then None else Some(ledger[n - 1].name)
  }

  lemma {:induction false} ListingIsLedger(ledger: seq<LedgerFile>)
    requires InOrder(ledger)
    ensures Listing(ledger) == ledger
    decreases |ledger|
  {
    if ledger != [] {
      ListingIsLedger(ledger[..|ledger| - 1]);
    }
  }

  lemma {:induction false} CoveredIs(ledger: seq<LedgerFile>, w: Option<string>, n: nat)
    requires InOrder(ledger) && WatermarkAt(ledger, w, n)
    ensures Covered(ledger, w) == n
    ensures forall i :: 0 <= i < |ledger| ==> (After(ledger[i].name, w) <==> i >= n)
    decreases |ledger|
  {
    forall i | 0 <= i < |ledger| ensures After(ledger[i].name, w) <==> i >= n {
      if n > 0 && i < n - 1 {
        Asymmetric(ledger[i].name, ledger[n - 1].name);
      } else if i == n - 1 {
        Irreflexive(ledger[i].name);
      }
    }
    if n > 0 && n < |ledger| {
      Asymmetric(ledger[n - 1].name, ledger[|ledger| - 1].name);
      Irreflexive(ledger[n - 1].name);
      CoveredIs(ledger[..|ledger| - 1], w, n);
    }
  }

  ghost predicate NamesFrom(ledger: seq<LedgerFile>, from: nat, names: seq<string>) {
    from + |names| <= |ledger| && forall i :: 0 <= i < |names| ==> names[i] == ledger[from + i].name
  }

  lemma {:induction false} NamesAfterAre(ledger: seq<LedgerFile>, w: Option<string>, n: nat)
    requires n <= |ledger| && forall i :: 0 <= i < |ledger| ==> (After(ledger[i].name, w) <==> i >= n)
    ensures |NamesAfter(ledger, w)| == |ledger| - n && NamesFrom(ledger, n, NamesAfter(ledger, w))
    decreases |ledger|
  {
    if ledger != [] {
      var l := ledger[..|ledger| - 1];
      NamesAfterAre(l, w, if n <= |l| then n else |l|);
    }
  }

  lemma {:induction false} FindFileAt(ledger: seq<LedgerFile>, i: nat)
    requires InOrder(ledger) && i < |ledger|
    ensures FindFile(ledger, ledger[i].name) == Some(ledger[i].event)
    decreases |ledger|
  {
    if i < |ledger| - 1 {
      Irreflexive(ledger[i].name);
      FindFileAt(ledger[..|ledger| - 1], i);
    }
  }

  /** Reading the files named from position `from` on yields their events. */
  lemma {:induction false} ReadEventsAre(ledger: seq<LedgerFile>, from: nat, names: seq<string>)
    requires InOrder(ledger) && NamesFrom(ledger, from, names)
    ensures ReadEvents(ledger, names).Some?
    ensures var es := ReadEvents(ledger, names).value;
            |es| == |names| && forall i :: 0 <= i < |es| ==> es[i] == ledger[from + i].event
    decreases |names|
  {
    if names != [] {
      var n := |names| - 1;
      ReadEventsAre(ledger, from, names[..n]);
      FindFileAt(ledger, from + n);
    }
  }

  lemma SnapshotIdsDiffer(ledger: seq<LedgerFile>, i: nat, j: nat)
    requires InOrder(ledger) && i < |ledger| && j < |ledger|
    requires SnapshotId(ledger[i].name) == SnapshotId(ledger[j].name)
    ensures i == j
  {
    var (a, b) := (ledger[i].name, ledger[j].name);
    assert a == SnapshotId(a) + SUFFIX && b == SnapshotId(b) + SUFFIX;
    Irreflexive(a);
  }

  // ------------------------------------------------------------------
  // The invariant
  // ------------------------------------------------------------------

  /** The ledger so far and the snapshot versions published from it. */
  datatype History = History(fold: BatchFold, ledger: seq<LedgerFile>, cuts: seq<Cut>)

  ghost predicate HistoryOk(h: History) {
    && |h.cuts| > 0 && h.cuts[0] == Cut(0, map[])
    && (forall k :: 0 <= k < |h.cuts| ==> h.cuts[k].count <= |h.ledger|)
    && (forall i, j :: 0 <= i < j < |h.cuts| ==> h.cuts[i].count < h.cuts[j].count)
  }

  ghost predicate Continues(h: History, h': History) {
    HistoryOk(h) && HistoryOk(h') && h.fold == h'.fold && h.ledger <= h'.ledger && h.cuts <= h'.cuts
  }

  /** Snapshot version `k` with the files from `a` to `n` folded onto it. */
  ghost function Folded(h: History, k: nat, a: nat, n: nat): Snapshot
    requires k < |h.cuts| && a <= n <= |h.ledger|
  {
    Onto(h.fold, h.cuts[k].content, Batch(h.ledger, a, n))
  }

  /** Snapshot version `k` is the previous one with exactly the files between their cuts folded onto it. */
  ghost predicate FoldsOn(h: History, k: nat)
    requires HistoryOk(h) && 1 <= k < |h.cuts|
  {
    h.cuts[k].content == Folded(h, k - 1, h.cuts[k - 1].count, h.cuts[k].count)
  }

  ghost predicate ChainOk(h: History)
    requires HistoryOk(h)
  {
    forall k :: 1 <= k < |h.cuts| ==> FoldsOn(h, k)
  }

  ghost function PathAt(ledger: seq<LedgerFile>, version: nat, n: nat): SnapshotPath
    requires 0 < n <= |ledger|
  {
    SnapshotPath(version, SnapshotId(ledger[n - 1].name))
  }

  ghost predicate AllBad(ledger: seq<LedgerFile>, a: nat, b: nat) {
    forall i :: a <= i < b && i < |ledger| ==> ledger[i].event.Bad?
  }

  /** `m` is or was published: it covers its first `totalEvents` files. */
  ghost predicate Published(h: History, m: Manifest)
    requires HistoryOk(h)
  {
    var k := m.snapshotVersion;
    && k < |h.cuts| && h.cuts[k].count <= m.totalEvents
    && WatermarkAt(h.ledger, m.watermark, m.totalEvents)
    && AllBad(h.ledger, h.cuts[k].count, m.totalEvents)
    && m.snapshot == if k == 0 then None else Some(PathAt(h.ledger, k, h.cuts[k].count))
  }

  ghost predicate FileAt(h: History, path: SnapshotPath, content: Snapshot, n: nat)
    requires HistoryOk(h)
  {
    && 1 <= path.version <= |h.cuts| && h.cuts[path.version - 1].count < n <= |h.ledger|
    && path == PathAt(h.ledger, path.version, n)
    && content == Folded(h, path.version - 1, h.cuts[path.version - 1].count, n)
  }

  ghost predicate FileOk(h: History, path: SnapshotPath, content: Snapshot)
    requires HistoryOk(h)
  {
    exists n :: FileAt(h, path, content, n)
  }

  ghost predicate HasFile(h: History, files: set<SnapshotPath>, k: nat)
    requires HistoryOk(h) && 1 <= k < |h.cuts|
  {
    PathAt(h.ledger, k, h.cuts[k].count) in files
  }

  ghost predicate FilesOk(h: History, files: map<SnapshotPath, Object<Snapshot>>)
    requires HistoryOk(h)
  {
    && (forall path :: path in files ==> FileOk(h, path, files[path].body))
    && (forall k :: 1 <= k < |h.cuts| ==> HasFile(h, files.Keys, k))
  }

  ghost predicate BatchOk(h: History, m: Manifest, names: seq<string>, w: Option<string>)
    requires HistoryOk(h)
  {
    && Published(h, m) && names != [] && NamesFrom(h.ledger, m.totalEvents, names)
    && WatermarkAt(h.ledger, w, m.totalEvents + |names|)
  }

  /** `next` may replace `m`: it covers more files, with a new snapshot file unless all of them are unreadable. */
  ghost predicate MayReplace(ledger: seq<LedgerFile>, files: set<SnapshotPath>, m: Manifest, next: Manifest) {
    var n := next.totalEvents;
    && m.totalEvents <= n && WatermarkAt(ledger, next.watermark, n)
    && (if next.snapshotVersion == m.snapshotVersion
        then next.snapshot == m.snapshot && AllBad(ledger, m.totalEvents, n)
        else && next.snapshotVersion == m.snapshotVersion + 1 && m.totalEvents < n
             && next.snapshot == Some(PathAt(ledger, next.snapshotVersion, n)) && next.snapshot.value in files)
  }

  ghost predicate PcCovers(h: History, files: set<SnapshotPath>, pc: Pc)
    requires HistoryOk(h)
  {
    match pc
    case Plan(_, m) => Published(h, m)
    case FoldEventFiles(_, m, names, w) => BatchOk(h, m, names, w)
    case WriteSnapshot(_, m, names, w, content) =>
      BatchOk(h, m, names, w) && content == Folded(h, m.snapshotVersion, m.totalEvents, m.totalEvents + |names|)
    case Publish(_, m, next, _) => Published(h, m) && MayReplace(h.ledger, files, m, next)
    case _ => true
  }

  // ------------------------------------------------------------------
  // Stability
  // ------------------------------------------------------------------

  lemma FoldedStable(h: History, h': History, k: nat, a: nat, n: nat)
    requires Continues(h, h') && k < |h.cuts| && a <= n <= |h.ledger|
    ensures Folded(h', k, a, n) == Folded(h, k, a, n)
  {
    assert Batch(h'.ledger, a, n) == Batch(h.ledger, a, n);
  }

  lemma PublishedStable(h: History, h': History, m: Manifest)
    requires Continues(h, h') && Published(h, m)
    ensures Published(h', m)
  {
  }

  lemma FileStable(h: History, h': History, path: SnapshotPath, content: Snapshot)
    requires Continues(h, h') && FileOk(h, path, content)
    ensures FileOk(h', path, content)
  {
    var n :| FileAt(h, path, content, n);
    FoldedStable(h, h', path.version - 1, h.cuts[path.version - 1].count, n);
    assert FileAt(h', path, content, n);
  }

  lemma PcCoversStable(h: History, h': History, files: set<SnapshotPath>, files': set<SnapshotPath>, pc: Pc)
    requires Continues(h, h') && files <= files' && PcCovers(h, files, pc)
    ensures PcCovers(h', files', pc)
  {
    if pc.Plan? || pc.FoldEventFiles? || pc.WriteSnapshot? || pc.Publish? {
      PublishedStable(h, h', pc.manifest);
    }
    if pc.WriteSnapshot? {
      FoldedStable(h, h', pc.manifest.snapshotVersion, pc.manifest.totalEvents, pc.manifest.totalEvents + |pc.names|);
    }
  }

  // ------------------------------------------------------------------
  // Steps
  // ------------------------------------------------------------------

  lemma ListedNames(ledger: seq<LedgerFile>, w: Option<string>, n: nat)
    requires InOrder(ledger) && WatermarkAt(ledger, w, n)
    ensures var names := NamesAfter(Listing(ledger), w); |names| == |ledger| - n && NamesFrom(ledger, n, names)
  {
    ListingIsLedger(ledger);
    CoveredIs(ledger, w, n);
    NamesAfterAre(ledger, w, n);
  }

  /** What planning a listing run leads to. */
  lemma PlanIs(cfg: Config, s: State, p: Proc, v: nat, m: Manifest, c: Choice, names: seq<string>)
    requires p.explicit.None? && names == NamesAfter(Listing(s.ledger), m.watermark)
    ensures var pc := StepPlan(cfg, s, p, v, m, c);
            || pc == Failed || pc == Done || pc == Publish(v, m, m.(lastCompactionAt := Some(c.now)), [])
            || (names != [] && pc == FoldEventFiles(v, m, names, Some(names[|names| - 1])))
  {
  }

  lemma PlannedCovers(h: History, files: set<SnapshotPath>, v: nat, m: Manifest, names: seq<string>, now: int)
    requires HistoryOk(h) && Published(h, m) && NamesFrom(h.ledger, m.totalEvents, names)
    ensures PcCovers(h, files, Publish(v, m, m.(lastCompactionAt := Some(now)), []))
    ensures names != [] ==> PcCovers(h, files, FoldEventFiles(v, m, names, Some(names[|names| - 1])))
  {
    assert names != [] ==> names[|names| - 1] == h.ledger[m.totalEvents + |names| - 1].name;
  }

  lemma PlanCovers(cfg: Config, s: State, h: History, p: Proc, v: nat, m: Manifest, c: Choice)
    requires h.ledger == s.ledger && InOrder(s.ledger) && HistoryOk(h) && p.explicit.None? && Published(h, m)
    ensures PcCovers(h, s.snapshots.objects.Keys, StepPlan(cfg, s, p, v, m, c))
  {
    var names := NamesAfter(Listing(s.ledger), m.watermark);
    ListedNames(s.ledger, m.watermark, m.totalEvents);
    PlanIs(cfg, s, p, v, m, c, names);
    PlannedCovers(h, s.snapshots.objects.Keys, v, m, names, c.now);
  }

  /** A file's name says how far it covers. */
  lemma FileAtName(h: History, version: nat, content: Snapshot, n: nat)
    requires InOrder(h.ledger) && HistoryOk(h) && 0 < n <= |h.ledger|
    requires FileOk(h, PathAt(h.ledger, version, n), content)
    ensures FileAt(h, PathAt(h.ledger, version, n), content, n)
  {
    var i: nat :| FileAt(h, PathAt(h.ledger, version, n), content, i);
    SnapshotIdsDiffer(h.ledger, i - 1, n - 1);
  }

  /** The file of a published snapshot version holds that version's content. */
  lemma FileContent(h: History, files: map<SnapshotPath, Object<Snapshot>>, k: nat)
    requires InOrder(h.ledger) && HistoryOk(h) && ChainOk(h) && FilesOk(h, files) && 1 <= k < |h.cuts|
    ensures HasFile(h, files.Keys, k) && files[PathAt(h.ledger, k, h.cuts[k].count)].body == h.cuts[k].content
  {
    assert HasFile(h, files.Keys, k);
    FileAtName(h, k, files[PathAt(h.ledger, k, h.cuts[k].count)].body, h.cuts[k].count);
    assert FoldsOn(h, k);
  }

  /** A compactor loads the content of the manifest's snapshot version. */
  lemma BaseIsSnapshot(h: History, files: Store<SnapshotPath, Snapshot>, m: Manifest)
    requires InOrder(h.ledger) && HistoryOk(h) && ChainOk(h) && FilesOk(h, files.objects) && Published(h, m)
    ensures LoadSnapshot(files, m) == Some(h.cuts[m.snapshotVersion].content)
  {
    if m.snapshotVersion > 0 {
      FileContent(h, files.objects, m.snapshotVersion);
    }
  }

  lemma BatchEvents(ledger: seq<LedgerFile>, from: nat, names: seq<string>)
    requires InOrder(ledger) && NamesFrom(ledger, from, names)
    ensures ReadEvents(ledger, names) == Some(Batch(ledger, from, from + |names|))
  {
    ReadEventsAre(ledger, from, names);
    assert ReadEvents(ledger, names).value == Batch(ledger, from, from + |names|);
  }

  lemma UnreadableIsBad(ledger: seq<LedgerFile>, a: nat, b: nat)
    requires a <= b <= |ledger| && AllUnreadable(Batch(ledger, a, b))
    ensures AllBad(ledger, a, b)
  {
    forall i | a <= i < b ensures ledger[i].event.Bad? {
      assert Batch(ledger, a, b)[i - a].Bad?;
    }
  }

  /** A batch that applies nothing is published without a new snapshot. */
  lemma EmptyFoldCovers(h: History, files: set<SnapshotPath>, v: nat, m: Manifest, names: seq<string>,
                        w: Option<string>, now: int)
    requires HistoryOk(h) && BatchOk(h, m, names, w) && AllBad(h.ledger, m.totalEvents, m.totalEvents + |names|)
    ensures PcCovers(h, files, Publish(v, m, Advanced(m, w, |names|, m.snapshot, m.snapshotVersion, 0, now), names))
  {
  }

  /** What a fold step does, given what the compactor reads. */
  lemma FoldStepIs(cfg: Config, s: State, v: nat, m: Manifest, names: seq<string>, w: Option<string>, c: Choice,
                   base: Snapshot, batch: seq<Event>)
    requires LoadSnapshot(s.snapshots, m) == Some(base) && ReadEvents(s.ledger, names) == Some(batch)
    ensures var pc := StepFold(cfg, s, v, m, names, w, c);
            || pc == Failed
            || (cfg.fold(base, batch).Some? && pc == WriteSnapshot(v, m, names, w, cfg.fold(base, batch).value))
            || (cfg.fold(base, batch).None?
                && pc == Publish(v, m, Advanced(m, w, |names|, m.snapshot, m.snapshotVersion, 0, c.now), names))
  {
  }

  /** Whatever the fold of a batch yields, going on with it is covered. */
  lemma FoldResultCovers(h: History, files: set<SnapshotPath>, v: nat, m: Manifest, names: seq<string>,
                         w: Option<string>, now: int)
    requires FoldLaws(h.fold) && HistoryOk(h) && BatchOk(h, m, names, w)
    ensures match h.fold(h.cuts[m.snapshotVersion].content, Batch(h.ledger, m.totalEvents, m.totalEvents + |names|))
            case Some(content) => PcCovers(h, files, WriteSnapshot(v, m, names, w, content))
            case None => PcCovers(h, files,
                                  Publish(v, m, Advanced(m, w, |names|, m.snapshot, m.snapshotVersion, 0, now), names))
  {
    var n := m.totalEvents + |names|;
    var batch := Batch(h.ledger, m.totalEvents, n);
    if h.fold(h.cuts[m.snapshotVersion].content, batch).None? {
      assert AllUnreadable(batch);
      UnreadableIsBad(h.ledger, m.totalEvents, n);
      EmptyFoldCovers(h, files, v, m, names, w, now);
    }
  }

  lemma FoldCovers(cfg: Config, s: State, h: History, v: nat, m: Manifest, names: seq<string>, w: Option<string>,
                   c: Choice)
    requires h.fold == cfg.fold && h.ledger == s.ledger && FoldLaws(cfg.fold) && InOrder(s.ledger)
    requires HistoryOk(h) && ChainOk(h) && FilesOk(h, s.snapshots.objects) && BatchOk(h, m, names, w)
    ensures PcCovers(h, s.snapshots.objects.Keys, StepFold(cfg, s, v, m, names, w, c))
  {
    var base := h.cuts[m.snapshotVersion].content;
    var batch := Batch(s.ledger, m.totalEvents, m.totalEvents + |names|);
    assert LoadSnapshot(s.snapshots, m) == Some(base) by { BaseIsSnapshot(h, s.snapshots, m); }
    assert ReadEvents(s.ledger, names) == Some(batch) by { BatchEvents(s.ledger, m.totalEvents, names); }
    FoldStepIs(cfg, s, v, m, names, w, c, base, batch);
    FoldResultCovers(h, s.snapshots.objects.Keys, v, m, names, w, c.now);
  }

  /** Unreadable files between the snapshot and the batch do not change what is folded. */
  lemma BadGapIsInvisible(h: History, m: Manifest, n: nat)
    requires FoldLaws(h.fold) && HistoryOk(h) && Published(h, m) && m.totalEvents <= n <= |h.ledger|
    ensures var k := m.snapshotVersion; Folded(h, k, m.totalEvents, n) == Folded(h, k, h.cuts[k].count, n)
  {
    var k := m.snapshotVersion;
    var a := h.cuts[k].count;
    var bad := Batch(h.ledger, a, m.totalEvents);
    assert Batch(h.ledger, a, n) == bad + Batch(h.ledger, m.totalEvents, n);
    assert AllUnreadable(bad);
  }

  lemma WritePath(h: History, m: Manifest, names: seq<string>, w: Option<string>)
    requires HistoryOk(h) && BatchOk(h, m, names, w)
    ensures NewSnapshotPath(m, names) == PathAt(h.ledger, m.snapshotVersion + 1, m.totalEvents + |names|)
  {
    assert names[|names| - 1] == h.ledger[m.totalEvents + |names| - 1].name;
  }

  lemma WriteCovers(s: State, h: History, v: nat, m: Manifest, names: seq<string>, w: Option<string>,
                    content: Snapshot, c: Choice)
    requires h.ledger == s.ledger && HistoryOk(h) && BatchOk(h, m, names, w)
    ensures var (files, pc) := StepWrite(s, v, m, names, w, content, c); PcCovers(h, files.objects.Keys, pc)
  {
    WritePath(h, m, names, w);
  }

  lemma WriteKeepsFiles(s: State, h: History, v: nat, m: Manifest, names: seq<string>, w: Option<string>,
                        content: Snapshot, c: Choice)
    requires h.ledger == s.ledger && HistoryOk(h) && FilesOk(h, s.snapshots.objects) && names != []
    requires FileOk(h, NewSnapshotPath(m, names), content)
    ensures var files := StepWrite(s, v, m, names, w, content, c).0;
            s.snapshots.objects.Keys <= files.objects.Keys && FilesOk(h, files.objects)
  {
    var files := StepWrite(s, v, m, names, w, content, c).0;
    forall k | 1 <= k < |h.cuts| ensures HasFile(h, files.objects.Keys, k) {
      assert HasFile(h, s.snapshots.objects.Keys, k);
    }
  }

  lemma FileFits(h: History, m: Manifest, n: nat, content: Snapshot)
    requires HistoryOk(h) && Published(h, m) && m.totalEvents < n <= |h.ledger|
    requires content == Folded(h, m.snapshotVersion, h.cuts[m.snapshotVersion].count, n)
    ensures FileOk(h, PathAt(h.ledger, m.snapshotVersion + 1, n), content)
  {
    assert FileAt(h, PathAt(h.ledger, m.snapshotVersion + 1, n), content, n);
  }

  lemma WrittenFileOk(h: History, m: Manifest, names: seq<string>, w: Option<string>)
    requires FoldLaws(h.fold) && HistoryOk(h) && BatchOk(h, m, names, w)
    ensures FileOk(h, NewSnapshotPath(m, names), Folded(h, m.snapshotVersion, m.totalEvents, m.totalEvents + |names|))
  {
    var n := m.totalEvents + |names|;
    WritePath(h, m, names, w);
    BadGapIsInvisible(h, m, n);
    FileFits(h, m, n, Folded(h, m.snapshotVersion, m.totalEvents, n));
  }

  // ------------------------------------------------------------------
  // History growth
  // ------------------------------------------------------------------

  lemma FilesStable(h: History, h': History, files: map<SnapshotPath, Object<Snapshot>>)
    requires Continues(h, h') && FilesOk(h, files)
    requires forall k :: |h.cuts| <= k < |h'.cuts| ==> HasFile(h', files.Keys, k)
    ensures FilesOk(h', files)
  {
    forall path | path in files ensures FileOk(h', path, files[path].body) {
      FileStable(h, h', path, files[path].body);
    }
    forall k | 1 <= k < |h'.cuts| ensures HasFile(h', files.Keys, k) {
      if k < |h.cuts| {
        assert HasFile(h, files.Keys, k);
      }
    }
  }

  lemma ChainStable(h: History, h': History)
    requires Continues(h, h') && ChainOk(h)
    requires forall k :: |h.cuts| <= k < |h'.cuts| ==> FoldsOn(h', k)
    ensures ChainOk(h')
  {
    forall k | 1 <= k < |h'.cuts| ensures FoldsOn(h', k) {
      if k < |h.cuts| {
        assert FoldsOn(h, k);
        FoldedStable(h, h', k - 1, h.cuts[k - 1].count, h.cuts[k].count);
      }
    }
  }

  /** The history after a publication. */
  ghost function Recut(h: History, content: Snapshot, m: Manifest, next: Manifest): History {
    if next.snapshotVersion != m.snapshotVersion then h.(cuts := h.cuts + [Cut(next.totalEvents, content)]) else h
  }

  lemma PublishCovers(h: History, files: set<SnapshotPath>, content: Snapshot, m: Manifest, next: Manifest)
    requires HistoryOk(h) && Published(h, m) && m.snapshotVersion == |h.cuts| - 1
    requires MayReplace(h.ledger, files, m, next)
    ensures var h' := Recut(h, content, m, next);
            && Continues(h, h') && Published(h', next) && next.snapshotVersion == |h'.cuts| - 1
            && forall k :: |h.cuts| <= k < |h'.cuts| ==> HasFile(h', files, k)
  {
  }

  /** The file behind a new manifest holds the last version with the files since folded onto it. */
  lemma NewFileContent(h: History, files: Store<SnapshotPath, Snapshot>, path: SnapshotPath, n: nat)
    requires InOrder(h.ledger) && HistoryOk(h) && FilesOk(h, files.objects)
    requires 0 < n <= |h.ledger| && path == PathAt(h.ledger, |h.cuts|, n) && path in files.objects
    ensures h.cuts[|h.cuts| - 1].count < n
    ensures files.objects[path].body == Folded(h, |h.cuts| - 1, h.cuts[|h.cuts| - 1].count, n)
  {
    FileAtName(h, |h.cuts|, files.objects[path].body, n);
  }

  lemma NewCutFoldsOn(h: History, h': History, n: nat, content: Snapshot)
    requires Continues(h, h') && h'.cuts == h.cuts + [Cut(n, content)]
    requires h.cuts[|h.cuts| - 1].count <= n <= |h.ledger|
    requires content == Folded(h, |h.cuts| - 1, h.cuts[|h.cuts| - 1].count, n)
    ensures FoldsOn(h', |h.cuts|)
  {
    FoldedStable(h, h', |h.cuts| - 1, h.cuts[|h.cuts| - 1].count, n);
  }

  // ------------------------------------------------------------------
  // Runs
  // ------------------------------------------------------------------

  ghost function HistoryOf(cfg: Config, s: State): History { History(cfg.fold, s.ledger, s.cuts) }

  ghost predicate SharedCovers(h: History, s: State) {
    && InOrder(s.ledger) && HistoryOk(h) && ChainOk(h) && FilesOk(h, s.snapshots.objects) && () in s.manifests.objects
    && var m := s.manifests.objects[()].body;
    && Published(h, m) && m.snapshotVersion == |s.cuts| - 1
  }

  ghost predicate ProcsCover(h: History, s: State)
    requires HistoryOk(h)
  {
    forall pid :: pid in s.procs ==>
      s.procs[pid].explicit.None? && PcCovers(h, s.snapshots.objects.Keys, s.procs[pid].pc)
  }

  ghost predicate Coverage(cfg: Config, s: State) {
    SharedCovers(HistoryOf(cfg, s), s) && ProcsCover(HistoryOf(cfg, s), s)
  }

  /** Carries the facts of all compactors that do not move over a step. */
  lemma ProcsCarry(cfg: Config, s: State, s': State, moved: set<nat>)
    requires HistoryOk(HistoryOf(cfg, s)) && ProcsCover(HistoryOf(cfg, s), s)
    requires Continues(HistoryOf(cfg, s), HistoryOf(cfg, s')) && s.snapshots.objects.Keys <= s'.snapshots.objects.Keys
    requires forall q :: q in s'.procs && q !in moved ==> q in s.procs && s'.procs[q] == s.procs[q]
    requires forall q :: q in s'.procs && q in moved ==>
               s'.procs[q].explicit.None? && PcCovers(HistoryOf(cfg, s'), s'.snapshots.objects.Keys, s'.procs[q].pc)
    ensures ProcsCover(HistoryOf(cfg, s'), s')
  {
    forall q | q in s'.procs && q !in moved
      ensures PcCovers(HistoryOf(cfg, s'), s'.snapshots.objects.Keys, s'.procs[q].pc)
    {
      PcCoversStable(HistoryOf(cfg, s), HistoryOf(cfg, s'), s.snapshots.objects.Keys, s'.snapshots.objects.Keys,
                     s.procs[q].pc);
    }
  }

  lemma AppendCovers(cfg: Config, s: State, name: string, event: Event)
    requires cfg.sortedAppends && SharedCovers(HistoryOf(cfg, s), s) && MayAppend(cfg, s.ledger, name)
    ensures var s' := s.(ledger := s.ledger + [LedgerFile(name, event)]);
            SharedCovers(HistoryOf(cfg, s'), s') && Continues(HistoryOf(cfg, s), HistoryOf(cfg, s'))
  {
    var s' := s.(ledger := s.ledger + [LedgerFile(name, event)]);
    var (h, h') := (HistoryOf(cfg, s), HistoryOf(cfg, s'));
    assert HistoryOk(h');
    FilesStable(h, h', s.snapshots.objects);
    ChainStable(h, h');
  }

  /** A step that only moves its own compactor. */
  lemma LocalStepCovers(cfg: Config, s: State, pid: nat, p: Proc)
    requires Coverage(cfg, s) && p.explicit.None? && PcCovers(HistoryOf(cfg, s), s.snapshots.objects.Keys, p.pc)
    ensures Coverage(cfg, s.(procs := s.procs[pid := p]))
  {
  }

  lemma PlanStepCovers(cfg: Config, s: State, pid: nat, c: Choice)
    requires Coverage(cfg, s) && pid in s.procs && s.procs[pid].pc.Plan?
    ensures Coverage(cfg, StepProcess(cfg, s, pid, s.procs[pid], c))
  {
    var (p, h) := (s.procs[pid], HistoryOf(cfg, s));
    var (v, m) := (p.pc.version, p.pc.manifest);
    PlanCovers(cfg, s, h, p, v, m, c);
    LocalStepCovers(cfg, s, pid, p.(pc := StepPlan(cfg, s, p, v, m, c)));
  }

  lemma FoldFilesStepCovers(cfg: Config, s: State, pid: nat, c: Choice)
    requires FoldLaws(cfg.fold) && Coverage(cfg, s) && pid in s.procs && s.procs[pid].pc.FoldEventFiles?
    ensures Coverage(cfg, StepProcess(cfg, s, pid, s.procs[pid], c))
  {
    var (p, h) := (s.procs[pid], HistoryOf(cfg, s));
    var (v, m, names, w) := (p.pc.version, p.pc.manifest, p.pc.names, p.pc.watermark);
    FoldCovers(cfg, s, h, v, m, names, w, c);
    LocalStepCovers(cfg, s, pid, p.(pc := StepFold(cfg, s, v, m, names, w, c)));
  }

  lemma WriteStepCovers(cfg: Config, s: State, pid: nat, c: Choice)
    requires FoldLaws(cfg.fold) && Coverage(cfg, s) && pid in s.procs && s.procs[pid].pc.WriteSnapshot?
    ensures Coverage(cfg, StepProcess(cfg, s, pid, s.procs[pid], c))
  {
    var (p, h, s') := (s.procs[pid], HistoryOf(cfg, s), StepProcess(cfg, s, pid, s.procs[pid], c));
    var (v, m, names, w, content) := (p.pc.version, p.pc.manifest, p.pc.names, p.pc.watermark, p.pc.content);
    WrittenFileOk(h, m, names, w);
    WriteKeepsFiles(s, h, v, m, names, w, content, c);
    WriteCovers(s, h, v, m, names, w, content, c);
    ProcsCarry(cfg, s, s', {pid});
  }

  /** A publication keeps the chain of snapshot versions. */
  lemma PublishKeepsChain(h: History, h': History, files: Store<SnapshotPath, Snapshot>, m: Manifest, next: Manifest)
    requires InOrder(h.ledger) && Continues(h, h') && ChainOk(h) && FilesOk(h, files.objects)
    requires m.snapshotVersion == |h.cuts| - 1 && MayReplace(h.ledger, files.objects.Keys, m, next)
    requires h' == Recut(h, ContentOf(files, next), m, next)
    ensures ChainOk(h')
  {
    if next.snapshotVersion != m.snapshotVersion {
      NewFileContent(h, files, next.snapshot.value, next.totalEvents);
      NewCutFoldsOn(h, h', next.totalEvents, ContentOf(files, next));
    }
    ChainStable(h, h');
  }

  lemma SuccessfulPublishCovers(cfg: Config, s: State, s': State, pid: nat, m: Manifest, next: Manifest)
    requires Coverage(cfg, s) && s.manifests.objects[()].body == m
    requires MayReplace(s.ledger, s.snapshots.objects.Keys, m, next)
    requires HistoryOf(cfg, s') == Recut(HistoryOf(cfg, s), ContentOf(s.snapshots, next), m, next)
    requires s'.snapshots == s.snapshots && () in s'.manifests.objects && s'.manifests.objects[()].body == next
    requires pid in s'.procs && s'.procs == s.procs[pid := s'.procs[pid]]
    requires s'.procs[pid].explicit.None? && (s'.procs[pid].pc.Done? || s'.procs[pid].pc.Failed?)
    ensures Coverage(cfg, s')
  {
    var (h, h') := (HistoryOf(cfg, s), HistoryOf(cfg, s'));
    PublishCovers(h, s.snapshots.objects.Keys, ContentOf(s.snapshots, next), m, next);
    PublishKeepsChain(h, h', s.snapshots, m, next);
    FilesStable(h, h', s.snapshots.objects);
    ProcsCarry(cfg, s, s', {pid});
  }

  lemma PublishStepCovers(cfg: Config, s: State, pid: nat, c: Choice)
    requires Coverage(cfg, s) && pid in s.procs && s.procs[pid].pc.Publish? && ProcOk(s.manifests, s.procs[pid])
    ensures Coverage(cfg, StepProcess(cfg, s, pid, s.procs[pid], c))
  {
    var (p, s') := (s.procs[pid], StepProcess(cfg, s, pid, s.procs[pid], c));
    var next := p.pc.next;
    if s'.manifests == s.manifests {
      LocalStepCovers(cfg, s, pid, s'.procs[pid]);
    } else {
      CoveredIs(s.ledger, next.watermark, next.totalEvents);
      SuccessfulPublishCovers(cfg, s, s', pid, p.pc.manifest, next);
    }
  }

  lemma ReadStepCovers(cfg: Config, s: State, pid: nat, c: Choice)
    requires Coverage(cfg, s) && pid in s.procs && (s.procs[pid].pc.Head? || s.procs[pid].pc.Get?)
    ensures Coverage(cfg, StepProcess(cfg, s, pid, s.procs[pid], c))
  {
    LocalStepCovers(cfg, s, pid, StepProcess(cfg, s, pid, s.procs[pid], c).procs[pid]);
  }

  lemma StepCovers(cfg: Config, s: State, pid: nat, c: Choice)
    requires FoldLaws(cfg.fold) && Inv(s) && Coverage(cfg, s) && pid in s.procs
    ensures Coverage(cfg, StepProcess(cfg, s, pid, s.procs[pid], c))
  {
    match s.procs[pid].pc
    case Head => ReadStepCovers(cfg, s, pid, c);
    case Get(_) => ReadStepCovers(cfg, s, pid, c);
    case Plan(_, _) => PlanStepCovers(cfg, s, pid, c);
    case FoldEventFiles(_, _, _, _) => FoldFilesStepCovers(cfg, s, pid, c);
    case WriteSnapshot(_, _, _, _, _) => WriteStepCovers(cfg, s, pid, c);
    case Publish(_, _, _, _) => PublishStepCovers(cfg, s, pid, c);
    case Done =>
    case Failed =>
  }

  lemma AppendStepCovers(cfg: Config, s: State, name: string, file: EventFile)
    requires cfg.sortedAppends && Coverage(cfg, s)
    ensures Coverage(cfg, Next(cfg, s, Append(name, file)))
  {
    if MayAppend(cfg, s.ledger, name) {
      AppendCovers(cfg, s, name, Decode(file));
      ProcsCarry(cfg, s, s.(ledger := s.ledger + [LedgerFile(name, Decode(file))]), {});
    }
  }

  lemma NextCovers(cfg: Config, s: State, a: Action)
    requires cfg.listingOnly && cfg.sortedAppends && FoldLaws(cfg.fold) && Inv(s) && Coverage(cfg, s)
    ensures Coverage(cfg, Next(cfg, s, a))
  {
    match a
    case Append(name, file) => AppendStepCovers(cfg, s, name, file);
    case Start(pid, _) =>
      var started := Next(cfg, s, a);
      if started != s {
        LocalStepCovers(cfg, s, pid, started.procs[pid]);
      }
    case Step(pid, c) =>
      if pid in s.procs {
        StepCovers(cfg, s, pid, c);
      }
  }

  lemma {:induction false} ExecCovers(cfg: Config, s: State, run: seq<Action>)
    requires cfg.listingOnly && cfg.sortedAppends && FoldLaws(cfg.fold) && Inv(s) && Coverage(cfg, s)
    ensures Coverage(cfg, Exec(cfg, s, run))
    decreases |run|
  {
    if run != [] {
      NextKeepsInv(cfg, s, run[0]);
      NextCovers(cfg, s, run[0]);
      ExecCovers(cfg, Next(cfg, s, run[0]), run[1..]);
    }
  }

  lemma InitCovers(cfg: Config)
    ensures Inv(Init()) && Coverage(cfg, Init())
  {
  }
}

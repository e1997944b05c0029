/**
 The Tier-2 compactor as a protocol: any number of compactors read the manifest, pick
 ledger files, fold them into a snapshot file and publish a new manifest with a
 conditional write, while writers keep appending to the ledger.

 Ledger files and snapshot files are never rewritten, so a compactor's reads of them
 are one step.  Listing the ledger is atomic and the ledger directory is flat.
 */
module CompactorProtocol {
  import opened ObjectStore
  import opened LexOrder
  import opened CompactorFold
  import opened CompactorBatch

  /** A ledger file is immutable, so the model keeps what it decodes to. */
  datatype LedgerFile = LedgerFile(name: string, event: Event)

  datatype LateEventPolicy = Skip | Log | Process | QuarantineLate

  datatype SnapshotPath = SnapshotPath(version: nat, id: string)

  datatype Manifest = Manifest(
    watermark: Option<string>, watermarkVersion: nat, snapshot: Option<SnapshotPath>, snapshotVersion: nat,
    totalEvents: nat, totalFiles: nat, lastCompactionAt: Option<int>)

  datatype Pc =
    | Head
    | Get(version: nat)
    | Plan(version: nat, manifest: Manifest)
    | FoldEventFiles(version: nat, manifest: Manifest, names: seq<string>, watermark: Option<string>)
    | WriteSnapshot(version: nat, manifest: Manifest, names: seq<string>, watermark: Option<string>, content: Snapshot)
    | Publish(version: nat, manifest: Manifest, next: Manifest, names: seq<string>)
    | Done
    | Failed

  /** A compaction run: it lists the ledger, or was given explicit event names. */
  datatype Proc = Proc(explicit: Option<seq<string>>, attempt: nat, pc: Pc)

  /** A published snapshot version: how many ledger files, in name order, it covers, and its content. */
  datatype Cut = Cut(count: nat, content: Snapshot)

  /** `cuts` is a history no step reads: every published snapshot version, from "no snapshot" on. */
  datatype State = State(
    ledger: seq<LedgerFile>,
    manifests: Store<(), Manifest>,
    snapshots: Store<SnapshotPath, Snapshot>,
    procs: map<nat, Proc>,
    cuts: seq<Cut>)

  /** Folds a batch onto a snapshot; nothing when no event was applied. */
  type BatchFold = (Snapshot, seq<Event>) -> Option<Snapshot>

  /** What the compactor folds with. */
  function FoldOnto(m: Snapshot, es: seq<Event>): Option<Snapshot> {
    if FoldEvents(Load(m), es).applied > 0 then Some(FoldBatch(m, es)) else None
  }

  /**
   The protocol's safety depends on the fold only through a few laws, so the fold is a
   parameter; `FoldOnto` is the one in use.  `listingOnly`: no compactor is given explicit
   names.  `sortedAppends`: every appended name sorts after all present ones.
   */
  datatype Config = Config(
    fold: BatchFold, policy: UnknownEventPolicy, late: LateEventPolicy, maxRetries: nat,
    listingOnly: bool, sortedAppends: bool)

  const INITIAL_MANIFEST: Manifest := Manifest(None, 0, None, 0, 0, 0, None)

  function Init(): State {
    State([], Write(Empty(), (), INITIAL_MANIFEST), Empty(), map[], [Cut(0, map[])])
  }

  // ------------------------------------------------------------------
  // Names
  // ------------------------------------------------------------------

  const SUFFIX: string := ".json"

  predicate IsEventName(name: string) { |name| >= 5 && name[|name| - 5..] == SUFFIX }

  function SnapshotId(name: string): string {
    if IsEventName(name) then name[..|name| - 5] else name
  }

  predicate After(name: string, watermark: Option<string>) {
    watermark.None? || Less(watermark.value, name)
  }

  function InsertByName(sorted: seq<LedgerFile>, e: LedgerFile): seq<LedgerFile> {
    if sorted == [] || Less(sorted[|sorted| - 1].name, e.name) then sorted + [e]
    else InsertByName(sorted[..|sorted| - 1], e) + [sorted[|sorted| - 1]]
  }

  /** A listing in name order. */
  function Listing(ledger: seq<LedgerFile>): seq<LedgerFile> {
    if ledger == [] then [] else InsertByName(Listing(ledger[..|ledger| - 1]), ledger[|ledger| - 1])
  }

  function NamesAfter(ledger: seq<LedgerFile>, watermark: Option<string>): seq<string> {
    if ledger == [] then []
    else
      var last := ledger[|ledger| - 1].name;
      NamesAfter(ledger[..|ledger| - 1], watermark) + (if After(last, watermark) then [last] else [])
  }

  function InsertName(sorted: seq<string>, name: string): seq<string> {
    if sorted == [] || !Less(name, sorted[|sorted| - 1]) then sorted + [name]
    else InsertName(sorted[..|sorted| - 1], name) + [sorted[|sorted| - 1]]
  }

  /** The explicit path keeps the given names after the watermark, and late ones too under `Process`. */
  function ExplicitNames(names: seq<string>, watermark: Option<string>, late: LateEventPolicy): seq<string> {
    if names == [] then []
    else
      var rest := ExplicitNames(names[..|names| - 1], watermark, late);
      var last := names[|names| - 1];
      if After(last, watermark) || late == Process then InsertName(rest, last) else rest
  }

  predicate AnyLate(names: seq<string>, watermark: Option<string>) {
    exists i :: 0 <= i < |names| && !After(names[i], watermark)
  }

  function MaxWatermark(current: Option<string>, candidate: string): string {
    if current.Some? && !Less(current.value, candidate) then current.value else candidate
  }

  // ------------------------------------------------------------------
  // Steps
  // ------------------------------------------------------------------

  datatype Choice = Choice(now: int, fault: Fault, sawLate: bool)

  function StepPlan(cfg: Config, s: State, p: Proc, v: nat, m: Manifest, c: Choice): Pc {
    var names := if p.explicit.None? then NamesAfter(Listing(s.ledger), m.watermark)
                 else ExplicitNames(p.explicit.value, m.watermark, cfg.late);
    var late := if p.explicit.None? then c.sawLate else AnyLate(p.explicit.value, m.watermark);
    if c.fault != NoFault then Failed
    else if names == [] then
      if late then Publish(v, m, m.(lastCompactionAt := Some(c.now)), []) else Done
    else
      var last := names[|names| - 1];
      FoldEventFiles(v, m, names, Some(if p.explicit.None? then last else MaxWatermark(m.watermark, last)))
  }

  function FindFile(ledger: seq<LedgerFile>, name: string): Option<Event> {
    if ledger == [] then None
    else if ledger[|ledger| - 1].name == name then Some(ledger[|ledger| - 1].event)
    else FindFile(ledger[..|ledger| - 1], name)
  }

  /** The events read for a batch, or nothing when a file is missing. */
  function ReadEvents(ledger: seq<LedgerFile>, names: seq<string>): Option<seq<Event>> {
    if names == [] then Some([])
    else
      var rest := ReadEvents(ledger, names[..|names| - 1]);
      var event := FindFile(ledger, names[|names| - 1]);
      if rest.None? || event.None? then None else Some(rest.value + [event.value])
  }

  function Advanced(m: Manifest, watermark: Option<string>, events: nat, snapshot: Option<SnapshotPath>,
                    snapshotVersion: nat, files: nat, now: int): Manifest {
    Manifest(if watermark.Some? then watermark else m.watermark, m.watermarkVersion + 1, snapshot, snapshotVersion,
             m.totalEvents + events, m.totalFiles + files, Some(now))
  }

  /** The manifest's snapshot, or nothing when its file is missing. */
  function LoadSnapshot(snapshots: Store<SnapshotPath, Snapshot>, m: Manifest): Option<Snapshot> {
    if m.snapshot.None? then Some(map[])
    else if m.snapshot.value in snapshots.objects then Some(snapshots.objects[m.snapshot.value].body)
    else None
  }

  function StepFold(cfg: Config, s: State, v: nat, m: Manifest, names: seq<string>, watermark: Option<string>,
                    c: Choice): Pc {
    var events := ReadEvents(s.ledger, names);
    var base := LoadSnapshot(s.snapshots, m);
    if c.fault != NoFault || events.None? || base.None? then Failed
    else if cfg.policy == Reject && Bad in events.value then Failed
    else
      match cfg.fold(base.value, events.value)
      case Some(content) => WriteSnapshot(v, m, names, watermark, content)
      case None => Publish(v, m, Advanced(m, watermark, |names|, m.snapshot, m.snapshotVersion, 0, c.now), names)
  }

  function NewSnapshotPath(m: Manifest, names: seq<string>): SnapshotPath
    requires names != []
  {
    SnapshotPath(m.snapshotVersion + 1, SnapshotId(names[|names| - 1]))
  }

  /** An existing snapshot file is kept and reused. */
  function StepWrite(s: State, v: nat, m: Manifest, names: seq<string>, watermark: Option<string>,
                     content: Snapshot, c: Choice): (Store<SnapshotPath, Snapshot>, Pc) {
    if names == [] then (s.snapshots, Failed)
    else
      var path := NewSnapshotPath(m, names);
      var (snapshots, out) := TryPut(s.snapshots, path, content, DoesNotExist, c.fault);
      if out == Errored then (snapshots, Failed)
      else (snapshots, Publish(v, m, Advanced(m, watermark, |names|, Some(path), m.snapshotVersion + 1,
                                              if out == Written then 1 else 0, c.now), names))
  }

  /** How many files of a name-ordered ledger are at or below the watermark. */
  function Covered(ledger: seq<LedgerFile>, watermark: Option<string>): (n: nat)
    ensures n <= |ledger|
  {
    if ledger == [] || watermark.None? then 0
    else if AtMost(ledger[|ledger| - 1].name, watermark.value) then |ledger|
    else Covered(ledger[..|ledger| - 1], watermark)
  }

  function ContentOf(snapshots: Store<SnapshotPath, Snapshot>, m: Manifest): Snapshot {
    match LoadSnapshot(snapshots, m)
    case Some(content) => content
    case None => map[]
  }

  function StepPublish(cfg: Config, s: State, pid: nat, p: Proc, v: nat, m: Manifest, next: Manifest,
                       c: Choice): State {
    var (manifests, out) := TryPut(s.manifests, (), next, MatchesVersion(v), c.fault);
    var cuts := if manifests != s.manifests && next.snapshotVersion != m.snapshotVersion
                then s.cuts + [Cut(Covered(s.ledger, next.watermark), ContentOf(s.snapshots, next))]
                else s.cuts;
    var p' := match out
      case Written => p.(pc := Done)
      case PreconditionFailed =>
        if p.attempt + 1 < cfg.maxRetries then p.(attempt := p.attempt + 1, pc := Head) else p.(pc := Failed)
      case Errored => p.(pc := Failed);
    s.(manifests := manifests, cuts := cuts, procs := s.procs[pid := p'])
  }

  function StepProcess(cfg: Config, s: State, pid: nat, p: Proc, c: Choice): State {
    match p.pc
    case Head =>
      s.(procs := s.procs[pid := p.(pc := if c.fault != NoFault || () !in s.manifests.objects then Failed
                                          else Get(s.manifests.objects[()].version))])
    case Get(v) =>
      s.(procs := s.procs[pid := p.(pc := if c.fault != NoFault || () !in s.manifests.objects then Failed
                                          else Plan(v, s.manifests.objects[()].body))])
    case Plan(v, m) => s.(procs := s.procs[pid := p.(pc := StepPlan(cfg, s, p, v, m, c))])
    case FoldEventFiles(v, m, names, w) => s.(procs := s.procs[pid := p.(pc := StepFold(cfg, s, v, m, names, w, c))])
    case WriteSnapshot(v, m, names, w, content) =>
      var (snapshots, pc) := StepWrite(s, v, m, names, w, content, c);
      s.(snapshots := snapshots, procs := s.procs[pid := p.(pc := pc)])
    case Publish(v, m, next, _) => StepPublish(cfg, s, pid, p, v, m, next, c)
    case Done => s
    case Failed => s
  }

  datatype Action =
    | Append(name: string, file: EventFile)
    | Start(pid: nat, explicit: Option<seq<string>>)
    | Step(pid: nat, choice: Choice)

  predicate SortsLast(ledger: seq<LedgerFile>, name: string) {
    forall i :: 0 <= i < |ledger| ==> Less(ledger[i].name, name)
  }

  predicate MayAppend(cfg: Config, ledger: seq<LedgerFile>, name: string) {
    && IsEventName(name)
    && (forall i :: 0 <= i < |ledger| ==> ledger[i].name != name)
    && (cfg.sortedAppends ==> SortsLast(ledger, name))
  }

  function Next(cfg: Config, s: State, a: Action): State {
    match a
    case Append(name, file) =>
      if MayAppend(cfg, s.ledger, name) then s.(ledger := s.ledger + [LedgerFile(name, Decode(file))]) else s
    case Start(pid, explicit) =>
      if pid in s.procs || (cfg.listingOnly && explicit.Some?) then s
      else s.(procs := s.procs[pid := Proc(explicit, 0, if cfg.maxRetries > 0 then Head else Failed)])
    case Step(pid, c) => if pid in s.procs then StepProcess(cfg, s, pid, s.procs[pid], c) else s
  }

  function Exec(cfg: Config, s: State, run: seq<Action>): State
    decreases |run|
  {
    if run == [] then s else Exec(cfg, Next(cfg, s, run[0]), run[1..])
  }

  lemma {:induction false} ExecConcat(cfg: Config, s: State, a: seq<Action>, b: seq<Action>)
    ensures Exec(cfg, s, a + b) == Exec(cfg, Exec(cfg, s, a), b)
    decreases |a|
  {
    if a == [] {
      assert a + b == b;
    } else {
      assert (a + b)[1..] == a[1..] + b;
      ExecConcat(cfg, Next(cfg, s, a[0]), a[1..], b);
    }
  }

  // ------------------------------------------------------------------
  // Watermarks and snapshot versions, for every run
  // ------------------------------------------------------------------

  predicate WatermarkAtMost(a: Option<string>, b: Option<string>) {
    a.None? || (b.Some? && AtMost(a.value, b.value))
  }

  predicate WatermarkBelow(a: Option<string>, b: Option<string>) {
    b.Some? && (a.None? || Less(a.value, b.value))
  }

  predicate ManifestOk(m: Manifest) {
    match m.snapshot
    case None => m.snapshotVersion == 0
    case Some(path) => path.version == m.snapshotVersion && m.snapshotVersion > 0
  }

  /**
   What publishing `next` in place of `m` does: the watermark does not regress, the
   snapshot version grows by one exactly when the snapshot path changes, the watermark
   version counts the publications that carry events, and only a new snapshot path can
   count a new file.
   */
  predicate Succeeds(m: Manifest, next: Manifest) {
    && WatermarkAtMost(m.watermark, next.watermark)
    && m.totalEvents <= next.totalEvents && next.lastCompactionAt.Some?
    && next.watermarkVersion == m.watermarkVersion + (if next.totalEvents > m.totalEvents then 1 else 0)
    && m.totalFiles <= next.totalFiles <= m.totalFiles + (if next.snapshot == m.snapshot then 0 else 1)
    && (if next.snapshot == m.snapshot then next.snapshotVersion == m.snapshotVersion
        else next.snapshotVersion == m.snapshotVersion + 1)
  }

  /** All names of a listing run's batch sort after the watermark it read. */
  predicate AllAfter(names: seq<string>, watermark: Option<string>) {
    forall i :: 0 <= i < |names| ==> After(names[i], watermark)
  }

  /** A publication that carries events of a listing run moves the watermark strictly, past the watermark it read. */
  predicate PublicationOk(p: Proc, m: Manifest, next: Manifest, names: seq<string>) {
    && ManifestOk(m) && ManifestOk(next) && Succeeds(m, next) && next.totalEvents == m.totalEvents + |names|
    && (p.explicit.None? ==> AllAfter(names, m.watermark))
    && (p.explicit.None? && next.totalEvents > m.totalEvents ==> WatermarkBelow(m.watermark, next.watermark))
  }

  predicate NewWatermarkOk(p: Proc, m: Manifest, names: seq<string>, w: Option<string>) {
    && names != [] && ManifestOk(m) && w.Some? && WatermarkAtMost(m.watermark, w)
    && (p.explicit.None? ==> WatermarkBelow(m.watermark, w) && AllAfter(names, m.watermark))
  }

  ghost predicate ProcOk(manifests: Store<(), Manifest>, p: Proc) {
    match p.pc
    case Get(v) => v < manifests.next
    case Plan(v, m) => Seen(manifests, (), v, m) && ManifestOk(m)
    case FoldEventFiles(v, m, names, w) => Seen(manifests, (), v, m) && NewWatermarkOk(p, m, names, w)
    case WriteSnapshot(v, m, names, w, _) => Seen(manifests, (), v, m) && NewWatermarkOk(p, m, names, w)
    case Publish(v, m, next, names) => Seen(manifests, (), v, m) && PublicationOk(p, m, next, names)
    case _ => true
  }

  ghost predicate Inv(s: State) {
    && WellFormed(s.manifests) && () in s.manifests.objects && ManifestOk(s.manifests.objects[()].body)
    && forall pid :: pid in s.procs ==> ProcOk(s.manifests, s.procs[pid])
  }

  lemma {:induction false} NamesAfterAreAfter(ledger: seq<LedgerFile>, w: Option<string>, i: nat)
    requires i < |NamesAfter(ledger, w)|
    ensures After(NamesAfter(ledger, w)[i], w)
    decreases |ledger|
  {
    if i < |NamesAfter(ledger[..|ledger| - 1], w)| {
      NamesAfterAreAfter(ledger[..|ledger| - 1], w, i);
    }
  }

  lemma PlanOk(cfg: Config, s: State, p: Proc, v: nat, m: Manifest, c: Choice)
    requires Seen(s.manifests, (), v, m) && ManifestOk(m)
    ensures ProcOk(s.manifests, p.(pc := StepPlan(cfg, s, p, v, m, c)))
  {
    if p.explicit.None? {
      var names := NamesAfter(Listing(s.ledger), m.watermark);
      forall i | 0 <= i < |names| ensures After(names[i], m.watermark) {
        NamesAfterAreAfter(Listing(s.ledger), m.watermark, i);
      }
    }
  }

  lemma FoldOk(cfg: Config, s: State, p: Proc, v: nat, m: Manifest, names: seq<string>, w: Option<string>, c: Choice)
    requires Seen(s.manifests, (), v, m) && NewWatermarkOk(p, m, names, w)
    ensures ProcOk(s.manifests, p.(pc := StepFold(cfg, s, v, m, names, w, c)))
  {
  }

  lemma WriteOk(s: State, p: Proc, v: nat, m: Manifest, names: seq<string>, w: Option<string>, content: Snapshot,
                c: Choice)
    requires Seen(s.manifests, (), v, m) && NewWatermarkOk(p, m, names, w)
    ensures ProcOk(s.manifests, p.(pc := StepWrite(s, v, m, names, w, content, c).1))
  {
  }

  /** How the published manifest changed between two states of a run. */
  ghost predicate ManifestEvolves(s: State, s': State) {
    && Grows(s.manifests, s'.manifests) && () in s.manifests.objects && () in s'.manifests.objects
    && var (m, m') := (s.manifests.objects[()].body, s'.manifests.objects[()].body);
    && WatermarkAtMost(m.watermark, m'.watermark) && m.snapshotVersion <= m'.snapshotVersion
    && (m.snapshotVersion == m'.snapshotVersion <==> m.snapshot == m'.snapshot)
  }

  lemma ProcStable(a: Store<(), Manifest>, b: Store<(), Manifest>, p: Proc)
    requires Grows(a, b) && ProcOk(a, p)
    ensures ProcOk(b, p)
  {
  }

  lemma PublishKeepsInv(cfg: Config, s: State, pid: nat, c: Choice)
    requires Inv(s) && pid in s.procs && s.procs[pid].pc.Publish?
    ensures var p := s.procs[pid];
            var s' := StepPublish(cfg, s, pid, p, p.pc.version, p.pc.manifest, p.pc.next, c);
            Inv(s') && ManifestEvolves(s, s')
  {
    var p := s.procs[pid];
    var s' := StepPublish(cfg, s, pid, p, p.pc.version, p.pc.manifest, p.pc.next, c);
    WriteGrows(s.manifests, (), p.pc.next);
    assert Grows(s.manifests, s'.manifests);
    forall q | q in s.procs && q != pid ensures ProcOk(s'.manifests, s'.procs[q]) {
      ProcStable(s.manifests, s'.manifests, s.procs[q]);
    }
  }

  lemma NextKeepsInv(cfg: Config, s: State, a: Action)
    requires Inv(s)
    ensures Inv(Next(cfg, s, a)) && ManifestEvolves(s, Next(cfg, s, a))
  {
    if a.Step? && a.pid in s.procs {
      var p := s.procs[a.pid];
      match p.pc
      case Plan(v, m) => PlanOk(cfg, s, p, v, m, a.choice);
      case FoldEventFiles(v, m, names, w) => FoldOk(cfg, s, p, v, m, names, w, a.choice);
      case WriteSnapshot(v, m, names, w, content) => WriteOk(s, p, v, m, names, w, content, a.choice);
      case Publish(_, _, _, _) => PublishKeepsInv(cfg, s, a.pid, a.choice);
      case _ =>
    }
  }

  lemma WatermarkTransitive(a: Option<string>, b: Option<string>, c: Option<string>)
    requires WatermarkAtMost(a, b) && WatermarkAtMost(b, c)
    ensures WatermarkAtMost(a, c)
  {
    if a.Some? && a != b && b != c {
      Transitive(a.value, b.value, c.value);
    }
  }

  lemma {:induction false} ExecKeepsInv(cfg: Config, s: State, run: seq<Action>)
    requires Inv(s)
    ensures Inv(Exec(cfg, s, run)) && ManifestEvolves(s, Exec(cfg, s, run))
    decreases |run|
  {
    if run != [] {
      var s1 := Next(cfg, s, run[0]);
      NextKeepsInv(cfg, s, run[0]);
      ExecKeepsInv(cfg, s1, run[1..]);
      var s2 := Exec(cfg, s, run);
      WatermarkTransitive(s.manifests.objects[()].body.watermark, s1.manifests.objects[()].body.watermark,
                          s2.manifests.objects[()].body.watermark);
      GrowsTransitive(s.manifests, s1.manifests, s2.manifests);
    }
  }

  // ------------------------------------------------------------------
  // Main results
  // ------------------------------------------------------------------

  lemma InitOk()
    ensures Inv(Init())
  {
  }

  /**
   Between any two points of any run, with any mix of listing and explicit compactors,
   the watermark does not regress and the snapshot version changes with the snapshot path.
   */
  lemma WatermarkNeverRegresses(cfg: Config, earlier: seq<Action>, later: seq<Action>)
    ensures var s := Exec(cfg, Init(), earlier);
            ManifestEvolves(s, Exec(cfg, s, later))
  {
    InitOk();
    ExecKeepsInv(cfg, Init(), earlier);
    ExecKeepsInv(cfg, Exec(cfg, Init(), earlier), later);
  }

  /**
   Every publication replaces exactly the manifest its compactor read, moves the snapshot
   version by one exactly when it changes the path, counts its batch, and, for a listing
   run, has only names after the watermark it replaces and advances it strictly when the
   batch is not empty.
   */
  lemma PublicationsAdvance(cfg: Config, run: seq<Action>, pid: nat, c: Choice)
    ensures var s := Exec(cfg, Init(), run);
            var s' := Next(cfg, s, Step(pid, c));
            && () in s.manifests.objects && () in s'.manifests.objects
            && var (m, next) := (s.manifests.objects[()].body, s'.manifests.objects[()].body);
            && (s.manifests != s'.manifests ==>
                  pid in s.procs && s.procs[pid].pc.Publish?
                  && PublicationOk(s.procs[pid], m, next, s.procs[pid].pc.names))
  {
    InitOk();
    ExecKeepsInv(cfg, Init(), run);
    var s := Exec(cfg, Init(), run);
    if pid in s.procs {
      assert ProcOk(s.manifests, s.procs[pid]);
    }
  }
}

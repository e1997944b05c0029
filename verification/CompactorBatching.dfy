/**
 Exactly when the batches of a compaction cannot be seen: a condition on the ledger alone
 under which every way of cutting it into batches ends in the single fold of its files,
 and under which every run of listing compactors publishes that single fold.
 */
module CompactorBatching {
  import opened ObjectStore
  import opened LexOrder
  import opened CompactorFold
  import opened CompactorBatch
  import opened CompactorProtocol
  import opened CompactorCoverage
  import opened CompactorTheorems
  import opened CompactorBoundary

  // ------------------------------------------------------------------
  // Cutting a ledger
  // ------------------------------------------------------------------

  /** The record one batch decides for an id, if any. */
  ghost function DecidedBy(es: seq<Event>, id: string): Option<Record> {
    if Winner(es, id) >= 0 then Some(es[Winner(es, id)].record) else None
  }

  /** The first `n` files can be compacted: under `Reject` none of them is unreadable. */
  ghost predicate Compactable(policy: UnknownEventPolicy, ledger: seq<LedgerFile>, n: nat) {
    n <= |ledger| && (policy == Reject ==> forall i :: 0 <= i < n ==> !ledger[i].event.Bad?)
  }

  /** What the files from `a` to `b` decide for an id on their own, they also decide after all files before them. */
  ghost predicate SuffixAgrees(ledger: seq<LedgerFile>, a: nat, b: nat, id: string)
    requires a <= b <= |ledger|
  {
    var decided := DecidedBy(Batch(ledger, a, b), id);
    decided.Some? ==> decided == DecidedBy(Batch(ledger, 0, b), id)
  }

  /** No batch of files that can be compacted overrules the files before it. */
  ghost predicate SuffixesAgree(policy: UnknownEventPolicy, ledger: seq<LedgerFile>) {
    forall a: nat, b: nat, id :: a <= b && Compactable(policy, ledger, b) ==> SuffixAgrees(ledger, a, b, id)
  }

  lemma SameRecords(a: Snapshot, b: Snapshot)
    requires forall id :: RecordAt(a, id) == RecordAt(b, id)
    ensures a == b
  {
    forall id ensures (id in a <==> id in b) && (id in a ==> a[id] == b[id]) {
      assert RecordAt(a, id) == RecordAt(b, id);
    }
  }

  /** For one id: folding the files from `a` to `b` onto the fold of the files before them. */
  lemma SplitDecides(ledger: seq<LedgerFile>, a: nat, b: nat, id: string)
    requires a <= b <= |ledger|
    ensures var whole := FoldBatch(map[], Batch(ledger, 0, b));
            var split := FoldBatch(FoldBatch(map[], Batch(ledger, 0, a)), Batch(ledger, a, b));
            RecordAt(split, id) == RecordAt(whole, id) <==> SuffixAgrees(ledger, a, b, id)
  {
    var (first, second) := (Batch(ledger, 0, a), Batch(ledger, a, b));
    assert Batch(ledger, 0, b) == first + second;
    FoldBatchAt(map[], first, id);
    FoldBatchAt(FoldBatch(map[], first), second, id);
    FoldBatchAt(map[], first + second, id);
    if Winner(second, id) < 0 {
      WinnerOfPrefix(first, second, id);
    }
  }

  /** The chain's `k`-th content is the single fold of the files it covers. */
  ghost predicate IsOneFold(ledger: seq<LedgerFile>, c: Cut) {
    c.count <= |ledger| && c.content == FoldBatch(map[], Batch(ledger, 0, c.count))
  }

  lemma {:induction false} ChainIsOneFold(policy: UnknownEventPolicy, ledger: seq<LedgerFile>, chain: seq<Cut>, k: nat)
    requires SuffixesAgree(policy, ledger) && BatchChain(ledger, chain) && k < |chain|
    requires Compactable(policy, ledger, chain[k].count)
    ensures IsOneFold(ledger, chain[k])
    decreases k
  {
    if k == 0 {
      FirstBatch(ledger);
    } else {
      assert BatchStep(ledger, chain[k - 1], chain[k]);
      ChainIsOneFold(policy, ledger, chain, k - 1);
      var (a, b) := (chain[k - 1].count, chain[k].count);
      forall id ensures RecordAt(chain[k].content, id) == RecordAt(FoldBatch(map[], Batch(ledger, 0, b)), id) {
        assert SuffixAgrees(ledger, a, b, id);
        SplitDecides(ledger, a, b, id);
      }
      SameRecords(chain[k].content, FoldBatch(map[], Batch(ledger, 0, b)));
    }
  }

  /** The chain of two batches that cuts at `a` and ends at `b`. */
  ghost function TwoBatches(ledger: seq<LedgerFile>, a: nat, b: nat): seq<Cut>
    requires a <= b <= |ledger|
  {
    var first := FoldBatch(map[], Batch(ledger, 0, a));
    [Cut(0, map[]), Cut(a, first), Cut(b, FoldBatch(first, Batch(ledger, a, b)))]
  }

  /** Every chain of batches over files that can be compacted ends in one fold. */
  ghost predicate ChainsEndInOneFold(policy: UnknownEventPolicy, ledger: seq<LedgerFile>) {
    forall chain: seq<Cut> :: BatchChain(ledger, chain) && Compactable(policy, ledger, chain[|chain| - 1].count) ==>
      IsOneFold(ledger, chain[|chain| - 1])
  }

  /**
   However a ledger is cut into batches the result is the single fold, exactly when no
   suffix overrules what precedes it.
   */
  lemma ChainsEndInOneFoldIff(policy: UnknownEventPolicy, ledger: seq<LedgerFile>)
    ensures ChainsEndInOneFold(policy, ledger) <==> SuffixesAgree(policy, ledger)
  {
    if SuffixesAgree(policy, ledger) {
      forall chain: seq<Cut> | BatchChain(ledger, chain) && Compactable(policy, ledger, chain[|chain| - 1].count)
        ensures IsOneFold(ledger, chain[|chain| - 1])
      {
        ChainIsOneFold(policy, ledger, chain, |chain| - 1);
      }
    }
    if ChainsEndInOneFold(policy, ledger) {
      forall a: nat, b: nat, id | a <= b && Compactable(policy, ledger, b) ensures SuffixAgrees(ledger, a, b, id) {
        assert BatchChain(ledger, TwoBatches(ledger, a, b));
        assert IsOneFold(ledger, TwoBatches(ledger, a, b)[2]);
        SplitDecides(ledger, a, b, id);
      }
    }
  }

  // ------------------------------------------------------------------
  // Runs publish only files that can be compacted
  // ------------------------------------------------------------------

  ghost predicate PcCompactable(policy: UnknownEventPolicy, ledger: seq<LedgerFile>, pc: Pc) {
    match pc
    case Plan(_, m) => Compactable(policy, ledger, m.totalEvents)
    case FoldEventFiles(_, m, _, _) => Compactable(policy, ledger, m.totalEvents)
    case WriteSnapshot(_, m, names, _, _) => Compactable(policy, ledger, m.totalEvents + |names|)
    case Publish(_, _, next, _) => Compactable(policy, ledger, next.totalEvents)
    case _ => true
  }

  ghost predicate AllCompactable(policy: UnknownEventPolicy, s: State) {
    && () in s.manifests.objects && Compactable(policy, s.ledger, s.manifests.objects[()].body.totalEvents)
    && forall pid :: pid in s.procs ==> PcCompactable(policy, s.ledger, s.procs[pid].pc)
  }

  lemma PcStaysCompactable(policy: UnknownEventPolicy, ledger: seq<LedgerFile>, ledger': seq<LedgerFile>, pc: Pc)
    requires ledger <= ledger' && PcCompactable(policy, ledger, pc)
    ensures PcCompactable(policy, ledger', pc)
  {
  }

  lemma BatchCompactable(policy: UnknownEventPolicy, ledger: seq<LedgerFile>, a: nat, b: nat)
    requires a <= b <= |ledger| && Compactable(policy, ledger, a) && (policy == Reject ==> Bad !in Batch(ledger, a, b))
    ensures Compactable(policy, ledger, b)
  {
    forall i | a <= i < b && policy == Reject ensures !ledger[i].event.Bad? {
      assert Batch(ledger, a, b)[i - a] == ledger[i].event;
    }
  }

  lemma FoldCompactable(cfg: Config, s: State, h: History, v: nat, m: Manifest, names: seq<string>, w: Option<string>,
                        c: Choice)
    requires h.ledger == s.ledger && InOrder(s.ledger) && HistoryOk(h) && BatchOk(h, m, names, w)
    requires Compactable(cfg.policy, s.ledger, m.totalEvents)
    ensures PcCompactable(cfg.policy, s.ledger, StepFold(cfg, s, v, m, names, w, c))
  {
    BatchEvents(s.ledger, m.totalEvents, names);
    var pc := StepFold(cfg, s, v, m, names, w, c);
    if !pc.Failed? {
      BatchCompactable(cfg.policy, s.ledger, m.totalEvents, m.totalEvents + |names|);
    }
  }

  lemma PlanCompactable(cfg: Config, s: State, p: Proc, v: nat, m: Manifest, c: Choice)
    requires p.explicit.None? && Compactable(cfg.policy, s.ledger, m.totalEvents)
    ensures PcCompactable(cfg.policy, s.ledger, StepPlan(cfg, s, p, v, m, c))
  {
    PlanIs(cfg, s, p, v, m, c, NamesAfter(Listing(s.ledger), m.watermark));
  }

  lemma WriteCompactable(policy: UnknownEventPolicy, s: State, v: nat, m: Manifest, names: seq<string>,
                         w: Option<string>,
                         content: Snapshot, c: Choice)
    requires Compactable(policy, s.ledger, m.totalEvents + |names|)
    ensures PcCompactable(policy, s.ledger, StepWrite(s, v, m, names, w, content, c).1)
  {
  }

  /** The manifest that is published, and the compactor's next step, stay within what can be compacted. */
  ghost predicate StepsWithin(policy: UnknownEventPolicy, s: State, s': State, pid: nat) {
    && pid in s'.procs && s'.procs == s.procs[pid := s'.procs[pid]] && s'.ledger == s.ledger
    && () in s'.manifests.objects && Compactable(policy, s.ledger, s'.manifests.objects[()].body.totalEvents)
    && PcCompactable(policy, s.ledger, s'.procs[pid].pc)
  }

  lemma PublishCompactable(cfg: Config, s: State, pid: nat, p: Proc, v: nat, m: Manifest, next: Manifest, c: Choice)
    requires () in s.manifests.objects && Compactable(cfg.policy, s.ledger, s.manifests.objects[()].body.totalEvents)
    requires Compactable(cfg.policy, s.ledger, next.totalEvents)
    ensures StepsWithin(cfg.policy, s, StepPublish(cfg, s, pid, p, v, m, next, c), pid)
  {
  }

  lemma StepCompactable(cfg: Config, s: State, h: History, pid: nat, p: Proc, c: Choice)
    requires h.ledger == s.ledger && InOrder(s.ledger) && HistoryOk(h) && PcCovers(h, s.snapshots.objects.Keys, p.pc)
    requires pid in s.procs && s.procs[pid] == p && p.explicit.None? && AllCompactable(cfg.policy, s)
    ensures StepsWithin(cfg.policy, s, StepProcess(cfg, s, pid, p, c), pid)
  {
    assert PcCompactable(cfg.policy, s.ledger, p.pc);
    match p.pc
    case Plan(v, m) => PlanCompactable(cfg, s, p, v, m, c);
    case FoldEventFiles(v, m, names, w) => FoldCompactable(cfg, s, h, v, m, names, w, c);
    case WriteSnapshot(v, m, names, w, content) => WriteCompactable(cfg.policy, s, v, m, names, w, content, c);
    case Publish(v, m, next, _) => PublishCompactable(cfg, s, pid, p, v, m, next, c);
    case _ =>
  }

  lemma NextCompactable(cfg: Config, s: State, a: Action)
    requires Coverage(cfg, s) && AllCompactable(cfg.policy, s)
    ensures AllCompactable(cfg.policy, Next(cfg, s, a))
  {
    if a.Step? && a.pid in s.procs {
      StepCompactable(cfg, s, HistoryOf(cfg, s), a.pid, s.procs[a.pid], a.choice);
    } else if a.Append? {
      var s' := Next(cfg, s, a);
      forall pid | pid in s'.procs ensures PcCompactable(cfg.policy, s'.ledger, s'.procs[pid].pc) {
        PcStaysCompactable(cfg.policy, s.ledger, s'.ledger, s.procs[pid].pc);
      }
    }
  }

  lemma {:induction false} ExecCompactable(cfg: Config, s: State, run: seq<Action>)
    requires FoldLaws(cfg.fold) && cfg.listingOnly && cfg.sortedAppends
    requires Inv(s) && Coverage(cfg, s) && AllCompactable(cfg.policy, s)
    ensures AllCompactable(cfg.policy, Exec(cfg, s, run))
    decreases |run|
  {
    if run != [] {
      NextKeepsInv(cfg, s, run[0]);
      NextCovers(cfg, s, run[0]);
      NextCompactable(cfg, s, run[0]);
      ExecCompactable(cfg, Next(cfg, s, run[0]), run[1..]);
    }
  }

  /** The published snapshot is the single fold of the files at or below the watermark. */
  ghost predicate PublishesOneFold(s: State) {
    && () in s.manifests.objects
    && var m := s.manifests.objects[()].body;
    && m.totalEvents <= |s.ledger|
    && LoadSnapshot(s.snapshots, m) == Some(FoldBatch(map[], Batch(s.ledger, 0, m.totalEvents)))
  }

  lemma RunPublishesOneFold(cfg: Config, run: seq<Action>)
    requires cfg == Orderly(cfg.policy, cfg.late, cfg.maxRetries)
    requires SuffixesAgree(cfg.policy, Exec(cfg, Init(), run).ledger)
    ensures PublishesOneFold(Exec(cfg, Init(), run))
  {
    var s := Exec(cfg, Init(), run);
    FoldOntoLaws();
    InitCovers(cfg);
    ExecCompactable(cfg, Init(), run);
    PublishedSnapshotCovers(cfg.policy, cfg.late, cfg.maxRetries, run);
    var chain :| CoversExactly(s, chain);
    ChainIsOneFold(cfg.policy, s.ledger, chain, |chain| - 1);
  }

  // ------------------------------------------------------------------
  // Every cut can happen
  // ------------------------------------------------------------------

  function FileOf(e: Event): EventFile {
    match e
    case Bad => Unparseable
    case Good(key, record, sequence) => Envelope(true, EXPECTED_TYPE, EXPECTED_VERSION, key, Some(record), sequence)
  }

  /** The files of a ledger in name order can be appended one by one. */
  lemma {:induction false} AppendFiles(cfg: Config, run: seq<Action>, s: State, ledger: seq<LedgerFile>, i: nat, j: nat)
    returns (run': seq<Action>)
    requires Exec(cfg, Init(), run) == s && InOrder(ledger) && i <= j <= |ledger| && s.ledger == ledger[..i]
    ensures Exec(cfg, Init(), run') == s.(ledger := ledger[..j])
    decreases j - i
  {
    if i == j {
      run' := run;
    } else {
      var (name, file) := (ledger[i].name, FileOf(ledger[i].event));
      forall k | 0 <= k < i ensures s.ledger[k].name != name {
        Irreflexive(name);
      }
      var run1, s1 := Do(cfg, run, s, Append(name, file));
      assert s1.ledger == ledger[..i + 1];
      run' := AppendFiles(cfg, run1, s1, ledger, i + 1, j);
    }
  }

  /**
   The manifest covers the first `n` files with content `base`, and no snapshot file of a
   later version lies around.
   */
  ghost predicate Settled(s: State, n: nat, base: Snapshot) {
    && InOrder(s.ledger) && () in s.manifests.objects
    && var m := s.manifests.objects[()].body;
    && m.totalEvents == n && WatermarkAt(s.ledger, m.watermark, n)
    && LoadSnapshot(s.snapshots, m) == Some(base)
    && forall path :: path in s.snapshots.objects ==> path.version <= m.snapshotVersion
  }

  function Lister(pc: Pc): Proc { Proc(None, 0, pc) }

  /** A compactor starts and reads the manifest ... */
  lemma ListerReads(cfg: Config, run: seq<Action>, s: State, pid: nat) returns (run': seq<Action>)
    requires Exec(cfg, Init(), run) == s && pid !in s.procs && cfg.maxRetries > 0 && () in s.manifests.objects
    ensures var o := s.manifests.objects[()];
            Exec(cfg, Init(), run') == s.(procs := s.procs[pid := Lister(Plan(o.version, o.body))])
  {
    var o := s.manifests.objects[()];
    var r1, s1 := Do(cfg, run, s, Start(pid, None));
    var r2, s2 := Do(cfg, r1, s1, Step(pid, GO));
    var r3, s3 := Do(cfg, r2, s2, Step(pid, GO));
    assert s3.procs == s.procs[pid := Lister(Plan(o.version, o.body))];
    run' := r3;
  }

  /** ... lists the files after the watermark ... */
  lemma ListerPlans(cfg: Config, run: seq<Action>, s: State, pid: nat, v: nat, m: Manifest, names: seq<string>)
    returns (run': seq<Action>)
    requires Exec(cfg, Init(), run) == s && pid in s.procs && s.procs[pid] == Lister(Plan(v, m))
    requires names != [] && names == NamesAfter(Listing(s.ledger), m.watermark)
    ensures Exec(cfg, Init(), run')
            == s.(procs := s.procs[pid := Lister(FoldEventFiles(v, m, names, Some(names[|names| - 1])))])
  {
    var r1, s1 := Do(cfg, run, s, Step(pid, GO));
    run' := r1;
  }

  /** Where a compactor goes with the files it has read. */
  ghost function AfterFold(fold: BatchFold, v: nat, m: Manifest, names: seq<string>, w: Option<string>, base: Snapshot,
                           batch: seq<Event>): Pc {
    match fold(base, batch)
    case Some(content) => WriteSnapshot(v, m, names, w, content)
    case None => Publish(v, m, Advanced(m, w, |names|, m.snapshot, m.snapshotVersion, 0, 0), names)
  }

  /** ... and folds them onto the snapshot, ... */
  lemma ListerFolds(cfg: Config, run: seq<Action>, s: State, pid: nat, v: nat, m: Manifest, names: seq<string>,
                    w: Option<string>, base: Snapshot, batch: seq<Event>) returns (run': seq<Action>)
    requires Exec(cfg, Init(), run) == s && pid in s.procs && s.procs[pid] == Lister(FoldEventFiles(v, m, names, w))
    requires ReadEvents(s.ledger, names) == Some(batch) && LoadSnapshot(s.snapshots, m) == Some(base)
    requires cfg.policy == Reject ==> Bad !in batch
    ensures Exec(cfg, Init(), run')
            == s.(procs := s.procs[pid := Lister(AfterFold(cfg.fold, v, m, names, w, base, batch))])
  {
    var r1, s1 := Do(cfg, run, s, Step(pid, GO));
    run' := r1;
  }

  /** ... writes the new snapshot file, if there is one, ... */
  lemma ListerWrites(cfg: Config, run: seq<Action>, s: State, pid: nat, v: nat, m: Manifest, names: seq<string>,
                     w: Option<string>, content: Snapshot) returns (run': seq<Action>)
    requires Exec(cfg, Init(), run) == s && pid in s.procs
    requires s.procs[pid] == Lister(WriteSnapshot(v, m, names, w, content))
    requires names != [] && NewSnapshotPath(m, names) !in s.snapshots.objects
    ensures var path := NewSnapshotPath(m, names);
            var next := Advanced(m, w, |names|, Some(path), m.snapshotVersion + 1, 1, 0);
            Exec(cfg, Init(), run') == s.(snapshots := Write(s.snapshots, path, content),
                                          procs := s.procs[pid := Lister(Publish(v, m, next, names))])
  {
    var r1, s1 := Do(cfg, run, s, Step(pid, GO));
    run' := r1;
  }

  /** ... and publishes. */
  lemma ListerPublishes(cfg: Config, run: seq<Action>, s: State, pid: nat, v: nat, m: Manifest, next: Manifest,
                        names: seq<string>)
    returns (run': seq<Action>, s': State)
    requires Exec(cfg, Init(), run) == s && pid in s.procs && s.procs[pid] == Lister(Publish(v, m, next, names))
    requires () in s.manifests.objects && s.manifests.objects[()].version == v
    ensures Exec(cfg, Init(), run') == s' && s'.ledger == s.ledger && s'.snapshots == s.snapshots
    ensures s'.procs == s.procs[pid := Lister(Done)]
    ensures () in s'.manifests.objects && s'.manifests.objects[()].body == next
  {
    run', s' := Do(cfg, run, s, Step(pid, GO));
  }

  /** A snapshot file was written for the batch, or nothing in it could be applied. */
  lemma BatchPublished(s: State, s': State, m: Manifest, next: Manifest, base: Snapshot, batch: seq<Event>)
    requires Settled(s, m.totalEvents, base) && s.manifests.objects[()].body == m && s'.ledger == s.ledger
    requires () in s'.manifests.objects && s'.manifests.objects[()].body == next && next.totalEvents == |s.ledger|
    requires WatermarkAt(s.ledger, next.watermark, |s.ledger|)
    requires match FoldOnto(base, batch)
             case Some(content) =>
               && next.snapshotVersion == m.snapshotVersion + 1 && next.snapshot.Some?
               && next.snapshot.value.version == next.snapshotVersion
               && s'.snapshots == Write(s.snapshots, next.snapshot.value, content)
             case None =>
               next.snapshot == m.snapshot && next.snapshotVersion == m.snapshotVersion && s'.snapshots == s.snapshots
    ensures Settled(s', |s.ledger|, FoldBatch(base, batch))
  {
    OntoIsFoldBatch(base, batch);
  }

  lemma RoundPublishes(cfg: Config, run: seq<Action>, s: State, pid: nat, v: nat, m: Manifest,
                       names: seq<string>, w: Option<string>, base: Snapshot, batch: seq<Event>)
    returns (run': seq<Action>, s': State)
    requires cfg.fold == FoldOnto
    requires Exec(cfg, Init(), run)
             == s.(procs := s.procs[pid := Lister(AfterFold(FoldOnto, v, m, names, w, base, batch))])
    requires Settled(s, m.totalEvents, base) && s.manifests.objects[()] == Object(v, m)
    requires names != [] && m.totalEvents + |names| == |s.ledger| && WatermarkAt(s.ledger, w, |s.ledger|)
    ensures Exec(cfg, Init(), run') == s' && s'.ledger == s.ledger && s'.procs == s.procs[pid := Lister(Done)]
    ensures Settled(s', |s.ledger|, FoldBatch(base, batch))
  {
    var s0 := Exec(cfg, Init(), run);
    match FoldOnto(base, batch)
    case Some(content) =>
      var r1 := ListerWrites(cfg, run, s0, pid, v, m, names, w, content);
      var s1 := Exec(cfg, Init(), r1);
      run', s' := ListerPublishes(cfg, r1, s1, pid, v, m, s1.procs[pid].pc.next, names);
      BatchPublished(s, s', m, s1.procs[pid].pc.next, base, batch);
    case None =>
      run', s' := ListerPublishes(cfg, run, s0, pid, v, m, s0.procs[pid].pc.next, names);
      BatchPublished(s, s', m, s0.procs[pid].pc.next, base, batch);
  }

  /** What a compaction of the files from `n` on reads. */
  lemma RoundReads(policy: UnknownEventPolicy, ledger: seq<LedgerFile>, w: Option<string>, n: nat)
    returns (names: seq<string>)
    requires InOrder(ledger) && n < |ledger| && WatermarkAt(ledger, w, n) && Compactable(policy, ledger, |ledger|)
    ensures names != [] && n + |names| == |ledger| && names == NamesAfter(Listing(ledger), w)
    ensures WatermarkAt(ledger, Some(names[|names| - 1]), |ledger|)
    ensures var batch := Batch(ledger, n, |ledger|);
            ReadEvents(ledger, names) == Some(batch) && (policy == Reject ==> Bad !in batch)
  {
    names := NamesAfter(Listing(ledger), w);
    ListedNames(ledger, w, n);
    BatchEvents(ledger, n, names);
  }

  /** From the start of a compaction to the fold of its batch. */
  lemma RoundFolds(cfg: Config, run: seq<Action>, s: State, pid: nat, v: nat, m: Manifest,
                   names: seq<string>, base: Snapshot, batch: seq<Event>) returns (run': seq<Action>)
    requires Exec(cfg, Init(), run) == s && pid !in s.procs && cfg.maxRetries > 0
    requires () in s.manifests.objects && s.manifests.objects[()] == Object(v, m)
    requires names != [] && names == NamesAfter(Listing(s.ledger), m.watermark)
    requires ReadEvents(s.ledger, names) == Some(batch) && LoadSnapshot(s.snapshots, m) == Some(base)
    requires cfg.policy == Reject ==> Bad !in batch
    ensures var pc := AfterFold(cfg.fold, v, m, names, Some(names[|names| - 1]), base, batch);
            Exec(cfg, Init(), run') == s.(procs := s.procs[pid := Lister(pc)])
  {
    var r1 := ListerReads(cfg, run, s, pid);
    var r2 := ListerPlans(cfg, r1, Exec(cfg, Init(), r1), pid, v, m, names);
    run' := ListerFolds(cfg, r2, Exec(cfg, Init(), r2), pid, v, m, names, Some(names[|names| - 1]), base, batch);
  }

  /** A compaction that reads `batch`, from its start to its publication. */
  lemma RoundOf(cfg: Config, run: seq<Action>, s: State, pid: nat, m: Manifest, names: seq<string>, base: Snapshot,
                batch: seq<Event>)
    returns (run': seq<Action>, s': State)
    requires cfg.fold == FoldOnto && Exec(cfg, Init(), run) == s && pid !in s.procs && cfg.maxRetries > 0
    requires Settled(s, m.totalEvents, base) && s.manifests.objects[()].body == m
    requires names != [] && names == NamesAfter(Listing(s.ledger), m.watermark) && m.totalEvents + |names| == |s.ledger|
    requires WatermarkAt(s.ledger, Some(names[|names| - 1]), |s.ledger|)
    requires ReadEvents(s.ledger, names) == Some(batch) && (cfg.policy == Reject ==> Bad !in batch)
    ensures Exec(cfg, Init(), run') == s' && s'.ledger == s.ledger && s'.procs == s.procs[pid := Lister(Done)]
    ensures Settled(s', |s.ledger|, FoldBatch(base, batch))
  {
    var v := s.manifests.objects[()].version;
    var r1 := RoundFolds(cfg, run, s, pid, v, m, names, base, batch);
    run', s' := RoundPublishes(cfg, r1, s, pid, v, m, names, Some(names[|names| - 1]), base, batch);
  }

  /** One compaction on its own covers everything appended so far as one batch. */
  lemma Round(cfg: Config, run: seq<Action>, s: State, pid: nat, n: nat, base: Snapshot)
    returns (run': seq<Action>, s': State)
    requires cfg.fold == FoldOnto && cfg.maxRetries > 0 && Exec(cfg, Init(), run) == s
    requires Settled(s, n, base) && pid !in s.procs && n < |s.ledger| && Compactable(cfg.policy, s.ledger, |s.ledger|)
    ensures Exec(cfg, Init(), run') == s' && s'.ledger == s.ledger && s'.procs == s.procs[pid := Lister(Done)]
    ensures Settled(s', |s.ledger|, FoldBatch(base, Batch(s.ledger, n, |s.ledger|)))
  {
    var m := s.manifests.objects[()].body;
    var names := RoundReads(cfg.policy, s.ledger, m.watermark, n);
    run', s' := RoundOf(cfg, run, s, pid, m, names, base, Batch(s.ledger, n, |s.ledger|));
  }

  /** A settled state stays settled when files are appended. */
  lemma SettledStays(s: State, ledger: seq<LedgerFile>, n: nat, base: Snapshot)
    requires Settled(s, n, base) && InOrder(ledger) && s.ledger <= ledger
    ensures Settled(s.(ledger := ledger), n, base)
  {
  }

  lemma PrefixInOrder(ledger: seq<LedgerFile>, n: nat)
    requires InOrder(ledger) && n <= |ledger|
    ensures InOrder(ledger[..n])
  {
  }

  /** The files from `n` to `b` are appended and compacted. */
  lemma AppendedRound(cfg: Config, run: seq<Action>, s: State, ledger: seq<LedgerFile>, n: nat, b: nat, pid: nat,
                      base: Snapshot)
    returns (run': seq<Action>, s': State)
    requires cfg.fold == FoldOnto && cfg.maxRetries > 0 && Exec(cfg, Init(), run) == s
    requires InOrder(ledger) && n < b <= |ledger| && s.ledger == ledger[..n] && Compactable(cfg.policy, ledger, b)
    requires Settled(s, n, base) && pid !in s.procs
    ensures Exec(cfg, Init(), run') == s' && s'.ledger == ledger[..b] && s'.procs == s.procs[pid := Lister(Done)]
    ensures Settled(s', b, FoldBatch(base, Batch(ledger, n, b)))
  {
    PrefixInOrder(ledger, b);
    var r := AppendFiles(cfg, run, s, ledger, n, b);
    SettledStays(s, ledger[..b], n, base);
    run', s' := Round(cfg, r, s.(ledger := ledger[..b]), pid, n, base);
    assert Batch(ledger[..b], n, b) == Batch(ledger, n, b);
  }

  /** The first `a` files are appended and compacted, then those up to `b`, then the rest is appended. */
  lemma TwoRounds(cfg: Config, ledger: seq<LedgerFile>, a: nat, b: nat) returns (run: seq<Action>)
    requires cfg.fold == FoldOnto && cfg.maxRetries > 0 && InOrder(ledger) && 0 < a < b <= |ledger|
    requires Compactable(cfg.policy, ledger, b)
    ensures var s := Exec(cfg, Init(), run);
            && s.ledger == ledger
            && Settled(s, b, FoldBatch(FoldBatch(map[], Batch(ledger, 0, a)), Batch(ledger, a, b)))
  {
    var r1, s1 := AppendedRound(cfg, [], Init(), ledger, 0, a, 0, map[]);
    var first := FoldBatch(map[], Batch(ledger, 0, a));
    var r2, s2 := AppendedRound(cfg, r1, s1, ledger, a, b, 1, first);
    run := AppendFiles(cfg, r2, s2, ledger, b, |ledger|);
    assert ledger[..|ledger|] == ledger;
    SettledStays(s2, ledger, b, FoldBatch(first, Batch(ledger, a, b)));
  }

  // ------------------------------------------------------------------
  // Main results
  // ------------------------------------------------------------------

  /** Every run that leaves this ledger has published the single fold of the files at or below its watermark. */
  ghost predicate RunsPublishOneFold(cfg: Config, ledger: seq<LedgerFile>) {
    forall run :: Exec(cfg, Init(), run).ledger == ledger ==> PublishesOneFold(Exec(cfg, Init(), run))
  }

  /** A suffix that overrules the files before it shows in a run that cuts there. */
  lemma OverruledInSomeRun(cfg: Config, ledger: seq<LedgerFile>, a: nat, b: nat, id: string)
    requires cfg.fold == FoldOnto && cfg.maxRetries > 0 && InOrder(ledger)
    requires a <= b && Compactable(cfg.policy, ledger, b) && !SuffixAgrees(ledger, a, b, id)
    ensures !RunsPublishOneFold(cfg, ledger)
  {
    assert a != b by {
      assert Batch(ledger, b, b) == [];
    }
    var run := TwoRounds(cfg, ledger, a, b);
    SplitDecides(ledger, a, b, id);
    assert !PublishesOneFold(Exec(cfg, Init(), run));
  }

  /**
   For every ledger in name order: all runs of listing compactors over it publish one fold of
   the files at or below the watermark, exactly when no batch that can be compacted overrules
   the files before it.
   */
  lemma RunsPublishOneFoldIff(policy: UnknownEventPolicy, late: LateEventPolicy, maxRetries: nat,
                              ledger: seq<LedgerFile>)
    requires InOrder(ledger) && maxRetries > 0
    ensures RunsPublishOneFold(Orderly(policy, late, maxRetries), ledger) <==> SuffixesAgree(policy, ledger)
  {
    var cfg := Orderly(policy, late, maxRetries);
    if SuffixesAgree(policy, ledger) {
      forall run | Exec(cfg, Init(), run).ledger == ledger ensures PublishesOneFold(Exec(cfg, Init(), run)) {
        RunPublishesOneFold(cfg, run);
      }
    } else {
      var a: nat, b: nat, id :| a <= b && Compactable(policy, ledger, b) && !SuffixAgrees(ledger, a, b, id);
      OverruledInSomeRun(cfg, ledger, a, b, id);
    }
  }
}

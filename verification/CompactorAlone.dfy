/**
 One compaction left alone, listing or with explicit names: which files it takes, and what
 manifest and snapshot it leaves, for every ledger and every manifest it starts from.
 */
module CompactorAlone {
  import opened ObjectStore
  import opened LexOrder
  import opened CompactorFold
  import opened CompactorBatch
  import opened CompactorProtocol
  import opened CompactorTheorems
  import opened CompactorCoverage

  // ------------------------------------------------------------------
  // Which files are taken
  // ------------------------------------------------------------------

  ghost predicate Ascends(names: seq<string>) { forall i, j :: 0 <= i < j < |names| ==> !Less(names[j], names[i]) }

  lemma {:induction false} InsertedOnce(sorted: seq<string>, name: string)
    ensures multiset(InsertName(sorted, name)) == multiset(sorted) + multiset{name}
    decreases |sorted|
  {
    if sorted != [] && Less(name, sorted[|sorted| - 1]) {
      var n := |sorted| - 1;
      InsertedOnce(sorted[..n], name);
      assert sorted == sorted[..n] + [sorted[n]];
    }
  }

  lemma AscendsOn(names: seq<string>, last: string)
    requires Ascends(names) && forall i :: 0 <= i < |names| ==> !Less(last, names[i])
    ensures Ascends(names + [last])
  {
  }

  lemma {:induction false} InsertedInOrder(sorted: seq<string>, name: string)
    requires Ascends(sorted)
    ensures Ascends(InsertName(sorted, name))
    decreases |sorted|
  {
    if sorted != [] && Less(name, sorted[|sorted| - 1]) {
      var (init, last) := (sorted[..|sorted| - 1], sorted[|sorted| - 1]);
      InsertedInOrder(init, name);
      InsertedOnce(init, name);
      var out := InsertName(init, name);
      forall i | 0 <= i < |out| ensures !Less(last, out[i]) {
        assert out[i] in multiset(out);
        if out[i] == name {
          Asymmetric(name, last);
        }
      }
      AscendsOn(out, last);
    } else {
      forall i | 0 <= i < |sorted| ensures !Less(name, sorted[i]) {
        Irreflexive(sorted[i]);
        NotLessTransitive(sorted[i], sorted[|sorted| - 1], name);
      }
      AscendsOn(sorted, name);
    }
  }

  lemma NotLessTransitive(a: string, b: string, c: string)
    requires (a == b || !Less(b, a)) && !Less(c, b)
    ensures !Less(c, a)
  {
    if Less(c, a) {
      Total(a, b);
      if Less(a, b) {
        Transitive(c, a, b);
      }
    }
  }

  lemma {:induction false} ExplicitAscends(names: seq<string>, w: Option<string>, late: LateEventPolicy)
    ensures Ascends(ExplicitNames(names, w, late))
    decreases |names|
  {
    if names != [] {
      var n := |names| - 1;
      ExplicitAscends(names[..n], w, late);
      InsertedInOrder(ExplicitNames(names[..n], w, late), names[n]);
    }
  }

  lemma {:induction false} ExplicitCounts(names: seq<string>, w: Option<string>, late: LateEventPolicy, x: string)
    ensures multiset(ExplicitNames(names, w, late))[x]
            == if late == Process || After(x, w) then multiset(names)[x] else 0
    decreases |names|
  {
    if names != [] {
      var (init, last) := (names[..|names| - 1], names[|names| - 1]);
      var rest := ExplicitNames(init, w, late);
      ExplicitCounts(init, w, late, x);
      assert names == init + [last];
      if After(last, w) || late == Process {
        InsertedOnce(rest, last);
        assert multiset(ExplicitNames(names, w, late)) == multiset(rest) + multiset{last};
      } else {
        assert ExplicitNames(names, w, late) == rest;
      }
    }
  }

  /**
   An explicit compaction takes, in ascending order and as often as they were given, the names
   after the watermark, and the late ones too under the `Process` policy.
   */
  lemma ExplicitTakes(names: seq<string>, w: Option<string>, late: LateEventPolicy, x: string)
    ensures Ascends(ExplicitNames(names, w, late))
    ensures multiset(ExplicitNames(names, w, late))[x]
            == if late == Process || w.None? || Less(w.value, x) then multiset(names)[x] else 0
  {
    ExplicitAscends(names, w, late);
    ExplicitCounts(names, w, late, x);
  }

  function NamesOf(ledger: seq<LedgerFile>): (names: seq<string>)
    ensures |names| == |ledger| && forall i :: 0 <= i < |ledger| ==> names[i] == ledger[i].name
  {
    seq(|ledger|, i requires 0 <= i < |ledger| => ledger[i].name)
  }

  lemma NamesOfConcat(a: seq<LedgerFile>, b: seq<LedgerFile>)
    ensures NamesOf(a + b) == NamesOf(a) + NamesOf(b)
  {
  }

  lemma {:induction false} FileInsertedOnce(sorted: seq<LedgerFile>, e: LedgerFile)
    ensures multiset(NamesOf(InsertByName(sorted, e))) == multiset(NamesOf(sorted)) + multiset{e.name}
    decreases |sorted|
  {
    if sorted == [] || Less(sorted[|sorted| - 1].name, e.name) {
      NamesOfConcat(sorted, [e]);
    } else {
      var n := |sorted| - 1;
      FileInsertedOnce(sorted[..n], e);
      NamesOfConcat(InsertByName(sorted[..n], e), [sorted[n]]);
      NamesOfConcat(sorted[..n], [sorted[n]]);
      assert sorted == sorted[..n] + [sorted[n]];
    }
  }

  lemma {:induction false} FileInsertedInOrder(sorted: seq<LedgerFile>, e: LedgerFile)
    requires Ascends(NamesOf(sorted))
    ensures Ascends(NamesOf(InsertByName(sorted, e)))
    decreases |sorted|
  {
    if sorted == [] || Less(sorted[|sorted| - 1].name, e.name) {
      NamesOfConcat(sorted, [e]);
      forall i | 0 <= i < |sorted| ensures !Less(e.name, NamesOf(sorted)[i]) {
        Asymmetric(sorted[|sorted| - 1].name, e.name);
        NotLessTransitive(sorted[i].name, sorted[|sorted| - 1].name, e.name);
      }
      AscendsOn(NamesOf(sorted), e.name);
    } else {
      var (init, last) := (sorted[..|sorted| - 1], sorted[|sorted| - 1]);
      assert forall i :: 0 <= i < |init| ==> NamesOf(init)[i] == NamesOf(sorted)[i];
      FileInsertedInOrder(init, e);
      FileInsertedOnce(init, e);
      var out := NamesOf(InsertByName(init, e));
      forall i | 0 <= i < |out| ensures !Less(last.name, out[i]) {
        assert out[i] in multiset(out);
        if out[i] != e.name {
          assert out[i] in NamesOf(init);
        }
      }
      AscendsOn(out, last.name);
      NamesOfConcat(InsertByName(init, e), [last]);
    }
  }

  /** A listing has every file of the ledger, in name order. */
  lemma {:induction false} ListingHasAll(ledger: seq<LedgerFile>)
    ensures Ascends(NamesOf(Listing(ledger))) && multiset(NamesOf(Listing(ledger))) == multiset(NamesOf(ledger))
    decreases |ledger|
  {
    if ledger != [] {
      var n := |ledger| - 1;
      ListingHasAll(ledger[..n]);
      FileInsertedInOrder(Listing(ledger[..n]), ledger[n]);
      FileInsertedOnce(Listing(ledger[..n]), ledger[n]);
      NamesOfConcat(ledger[..n], [ledger[n]]);
      assert ledger == ledger[..n] + [ledger[n]];
    }
  }

  lemma {:induction false} AfterTakes(files: seq<LedgerFile>, w: Option<string>, x: string)
    ensures multiset(NamesAfter(files, w))[x] == if w.None? || Less(w.value, x) then multiset(NamesOf(files))[x] else 0
    decreases |files|
  {
    if files != [] {
      var n := |files| - 1;
      AfterTakes(files[..n], w, x);
      NamesOfConcat(files[..n], [files[n]]);
      assert files == files[..n] + [files[n]];
      assert NamesOf([files[n]]) == [files[n].name];
    }
  }

  lemma {:induction false} AfterIsBounded(files: seq<LedgerFile>, w: Option<string>, name: string)
    requires forall i :: 0 <= i < |files| ==> !Less(name, files[i].name)
    ensures forall i :: 0 <= i < |NamesAfter(files, w)| ==> !Less(name, NamesAfter(files, w)[i])
    decreases |files|
  {
    if files != [] {
      AfterIsBounded(files[..|files| - 1], w, name);
    }
  }

  lemma {:induction false} AfterAscends(files: seq<LedgerFile>, w: Option<string>)
    requires Ascends(NamesOf(files))
    ensures Ascends(NamesAfter(files, w))
    decreases |files|
  {
    if files != [] {
      var n := |files| - 1;
      assert forall i :: 0 <= i < n ==> NamesOf(files[..n])[i] == NamesOf(files)[i];
      AfterAscends(files[..n], w);
      assert forall i :: 0 <= i < n ==> !Less(NamesOf(files)[n], NamesOf(files)[i]);
      AfterIsBounded(files[..n], w, files[n].name);
      AscendsOn(NamesAfter(files[..n], w), files[n].name);
    }
  }

  /**
   A listing compaction takes exactly the files of the ledger after the watermark, in
   ascending order, for any ledger.
   */
  lemma ListingTakes(ledger: seq<LedgerFile>, w: Option<string>, x: string)
    ensures var names := NamesAfter(Listing(ledger), w);
            && Ascends(names)
            && multiset(names)[x] == if w.None? || Less(w.value, x) then multiset(NamesOf(ledger))[x] else 0
  {
    ListingHasAll(ledger);
    AfterAscends(Listing(ledger), w);
    AfterTakes(Listing(ledger), w, x);
  }

  /** `e` is the event of a ledger file called `name`. */
  ghost predicate IsEventOf(ledger: seq<LedgerFile>, name: string, e: Event) { LedgerFile(name, e) in ledger }

  lemma {:induction false} FindsFile(ledger: seq<LedgerFile>, name: string)
    ensures FindFile(ledger, name).None? <==> name !in NamesOf(ledger)
    ensures FindFile(ledger, name).Some? ==> IsEventOf(ledger, name, FindFile(ledger, name).value)
    decreases |ledger|
  {
    if ledger != [] {
      var n := |ledger| - 1;
      FindsFile(ledger[..n], name);
      NamesOfConcat(ledger[..n], [ledger[n]]);
      assert ledger == ledger[..n] + [ledger[n]];
      assert NamesOf([ledger[n]]) == [ledger[n].name];
    }
  }

  /** A batch is read when every name is a ledger file's, and then event by event in the order of the names. */
  lemma {:induction false} BatchIsRead(ledger: seq<LedgerFile>, names: seq<string>)
    ensures ReadEvents(ledger, names).Some? <==> forall i :: 0 <= i < |names| ==> names[i] in NamesOf(ledger)
    ensures ReadEvents(ledger, names).Some? ==>
              var es := ReadEvents(ledger, names).value;
              |es| == |names| && forall i :: 0 <= i < |names| ==> IsEventOf(ledger, names[i], es[i])
    decreases |names|
  {
    if names != [] {
      var n := |names| - 1;
      BatchIsRead(ledger, names[..n]);
      FindsFile(ledger, names[n]);
    }
  }

  // ------------------------------------------------------------------
  // What it leaves
  // ------------------------------------------------------------------

  /** `k` steps of one compactor alone. */
  function Solo(cfg: Config, s: State, pid: nat, c: Choice, k: nat): State
    decreases k
  {
    if k == 0 then s else Solo(cfg, Next(cfg, s, Step(pid, c)), pid, c, k - 1)
  }

  lemma {:induction false} SoloStops(cfg: Config, s: State, pid: nat, c: Choice, k: nat)
    requires pid in s.procs && (s.procs[pid].pc.Done? || s.procs[pid].pc.Failed?)
    ensures Solo(cfg, s, pid, c, k) == s
    decreases k
  {
    if k > 0 {
      SoloStops(cfg, s, pid, c, k - 1);
    }
  }

  /** The compactor ends in `pc` and leaves manifest and snapshot files alone. */
  ghost predicate LeavesAll(s: State, s': State, pid: nat, pc: Pc) {
    s'.manifests == s.manifests && s'.snapshots == s.snapshots && pid in s'.procs && s'.procs[pid].pc == pc
  }

  ghost predicate Leaves(s: State, s': State, pid: nat, next: Manifest, snapshots: Store<SnapshotPath, Snapshot>) {
    && s'.snapshots == snapshots && s'.ledger == s.ledger && pid in s'.procs && s'.procs[pid].pc == Done
    && () in s'.manifests.objects && s'.manifests.objects[()].body == next
  }

  /** Publishing the manifest that was read last. */
  lemma PublishesAlone(cfg: Config, s: State, pid: nat, c: Choice, k: nat)
    requires k >= 1 && c.fault == NoFault && pid in s.procs && s.procs[pid].pc.Publish?
    requires () in s.manifests.objects && s.manifests.objects[()].version == s.procs[pid].pc.version
    ensures Leaves(s, Solo(cfg, s, pid, c, k), pid, s.procs[pid].pc.next, s.snapshots)
  {
    var s1 := Next(cfg, s, Step(pid, c));
    SoloStops(cfg, s1, pid, c, k - 1);
  }

  /** The manifest after a batch: the counters move with the names and the snapshot with what was written. */
  function AfterBatch(m: Manifest, w: string, names: seq<string>, snapshot: Option<SnapshotPath>, version: nat,
                      files: nat, now: int): Manifest {
    Manifest(Some(w), m.watermarkVersion + 1, snapshot, version, m.totalEvents + |names|, m.totalFiles + files,
             Some(now))
  }

  /** The batch decides a new snapshot: it is written under the last name, or one that lies there is reused. */
  lemma WritesAlone(cfg: Config, s: State, pid: nat, c: Choice, k: nat, m: Manifest, names: seq<string>, w: string,
                    content: Snapshot)
    requires k >= 2 && c.fault == NoFault && pid in s.procs && names != [] && () in s.manifests.objects
    requires s.procs[pid].pc == WriteSnapshot(s.manifests.objects[()].version, m, names, Some(w), content)
    ensures var path := SnapshotPath(m.snapshotVersion + 1, SnapshotId(names[|names| - 1]));
            var s' := Solo(cfg, s, pid, c, k);
            if path in s.snapshots.objects
            then Leaves(s, s', pid, AfterBatch(m, w, names, Some(path), m.snapshotVersion + 1, 0, c.now), s.snapshots)
            else Leaves(s, s', pid, AfterBatch(m, w, names, Some(path), m.snapshotVersion + 1, 1, c.now),
                        Write(s.snapshots, path, content))
  {
    var s1 := Next(cfg, s, Step(pid, c));
    PublishesAlone(cfg, s1, pid, c, k - 1);
  }

  /** The batch's files are all there and, under `Reject`, all readable; so is the snapshot it builds on. */
  predicate Foldable(cfg: Config, s: State, m: Manifest, names: seq<string>) {
    && (m.snapshot.Some? ==> m.snapshot.value in s.snapshots.objects) && ReadEvents(s.ledger, names).Some?
    && (cfg.policy == Reject ==> Bad !in ReadEvents(s.ledger, names).value)
  }

  /** The snapshot a compaction builds on: the manifest's, or the empty one. */
  function Base(s: State, m: Manifest): Snapshot
    requires m.snapshot.Some? ==> m.snapshot.value in s.snapshots.objects
  {
    if m.snapshot.Some? then s.snapshots.objects[m.snapshot.value].body else map[]
  }

  /**
   What compacting `names` leaves: nothing if they cannot be folded; otherwise a manifest past
   all of them, with their fold as its snapshot unless none of them is readable.
   */
  ghost predicate Compacts(cfg: Config, s: State, s': State, pid: nat, m: Manifest, names: seq<string>, w: string,
                           now: int)
    requires names != []
  {
    var path := SnapshotPath(m.snapshotVersion + 1, SnapshotId(names[|names| - 1]));
    if !Foldable(cfg, s, m, names) then LeavesAll(s, s', pid, Failed)
    else
      var (base, batch) := (Base(s, m), ReadEvents(s.ledger, names).value);
      if AllUnreadable(batch) then
        Leaves(s, s', pid, AfterBatch(m, w, names, m.snapshot, m.snapshotVersion, 0, now), s.snapshots)
      else if path in s.snapshots.objects then
        Leaves(s, s', pid, AfterBatch(m, w, names, Some(path), m.snapshotVersion + 1, 0, now), s.snapshots)
      else
        Leaves(s, s', pid, AfterBatch(m, w, names, Some(path), m.snapshotVersion + 1, 1, now),
               Write(s.snapshots, path, FoldBatch(base, batch)))
  }

  ghost predicate Folding(s: State, pid: nat, m: Manifest, names: seq<string>, w: string) {
    && pid in s.procs && names != [] && () in s.manifests.objects
    && s.procs[pid].pc == FoldEventFiles(s.manifests.objects[()].version, m, names, Some(w))
  }

  lemma FoldStep(cfg: Config, s: State, pid: nat, c: Choice, m: Manifest, names: seq<string>, w: string)
    requires c.fault == NoFault && cfg.fold == FoldOnto && Folding(s, pid, m, names, w)
    requires Foldable(cfg, s, m, names)
    ensures var (base, batch) := (Base(s, m), ReadEvents(s.ledger, names).value);
            var v := s.manifests.objects[()].version;
            var pc := if AllUnreadable(batch)
                      then Publish(v, m, AfterBatch(m, w, names, m.snapshot, m.snapshotVersion, 0, c.now), names)
                      else WriteSnapshot(v, m, names, Some(w), FoldBatch(base, batch));
            Next(cfg, s, Step(pid, c)) == s.(procs := s.procs[pid := s.procs[pid].(pc := pc)])
  {
    var (base, batch) := (Base(s, m), ReadEvents(s.ledger, names).value);
    UnreadableAppliesNothing(base, batch);
  }

  /** A compaction with a batch to fold. */
  lemma FoldsAlone(cfg: Config, s: State, pid: nat, c: Choice, k: nat, m: Manifest, names: seq<string>, w: string)
    requires k >= 3 && c.fault == NoFault && cfg.fold == FoldOnto && Folding(s, pid, m, names, w)
    ensures Compacts(cfg, s, Solo(cfg, s, pid, c, k), pid, m, names, w, c.now)
  {
    var s1 := Next(cfg, s, Step(pid, c));
    if !Foldable(cfg, s, m, names) {
      SoloStops(cfg, s1, pid, c, k - 1);
    } else {
      var (base, batch) := (Base(s, m), ReadEvents(s.ledger, names).value);
      FoldStep(cfg, s, pid, c, m, names, w);
      if AllUnreadable(batch) {
        PublishesAlone(cfg, s1, pid, c, k - 1);
      } else {
        WritesAlone(cfg, s1, pid, c, k - 1, m, names, w, FoldBatch(base, batch));
      }
    }
  }

  /** The names a compactor takes, and whether it met late ones. */
  function Taken(cfg: Config, s: State, explicit: Option<seq<string>>, m: Manifest): seq<string> {
    match explicit
    case None => NamesAfter(Listing(s.ledger), m.watermark)
    case Some(given) => ExplicitNames(given, m.watermark, cfg.late)
  }

  ghost predicate MetLate(explicit: Option<seq<string>>, m: Manifest, sawLate: bool) {
    match explicit
    case None => sawLate
    case Some(given) => exists x :: x in given && m.watermark.Some? && !Less(m.watermark.value, x)
  }

  /** The watermark a batch moves to: its last name, for explicit names not below the current one. */
  function NewWatermark(explicit: Option<seq<string>>, m: Manifest, last: string): string {
    if explicit.Some? && m.watermark.Some? && !Less(m.watermark.value, last) then m.watermark.value else last
  }

  /** What a compactor does next once it has chosen its names. */
  ghost function Planned(cfg: Config, s: State, v: nat, m: Manifest, explicit: Option<seq<string>>, c: Choice): Pc {
    var names := Taken(cfg, s, explicit, m);
    if names != [] then FoldEventFiles(v, m, names, Some(NewWatermark(explicit, m, names[|names| - 1])))
    else if MetLate(explicit, m, c.sawLate) then Publish(v, m, m.(lastCompactionAt := Some(c.now)), [])
    else Done
  }

  lemma PlanStep(cfg: Config, s: State, pid: nat, explicit: Option<seq<string>>, v: nat, m: Manifest, c: Choice)
    requires c.fault == NoFault
    ensures Next(cfg, s.(procs := s.procs[pid := Proc(explicit, 0, Plan(v, m))]), Step(pid, c))
            == s.(procs := s.procs[pid := Proc(explicit, 0, Planned(cfg, s, v, m, explicit, c))])
  {
    var (p, pc) := (Proc(explicit, 0, Plan(v, m)), Planned(cfg, s, v, m, explicit, c));
    assert s.procs[pid := p][pid := p.(pc := pc)] == s.procs[pid := Proc(explicit, 0, pc)];
  }

  lemma ReadsManifest(cfg: Config, s: State, pid: nat, explicit: Option<seq<string>>, c: Choice)
    requires pid !in s.procs && cfg.maxRetries > 0 && (explicit.Some? ==> !cfg.listingOnly)
    requires c.fault == NoFault && () in s.manifests.objects
    ensures var (v, m) := (s.manifests.objects[()].version, s.manifests.objects[()].body);
            Solo(cfg, Next(cfg, s, Start(pid, explicit)), pid, c, 2)
            == s.(procs := s.procs[pid := Proc(explicit, 0, Plan(v, m))])
  {
    var s0 := Next(cfg, s, Start(pid, explicit));
    var s1 := Next(cfg, s0, Step(pid, c));
    assert Solo(cfg, s1, pid, c, 1) == Next(cfg, s1, Step(pid, c));
  }

  lemma {:induction false} SoloAdds(cfg: Config, s: State, pid: nat, c: Choice, j: nat, k: nat)
    ensures Solo(cfg, s, pid, c, j + k) == Solo(cfg, Solo(cfg, s, pid, c, j), pid, c, k)
    decreases j
  {
    if j > 0 {
      SoloAdds(cfg, Next(cfg, s, Step(pid, c)), pid, c, j - 1, k);
    }
  }

  lemma StartsAlone(cfg: Config, s: State, pid: nat, explicit: Option<seq<string>>, c: Choice, k: nat)
    requires pid !in s.procs && cfg.maxRetries > 0 && (explicit.Some? ==> !cfg.listingOnly)
    requires c.fault == NoFault && k >= 3 && () in s.manifests.objects
    ensures var (v, m) := (s.manifests.objects[()].version, s.manifests.objects[()].body);
            var pc := Planned(cfg, s, v, m, explicit, c);
            Solo(cfg, Next(cfg, s, Start(pid, explicit)), pid, c, k)
            == Solo(cfg, s.(procs := s.procs[pid := Proc(explicit, 0, pc)]), pid, c, k - 3)
  {
    var (v, m) := (s.manifests.objects[()].version, s.manifests.objects[()].body);
    var s2 := s.(procs := s.procs[pid := Proc(explicit, 0, Plan(v, m))]);
    ReadsManifest(cfg, s, pid, explicit, c);
    SoloAdds(cfg, Next(cfg, s, Start(pid, explicit)), pid, c, 2, k - 2);
    PlanStep(cfg, s, pid, explicit, v, m, c);
  }

  /**
   A compaction stepped alone and without faults is done within six steps.  With nothing to
   take it changes nothing, or only stamps the manifest when it met late files.  A missing file
   or, under `Reject`, an unreadable one makes it fail and changes nothing.  Otherwise it
   publishes the manifest with its counters and watermark moved past exactly the names taken,
   and, if any of them is readable, with the fold of their events as the new snapshot.
   */
  lemma CompactAlone(cfg: Config, s: State, pid: nat, explicit: Option<seq<string>>, c: Choice, k: nat)
    requires cfg.fold == FoldOnto && cfg.maxRetries > 0 && (explicit.Some? ==> !cfg.listingOnly)
    requires pid !in s.procs && c.fault == NoFault && k >= 6 && () in s.manifests.objects
    ensures var s' := Solo(cfg, Next(cfg, s, Start(pid, explicit)), pid, c, k);
            var m := s.manifests.objects[()].body;
            var names := Taken(cfg, s, explicit, m);
            if names == [] then
              if MetLate(explicit, m, c.sawLate)
              then Leaves(s, s', pid, m.(lastCompactionAt := Some(c.now)), s.snapshots)
              else LeavesAll(s, s', pid, Done)
            else Compacts(cfg, s, s', pid, m, names, NewWatermark(explicit, m, names[|names| - 1]), c.now)
  {
    var (v, m) := (s.manifests.objects[()].version, s.manifests.objects[()].body);
    var names := Taken(cfg, s, explicit, m);
    StartsAlone(cfg, s, pid, explicit, c, k);
    if names != [] {
      var w := NewWatermark(explicit, m, names[|names| - 1]);
      var pc := FoldEventFiles(v, m, names, Some(w));
      FoldsAlone(cfg, s.(procs := s.procs[pid := Proc(explicit, 0, pc)]), pid, c, k - 3, m, names, w);
    } else if MetLate(explicit, m, c.sawLate) {
      var pc := Publish(v, m, m.(lastCompactionAt := Some(c.now)), []);
      PublishesAlone(cfg, s.(procs := s.procs[pid := Proc(explicit, 0, pc)]), pid, c, k - 3);
    } else {
      SoloStops(cfg, s.(procs := s.procs[pid := Proc(explicit, 0, Done)]), pid, c, k - 3);
    }
  }

  // ------------------------------------------------------------------
  // Faults and conflicts
  // ------------------------------------------------------------------

  /** A compactor that has not stopped and meets a storage fault fails, and publishes nothing it was told of. */
  lemma FaultsFail(cfg: Config, s: State, pid: nat, c: Choice)
    requires pid in s.procs && !s.procs[pid].pc.Done? && c.fault != NoFault
    requires s.procs[pid].pc.WriteSnapshot? ==> s.procs[pid].pc.names != []
    ensures var s' := Next(cfg, s, Step(pid, c));
            && pid in s'.procs && s'.procs[pid].pc.Failed?
            && (c.fault == ErrorBefore ==> s'.manifests == s.manifests && s'.snapshots == s.snapshots)
  {
  }

  /** In this step the compactor tries to replace a manifest that is no longer the one it read, and is told so. */
  predicate IsRefused(s: State, a: Action, pid: nat) {
    && a.Step? && a.pid == pid && a.choice.fault == NoFault && pid in s.procs && s.procs[pid].pc.Publish?
    && !(() in s.manifests.objects && s.manifests.objects[()].version == s.procs[pid].pc.version)
  }

  ghost function Refusals(cfg: Config, run: seq<Action>, pid: nat): nat
    decreases |run|
  {
    if run == [] then 0
    else
      var n := |run| - 1;
      Refusals(cfg, run[..n], pid) + (if IsRefused(Exec(cfg, Init(), run[..n]), run[n], pid) then 1 else 0)
  }

  predicate CountsAttempts(cfg: Config, p: Proc, refusals: nat) {
    p.pc.Failed? || p.pc.Done? || p.attempt == refusals < cfg.maxRetries
  }

  lemma StepCounts(cfg: Config, s: State, a: Action, pid: nat, n: nat)
    requires pid in s.procs ==> CountsAttempts(cfg, s.procs[pid], n)
    requires pid !in s.procs ==> n == 0
    ensures var (s', refused) := (Next(cfg, s, a), IsRefused(s, a, pid));
            && (pid in s'.procs ==> CountsAttempts(cfg, s'.procs[pid], if refused then n + 1 else n))
            && (refused ==> pid in s'.procs && s'.procs[pid].pc == if n + 1 < cfg.maxRetries then Head else Failed)
            && (refused ==> s'.manifests == s.manifests)
  {
  }

  lemma {:induction false} RefusalsAreCounted(cfg: Config, run: seq<Action>, pid: nat)
    ensures var s := Exec(cfg, Init(), run);
            && (pid in s.procs ==> CountsAttempts(cfg, s.procs[pid], Refusals(cfg, run, pid)))
            && (pid !in s.procs ==> Refusals(cfg, run, pid) == 0)
    decreases |run|
  {
    if run != [] {
      var n := |run| - 1;
      ExecConcat(cfg, Init(), run[..n], [run[n]]);
      assert run[..n] + [run[n]] == run;
      var s := Exec(cfg, Init(), run[..n]);
      assert Exec(cfg, s, [run[n]]) == Next(cfg, s, run[n]) by { assert [run[n]][1..] == []; }
      RefusalsAreCounted(cfg, run[..n], pid);
      StepCounts(cfg, s, run[n], pid, Refusals(cfg, run[..n], pid));
    }
  }

  /**
   In every run, a compactor whose manifest is refused because another one was published first
   changes nothing and starts over, unless it has been refused as often as it may try.
   */
  lemma RefusedCompactorsRetry(cfg: Config, run: seq<Action>, pid: nat, c: Choice)
    requires IsRefused(Exec(cfg, Init(), run), Step(pid, c), pid)
    ensures var (s, s') := (Exec(cfg, Init(), run), Next(cfg, Exec(cfg, Init(), run), Step(pid, c)));
            && s'.manifests == s.manifests && pid in s'.procs
            && s'.procs[pid].pc == if Refusals(cfg, run, pid) + 1 < cfg.maxRetries then Head else Failed
  {
    RefusalsAreCounted(cfg, run, pid);
    StepCounts(cfg, Exec(cfg, Init(), run), Step(pid, c), pid, Refusals(cfg, run, pid));
  }
}

/** Concrete runs of the transaction service, built step by step.  Their clocks never go back. */
module TransactionRuns {
  import opened ObjectStore
  import opened TransactionTypes
  import opened TransactionSteps
  import opened TransactionTheorems

  // ------------------------------------------------------------------
  // Building runs
  // ------------------------------------------------------------------

  /** A run and the state it leads to from its start. */
  datatype Path = Path(cfg: Config, start: State, run: seq<Action>, s: State) {
    predicate Valid() { Exec(cfg, start, run) == s }

    predicate Extends(w: Path) { Valid() && cfg == w.cfg && start == w.start }
  }

  function From(cfg: Config, s: State): Path { Path(cfg, s, [], s) }

  predicate At(s: State, pid: nat, p: Proc) { pid in s.procs && s.procs[pid] == p }

  lemma Act(w: Path, a: Action) returns (w': Path)
    requires w.Valid()
    ensures w'.Extends(w) && w'.s == Next(w.cfg, w.s, a)
  {
    ExecSnoc(w.cfg, w.start, w.run, a);
    w' := Path(w.cfg, w.start, w.run + [a], Next(w.cfg, w.s, a));
  }

  /** A step of `pid` that is neither starting nor joining a participant. */
  lemma Go(w: Path, pid: nat, p: Proc, c: Choice) returns (w': Path)
    requires w.Valid() && At(w.s, pid, p) && !StartsChild(p) && !AwaitsChild(p)
    ensures w'.Extends(w)
    ensures var (g, pc) := Advance(w.cfg, w.s.g, pid, p, c); w'.s == State(g, w.s.procs[pid := p.(pc := pc)])
  {
    w' := Act(w, Step(pid, c));
  }

  /** The choices of these runs: every commit is of manifest "m". */
  function Commits(fault: Fault, id: TxId, now: int): Choice {
    Choice(now, id, fault, Committed("e", "c", "m", 1, "pv", "r", "d", 1, false), true, 0)
  }

  const MANIFEST: string := CatalogManifestPath("m")

  // ------------------------------------------------------------------
  // Claiming a key
  // ------------------------------------------------------------------

  lemma Claims(w: Path, pid: nat, p: Proc, t: TxId, now: int) returns (w': Path)
    requires w.Valid() && At(w.s, pid, p) && p.pc == Claiming(ClaimPut(0))
    requires Unused(w.s.g, t) && (p.domain, p.key) !in w.s.g.markers.objects
    ensures w'.Extends(w) && w'.s.procs == w.s.procs[pid := p.(pc := Working(StorePrepared(t)))]
    ensures w'.s.g == Allocate(w.s.g, pid, p, t).(
                        markers := Write(w.s.g.markers, (p.domain, p.key), FreshMarker(p, t, now)))
  {
    w' := Go(w, pid, p, Commits(NoFault, t, now));
  }

  /** The key is taken; the id that was drawn for the claim is spent all the same. */
  lemma Conflicts(w: Path, pid: nat, p: Proc, t: TxId, now: int) returns (w': Path)
    requires w.Valid() && At(w.s, pid, p) && p.pc == Claiming(ClaimPut(0))
    requires Unused(w.s.g, t) && (p.domain, p.key) in w.s.g.markers.objects
    ensures w'.Extends(w)
    ensures w'.s == State(Allocate(w.s.g, pid, p, t), w.s.procs[pid := p.(pc := Claiming(ClaimHead(0)))])
  {
    w' := Go(w, pid, p, Commits(NoFault, t, now));
  }

  lemma FindsMarker(w: Path, pid: nat, p: Proc, now: int) returns (w': Path)
    requires w.Valid() && At(w.s, pid, p) && p.pc == Claiming(ClaimHead(0))
    requires (p.domain, p.key) in w.s.g.markers.objects
    ensures var o := w.s.g.markers.objects[(p.domain, p.key)];
            && w'.Extends(w)
            && w'.s == State(w.s.g, w.s.procs[pid := p.(pc := Claiming(ClaimClassify(0, o.version, o.body)))])
  {
    var c := Commits(NoFault, "", now);
    var w1 := Go(w, pid, p, c);
    w' := Go(w1, pid, w1.s.procs[pid], c);
  }

  /** The caller classifies the marker it has read. */
  lemma Classifies(w: Path, pid: nat, p: Proc, v: nat, m: Marker, now: int, next: Pc) returns (w': Path)
    requires w.Valid() && At(w.s, pid, p) && p.pc == Claiming(ClaimClassify(0, v, m)) && m.hash == p.hash
    requires match Classify(w.cfg, w.s.g.records, p.domain, m, now)
             case IsVisible => next == Recording(LoadHead(Resolve(m), m.txId))
             case Retryable => next == Claiming(ClaimReplace(0, v, m))
             case _ => false
    ensures w'.Extends(w) && w'.s == State(w.s.g, w.s.procs[pid := p.(pc := next)])
  {
    w' := Go(w, pid, p, Commits(NoFault, "", now));
  }

  lemma Replaces(w: Path, pid: nat, p: Proc, v: nat, m: Marker, t: TxId, now: int) returns (w': Path)
    requires w.Valid() && At(w.s, pid, p) && p.pc == Claiming(ClaimReplace(0, v, m)) && Unused(w.s.g, t)
    requires (p.domain, p.key) in w.s.g.markers.objects && w.s.g.markers.objects[(p.domain, p.key)].version == v
    ensures w'.Extends(w) && w'.s.procs == w.s.procs[pid := p.(pc := Working(StorePrepared(t)))]
    ensures w'.s.g == Allocate(w.s.g, pid, p, t).(
                        markers := Write(w.s.g.markers, (p.domain, p.key), FreshMarker(p, t, now)))
  {
    w' := Go(w, pid, p, Commits(NoFault, t, now));
  }

  // ------------------------------------------------------------------
  // Working and publishing
  // ------------------------------------------------------------------

  lemma Prepares(w: Path, pid: nat, p: Proc, t: TxId, now: int) returns (w': Path)
    requires w.Valid() && At(w.s, pid, p) && p.pc == Working(StorePrepared(t))
    requires (p.domain, t) !in w.s.g.records.objects
    ensures w'.Extends(w) && w'.s.procs == w.s.procs[pid := p.(pc := Working(Work(t)))]
    ensures w'.s.g == w.s.g.(records := Write(w.s.g.records, (p.domain, t), PreparedRecord(p, t, now)))
  {
    w' := Go(w, pid, p, Commits(NoFault, "", now));
  }

  /** At most transaction "a" has a super-manifest. */
  ghost predicate NoOtherSuper(g: Shared) { forall path :: path in g.supers.objects ==> path == SuperManifestPath("a") }

  /** What working and building a receipt may change. */
  ghost predicate WorkChanges(g: Shared, g': Shared, d: Domain, t: TxId) {
    && g' == g.(supers := g'.supers, proposals := g'.proposals, applied := g'.applied)
    && (forall path :: path in g'.supers.objects && path !in g.supers.objects ==> path == SuperManifestPath(t))
    && (d != Root ==> g'.supers == g.supers)
  }

  /** A root request without participants publishes an empty super-manifest. */
  lemma EmptyRootProposes(w: Path, pid: nat, p: Proc, t: TxId, now: int) returns (w': Path, rc: Receipt)
    requires w.Valid() && At(w.s, pid, p) && p.pc == Working(RootLoop(t, [], map[], false)) && p.mutations == []
    requires SuperManifestPath(t) !in w.s.g.supers.objects
    ensures w'.Extends(w) && WorkChanges(w.s.g, w'.s.g, Root, t)
    ensures w'.s.procs == w.s.procs[pid := p.(pc := Recording(LoadHead(Finalize(rc, false), t)))]
    ensures rc.txId == t && rc.RootReceipt?
  {
    w' := Go(w, pid, p, Commits(NoFault, "", now));
    rc := w'.s.procs[pid].pc.load.purpose.receipt;
  }

  /** The work of a request without participants succeeds. */
  lemma Proposes(w: Path, pid: nat, p: Proc, t: TxId, now: int) returns (w': Path, rc: Receipt)
    requires w.Valid() && At(w.s, pid, p) && p.pc == Working(Work(t)) && p.mutations == []
    requires MANIFEST in w.s.g.manifests && SuperManifestPath(t) !in w.s.g.supers.objects
    ensures w'.Extends(w) && WorkChanges(w.s.g, w'.s.g, p.domain, t)
    ensures w'.s.procs == w.s.procs[pid := p.(pc := Recording(LoadHead(Finalize(rc, false), t)))]
    ensures rc.txId == t && ReceiptDomain(rc) == p.domain
  {
    var w1 := Go(w, pid, p, Commits(NoFault, "", now));
    if p.domain == Root {
      w', rc := EmptyRootProposes(w1, pid, p.(pc := Working(RootLoop(t, [], map[], false))), t, now);
    } else {
      w' := w1;
      rc := w'.s.procs[pid].pc.load.purpose.receipt;
    }
  }

  /** From a receipt to the write of the marker. */
  lemma ReachesMarker(w: Path, pid: nat, p: Proc, t: TxId, rc: Receipt, now: int) returns (w': Path, pub: Publication)
    requires w.Valid() && At(w.s, pid, p) && p.pc == Recording(LoadHead(Finalize(rc, false), t))
    requires (p.domain, t) in w.s.g.records.objects && (p.domain, p.key) in w.s.g.markers.objects
    requires var m := w.s.g.markers.objects[(p.domain, p.key)].body;
             var r := w.s.g.records.objects[(p.domain, t)].body;
             r.txId == t && m.txId == t && m.hash == r.hash
    ensures var r := w.s.g.records.objects[(p.domain, t)];
            pub == Publication(Owner, rc, VisibleRecord(r.body, rc, false), r.version)
    ensures var o := w.s.g.markers.objects[(p.domain, p.key)];
            && w'.Extends(w)
            && w'.s == State(w.s.g, w.s.procs[pid := p.(pc := Persisting(pub, PersistMarker(o.version, o.body)))])
  {
    var c := Commits(NoFault, "", now);
    var r := w.s.g.records.objects[(p.domain, t)];
    pub := Publication(Owner, rc, VisibleRecord(r.body, rc, false), r.version);
    var w1 := Go(w, pid, p, c);
    var w2 := Go(w1, pid, p.(pc := Recording(LoadGet(Finalize(rc, false), t, r.version))), c);
    var w3 := Go(w2, pid, p.(pc := Persisting(pub, PersistHead)), c);
    w' := Go(w3, pid, w3.s.procs[pid], c);
  }

  /** The publication of transaction `t` of request `p`. */
  predicate Publishes(p: Proc, t: TxId, pub: Publication) {
    && pub.who == Owner && pub.receipt.txId == t && ReceiptDomain(pub.receipt) == p.domain
    && pub.record.txId == t && pub.record.status == Visible && !pub.record.repairPending
    && pub.record.kind == KindOf(p.domain) && pub.record.key == p.key && pub.record.hash == p.hash
    && pub.record.result == Some(pub.receipt)
  }

  /** From the claim to the write of the marker. */
  lemma OwnerReachesMarker(w: Path, pid: nat, p: Proc, t: TxId, now: int) returns (w': Path, pub: Publication)
    requires w.Valid() && At(w.s, pid, p) && p.pc == Working(StorePrepared(t)) && p.mutations == []
    requires (p.domain, t) !in w.s.g.records.objects && (p.domain, p.key) in w.s.g.markers.objects
    requires MANIFEST in w.s.g.manifests && SuperManifestPath(t) !in w.s.g.supers.objects
    requires var m := w.s.g.markers.objects[(p.domain, p.key)].body; m.txId == t && m.hash == p.hash
    ensures var o := w.s.g.markers.objects[(p.domain, p.key)];
            w'.s.procs == w.s.procs[pid := p.(pc := Persisting(pub, PersistMarker(o.version, o.body)))]
    ensures var rs := Write(w.s.g.records, (p.domain, t), PreparedRecord(p, t, now));
            w'.Extends(w) && WorkChanges(w.s.g.(records := rs), w'.s.g, p.domain, t)
    ensures Publishes(p, t, pub) && pub.recordVersion == w.s.g.records.next
  {
    var w1 := Prepares(w, pid, p, t, now);
    var w2, rc := Proposes(w1, pid, p.(pc := Working(Work(t))), t, now);
    w', pub := ReachesMarker(w2, pid, p.(pc := Recording(LoadHead(Finalize(rc, false), t))), t, rc, now);
  }

  /** The process is about to write the marker it has read last. */
  predicate AtMarkerWrite(s: State, pid: nat, p: Proc, pub: Publication) {
    && At(s, pid, p) && (p.domain, p.key) in s.g.markers.objects
    && var o := s.g.markers.objects[(p.domain, p.key)];
       o.body.txId == pub.record.txId && p.pc == Persisting(pub, PersistMarker(o.version, o.body))
  }

  lemma MarkerWritten(w: Path, pid: nat, p: Proc, pub: Publication, now: int) returns (w': Path)
    requires w.Valid() && AtMarkerWrite(w.s, pid, p, pub)
    ensures w'.Extends(w) && w'.s.procs == w.s.procs[pid := p.(pc := Persisting(pub, PersistRecord))]
    ensures var m := w.s.g.markers.objects[(p.domain, p.key)].body;
            w'.s.g == w.s.g.(markers := Write(w.s.g.markers, (p.domain, p.key),
                                              m.(visibleAt := pub.record.visibleAt, txRecord := Some(pub.record))))
  {
    w' := Go(w, pid, p, Commits(NoFault, "", now));
  }

  lemma MarkerFails(w: Path, pid: nat, p: Proc, pub: Publication, now: int) returns (w': Path)
    requires w.Valid() && AtMarkerWrite(w.s, pid, p, pub) && w.cfg.markerErrors && p.pc.persist.marker.txRecord.None?
    ensures w'.Extends(w) && w'.s.procs == w.s.procs[pid := p.(pc := Persisting(pub, PersistRecordAfterError))]
    ensures w'.s.g == w.s.g.(markerLost := true)
  {
    w' := Go(w, pid, p, Commits(ErrorBefore, "", now));
  }

  lemma RecordWritten(w: Path, pid: nat, p: Proc, pub: Publication, now: int) returns (w': Path)
    requires w.Valid() && At(w.s, pid, p) && (p.domain, pub.record.txId) in w.s.g.records.objects
    requires w.s.g.records.objects[(p.domain, pub.record.txId)].version == pub.recordVersion
    requires p.pc == Persisting(pub, PersistRecord) || p.pc == Persisting(pub, PersistRecordAfterError)
    requires pub.who == Owner && !pub.record.repairPending
    ensures w'.Extends(w) && w'.s.procs.Keys == w.s.procs.Keys && pid in w'.s.procs
    ensures w'.s.g == w.s.g.(records := Write(w.s.g.records, (p.domain, pub.record.txId), pub.record))
    ensures w'.s.procs == w.s.procs[pid := w'.s.procs[pid]]
    ensures p.pc.persist == PersistRecord ==> w'.s.procs[pid] == p.(pc := Done(pub.receipt, false))
  {
    var c := Commits(NoFault, "", now);
    var w1 := Go(w, pid, p, c);
    if p.domain == Root && p.pc.persist == PersistRecord {
      w' := Go(w1, pid, p.(pc := Recording(RootAudit(pub.receipt, false))), c);
    } else {
      w' := w1;
    }
  }

  /** What changes from the claim of transaction `t` of request `p` to its publication. */
  ghost predicate Published(g: Shared, g': Shared, p: Proc, t: TxId, pub: Publication) {
    && Publishes(p, t, pub)
    && g' == g.(records := g'.records, markers := g'.markers, supers := g'.supers, proposals := g'.proposals,
                applied := g'.applied)
    && MarkerVisible(g', p.domain, p.key, t)
    && (p.domain, t) in g'.records.objects && g'.records.objects[(p.domain, t)].body == pub.record
    && (forall k :: k != (p.domain, t) && k in g.records.objects ==>
          k in g'.records.objects && g'.records.objects[k] == g.records.objects[k])
    && (forall k :: k != (p.domain, p.key) && k in g.markers.objects ==>
          k in g'.markers.objects && g'.markers.objects[k] == g.markers.objects[k])
    && (p.domain != Root ==> g'.supers == g.supers)
  }

  /** From the claim to the answer, without any fault. */
  lemma OwnerPublishes(w: Path, pid: nat, p: Proc, t: TxId, now: int) returns (w': Path, pub: Publication)
    requires w.Valid() && At(w.s, pid, p) && p.pc == Working(StorePrepared(t)) && p.mutations == []
    requires (p.domain, t) !in w.s.g.records.objects && (p.domain, p.key) in w.s.g.markers.objects
    requires MANIFEST in w.s.g.manifests && SuperManifestPath(t) !in w.s.g.supers.objects
    requires var m := w.s.g.markers.objects[(p.domain, p.key)].body; m.txId == t && m.hash == p.hash
    ensures w'.Extends(w) && Published(w.s.g, w'.s.g, p, t, pub)
    ensures w'.s.procs == w.s.procs[pid := p.(pc := Done(pub.receipt, false))]
  {
    var w1, pub1 := OwnerReachesMarker(w, pid, p, t, now);
    pub := pub1;
    var w2 := MarkerWritten(w1, pid, w1.s.procs[pid], pub, now);
    w' := RecordWritten(w2, pid, w2.s.procs[pid], pub, now);
  }

  // ------------------------------------------------------------------
  // Two callers of one key, and a marker write that is lost
  // ------------------------------------------------------------------

  /** The catalog key that a root transaction with key "r" runs its participant under. */
  const KEY: string := ParticipantKey("r", Catalog)

  function Caller(d: Domain, pc: Pc): Proc { Proc(d, KEY, "h", [], pc) }

  /** A moment at which a claim made at 0 is stale. */
  function Later(cfg: Config): int { if cfg.staleTimeout > 0 then cfg.staleTimeout else 0 }

  predicate FromInit(w: Path, cfg: Config) { w.Valid() && w.cfg == cfg && w.start == Init() }

  /** The first caller claims the key as transaction "a". */
  lemma FirstClaims(cfg: Config, d: Domain) returns (w: Path)
    ensures FromInit(w, cfg) && w.s.procs == map[1 := Caller(d, Working(StorePrepared("a")))]
    ensures w.s.g.markers == Write(Empty(), (d, KEY), FreshMarker(Caller(d, Failed), "a", 0))
    ensures w.s.g.records == Empty() && w.s.g.supers == Empty() && w.s.g.owners.Keys == {"a"}
    ensures MANIFEST in w.s.g.manifests
  {
    var w1 := Act(From(cfg, Init()), StoreManifest(MANIFEST, ""));
    var w2 := Act(w1, Start(1, d, KEY, "h", []));
    w := Claims(w2, 1, Caller(d, Claiming(ClaimPut(0))), "a", 0);
  }

  /** The key is claimed by "a", prepared at 0 and not visible. */
  predicate ClaimedByA(g: Shared, d: Domain) {
    && (d, KEY) in g.markers.objects && (d, "a") in g.records.objects
    && var m := g.markers.objects[(d, KEY)].body;
    && var r := g.records.objects[(d, "a")].body;
    && m.txId == "a" && m.hash == "h" && m.txRecord.None?
    && r.status == Prepared && r.preparedAt == 0 && !r.repairPending
  }

  /** Caller 2 has found the claim of "a" stale and is about to replace it. */
  predicate TakingOver(s: State, d: Domain) {
    && (d, KEY) in s.g.markers.objects
    && var o := s.g.markers.objects[(d, KEY)];
    && o.body.txId == "a" && o.body.hash == "h" && o.body.txRecord.None?
    && At(s, 2, Caller(d, Claiming(ClaimReplace(0, o.version, o.body))))
  }

  lemma SecondTakesOver(w: Path, d: Domain) returns (w': Path)
    requires w.Valid() && ClaimedByA(w.s.g, d) && 2 !in w.s.procs && "x" !in w.s.g.owners
    ensures w'.Extends(w) && TakingOver(w'.s, d) && w'.s.procs == w.s.procs[2 := w'.s.procs[2]]
    ensures w'.s.g == w.s.g.(owners := w'.s.g.owners) && w'.s.g.owners.Keys == w.s.g.owners.Keys + {"x"}
  {
    var o := w.s.g.markers.objects[(d, KEY)];
    var w1 := Act(w, Start(2, d, KEY, "h", []));
    var w2 := Conflicts(w1, 2, Caller(d, Claiming(ClaimPut(0))), "x", 0);
    var w3 := FindsMarker(w2, 2, Caller(d, Claiming(ClaimHead(0))), Later(w.cfg));
    w' := Classifies(w3, 2, Caller(d, Claiming(ClaimClassify(0, o.version, o.body))), o.version, o.body, Later(w.cfg),
                     Claiming(ClaimReplace(0, o.version, o.body)));
  }

  /** The record of "a" is visible, its marker is not, and caller 2 is about to replace the claim. */
  ghost predicate LostMarker(s: State, d: Domain, pub: Publication) {
    && TakingOver(s, d) && Publishes(Caller(d, Failed), "a", pub)
    && s.g.records.objects.Keys == {(d, "a")} && s.g.records.objects[(d, "a")].body == pub.record
    && s.g.markers.objects.Keys == {(d, KEY)} && s.g.owners.Keys == {"a", "x"} && s.procs.Keys == {1, 2}
    && MANIFEST in s.g.manifests && NoOtherSuper(s.g)
    && (d != Root ==> s.g.supers.objects == map[])
  }

  /** Caller 1 is about to write the marker of "a". */
  ghost predicate FirstAtMarker(s: State, d: Domain, p: Proc, pub: Publication) {
    && AtMarkerWrite(s, 1, p, pub) && p.domain == d && p.key == KEY && Publishes(Caller(d, Failed), "a", pub)
    && s.g.records.objects.Keys == {(d, "a")} && s.g.records.objects[(d, "a")].version == pub.recordVersion
    && s.g.markers.objects.Keys == {(d, KEY)} && MANIFEST in s.g.manifests
    && NoOtherSuper(s.g) && (d != Root ==> s.g.supers.objects == map[])
  }

  /** The whole shared state at that point. */
  ghost predicate FirstState(s: State, d: Domain, pub: Publication) {
    && s.g.markers == Write(Empty(), (d, KEY), FreshMarker(Caller(d, Failed), "a", 0))
    && s.g.records == Write(Empty(), (d, "a"), PreparedRecord(Caller(d, Failed), "a", 0))
    && NoOtherSuper(s.g) && (d != Root ==> s.g.supers == Empty()) && MANIFEST in s.g.manifests
    && s.procs == map[1 := Caller(d, Persisting(pub, PersistMarker(0, FreshMarker(Caller(d, Failed), "a", 0))))]
    && Publishes(Caller(d, Failed), "a", pub) && pub.recordVersion == 0 && s.g.owners.Keys == {"a"}
  }

  lemma FirstReachesMarker(cfg: Config, d: Domain) returns (w: Path, pub: Publication)
    ensures FromInit(w, cfg) && FirstState(w.s, d, pub)
  {
    var w1 := FirstClaims(cfg, d);
    w, pub := OwnerReachesMarker(w1, 1, Caller(d, Working(StorePrepared("a"))), "a", 0);
  }

  lemma FirstIsAtMarker(s: State, d: Domain, pub: Publication)
    requires FirstState(s, d, pub)
    ensures FirstAtMarker(s, d, s.procs[1], pub) && ClaimedByA(s.g, d)
  {
  }

  /** Caller 1 is about to write the marker of "a", and caller 2 to replace its claim. */
  lemma TakenOverAtMarker(cfg: Config, d: Domain) returns (w: Path, p: Proc, pub: Publication)
    ensures FromInit(w, cfg) && TakingOver(w.s, d) && FirstAtMarker(w.s, d, p, pub)
    ensures w.s.procs.Keys == {1, 2} && w.s.g.owners.Keys == {"a", "x"}
  {
    var w1, pub1 := FirstReachesMarker(cfg, d);
    FirstIsAtMarker(w1.s, d, pub1);
    w := SecondTakesOver(w1, d);
    p, pub := w1.s.procs[1], pub1;
  }

  lemma MarkerIsLost(cfg: Config, d: Domain) returns (w: Path, pub: Publication)
    requires cfg.markerErrors
    ensures FromInit(w, cfg) && LostMarker(w.s, d, pub)
  {
    var w1, p, pub1 := TakenOverAtMarker(cfg, d);
    pub := pub1;
    var w2 := MarkerFails(w1, 1, p, pub, Later(cfg));
    w := RecordWritten(w2, 1, w2.s.procs[1], pub, Later(cfg));
  }

  lemma PathsDiffer()
    ensures SuperManifestPath("a") != SuperManifestPath("b")
  {
    assert SuperManifestPath("a")[18] == 'a' && SuperManifestPath("b")[18] == 'b';
  }

  /** The second caller replaces the claim of "a" by "b" ... */
  lemma SecondClaims(w: Path, d: Domain) returns (w': Path)
    requires w.Valid() && TakingOver(w.s, d) && "b" !in w.s.g.owners
    ensures w'.Extends(w) && w'.s.procs == w.s.procs[2 := Caller(d, Working(StorePrepared("b")))]
    ensures (d, KEY) in w'.s.g.markers.objects && "b" in w'.s.g.owners
    ensures w'.s.g == w.s.g.(owners := w'.s.g.owners, markers := w'.s.g.markers)
    ensures w'.s.g.markers == Write(w.s.g.markers, (d, KEY), FreshMarker(Caller(d, Failed), "b", Later(w.cfg)))
  {
    var o := w.s.g.markers.objects[(d, KEY)];
    w' := Replaces(w, 2, Caller(d, Claiming(ClaimReplace(0, o.version, o.body))), o.version, o.body, "b", Later(w.cfg));
  }

  /** ... and publishes. */
  lemma SecondPublishes(w: Path, d: Domain) returns (w': Path, pub: Publication)
    requires w.Valid() && TakingOver(w.s, d) && "b" !in w.s.g.owners && (d, "b") !in w.s.g.records.objects
    requires MANIFEST in w.s.g.manifests && NoOtherSuper(w.s.g)
    ensures w'.Extends(w) && MarkerVisible(w'.s.g, d, KEY, "b") && Publishes(Caller(d, Failed), "b", pub)
    ensures RecordVisible(w'.s.g, d, "b") && w'.s.g.records.objects[(d, "b")].body == pub.record
    ensures (d, "a") in w.s.g.records.objects ==>
              (d, "a") in w'.s.g.records.objects && w'.s.g.records.objects[(d, "a")] == w.s.g.records.objects[(d, "a")]
    ensures w'.s.procs == w.s.procs[2 := Caller(d, Done(pub.receipt, false))]
    ensures d != Root ==> w'.s.g.supers == w.s.g.supers
  {
    PathsDiffer();
    var w1 := SecondClaims(w, d);
    w', pub := OwnerPublishes(w1, 2, Caller(d, Working(StorePrepared("b"))), "b", Later(w.cfg));
  }

  // ------------------------------------------------------------------
  // A third caller that replays the transaction of the lost marker
  // ------------------------------------------------------------------

  /** The third caller finds the key taken and the record of "a" visible ... */
  lemma ThirdFindsRecord(w: Path, d: Domain) returns (w': Path)
    requires w.Valid() && TakingOver(w.s, d) && RecordVisible(w.s.g, d, "a") && "y" !in w.s.g.owners
    requires At(w.s, 3, Caller(d, Claiming(ClaimPut(0))))
    ensures w'.Extends(w) && w'.s.g == w.s.g.(owners := w'.s.g.owners)
    ensures w'.s.g.owners.Keys == w.s.g.owners.Keys + {"y"}
    ensures var m := w.s.g.markers.objects[(d, KEY)].body;
            w'.s.procs == w.s.procs[3 := Caller(d, Recording(LoadHead(Resolve(m), "a")))]
  {
    var now := Later(w.cfg);
    var o := w.s.g.markers.objects[(d, KEY)];
    var w1 := Conflicts(w, 3, Caller(d, Claiming(ClaimPut(0))), "y", now);
    var w2 := FindsMarker(w1, 3, Caller(d, Claiming(ClaimHead(0))), now);
    w' := Classifies(w2, 3, Caller(d, Claiming(ClaimClassify(0, o.version, o.body))), o.version, o.body, now,
                     Recording(LoadHead(Resolve(o.body), "a")));
  }

  /** ... and sets out to repair the marker. */
  lemma ThirdReplays(w: Path, d: Domain, m: Marker, rc: Receipt) returns (w': Path, pub: Publication)
    requires w.Valid() && At(w.s, 3, Caller(d, Recording(LoadHead(Resolve(m), "a"))))
    requires m.txRecord.None? && RecordVisible(w.s.g, d, "a") && w.s.g.records.objects[(d, "a")].body.result == Some(rc)
    ensures var o := w.s.g.records.objects[(d, "a")]; pub == Publication(Replayer, rc, o.body, o.version)
    ensures w'.Extends(w) && w'.s == State(w.s.g, w.s.procs[3 := Caller(d, Persisting(pub, PersistHead))])
  {
    var o := w.s.g.records.objects[(d, "a")];
    pub := Publication(Replayer, rc, o.body, o.version);
    var c := Commits(NoFault, "", Later(w.cfg));
    var w1 := Go(w, 3, Caller(d, Recording(LoadHead(Resolve(m), "a"))), c);
    w' := Go(w1, 3, w1.s.procs[3], c);
  }

  /** By then the marker belongs to "b", and the third caller answers with the receipt of "a" all the same. */
  lemma ThirdAnswers(w: Path, d: Domain, pub: Publication) returns (w': Path)
    requires w.Valid() && At(w.s, 3, Caller(d, Persisting(pub, PersistHead)))
    requires pub.who == Replayer && pub.record.txId == "a" && MarkerVisible(w.s.g, d, KEY, "b")
    ensures w'.Extends(w)
    ensures w'.s == State(w.s.g, w.s.procs[3 := Caller(d, Done(pub.receipt, pub.record.repairPending))])
  {
    var c := Commits(NoFault, "", Later(w.cfg));
    var w1 := Go(w, 3, Caller(d, Persisting(pub, PersistHead)), c);
    w' := Go(w1, 3, w1.s.procs[3], c);
  }

  /**
   After a lost marker write caller 2 is answered for transaction "b", which the marker
   names, and caller 3 for transaction "a".
   */
  lemma TwoAnswers(w: Path, d: Domain, pubA: Publication) returns (w': Path, rc2: Receipt, rc3: Receipt)
    requires w.Valid() && TakingOver(w.s, d) && RecordVisible(w.s.g, d, "a")
    requires w.s.g.records.objects[(d, "a")].body == pubA.record
    requires Publishes(Caller(d, Failed), "a", pubA) && At(w.s, 3, Caller(d, Claiming(ClaimPut(0))))
    requires "b" !in w.s.g.owners && "y" !in w.s.g.owners && (d, "b") !in w.s.g.records.objects
    requires MANIFEST in w.s.g.manifests && NoOtherSuper(w.s.g)
    ensures w'.Extends(w) && MarkerVisible(w'.s.g, d, KEY, "b") && (d != Root ==> w'.s.g.supers == w.s.g.supers)
    ensures RecordVisible(w'.s.g, d, "a") && w'.s.g.records.objects[(d, "a")].body.key == KEY
    ensures Answered(w'.s, 2, d, KEY, rc2) && rc2.txId == "b"
    ensures At(w'.s, 3, Caller(d, Done(rc3, false))) && rc3 == pubA.receipt
    ensures forall q :: q in w.s.procs && q != 2 && q != 3 ==> At(w'.s, q, w.s.procs[q])
  {
    var m := w.s.g.markers.objects[(d, KEY)].body;
    var w1 := ThirdFindsRecord(w, d);
    var w2, replay := ThirdReplays(w1, d, m, pubA.receipt);
    var w3, pubB := SecondPublishes(w2, d);
    w' := ThirdAnswers(w3, d, replay);
    rc2, rc3 := pubB.receipt, pubA.receipt;
  }

  /** Two plain callers of any domain are answered for two transactions. */
  lemma AnswersDifferAfterLoss(cfg: Config, d: Domain) returns (w: Path, rc2: Receipt, rc3: Receipt)
    requires cfg.markerErrors
    ensures FromInit(w, cfg) && rc2.txId == "b" && rc3.txId == "a"
    ensures Answered(w.s, 2, d, KEY, rc2) && Answered(w.s, 3, d, KEY, rc3)
    ensures RecordVisible(w.s.g, d, "a") && w.s.g.records.objects[(d, "a")].body.key == KEY
  {
    var w1, pub := MarkerIsLost(cfg, d);
    var w2 := Act(w1, Start(3, d, KEY, "h", []));
    w, rc2, rc3 := TwoAnswers(w2, d, pub);
  }

  // ------------------------------------------------------------------
  // Root transactions with a catalog participant
  // ------------------------------------------------------------------

  function RootCaller(pc: Pc): Proc { Proc(Root, "r", "hr", [CatalogMutation("h")], pc) }

  /** Root transaction "z" waits for its participant, caller 3. */
  predicate Waits(s: State) { At(s, 4, RootCaller(Working(RootWait("z", [], map[], false, 3)))) }

  /** A root transaction claims its key as "z" and stores its record ... */
  lemma RootPrepares(w: Path, now: int) returns (w': Path)
    requires w.Valid() && 4 !in w.s.procs && "z" !in w.s.g.owners
    requires (Root, "r") !in w.s.g.markers.objects && (Root, "z") !in w.s.g.records.objects
    ensures w'.Extends(w) && w'.s.procs == w.s.procs[4 := RootCaller(Working(Work("z")))]
    ensures w'.s.g == w.s.g.(owners := w'.s.g.owners, markers := w'.s.g.markers, records := w'.s.g.records)
    ensures w'.s.g.owners.Keys == w.s.g.owners.Keys + {"z"}
    ensures w'.s.g.markers == Write(w.s.g.markers, (Root, "r"), FreshMarker(RootCaller(Failed), "z", now))
    ensures w'.s.g.records == Write(w.s.g.records, (Root, "z"), PreparedRecord(RootCaller(Failed), "z", now))
  {
    var w1 := Act(w, Start(4, Root, "r", "hr", [CatalogMutation("h")]));
    var w2 := Claims(w1, 4, RootCaller(Claiming(ClaimPut(0))), "z", now);
    w' := Prepares(w2, 4, RootCaller(Working(StorePrepared("z"))), "z", now);
  }

  /** ... takes its lock and starts its catalog participant as caller 3. */
  lemma RootStartsParticipant(w: Path, now: int) returns (w': Path)
    requires w.Valid() && At(w.s, 4, RootCaller(Working(Work("z")))) && 3 !in w.s.procs
    ensures w'.Extends(w) && w'.s.g == w.s.g && Waits(w'.s)
    ensures w'.s.procs == w.s.procs[3 := Caller(Catalog, Claiming(ClaimPut(0)))][4 := w'.s.procs[4]]
  {
    var w1 := Go(w, 4, RootCaller(Working(Work("z"))), Commits(NoFault, "", now));
    assert At(w1.s, 4, RootCaller(Working(RootLoop("z", [], map[], false))));
    w' := Act(w1, Step(4, Commits(NoFault, "", now).(child := 3)));
  }

  /** The root transaction joins its participant and builds its own receipt. */
  lemma RootProposes(w: Path, rc: Receipt, now: int) returns (w': Path, root: Receipt)
    requires w.Valid() && Waits(w.s) && SuperManifestPath("z") !in w.s.g.supers.objects
    requires At(w.s, 3, Caller(Catalog, Done(rc, false))) && rc.CatalogReceipt?
    ensures w'.Extends(w) && w'.s.g == w.s.g.(supers := w'.s.g.supers, proposals := w.s.g.proposals + {root})
    ensures w'.s.procs == w.s.procs[4 := RootCaller(Recording(LoadHead(Finalize(root, false), "z")))]
    ensures root.RootReceipt? && root.txId == "z" && root.domainCommits == [CommitOf(rc)]
    ensures root.readToken == RootToken("z")
  {
    var c := Commits(NoFault, "rc", now);
    var w1 := Act(w, Step(4, c));
    assert w1.s.procs[4].pc.work.commits == [CommitOf(rc)] && w1.s.procs[4].mutations == [CatalogMutation("h")];
    w' := Go(w1, 4, w1.s.procs[4], c);
    root := w'.s.procs[4].pc.load.purpose.receipt;
  }

  /**
   After a lost marker write, the participant of a root transaction is answered for "a"
   although the marker names "b".
   */
  lemma ParticipantAfterLoss(cfg: Config) returns (w: Path, rc: Receipt)
    requires cfg.markerErrors
    ensures FromInit(w, cfg) && MarkerVisible(w.s.g, Catalog, KEY, "b") && w.s.g.supers.objects == map[]
    ensures At(w.s, 3, Caller(Catalog, Done(rc, false))) && rc.CatalogReceipt? && rc.txId == "a" && Waits(w.s)
  {
    var w1, pub := MarkerIsLost(cfg, Catalog);
    var w2 := RootPrepares(w1, Later(cfg));
    var w3 := RootStartsParticipant(w2, Later(cfg));
    var rc2;
    w, rc2, rc := TwoAnswers(w3, Catalog, pub);
  }

  // ------------------------------------------------------------------
  // A root transaction whose record lags behind its marker
  // ------------------------------------------------------------------

  /** The claim and the record of root transaction "z", before it is visible. */
  predicate RootPrepared(g: Shared) {
    && (Root, "r") in g.markers.objects
    && g.markers.objects[(Root, "r")].body == FreshMarker(RootCaller(Failed), "z", 0)
    && (Root, "z") in g.records.objects
    && g.records.objects[(Root, "z")].body == PreparedRecord(RootCaller(Failed), "z", 0)
  }

  /** A root transaction has started its participant, which has claimed its key as "a" ... */
  lemma ParticipantClaims(cfg: Config) returns (w: Path)
    ensures FromInit(w, cfg) && Waits(w.s) && At(w.s, 3, Caller(Catalog, Working(StorePrepared("a"))))
    ensures RootPrepared(w.s.g)
    ensures (Catalog, KEY) in w.s.g.markers.objects && (Catalog, "a") !in w.s.g.records.objects
    ensures w.s.g.markers.objects[(Catalog, KEY)].body == FreshMarker(Caller(Catalog, Failed), "a", 0)
    ensures 5 !in w.s.procs && "x" !in w.s.g.owners && MANIFEST in w.s.g.manifests && w.s.g.supers.objects == map[]
  {
    var w1 := Act(From(cfg, Init()), StoreManifest(MANIFEST, ""));
    var w2 := RootPrepares(w1, 0);
    var w3 := RootStartsParticipant(w2, 0);
    w := Claims(w3, 3, Caller(Catalog, Claiming(ClaimPut(0))), "a", 0);
  }

  /** ... and publishes it without any fault. */
  lemma ParticipantPublishes(cfg: Config) returns (w: Path, rc: Receipt)
    ensures FromInit(w, cfg) && Waits(w.s) && At(w.s, 3, Caller(Catalog, Done(rc, false))) && RootPrepared(w.s.g)
    ensures rc.CatalogReceipt? && w.s.g.supers.objects == map[] && 5 !in w.s.procs && "x" !in w.s.g.owners
  {
    var w1 := ParticipantClaims(cfg);
    var pub;
    w, pub := OwnerPublishes(w1, 3, Caller(Catalog, Working(StorePrepared("a"))), "a", 0);
    rc := pub.receipt;
  }

  /** The root's marker carries receipt `root`, and its record is still prepared. */
  predicate Lags(g: Shared, root: Receipt) {
    && (Root, "r") in g.markers.objects && (Root, "z") in g.records.objects
    && var m := g.markers.objects[(Root, "r")].body;
    && var r := g.records.objects[(Root, "z")].body;
    && r == PreparedRecord(RootCaller(Failed), "z", 0)
    && m.txId == "z" && m.kind == RootCommit && m.key == "r" && m.hash == "hr"
    && m.txRecord == Some(VisibleRecord(r, root, false))
  }

  /** The root writes its marker and stops. */
  lemma RootStops(cfg: Config) returns (w: Path, root: Receipt)
    ensures FromInit(w, cfg) && Lags(w.s.g, root) && 5 !in w.s.procs && "x" !in w.s.g.owners
    ensures root.RootReceipt? && root.txId == "z" && root.readToken == RootToken("z")
    ensures |root.domainCommits| == 1 && root.domainCommits[0].domain == Catalog
  {
    var w1, rc := ParticipantPublishes(cfg);
    var w2, root2 := RootProposes(w1, rc, 0);
    root := root2;
    var w3, pub := ReachesMarker(w2, 4, RootCaller(Recording(LoadHead(Finalize(root, false), "z"))), "z", root, 0);
    w := MarkerWritten(w3, 4, w3.s.procs[4], pub, 0);
  }

  /** A retry finds the marker and reads the record that lags behind it ... */
  lemma RetryFindsLag(w: Path, root: Receipt) returns (w': Path)
    requires w.Valid() && Lags(w.s.g, root) && 5 !in w.s.procs && "x" !in w.s.g.owners
    ensures w'.Extends(w) && Lags(w'.s.g, root)
    ensures At(w'.s, 5, RootCaller(Recording(LoadHead(Resolve(w.s.g.markers.objects[(Root, "r")].body), "z"))))
    ensures w'.s.g.markers == w.s.g.markers
  {
    var o := w.s.g.markers.objects[(Root, "r")];
    var w1 := Act(w, Start(5, Root, "r", "hr", [CatalogMutation("h")]));
    var w2 := Conflicts(w1, 5, RootCaller(Claiming(ClaimPut(0))), "x", 0);
    var w3 := FindsMarker(w2, 5, RootCaller(Claiming(ClaimHead(0))), 0);
    w' := Classifies(w3, 5, RootCaller(Claiming(ClaimClassify(0, o.version, o.body))), o.version, o.body, 0,
                     Recording(LoadHead(Resolve(o.body), "z")));
  }

  /** ... and answers although its own write of the record fails. */
  lemma RetryAnswers(w: Path, root: Receipt) returns (w': Path)
    requires w.Valid() && Lags(w.s.g, root) && w.cfg.recordErrors
    requires At(w.s, 5, RootCaller(Recording(LoadHead(Resolve(w.s.g.markers.objects[(Root, "r")].body), "z"))))
    ensures w'.Extends(w) && Lags(w'.s.g, root) && Answered(w'.s, 5, Root, "r", root)
  {
    var m := w.s.g.markers.objects[(Root, "r")].body;
    var v := w.s.g.records.objects[(Root, "z")].version;
    var c := Commits(NoFault, "", 0);
    var w1 := Go(w, 5, RootCaller(Recording(LoadHead(Resolve(m), "z"))), c);
    var w2 := Go(w1, 5, RootCaller(Recording(LoadGet(Resolve(m), "z", v))), c);
    assert At(w2.s, 5, RootCaller(Recording(ResolvePut(m.txRecord.value, root, MatchesVersion(v)))));
    w' := Go(w2, 5, w2.s.procs[5], Commits(ErrorBefore, "", 0));
  }

  // ------------------------------------------------------------------
  // Repairs of an ambiguous batch
  // ------------------------------------------------------------------

  function Batcher(hash: string, pc: Pc): Proc { Proc(Orchestration, "k", hash, [], pc) }

  function BatchChoice(id: TxId, work: WorkOutcome): Choice { Choice(0, id, NoFault, work, true, 0) }

  function BatchCommit(commitId: string): WorkOutcome { Committed("e", commitId, "m", 1, "pv", "r", "d", 1, false) }

  /** The marker and the record of orchestration transaction "a" under key "k". */
  predicate Held(g: Shared) {
    && (Orchestration, "k") in g.markers.objects && (Orchestration, "a") in g.records.objects
    && var m := g.markers.objects[(Orchestration, "k")].body;
    && var r := g.records.objects[(Orchestration, "a")].body;
    && m.txId == "a" && m.hash == "h" && m.key == "k" && r.txId == "a" && r.hash == "h" && r.key == "k"
  }

  predicate Ambiguous(g: Shared) {
    && Held(g) && g.markers.objects[(Orchestration, "k")].body.txRecord.None?
    && var r := g.records.objects[(Orchestration, "a")].body;
    && r.status == Prepared && r.repairPending && r.durableAppend == Some(["p"])
  }

  predicate ClaimedWithH(g: Shared) { "a" in g.owners && g.owners["a"].hash == "h" }

  /**
   The first caller claims key "k" as transaction "a", stores its record and does not learn
   whether its append is visible ...
   */
  lemma BatchUnclear(cfg: Config) returns (w: Path)
    requires cfg.ambiguousAppends
    ensures FromInit(w, cfg) && Held(w.s.g) && ClaimedWithH(w.s.g) && w.s.g.owners.Keys == {"a"}
    ensures w.s.g.markers.objects[(Orchestration, "k")].body.txRecord.None?
    ensures var r := w.s.g.records.objects[(Orchestration, "a")].body; r.status == Prepared && !r.repairPending
    ensures w.s.procs == map[1 := Batcher("h", Recording(LoadHead(MarkPrepared(["p"]), "a")))]
  {
    var w1 := Act(From(cfg, Init()), Start(1, Orchestration, "k", "h", []));
    var w2 := Claims(w1, 1, Batcher("h", Claiming(ClaimPut(0))), "a", 0);
    var w3 := Prepares(w2, 1, Batcher("h", Working(StorePrepared("a"))), "a", 0);
    w := Go(w3, 1, Batcher("h", Working(Work("a"))), BatchChoice("", AmbiguousAfterAppend(["p"])));
  }

  /** ... which it notes in the record. */
  lemma BatchAmbiguous(cfg: Config) returns (w: Path)
    requires cfg.ambiguousAppends
    ensures FromInit(w, cfg) && Ambiguous(w.s.g) && ClaimedWithH(w.s.g) && w.s.procs.Keys == {1}
    ensures w.s.g.owners.Keys == {"a"}
  {
    var c := BatchChoice("", DefiniteFailure);
    var w1 := BatchUnclear(cfg);
    var w2 := Go(w1, 1, w1.s.procs[1], c);
    var w3 := Go(w2, 1, w2.s.procs[1], c);
    w := Go(w3, 1, w3.s.procs[1], c);
  }

  /** A caller with the same key finds the batch in need of repair ... */
  lemma RepairerFindsBatch(w: Path, pid: nat, id: TxId, hash: string) returns (w': Path)
    requires w.Valid() && Ambiguous(w.s.g) && pid !in w.s.procs && Unused(w.s.g, id)
    ensures w'.Extends(w)
    ensures w'.s.g == Allocate(w.s.g, pid, Batcher(hash, Failed), id)
    ensures var m := w.s.g.markers.objects[(Orchestration, "k")].body;
            w'.s.procs == w.s.procs[pid := Batcher(hash, Working(RepairGet(m)))]
  {
    var w1 := Act(w, Start(pid, Orchestration, "k", hash, []));
    var w2 := Conflicts(w1, pid, Batcher(hash, Claiming(ClaimPut(0))), id, 0);
    var w3 := FindsMarker(w2, pid, Batcher(hash, Claiming(ClaimHead(0))), 0);
    w' := Go(w3, pid, w3.s.procs[pid], BatchChoice("", DefiniteFailure));
  }

  /** ... and checks its record. */
  lemma Repairer(w: Path, pid: nat, id: TxId, hash: string) returns (w': Path)
    requires w.Valid() && Ambiguous(w.s.g) && pid !in w.s.procs && Unused(w.s.g, id) && ClaimedWithH(w.s.g)
    ensures w'.Extends(w) && Ambiguous(w'.s.g) && ClaimedWithH(w'.s.g) && w'.s.g.owners.Keys == w.s.g.owners.Keys + {id}
    ensures w'.s.procs == w.s.procs[pid := Batcher(hash, Working(RepairWork("a")))]
  {
    var w1 := RepairerFindsBatch(w, pid, id, hash);
    w' := Go(w1, pid, w1.s.procs[pid], BatchChoice("", DefiniteFailure));
  }

  function BatchReceipt(commitId: string): Receipt { OrchestrationReceiptFor("a", BatchCommit(commitId), 0) }

  /** A repair compacts, builds its own receipt and loads the record, whatever it says by then ... */
  lemma RepairBuilds(w: Path, pid: nat, hash: string, commitId: string) returns (w': Path, pub: Publication)
    requires w.Valid() && Held(w.s.g) && At(w.s, pid, Batcher(hash, Working(RepairWork("a"))))
    ensures w'.Extends(w) && w'.s.g == w.s.g.(proposals := w'.s.g.proposals)
    ensures var o := w.s.g.markers.objects[(Orchestration, "k")];
            w'.s.procs == w.s.procs[pid := Batcher(hash, Persisting(pub, PersistMarker(o.version, o.body)))]
    ensures var o := w.s.g.records.objects[(Orchestration, "a")];
            var rc := BatchReceipt(commitId);
            pub == Publication(Owner, rc, VisibleRecord(o.body, rc, false), o.version)
  {
    var w1 := Go(w, pid, Batcher(hash, Working(RepairWork("a"))), BatchChoice("", BatchCommit(commitId)));
    var rc := BatchReceipt(commitId);
    w', pub := ReachesMarker(w1, pid, Batcher(hash, Recording(LoadHead(Finalize(rc, false), "a"))), "a", rc, 0);
  }

  /** ... and publishes it. */
  lemma RepairCompletes(w: Path, pid: nat, hash: string, commitId: string) returns (w': Path)
    requires w.Valid() && Held(w.s.g) && At(w.s, pid, Batcher(hash, Working(RepairWork("a"))))
    ensures w'.Extends(w) && Held(w'.s.g) && w'.s.g.owners == w.s.g.owners && RecordVisible(w'.s.g, Orchestration, "a")
    ensures w'.s.procs == w.s.procs[pid := Batcher(hash, Done(BatchReceipt(commitId), false))]
  {
    var w1, pub := RepairBuilds(w, pid, hash, commitId);
    var w2 := MarkerWritten(w1, pid, w1.s.procs[pid], pub, 0);
    w' := RecordWritten(w2, pid, w2.s.procs[pid], pub, 0);
  }
}

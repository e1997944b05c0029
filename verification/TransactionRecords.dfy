/**
 What happens to the record of a catalog or root transaction while its marker is published.

 Only the process that allocated such a transaction writes a record of it that is not
 visible.  So a version its owner or a replaying caller has read is still current unless
 the record has become visible meanwhile, and a write of the visible record is refused
 only when it is no longer needed.  What is left are writes that fail with an error, and
 the invariant holds until one of those is lost.
 */
module TransactionRecords {
  import opened ObjectStore
  import opened TransactionTypes
  import opened TransactionSteps
  import opened TransactionInvariant
  import opened TransactionProofs
  import opened TransactionTheorems

  predicate OwnedBy(g: Shared, t: TxId, pid: nat) { t in g.owners && g.owners[t].pid == pid }

  /** The record is visible, or nobody has written it since version `v`. */
  predicate StillAt(g: Shared, d: Domain, t: TxId, v: nat) {
    (d, t) in g.records.objects && (RecordVisible(g, d, t) || g.records.objects[(d, t)].version == v)
  }

  predicate Recorded(g: Shared, d: Domain, t: TxId) { g.recordLost || RecordVisible(g, d, t) }

  predicate PurposeTied(g: Shared, pid: nat, p: Proc, purpose: Purpose, t: TxId) {
    match purpose
    case Finalize(_, _) => OwnedBy(g, t, pid)
    case Abort => OwnedBy(g, t, pid)
    case MarkVisible(_) => RecordVisible(g, p.domain, t)
    case _ => true
  }

  predicate RecordPcTied(g: Shared, pid: nat, p: Proc, pc: RecordPc) {
    match pc
    case LoadHead(purpose, t) => PurposeTied(g, pid, p, purpose, t)
    case LoadGet(purpose, t, v) =>
      && PurposeTied(g, pid, p, purpose, t)
      && (purpose.Finalize? ==> StillAt(g, p.domain, t, v))
      && (purpose.Resolve? && purpose.marker.txRecord.Some? ==> g.recordLost || StillAt(g, p.domain, t, v))
    case RootAudit(rc, _) => RecordVisible(g, p.domain, rc.txId)
    case ResolvePut(r, _, pre) =>
      && MarkerVisible(g, p.domain, p.key, r.txId)
      && (g.recordLost || (pre.MatchesVersion? && StillAt(g, p.domain, r.txId, pre.version)))
    case AbortPut(t, _, _) => OwnedBy(g, t, pid)
    case MarkPreparedPut(_, _, _) => false
  }

  /** What a process of the catalog or root domain knows of the record it is about. */
  predicate Tied(g: Shared, pid: nat, p: Proc) {
    match p.pc
    case Working(w) => w.StorePrepared? ==> (p.domain, w.tx) !in g.records.objects
    case Recording(pc) => RecordPcTied(g, pid, p, pc)
    case Persisting(pub, _) =>
      if pub.who == Owner
      then OwnedBy(g, pub.record.txId, pid) && StillAt(g, p.domain, pub.record.txId, pub.recordVersion)
      else RecordVisible(g, p.domain, pub.record.txId)
    case Done(rc, _) => Recorded(g, p.domain, rc.txId)
    case _ => true
  }

  ghost predicate ProcsTied(g: Shared, ps: map<nat, Proc>) {
    forall pid :: pid in ps && ps[pid].domain != Orchestration ==> Tied(g, pid, ps[pid])
  }

  /** Process `pid` has written the marker of `t` and is about to write its record. */
  predicate Publishing(ps: map<nat, Proc>, pid: nat, d: Domain, t: TxId) {
    && pid in ps && ps[pid].domain == d && ps[pid].pc.Persisting?
    && (ps[pid].pc.persist == PersistRecord || ps[pid].pc.persist == PersistRecordAfterError)
    && ps[pid].pc.pub.who == Owner && ps[pid].pc.pub.record.txId == t
  }

  /** The record of the transaction in a visible marker is visible, or its owner is about to make it so. */
  predicate Followed(g: Shared, ps: map<nat, Proc>, d: Domain, key: string) {
    (d, key) in g.markers.objects && g.markers.objects[(d, key)].body.txRecord.Some? ==>
      var t := g.markers.objects[(d, key)].body.txId;
      t in g.owners && (Recorded(g, d, t) || Publishing(ps, g.owners[t].pid, d, t))
  }

  ghost predicate MarkersFollowed(g: Shared, ps: map<nat, Proc>) {
    forall d, key :: (d, key) in g.markers.objects && d != Orchestration ==> Followed(g, ps, d, key)
  }

  ghost predicate RecordsFollow(s: State) { ProcsTied(s.g, s.procs) && MarkersFollowed(s.g, s.procs) }

  // ------------------------------------------------------------------
  // Who writes a record
  // ------------------------------------------------------------------

  predicate Aborting(p: Proc) { p.pc.Recording? && p.pc.load.AbortPut? }

  /** How a step of process `pid` may change the record (d, t). */
  predicate RecordMoves(g: Shared, g': Shared, pid: nat, p: Proc, d: Domain, t: TxId) {
    if (d, t) in g.records.objects then
      && (d, t) in g'.records.objects
      && (|| g'.records.objects[(d, t)] == g.records.objects[(d, t)]
          || RecordVisible(g', d, t)
          || (Aborting(p) && OwnedBy(g, t, pid)))
    else (d, t) in g'.records.objects ==> OwnedBy(g, t, pid)
  }

  lemma PutMoves(g: Shared, pid: nat, p: Proc, d: Domain, t: TxId, k: TxId, r: Record, pre: Precondition, fault: Fault)
    requires d != Orchestration && (p.domain == d && k == t ==>
               || (r.status == Visible && (d, t) in g.records.objects)
               || (OwnedBy(g, t, pid) && (pre == DoesNotExist || Aborting(p))))
    ensures RecordMoves(g, g.(records := TryPut(g.records, (p.domain, k), r, pre, fault).0), pid, p, d, t)
  {
  }

  lemma WorkMoves(cfg: Config, g: Shared, pid: nat, p: Proc, pc: WorkPc, c: Choice, d: Domain, t: TxId)
    requires d != Orchestration && (pc.StorePrepared? ==> OwnedBy(g, pc.tx, pid))
    ensures RecordMoves(g, AdvanceWork(cfg, g, pid, p, pc, c).0, pid, p, d, t)
  {
    if pc.StorePrepared? {
      PutMoves(g, pid, p, d, t, pc.tx, PreparedRecord(p, pc.tx, c.now), DoesNotExist, c.fault);
    }
  }

  lemma PersistMoves(cfg: Config, g: Shared, pid: nat, p: Proc, pub: Publication, pc: PersistPc, c: Choice, d: Domain,
                     t: TxId)
    requires d != Orchestration && pub.record.status == Visible && (p.domain, pub.record.txId) in g.records.objects
    ensures RecordMoves(g, AdvancePersist(cfg, g, p, pub, pc, c).0, pid, p, d, t)
  {
    PutMoves(g, pid, p, d, t, pub.record.txId, pub.record, MatchesVersion(pub.recordVersion), c.fault);
  }

  lemma LoadMoves(cfg: Config, g: Shared, pid: nat, p: Proc, pc: RecordPc, c: Choice, d: Domain, t: TxId)
    requires d != Orchestration && p.pc == Recording(pc) && (p.domain == d ==> RecordPcTied(g, pid, p, pc))
    requires pc.ResolvePut? ==> pc.record.status == Visible && (p.domain, pc.record.txId) in g.records.objects
    ensures RecordMoves(g, AdvanceRecord(cfg, g, p, pc, c).0, pid, p, d, t)
  {
    match pc
    case ResolvePut(r, _, pre) => PutMoves(g, pid, p, d, t, r.txId, r, pre, c.fault);
    case AbortPut(k, v, r) =>
      PutMoves(g, pid, p, d, t, k, r.(status := Aborted, visibleAt := None, result := None), MatchesVersion(v),
               c.fault);
    case _ =>
  }

  /** Whatever a process does, a record it does not own stays or becomes visible. */
  lemma AdvanceMoves(cfg: Config, g: Shared, pid: nat, p: Proc, c: Choice, d: Domain, t: TxId)
    requires PcOk(g, pid, p, p.pc) && d != Orchestration && (p.domain != Orchestration ==> Tied(g, pid, p))
    ensures RecordMoves(g, Advance(cfg, g, pid, p, c).0, pid, p, d, t)
  {
    match p.pc
    case Working(pc) => WorkMoves(cfg, g, pid, p, pc, c, d, t);
    case Persisting(pub, pc) => PersistMoves(cfg, g, pid, p, pub, pc, c, d, t);
    case Recording(pc) => LoadMoves(cfg, g, pid, p, pc, c, d, t);
    case _ =>
  }

  // ------------------------------------------------------------------
  // What a process knows survives the steps of the others
  // ------------------------------------------------------------------

  lemma OwnedStays(g: Shared, g': Shared, pid: nat, p: Proc, d: Domain, t: TxId, v: nat)
    requires StillAt(g, d, t, v) && RecordsEvolve(g, g') && RecordMoves(g, g', pid, p, d, t) && !OwnedBy(g, t, pid)
    ensures StillAt(g', d, t, v)
  {
  }

  /** A transaction its owner still aborts cannot be visible in its marker alone. */
  lemma ReplayedStays(g: Shared, g': Shared, ps: map<nat, Proc>, pid: nat, d: Domain, key: string, t: TxId, v: nat)
    requires g.recordLost || StillAt(g, d, t, v)
    requires RecordsEvolve(g, g') && (g.recordLost ==> g'.recordLost)
    requires pid in ps && RecordMoves(g, g', pid, ps[pid], d, t)
    requires MarkerVisible(g, d, key, t) && Followed(g, ps, d, key)
    ensures g'.recordLost || StillAt(g', d, t, v)
  {
  }

  lemma LoadStaysTied(g: Shared, g': Shared, ps: map<nat, Proc>, pid: nat, q: nat, pq: Proc, pc: RecordPc, t: TxId)
    requires Evolves(g, g') && pid in ps && q != pid
    requires RecordPcTied(g, q, pq, pc) && t == TxOf(Recording(pc))
    requires RecordMoves(g, g', pid, ps[pid], pq.domain, t) && Followed(g, ps, pq.domain, pq.key)
    requires pc.LoadGet? && pc.purpose.Resolve? && pc.purpose.marker.txRecord.Some? ==>
               MarkerVisible(g, pq.domain, pq.key, t)
    ensures RecordPcTied(g', q, pq, pc)
  {
    match pc
    case LoadGet(purpose, _, v) =>
      if purpose.Finalize? {
        OwnedStays(g, g', pid, ps[pid], pq.domain, t, v);
      } else if purpose.Resolve? && purpose.marker.txRecord.Some? {
        ReplayedStays(g, g', ps, pid, pq.domain, pq.key, t, v);
      }
    case ResolvePut(r, _, pre) =>
      if pre.MatchesVersion? {
        ReplayedStays(g, g', ps, pid, pq.domain, pq.key, t, pre.version);
      }
    case _ =>
  }

  function TxOf(pc: Pc): TxId {
    match pc
    case Working(w) => if w.StorePrepared? then w.tx else ""
    case Recording(load) => if load.ResolvePut? then load.record.txId else if load.LoadGet? then load.tx else ""
    case Persisting(pub, _) => pub.record.txId
    case _ => ""
  }

  lemma RecordingStaysTied(g: Shared, g': Shared, ps: map<nat, Proc>, pid: nat, q: nat, pq: Proc, pc: RecordPc)
    requires Evolves(g, g') && pid in ps && q != pid && Followed(g, ps, pq.domain, pq.key)
    requires LoadOk(g, pq, pc) && RecordPcTied(g, q, pq, pc)
    requires RecordMoves(g, g', pid, ps[pid], pq.domain, TxOf(Recording(pc)))
    ensures RecordPcTied(g', q, pq, pc)
  {
    LoadStaysTied(g, g', ps, pid, q, pq, pc, TxOf(Recording(pc)));
  }

  lemma StaysTied(g: Shared, g': Shared, ps: map<nat, Proc>, pid: nat, q: nat, pq: Proc)
    requires Evolves(g, g') && pid in ps && q != pid && Followed(g, ps, pq.domain, pq.key)
    requires PcOk(g, q, pq, pq.pc) && Tied(g, q, pq) && RecordMoves(g, g', pid, ps[pid], pq.domain, TxOf(pq.pc))
    ensures Tied(g', q, pq)
  {
    match pq.pc
    case Recording(pc) => RecordingStaysTied(g, g', ps, pid, q, pq, pc);
    case Persisting(pub, _) =>
      if pub.who == Owner {
        OwnedStays(g, g', pid, ps[pid], pq.domain, pub.record.txId, pub.recordVersion);
      }
    case _ =>
  }

  // ------------------------------------------------------------------
  // A process's own step
  // ------------------------------------------------------------------

  lemma ClaimTies(cfg: Config, g: Shared, pid: nat, p: Proc, pc: ClaimPc, c: Choice)
    requires RecordsOk(g) && p.pc == Claiming(pc)
    ensures var r := AdvanceClaim(cfg, g, pid, p, pc, c); Tied(r.0, pid, p.(pc := r.1))
  {
  }

  lemma WorkTies(cfg: Config, g: Shared, pid: nat, p: Proc, pc: WorkPc, c: Choice)
    requires p.domain != Orchestration && WorkOk(g, pid, p, pc) && !pc.RootWait?
    requires pc.RootLoop? ==> |pc.commits| == |p.mutations|
    ensures var r := AdvanceWork(cfg, g, pid, p, pc, c); r.1 == p.pc || Tied(r.0, pid, p.(pc := r.1))
  {
  }

  lemma FailedTies(g: Shared, pid: nat, p: Proc, pub: Publication)
    requires pub.receipt.txId == pub.record.txId
    requires if pub.who == Owner then OwnedBy(g, pub.record.txId, pid) else RecordVisible(g, p.domain, pub.record.txId)
    ensures Tied(g, pid, p.(pc := PersistFailed(p, pub)))
  {
  }

  /** A write of the visible record of a version that is still current, or that is not needed any more. */
  lemma PutVisibleRecords(cfg: Config, g: Shared, d: Domain, r: Record, pre: Precondition, fault: Fault)
    requires r.status == Visible && (g.recordLost || (pre.MatchesVersion? && StillAt(g, d, r.txId, pre.version)))
    ensures match PutVisible(cfg, g, d, r, pre, fault)
            case Some((g', out)) => Recorded(g', d, r.txId) && (out == Written ==> RecordVisible(g', d, r.txId))
            case None => true
  {
  }

  lemma RecordWriteTies(cfg: Config, g: Shared, pid: nat, p: Proc, pub: Publication, c: Choice)
    requires PublicationOk(g, p, pub) && p.domain != Orchestration
    requires p.pc == Persisting(pub, PersistRecord) || p.pc == Persisting(pub, PersistRecordAfterError)
    requires Tied(g, pid, p)
    ensures var r := AdvancePersist(cfg, g, p, pub, p.pc.persist, c); Tied(r.0, pid, p.(pc := r.1))
  {
    match PutRecord(cfg, g, p, pub, c)
    case Some((g1, out)) =>
      assert RecordVisible(g, p.domain, pub.record.txId) ==> RecordVisible(g1, p.domain, pub.record.txId);
      FailedTies(g1, pid, p, pub);
    case None =>
  }

  /** Reading and writing the marker leaves records alone, and the publication goes on or has failed. */
  lemma MarkerStepIs(cfg: Config, g: Shared, p: Proc, pub: Publication, pc: PersistPc, c: Choice)
    requires p.pc == Persisting(pub, pc) && pc != PersistRecord && pc != PersistRecordAfterError
    ensures var r := AdvancePersist(cfg, g, p, pub, pc, c);
            && r.0.records == g.records && r.0.owners == g.owners
            && (r.1 == PersistFailed(p, pub) || (r.1.Persisting? && r.1.pub == pub))
  {
  }

  lemma MarkerStepTies(cfg: Config, g: Shared, pid: nat, p: Proc, pub: Publication, pc: PersistPc, c: Choice)
    requires pub.receipt.txId == pub.record.txId && p.pc == Persisting(pub, pc) && Tied(g, pid, p)
    requires pc != PersistRecord && pc != PersistRecordAfterError
    ensures var r := AdvancePersist(cfg, g, p, pub, pc, c); Tied(r.0, pid, p.(pc := r.1))
  {
    MarkerStepIs(cfg, g, p, pub, pc, c);
    FailedTies(AdvancePersist(cfg, g, p, pub, pc, c).0, pid, p, pub);
  }

  lemma PersistTies(cfg: Config, g: Shared, pid: nat, p: Proc, pub: Publication, pc: PersistPc, c: Choice)
    requires PublicationOk(g, p, pub) && p.pc == Persisting(pub, pc) && p.domain != Orchestration && Tied(g, pid, p)
    ensures var r := AdvancePersist(cfg, g, p, pub, pc, c); Tied(r.0, pid, p.(pc := r.1))
  {
    if pc == PersistRecord || pc == PersistRecordAfterError {
      RecordWriteTies(cfg, g, pid, p, pub, c);
    } else {
      MarkerStepTies(cfg, g, pid, p, pub, pc, c);
    }
  }

  lemma AfterMissingTies(g: Shared, pid: nat, p: Proc, purpose: Purpose, t: TxId)
    requires p.domain != Orchestration && PurposeOk(g, p, purpose, t) && PurposeTied(g, pid, p, purpose, t)
    ensures Tied(g, pid, p.(pc := AfterReadError(p, purpose, t)))
    ensures (p.domain, t) !in g.records.objects ==> Tied(g, pid, p.(pc := AfterMissing(p, purpose, t)))
  {
  }

  lemma AfterLoadTies(g: Shared, pid: nat, p: Proc, purpose: Purpose, t: TxId, v: nat)
    requires p.domain != Orchestration && RecordsOk(g) && PurposeOk(g, p, purpose, t)
    requires (p.domain, t) in g.records.objects && RecordPcTied(g, pid, p, LoadGet(purpose, t, v))
    ensures Tied(g, pid, p.(pc := AfterLoad(p, purpose, t, v, g.records.objects[(p.domain, t)].body)))
  {
  }

  lemma LoadTies(cfg: Config, g: Shared, pid: nat, p: Proc, pc: RecordPc, c: Choice)
    requires RecordsOk(g) && p.domain != Orchestration && p.pc == Recording(pc)
    requires LoadOk(g, p, pc) && RecordPcTied(g, pid, p, pc)
    ensures var r := AdvanceRecord(cfg, g, p, pc, c); Tied(r.0, pid, p.(pc := r.1))
  {
    match pc
    case LoadHead(purpose, t) => AfterMissingTies(g, pid, p, purpose, t);
    case LoadGet(purpose, t, v) =>
      AfterMissingTies(g, pid, p, purpose, t);
      if (p.domain, t) in g.records.objects {
        AfterLoadTies(g, pid, p, purpose, t, v);
      }
    case ResolvePut(r, rc, pre) => PutVisibleRecords(cfg, g, p.domain, r, pre, c.fault);
    case _ =>
  }

  lemma AdvanceTies(cfg: Config, g: Shared, pid: nat, p: Proc, c: Choice)
    requires RecordsOk(g) && p.domain != Orchestration && PcOk(g, pid, p, p.pc) && Tied(g, pid, p)
    requires !StartsChild(p) && !AwaitsChild(p)
    ensures var r := Advance(cfg, g, pid, p, c); Tied(r.0, pid, p.(pc := r.1))
  {
    match p.pc
    case Claiming(pc) => ClaimTies(cfg, g, pid, p, pc, c);
    case Working(pc) => WorkTies(cfg, g, pid, p, pc, c);
    case Persisting(pub, pc) => PersistTies(cfg, g, pid, p, pub, pc, c);
    case Recording(pc) => LoadTies(cfg, g, pid, p, pc, c);
    case _ =>
  }

  // ------------------------------------------------------------------
  // Markers are followed by records
  // ------------------------------------------------------------------

  predicate Carries(g: Shared, d: Domain, key: string) {
    (d, key) in g.markers.objects && g.markers.objects[(d, key)].body.txRecord.Some?
  }

  /** Process `p` is writing the marker of (d, key). */
  predicate WritesMarkerOf(p: Proc, d: Domain, key: string) {
    p.domain == d && p.key == key && p.pc.Persisting? && p.pc.persist.PersistMarker?
  }

  lemma ClaimsCarryNothing(cfg: Config, g: Shared, pid: nat, p: Proc, pc: ClaimPc, c: Choice, d: Domain, key: string)
    requires !Carries(g, d, key)
    ensures !Carries(AdvanceClaim(cfg, g, pid, p, pc, c).0, d, key)
  {
  }

  lemma WorkLeavesMarkers(cfg: Config, g: Shared, pid: nat, p: Proc, pc: WorkPc, c: Choice)
    ensures AdvanceWork(cfg, g, pid, p, pc, c).0.markers == g.markers
  {
  }

  lemma LoadLeavesMarkers(cfg: Config, g: Shared, p: Proc, pc: RecordPc, c: Choice)
    ensures AdvanceRecord(cfg, g, p, pc, c).0.markers == g.markers
  {
  }

  lemma PublicationCarries(cfg: Config, g: Shared, p: Proc, pub: Publication, pc: PersistPc, c: Choice, d: Domain,
                           key: string)
    requires pc.PersistMarker? ==> pc.marker.txId == pub.record.txId
    requires !Carries(g, d, key) && Carries(AdvancePersist(cfg, g, p, pub, pc, c).0, d, key)
    ensures pc.PersistMarker? && p.domain == d && p.key == key
    ensures var r := AdvancePersist(cfg, g, p, pub, pc, c);
            && r.0.markers.objects[(d, key)].body.txId == pub.record.txId
            && (r.1 == Persisting(pub, PersistRecord) || r.1 == Persisting(pub, PersistRecordAfterError))
  {
  }

  /** Only a publication makes a key visible, and it goes on to the record. */
  lemma MarkerAppears(cfg: Config, g: Shared, pid: nat, p: Proc, c: Choice, d: Domain, key: string)
    requires PcOk(g, pid, p, p.pc) && !Carries(g, d, key) && Carries(Advance(cfg, g, pid, p, c).0, d, key)
    ensures WritesMarkerOf(p, d, key)
    ensures var r := Advance(cfg, g, pid, p, c);
            && r.0.markers.objects[(d, key)].body.txId == p.pc.pub.record.txId
            && (r.1 == Persisting(p.pc.pub, PersistRecord) || r.1 == Persisting(p.pc.pub, PersistRecordAfterError))
  {
    match p.pc
    case Claiming(pc) => ClaimsCarryNothing(cfg, g, pid, p, pc, c, d, key);
    case Working(pc) => WorkLeavesMarkers(cfg, g, pid, p, pc, c);
    case Persisting(pub, pc) => PublicationCarries(cfg, g, p, pub, pc, c, d, key);
    case Recording(pc) => LoadLeavesMarkers(cfg, g, p, pc, c);
    case _ =>
  }

  lemma MarkerFollowed(cfg: Config, g: Shared, ps: map<nat, Proc>, pid: nat, c: Choice, d: Domain, key: string)
    requires pid in ps && d != Orchestration && PcOk(g, pid, ps[pid], ps[pid].pc)
    requires ps[pid].domain != Orchestration ==> Tied(g, pid, ps[pid])
    requires !Carries(g, d, key) && Evolves(g, Advance(cfg, g, pid, ps[pid], c).0)
    ensures var r := Advance(cfg, g, pid, ps[pid], c); Followed(r.0, ps[pid := ps[pid].(pc := r.1)], d, key)
  {
    if Carries(Advance(cfg, g, pid, ps[pid], c).0, d, key) {
      MarkerAppears(cfg, g, pid, ps[pid], c, d, key);
    }
  }

  /** The owner's write of the record makes it visible, unless it meets an error. */
  lemma PublishingEnds(cfg: Config, g: Shared, ps: map<nat, Proc>, pid: nat, c: Choice, d: Domain, t: TxId)
    requires d != Orchestration && Publishing(ps, pid, d, t) && Tied(g, pid, ps[pid])
    requires PcOk(g, pid, ps[pid], ps[pid].pc)
    ensures var r := Advance(cfg, g, pid, ps[pid], c);
            Recorded(r.0, d, t) || Publishing(ps[pid := ps[pid].(pc := r.1)], pid, d, t)
  {
    var pub := ps[pid].pc.pub;
    PutVisibleRecords(cfg, g, d, pub.record, MatchesVersion(pub.recordVersion), c.fault);
  }

  lemma StaysFollowed(cfg: Config, g: Shared, ps: map<nat, Proc>, pid: nat, c: Choice, d: Domain, key: string)
    requires pid in ps && d != Orchestration && PcOk(g, pid, ps[pid], ps[pid].pc)
    requires ps[pid].domain != Orchestration ==> Tied(g, pid, ps[pid])
    requires Carries(g, d, key) && Followed(g, ps, d, key) && Evolves(g, Advance(cfg, g, pid, ps[pid], c).0)
    ensures var r := Advance(cfg, g, pid, ps[pid], c); Followed(r.0, ps[pid := ps[pid].(pc := r.1)], d, key)
  {
    var t := g.markers.objects[(d, key)].body.txId;
    var g' := Advance(cfg, g, pid, ps[pid], c).0;
    assert Recorded(g, d, t) ==> Recorded(g', d, t);
    if g.owners[t].pid == pid && Publishing(ps, pid, d, t) {
      PublishingEnds(cfg, g, ps, pid, c, d, t);
    }
  }

  // ------------------------------------------------------------------
  // Runs
  // ------------------------------------------------------------------

  lemma StepKeepsProcs(cfg: Config, s: State, pid: nat, c: Choice)
    requires Inv(s) && RecordsFollow(s) && pid in s.procs && !StartsChild(s.procs[pid]) && !AwaitsChild(s.procs[pid])
    requires Evolves(s.g, Advance(cfg, s.g, pid, s.procs[pid], c).0)
    ensures var s' := StepProcess(cfg, s, pid, s.procs[pid], c); ProcsTied(s'.g, s'.procs)
  {
    var p := s.procs[pid];
    assert ProcOk(s.g, pid, p);
    var s' := StepProcess(cfg, s, pid, p, c);
    forall q | q in s'.procs && s'.procs[q].domain != Orchestration
      ensures Tied(s'.g, q, s'.procs[q])
    {
      var pq := s.procs[q];
      if q == pid {
        AdvanceTies(cfg, s.g, pid, p, c);
      } else {
        assert ProcOk(s.g, q, pq);
        AdvanceMoves(cfg, s.g, pid, p, c, pq.domain, TxOf(pq.pc));
        StaysTied(s.g, s'.g, s.procs, pid, q, pq);
      }
    }
  }

  lemma StepKeepsMarkers(cfg: Config, s: State, pid: nat, c: Choice)
    requires Inv(s) && RecordsFollow(s) && pid in s.procs && !StartsChild(s.procs[pid]) && !AwaitsChild(s.procs[pid])
    requires Evolves(s.g, Advance(cfg, s.g, pid, s.procs[pid], c).0)
    ensures var s' := StepProcess(cfg, s, pid, s.procs[pid], c); MarkersFollowed(s'.g, s'.procs)
  {
    assert ProcOk(s.g, pid, s.procs[pid]);
    var s' := StepProcess(cfg, s, pid, s.procs[pid], c);
    forall d, key | (d, key) in s'.g.markers.objects && d != Orchestration
      ensures Followed(s'.g, s'.procs, d, key)
    {
      if Carries(s.g, d, key) {
        StaysFollowed(cfg, s.g, s.procs, pid, c, d, key);
      } else {
        MarkerFollowed(cfg, s.g, s.procs, pid, c, d, key);
      }
    }
  }

  lemma StepFollows(cfg: Config, s: State, pid: nat, c: Choice)
    requires Inv(s) && RecordsFollow(s) && pid in s.procs && !StartsChild(s.procs[pid]) && !AwaitsChild(s.procs[pid])
    ensures RecordsFollow(StepProcess(cfg, s, pid, s.procs[pid], c))
  {
    assert ProcOk(s.g, pid, s.procs[pid]);
    AdvanceOk(cfg, s.g, pid, s.procs[pid], c);
    StepKeepsProcs(cfg, s, pid, c);
    StepKeepsMarkers(cfg, s, pid, c);
  }

  /** A process that is not publishing may move on without touching records or markers. */
  lemma MovesFollow(g: Shared, ps: map<nat, Proc>, ps': map<nat, Proc>, moved: set<nat>)
    requires ProcsTied(g, ps) && MarkersFollowed(g, ps)
    requires forall q :: q in ps && q !in moved ==> q in ps' && ps'[q] == ps[q]
    requires forall q :: q in ps && q in moved ==> !ps[q].pc.Persisting?
    requires forall q :: q in ps' && (q !in ps || q in moved) && ps'[q].domain != Orchestration ==> Tied(g, q, ps'[q])
    ensures ProcsTied(g, ps') && MarkersFollowed(g, ps')
  {
    forall d, key | (d, key) in g.markers.objects && d != Orchestration
      ensures Followed(g, ps', d, key)
    {
      assert Followed(g, ps, d, key);
    }
  }

  /** Starting a participant, and joining it, touches no record. */
  lemma ParticipantFollows(cfg: Config, s: State, pid: nat, c: Choice)
    requires Inv(s) && RecordsFollow(s) && pid in s.procs && (StartsChild(s.procs[pid]) || AwaitsChild(s.procs[pid]))
    ensures RecordsFollow(StepProcess(cfg, s, pid, s.procs[pid], c))
  {
    assert WorkOk(s.g, pid, s.procs[pid], s.procs[pid].pc.work);
    MovesFollow(s.g, s.procs, StepProcess(cfg, s, pid, s.procs[pid], c).procs, {pid});
  }

  /** Requests that arrive, and the catalog manifests, touch no record either. */
  lemma EnvironmentFollows(cfg: Config, s: State, a: Action)
    requires RecordsFollow(s) && !a.Step?
    ensures RecordsFollow(Next(cfg, s, a))
  {
    var s' := Next(cfg, s, a);
    MovesFollow(s.g, s.procs, s'.procs, {});
    forall d, key | (d, key) in s'.g.markers.objects && d != Orchestration
      ensures Followed(s'.g, s'.procs, d, key)
    {
      assert Followed(s.g, s'.procs, d, key);
    }
    forall q | q in s'.procs && s'.procs[q].domain != Orchestration
      ensures Tied(s'.g, q, s'.procs[q])
    {
      assert Tied(s.g, q, s'.procs[q]);
    }
  }

  lemma NextFollows(cfg: Config, s: State, a: Action)
    requires Inv(s) && RecordsFollow(s)
    ensures RecordsFollow(Next(cfg, s, a))
  {
    if !a.Step? {
      EnvironmentFollows(cfg, s, a);
    } else if a.pid in s.procs {
      if StartsChild(s.procs[a.pid]) || AwaitsChild(s.procs[a.pid]) {
        ParticipantFollows(cfg, s, a.pid, a.choice);
      } else {
        StepFollows(cfg, s, a.pid, a.choice);
      }
    }
  }

  lemma {:induction false} ExecFollows(cfg: Config, s: State, run: seq<Action>)
    requires Inv(s) && RecordsFollow(s)
    ensures RecordsFollow(Exec(cfg, s, run))
    decreases |run|
  {
    if run != [] {
      NextKeepsInv(cfg, s, run[0]);
      NextFollows(cfg, s, run[0]);
      ExecFollows(cfg, Next(cfg, s, run[0]), run[1..]);
    }
  }

  lemma Follow(cfg: Config, run: seq<Action>)
    ensures var s := Exec(cfg, Init(), run); Inv(s) && RecordsFollow(s)
  {
    ExecKeepsInv(cfg, Init(), run);
    ExecFollows(cfg, Init(), run);
  }

  /** Unless a write of a visible record was lost, the record of every catalog or root answer is visible. */
  lemma AnswersAreRecorded(cfg: Config, run: seq<Action>, pid: nat, d: Domain, key: string, rc: Receipt)
    requires d != Orchestration && Answered(Exec(cfg, Init(), run), pid, d, key, rc)
    requires !Exec(cfg, Init(), run).g.recordLost
    ensures RecordVisible(Exec(cfg, Init(), run).g, d, rc.txId)
  {
    Follow(cfg, run);
  }
}

/** Every step keeps the invariant and evolves the state; so does every run. */
module TransactionProofs {
  import opened ObjectStore
  import opened TransactionTypes
  import opened TransactionSteps
  import opened TransactionInvariant

  // ------------------------------------------------------------------
  // Facts survive the steps of others
  // ------------------------------------------------------------------

  lemma CommitsStable(g: Shared, g': Shared, rootKey: string, commits: seq<DomainCommit>)
    requires Evolves(g, g') && CommitsVisible(g, rootKey, commits)
    ensures CommitsVisible(g', rootKey, commits)
  {
    forall i | 0 <= i < |commits| ensures ParticipantVisible(g', rootKey, commits[i]) {
      assert ParticipantVisible(g, rootKey, commits[i]);
      var rc :| rc in g.proposals && CommitOf(rc) == commits[i];
      assert rc in g'.proposals;
    }
  }

  lemma MarkerStable(g: Shared, g': Shared, d: Domain, key: string, m: Marker)
    requires Evolves(g, g') && MarkerOk(g, d, key, m)
    ensures MarkerOk(g', d, key, m)
  {
  }

  lemma RecordStable(g: Shared, g': Shared, d: Domain, t: TxId, r: Record)
    requires Evolves(g, g') && RecordOk(g, d, t, r)
    ensures RecordOk(g', d, t, r)
  {
  }

  lemma ReceiptStable(g: Shared, g': Shared, rc: Receipt)
    requires Evolves(g, g') && ReceiptOk(g, rc)
    ensures ReceiptOk(g', rc)
  {
    if rc.RootReceipt? {
      CommitsStable(g, g', g.owners[rc.txId].key, rc.domainCommits);
    }
  }

  lemma OwningStable(g: Shared, g': Shared, pid: nat, q: nat, p: Proc, t: TxId)
    requires EvolvesBy(g, g', pid) && (q != pid || g'.proposals == g.proposals) && Owning(g, q, p, t) && ProposalsOk(g')
    ensures Owning(g', q, p, t)
  {
    if !MayRepair(g', p.domain) {
      forall rc | rc in g'.proposals ensures rc.txId != t {
        assert ReceiptOk(g', rc);
      }
    }
  }

  lemma ClaimStable(g: Shared, g': Shared, p: Proc, pc: ClaimPc)
    requires Evolves(g, g') && ClaimOk(g, p, pc)
    ensures ClaimOk(g', p, pc)
  {
  }

  lemma WorkStable(g: Shared, g': Shared, pid: nat, q: nat, p: Proc, pc: WorkPc)
    requires EvolvesBy(g, g', pid) && (q != pid || g'.proposals == g.proposals)
    requires WorkOk(g, q, p, pc) && ProposalsOk(g')
    ensures WorkOk(g', q, p, pc)
  {
    match pc
    case StorePrepared(t) => OwningStable(g, g', pid, q, p, t);
    case Work(t) => OwningStable(g, g', pid, q, p, t);
    case RootLoop(t, commits, refs, _) =>
      OwningStable(g, g', pid, q, p, t);
      CommitsStable(g, g', p.key, commits);
    case RootWait(t, commits, refs, _, child) =>
      OwningStable(g, g', pid, q, p, t);
      CommitsStable(g, g', p.key, commits);
    case _ =>
  }

  lemma PersistStable(g: Shared, g': Shared, p: Proc, pub: Publication, pc: PersistPc)
    requires Evolves(g, g') && PersistOk(g, p, pub, pc)
    ensures PersistOk(g', p, pub, pc)
  {
  }

  lemma LoadStable(g: Shared, g': Shared, p: Proc, pc: RecordPc)
    requires Evolves(g, g') && LoadOk(g, p, pc)
    ensures LoadOk(g', p, pc)
  {
  }

  lemma PcStable(g: Shared, g': Shared, pid: nat, q: nat, p: Proc, pc: Pc)
    requires EvolvesBy(g, g', pid) && (q != pid || g'.proposals == g.proposals) && PcOk(g, q, p, pc) && ProposalsOk(g')
    ensures PcOk(g', q, p, pc)
  {
    match pc
    case Claiming(c) => ClaimStable(g, g', p, c);
    case Working(w) => WorkStable(g, g', pid, q, p, w);
    case Persisting(pub, c) => PersistStable(g, g', p, pub, c);
    case Recording(c) => LoadStable(g, g', p, c);
    case _ =>
  }

  // ------------------------------------------------------------------
  // Rules for changing the shared state
  // ------------------------------------------------------------------

  lemma MarkersKept(g: Shared, g': Shared)
    requires MarkersOk(g) && Evolves(g, g') && g'.markers == g.markers
    ensures MarkersOk(g')
  {
    forall d, key | (d, key) in g'.markers.objects ensures MarkerOk(g', d, key, g'.markers.objects[(d, key)].body) {
      MarkerStable(g, g', d, key, g.markers.objects[(d, key)].body);
    }
  }

  lemma RecordsKept(g: Shared, g': Shared)
    requires RecordsOk(g) && Evolves(g, g') && g'.records == g.records
    ensures RecordsOk(g')
  {
    forall d, t | (d, t) in g'.records.objects ensures RecordOk(g', d, t, g'.records.objects[(d, t)].body) {
      RecordStable(g, g', d, t, g.records.objects[(d, t)].body);
    }
  }

  lemma ProposalsKept(g: Shared, g': Shared)
    requires ProposalsOk(g) && Evolves(g, g') && g'.proposals == g.proposals
    ensures ProposalsOk(g')
  {
    forall rc | rc in g'.proposals ensures ReceiptOk(g', rc) {
      ReceiptStable(g, g', rc);
    }
  }

  /** Writing a record: a visible one is only overwritten by a visible one. */
  lemma WritesRecord(g: Shared, g': Shared, pid: nat, d: Domain, t: TxId, r: Record)
    requires SharedOk(g) && RecordOk(g, d, t, r)
    requires RecordVisible(g, d, t) ==> r.status == Visible
    requires (d, t) in g.records.objects ==> r.preparedAt == g.records.objects[(d, t)].body.preparedAt
    requires g' == g.(records := Write(g.records, (d, t), r))
    ensures SharedOk(g') && EvolvesBy(g, g', pid)
  {
    WriteGrows(g.records, (d, t), r);
    assert Evolves(g, g');
    MarkersKept(g, g');
    ProposalsKept(g, g');
    forall d', t' | (d', t') in g'.records.objects ensures RecordOk(g', d', t', g'.records.objects[(d', t')].body) {
      if (d', t') == (d, t) {
        RecordStable(g, g', d, t, r);
      } else {
        RecordStable(g, g', d', t', g.records.objects[(d', t')].body);
      }
    }
  }

  /** Allocating a transaction id nobody has. */
  lemma Allocates(g: Shared, pid: nat, p: Proc, t: TxId)
    requires SharedOk(g) && Unused(g, t)
    ensures var g' := Allocate(g, pid, p, t);
            SharedOk(g') && EvolvesBy(g, g', pid) && Owning(g', pid, p, t)
  {
    var g' := Allocate(g, pid, p, t);
    assert Evolves(g, g');
    MarkersKept(g, g');
    RecordsKept(g, g');
    ProposalsKept(g, g');
  }

  /** Writing a marker: one that carries a visible record keeps it, and the request hash never changes. */
  lemma WritesMarker(g: Shared, g': Shared, pid: nat, d: Domain, key: string, m: Marker)
    requires SharedOk(g)
    requires ClaimedFor(g, m.txId, d, key, m.hash) && m.key == key && m.kind == KindOf(d)
    requires m.txRecord.Some? ==> m.txRecord.value.txId == m.txId && PublishableRecord(g, d, key, m.txRecord.value)
    requires (d, key) in g.markers.objects ==> MarkerEvolves(g.markers.objects[(d, key)].body, m)
    requires g' == g.(markers := Write(g.markers, (d, key), m))
    ensures SharedOk(g') && EvolvesBy(g, g', pid)
  {
    WriteGrows(g.markers, (d, key), m);
    assert Evolves(g, g');
    RecordsKept(g, g');
    ProposalsKept(g, g');
    forall d', key' | (d', key') in g'.markers.objects
      ensures MarkerOk(g', d', key', g'.markers.objects[(d', key')].body)
    {
      if (d', key') != (d, key) {
        MarkerStable(g, g', d', key', g.markers.objects[(d', key')].body);
      }
    }
  }

  // ------------------------------------------------------------------
  // The steps, one by one
  // ------------------------------------------------------------------

  ghost predicate StepOk(g: Shared, pid: nat, p: Proc, r: (Shared, Pc)) {
    SharedOk(r.0) && EvolvesBy(g, r.0, pid) && PcOk(r.0, pid, p, r.1)
  }

  /** A step that leaves the shared state alone. */
  lemma Moves(g: Shared, pid: nat, p: Proc, pc: Pc)
    requires SharedOk(g) && PcOk(g, pid, p, pc)
    ensures StepOk(g, pid, p, (g, pc))
  {
  }

  /** A claim: a fresh transaction id, and a marker for it unless the write did not happen. */
  lemma Claims(g: Shared, g2: Shared, pid: nat, p: Proc, t: TxId, now: int)
    requires SharedOk(g) && Unused(g, t)
    requires var g1 := Allocate(g, pid, p, t);
             g2 == g1 || g2 == g1.(markers := Write(g.markers, (p.domain, p.key), FreshMarker(p, t, now)))
    requires (p.domain, p.key) in g.markers.objects && g2.markers != g.markers ==>
               MarkerEvolves(g.markers.objects[(p.domain, p.key)].body, FreshMarker(p, t, now))
    ensures SharedOk(g2) && EvolvesBy(g, g2, pid) && Owning(g2, pid, p, t)
  {
    var g1 := Allocate(g, pid, p, t);
    Allocates(g, pid, p, t);
    if g2 != g1 {
      WritesMarker(g1, g2, pid, p.domain, p.key, FreshMarker(p, t, now));
    }
  }

  lemma ClaimPutOk(g: Shared, pid: nat, p: Proc, n: nat, c: Choice)
    requires SharedOk(g) && p.pc == Claiming(ClaimPut(n))
    ensures StepOk(g, pid, p, StepClaimPut(g, pid, p, n, c))
  {
    if Unused(g, c.freshId) {
      Claims(g, StepClaimPut(g, pid, p, n, c).0, pid, p, c.freshId, c.now);
    }
  }

  lemma ClaimHeadOk(g: Shared, pid: nat, p: Proc, n: nat, c: Choice)
    requires SharedOk(g)
    ensures StepOk(g, pid, p, StepClaimHead(g, p, n, c))
  {
  }

  lemma ClaimGetOk(g: Shared, pid: nat, p: Proc, n: nat, v: nat, c: Choice)
    requires SharedOk(g) && v < g.markers.next
    ensures StepOk(g, pid, p, StepClaimGet(g, p, n, v, c))
  {
  }

  /** A marker classified visible is the current marker's transaction, unless a marker write was lost. */
  lemma ClassifiedVisible(cfg: Config, g: Shared, d: Domain, key: string, m: Marker, now: int)
    requires SharedOk(g) && MarkerOk(g, d, key, m)
    requires Classify(cfg, g.records, d, m, now) == IsVisible
    ensures Settled(g, d, key, m.txId)
  {
    if m.txRecord.None? {
      assert RecordOk(g, d, m.txId, g.records.objects[(d, m.txId)].body);
    }
  }

  lemma ClaimClassifyOk(cfg: Config, g: Shared, pid: nat, p: Proc, n: nat, v: nat, m: Marker, c: Choice)
    requires SharedOk(g) && MarkerOk(g, p.domain, p.key, m) && Seen(g.markers, (p.domain, p.key), v, m)
    ensures StepOk(g, pid, p, StepClaimClassify(cfg, g, p, n, v, m, c))
  {
    if Classify(cfg, g.records, p.domain, m, c.now) == IsVisible {
      ClassifiedVisible(cfg, g, p.domain, p.key, m, c.now);
    }
    Moves(g, pid, p, StepClaimClassify(cfg, g, p, n, v, m, c).1);
  }

  lemma Replaces(g: Shared, pid: nat, p: Proc, n: nat, v: nat, m: Marker, c: Choice)
    requires SharedOk(g) && Unused(g, c.freshId)
    requires Seen(g.markers, (p.domain, p.key), v, m) && m.txRecord.None? && m.hash == p.hash
    ensures StepOk(g, pid, p, StepClaimReplace(g, pid, p, n, v, c))
  {
    Claims(g, StepClaimReplace(g, pid, p, n, v, c).0, pid, p, c.freshId, c.now);
  }

  lemma ClaimReplaceOk(g: Shared, pid: nat, p: Proc, n: nat, v: nat, m: Marker, c: Choice)
    requires SharedOk(g) && p.pc == Claiming(ClaimReplace(n, v, m)) && ClaimOk(g, p, p.pc.claim)
    ensures StepOk(g, pid, p, StepClaimReplace(g, pid, p, n, v, c))
  {
    if Unused(g, c.freshId) {
      Replaces(g, pid, p, n, v, m, c);
    } else {
      Moves(g, pid, p, p.pc);
    }
  }

  // ------------------------------------------------------------------
  // Work, receipts and root transactions
  // ------------------------------------------------------------------

  lemma StorePreparedOk(g: Shared, pid: nat, p: Proc, t: TxId, c: Choice)
    requires SharedOk(g) && Owning(g, pid, p, t)
    ensures StepOk(g, pid, p, StepStorePrepared(g, p, t, c))
  {
    var g' := StepStorePrepared(g, p, t, c).0;
    if g' != g {
      WritesRecord(g, g', pid, p.domain, t, PreparedRecord(p, t, c.now));
    }
  }

  /** Building a receipt for a transaction that has none, or in a domain under repair. */
  lemma Proposes(g: Shared, g': Shared, pid: nat, rc: Receipt)
    requires SharedOk(g) && ReceiptOk(g, rc)
    requires g' == g.(proposals := g.proposals + {rc})
    requires || MayRepair(g, ReceiptDomain(rc))
             || (g.owners[rc.txId].pid == pid && forall x :: x in g.proposals ==> x.txId != rc.txId)
    ensures SharedOk(g') && EvolvesBy(g, g', pid)
  {
    assert Evolves(g, g');
    MarkersKept(g, g');
    RecordsKept(g, g');
    forall x | x in g'.proposals ensures ReceiptOk(g', x) {
      ReceiptStable(g, g', x);
    }
    if MayRepair(g, ReceiptDomain(rc)) {
      forall a, b | a in g'.proposals && b in g'.proposals && a.txId == b.txId && !MayRepair(g', ReceiptDomain(a))
        ensures a == b
      {
        assert ReceiptOk(g', a) && ReceiptOk(g', b);
      }
    }
  }

  /** Running the catalog writer and storing a super-manifest change nothing the facts depend on. */
  lemma Notes(g: Shared, g': Shared, pid: nat)
    requires SharedOk(g) && WellFormed(g'.supers) && SupersEvolve(g, g')
    requires g' == g.(applied := g'.applied, supers := g'.supers)
    ensures SharedOk(g') && EvolvesBy(g, g', pid)
  {
    assert Evolves(g, g');
    MarkersKept(g, g');
    RecordsKept(g, g');
    ProposalsKept(g, g');
  }

  lemma CatalogWorkOk(g: Shared, pid: nat, p: Proc, t: TxId, c: Choice)
    requires SharedOk(g) && WorkOk(g, pid, p, Work(t)) && p.domain == Catalog && p.pc == Working(Work(t))
    ensures StepOk(g, pid, p, StepCatalogWork(g, pid, p, t, c))
  {
    if c.ok {
      var g1 := g.(applied := g.applied + [pid]);
      Notes(g, g1, pid);
      if c.work.Committed? && CatalogManifestPath(c.work.manifestId) in g.manifests {
        Proposes(g1, StepCatalogWork(g, pid, p, t, c).0, pid, CatalogReceiptFor(t, c.work, c.now));
      }
    }
  }

  lemma OrchestrationProposes(g: Shared, pid: nat, p: Proc, t: TxId, rc: Receipt, repair: bool)
    requires SharedOk(g) && p.domain == Orchestration && Entitled(g, p, t)
    requires g.ambiguous || Owning(g, pid, p, t)
    requires rc.OrchestrationReceipt? && rc.txId == t
    ensures StepOk(g, pid, p, Propose(g, t, rc, repair))
  {
    Proposes(g, Propose(g, t, rc, repair).0, pid, rc);
  }

  /** An ambiguous append only raises the flag under which the other facts are weaker. */
  lemma BecomesAmbiguous(g: Shared, pid: nat)
    requires SharedOk(g)
    ensures var g' := g.(ambiguous := true); SharedOk(g') && EvolvesBy(g, g', pid)
  {
    var g' := g.(ambiguous := true);
    assert Evolves(g, g');
    MarkersKept(g, g');
    RecordsKept(g, g');
    ProposalsKept(g, g');
  }

  lemma OrchestrationWorkOk(cfg: Config, g: Shared, pid: nat, p: Proc, t: TxId, c: Choice)
    requires SharedOk(g) && WorkOk(g, pid, p, Work(t)) && p.domain == Orchestration && p.pc == Working(Work(t))
    ensures StepOk(g, pid, p, StepOrchestrationWork(cfg, g, p, t, c))
  {
    if c.work.Committed? {
      OrchestrationProposes(g, pid, p, t, OrchestrationReceiptFor(t, c.work, c.now), c.work.repairPending);
    } else if c.work.AmbiguousAfterAppend? && cfg.ambiguousAppends {
      BecomesAmbiguous(g, pid);
    } else {
      Moves(g, pid, p, StepOrchestrationWork(cfg, g, p, t, c).1);
    }
  }

  lemma RootWorkOk(g: Shared, pid: nat, p: Proc, t: TxId, c: Choice)
    requires SharedOk(g) && WorkOk(g, pid, p, Work(t)) && p.domain == Root
    ensures StepOk(g, pid, p, StepRootWork(g, p, t, c))
  {
    Moves(g, pid, p, StepRootWork(g, p, t, c).1);
  }

  /** The receipt of a root transaction whose super-manifest was just stored. */
  lemma RootProposes(g: Shared, pid: nat, p: Proc, t: TxId, rc: Receipt, repair: bool)
    requires SharedOk(g) && Owning(g, pid, p, t) && p.domain == Root
    requires rc.RootReceipt? && rc.txId == t && ReceiptOk(g, rc)
    ensures StepOk(g, pid, p, Propose(g, t, rc, repair))
  {
    Proposes(g, Propose(g, t, rc, repair).0, pid, rc);
  }

  /** Storing the super-manifest: the transaction is still the caller's, and its commits are still there. */
  lemma StoresSuperManifest(g: Shared, g1: Shared, pid: nat, p: Proc, t: TxId, commits: seq<DomainCommit>,
                            refs: map<Domain, ManifestRef>)
    requires SharedOk(g) && Owning(g, pid, p, t) && RootProgress(g, p, commits, refs)
    requires g1 == g.(supers := g1.supers) && WellFormed(g1.supers) && SupersEvolve(g, g1)
    ensures SharedOk(g1) && EvolvesBy(g, g1, pid) && Owning(g1, pid, p, t) && CommitsVisible(g1, p.key, commits)
  {
    Notes(g, g1, pid);
    CommitsStable(g, g1, p.key, commits);
  }

  /** A step that stores the super-manifest first and then goes on. */
  lemma StepsOn(g: Shared, g1: Shared, pid: nat, p: Proc, r: (Shared, Pc))
    requires EvolvesBy(g, g1, pid) && g1.owners == g.owners && StepOk(g1, pid, p, r)
    ensures StepOk(g, pid, p, r)
  {
  }

  lemma RootPublishOk(g: Shared, pid: nat, p: Proc, t: TxId, commits: seq<DomainCommit>,
                      refs: map<Domain, ManifestRef>, repair: bool, c: Choice)
    requires SharedOk(g) && Owning(g, pid, p, t) && RootProgress(g, p, commits, refs)
    ensures StepOk(g, pid, p, StepRootPublish(g, p, t, commits, refs, repair, c))
  {
    var path := SuperManifestPath(t);
    var (ss, out) := TryPut(g.supers, path, SuperManifest(t, c.now, refs), DoesNotExist, c.fault);
    var g1 := g.(supers := ss);
    StoresSuperManifest(g, g1, pid, p, t, commits, refs);
    if out == Written {
      RootProposes(g1, pid, p, t, RootReceipt(t, c.freshId, path, commits, RootToken(t), c.now), repair);
    } else {
      Moves(g1, pid, p, Recording(LoadHead(Abort, t)));
    }
    StepsOn(g, g1, pid, p, StepRootPublish(g, p, t, commits, refs, repair, c));
  }

  lemma RepairGetOk(g: Shared, pid: nat, p: Proc, m: Marker, c: Choice)
    requires SharedOk(g) && MayRepair(g, p.domain) && MarkerOk(g, p.domain, p.key, m)
    ensures StepOk(g, pid, p, StepRepairGet(g, p, m, c))
  {
    Moves(g, pid, p, StepRepairGet(g, p, m, c).1);
  }

  lemma RepairWorkOk(g: Shared, pid: nat, p: Proc, t: TxId, c: Choice)
    requires SharedOk(g) && MayRepair(g, p.domain) && ClaimedKey(g, t, p.domain, p.key)
    ensures StepOk(g, pid, p, StepRepairWork(g, p, t, c))
  {
    if c.work.Committed? {
      OrchestrationProposes(g, pid, p, t, OrchestrationReceiptFor(t, c.work, c.now), c.work.repairPending);
    } else {
      Moves(g, pid, p, Failed);
    }
  }

  // ------------------------------------------------------------------
  // Loading, persisting and rewriting records
  // ------------------------------------------------------------------

  lemma FromCacheOk(g: Shared, pid: nat, p: Proc, m: Marker, stored: Option<Object<Record>>)
    requires MarkerOk(g, p.domain, p.key, m) && Entitled(g, p, m.txId) && Settled(g, p.domain, p.key, m.txId)
    ensures PcOk(g, pid, p, FromCache(m, stored))
  {
  }

  lemma AfterMissingOk(g: Shared, pid: nat, p: Proc, purpose: Purpose, t: TxId)
    requires PurposeOk(g, p, purpose, t)
    ensures PcOk(g, pid, p, AfterMissing(p, purpose, t))
  {
    if purpose.Resolve? {
      FromCacheOk(g, pid, p, purpose.marker, None);
    }
  }

  lemma AfterLoadOk(g: Shared, pid: nat, p: Proc, purpose: Purpose, t: TxId, v: nat, r: Record)
    requires PurposeOk(g, p, purpose, t) && RecordOk(g, p.domain, t, r)
    requires (p.domain, t) in g.records.objects && g.records.objects[(p.domain, t)].body == r
    requires v < g.records.next && Seen(g.records, (p.domain, t), v, r)
    ensures PcOk(g, pid, p, AfterLoad(p, purpose, t, v, r))
  {
    if purpose.Resolve? {
      FromCacheOk(g, pid, p, purpose.marker, Some(Object(v, r)));
    }
  }

  lemma LoadHeadOk(g: Shared, pid: nat, p: Proc, purpose: Purpose, t: TxId, c: Choice)
    requires SharedOk(g) && PurposeOk(g, p, purpose, t)
    ensures StepOk(g, pid, p, StepLoadHead(g, p, purpose, t, c))
  {
    AfterMissingOk(g, pid, p, purpose, t);
    Moves(g, pid, p, StepLoadHead(g, p, purpose, t, c).1);
  }

  lemma LoadGetOk(g: Shared, pid: nat, p: Proc, purpose: Purpose, t: TxId, v: nat, c: Choice)
    requires SharedOk(g) && PurposeOk(g, p, purpose, t) && v < g.records.next
    ensures StepOk(g, pid, p, StepLoadGet(g, p, purpose, t, v, c))
  {
    AfterMissingOk(g, pid, p, purpose, t);
    if (p.domain, t) in g.records.objects {
      AfterLoadOk(g, pid, p, purpose, t, v, g.records.objects[(p.domain, t)].body);
    }
    Moves(g, pid, p, StepLoadGet(g, p, purpose, t, v, c).1);
  }

  lemma PersistFailedOk(g: Shared, pid: nat, p: Proc, pub: Publication)
    requires PublicationOk(g, p, pub)
    ensures PcOk(g, pid, p, PersistFailed(p, pub))
  {
  }

  lemma PersistSucceededOk(g: Shared, pid: nat, p: Proc, pub: Publication)
    requires PublicationOk(g, p, pub) && Settled(g, p.domain, p.key, pub.record.txId)
    ensures PcOk(g, pid, p, PersistSucceeded(p, pub))
  {
  }

  lemma PersistHeadOk(g: Shared, pid: nat, p: Proc, pub: Publication, c: Choice)
    requires SharedOk(g) && PublicationOk(g, p, pub)
    ensures StepOk(g, pid, p, StepPersistHead(g, p, pub, c))
  {
    PersistFailedOk(g, pid, p, pub);
    Moves(g, pid, p, StepPersistHead(g, p, pub, c).1);
  }

  lemma PersistGetOk(g: Shared, pid: nat, p: Proc, pub: Publication, v: nat, c: Choice)
    requires SharedOk(g) && PublicationOk(g, p, pub) && v < g.markers.next
    ensures StepOk(g, pid, p, StepPersistGet(g, p, pub, v, c))
  {
    PersistFailedOk(g, pid, p, pub);
    Moves(g, pid, p, StepPersistGet(g, p, pub, v, c).1);
  }

  /** A marker write that was lost only raises the flag under which the other facts are weaker. */
  lemma LosesMarker(g: Shared, pid: nat)
    requires SharedOk(g)
    ensures var g' := g.(markerLost := true); SharedOk(g') && EvolvesBy(g, g', pid)
  {
    var g' := g.(markerLost := true);
    assert Evolves(g, g');
    MarkersKept(g, g');
    RecordsKept(g, g');
    ProposalsKept(g, g');
  }

  /** A publication whose marker write met an error goes on to the record. */
  lemma AfterErrorOk(g: Shared, g': Shared, pid: nat, p: Proc, pub: Publication)
    requires PublicationOk(g, p, pub) && (g' == g || g' == g.(markerLost := true))
    ensures Settled(g', p.domain, p.key, pub.record.txId) ==> PcOk(g', pid, p, Persisting(pub, PersistRecordAfterError))
  {
  }

  /** The marker write took effect, whatever the caller is told. */
  lemma MarkerWriteOk(g: Shared, g': Shared, pid: nat, p: Proc, pub: Publication, v: nat, m: Marker)
    requires SharedOk(g) && PersistOk(g, p, pub, PersistMarker(v, m))
    requires Admits(g.markers, (p.domain, p.key), MatchesVersion(v))
    requires var m1 := m.(visibleAt := pub.record.visibleAt, txRecord := Some(pub.record));
             g' == g.(markers := Write(g.markers, (p.domain, p.key), m1))
    ensures SharedOk(g') && EvolvesBy(g, g', pid)
    ensures PublicationOk(g', p, pub) && MarkerVisible(g', p.domain, p.key, pub.record.txId)
  {
    WritesMarker(g, g', pid, p.domain, p.key, m.(visibleAt := pub.record.visibleAt, txRecord := Some(pub.record)));
  }

  lemma PersistMarkerWrites(cfg: Config, g: Shared, pid: nat, p: Proc, pub: Publication, v: nat, m: Marker, c: Choice)
    requires SharedOk(g) && PersistOk(g, p, pub, PersistMarker(v, m))
    requires StepPersistMarker(cfg, g, p, pub, v, m, c).0.markers != g.markers
    ensures StepOk(g, pid, p, StepPersistMarker(cfg, g, p, pub, v, m, c))
  {
    MarkerWriteOk(g, StepPersistMarker(cfg, g, p, pub, v, m, c).0, pid, p, pub, v, m);
  }

  lemma PersistMarkerLoses(cfg: Config, g: Shared, pid: nat, p: Proc, pub: Publication, v: nat, m: Marker, c: Choice)
    requires SharedOk(g) && PublicationOk(g, p, pub)
    requires var g' := StepPersistMarker(cfg, g, p, pub, v, m, c).0; g' != g && g'.markers == g.markers
    ensures StepOk(g, pid, p, StepPersistMarker(cfg, g, p, pub, v, m, c))
  {
    LosesMarker(g, pid);
    AfterErrorOk(g, g.(markerLost := true), pid, p, pub);
  }

  lemma PersistMarkerFails(cfg: Config, g: Shared, pid: nat, p: Proc, pub: Publication, v: nat, m: Marker, c: Choice)
    requires SharedOk(g) && p.pc == Persisting(pub, PersistMarker(v, m)) && PersistOk(g, p, pub, p.pc.persist)
    requires StepPersistMarker(cfg, g, p, pub, v, m, c).0 == g
    ensures StepOk(g, pid, p, StepPersistMarker(cfg, g, p, pub, v, m, c))
  {
    PersistFailedOk(g, pid, p, pub);
    AfterErrorOk(g, g, pid, p, pub);
    Moves(g, pid, p, StepPersistMarker(cfg, g, p, pub, v, m, c).1);
  }

  lemma PersistMarkerOk(cfg: Config, g: Shared, pid: nat, p: Proc, pub: Publication, v: nat, m: Marker, c: Choice)
    requires SharedOk(g) && p.pc == Persisting(pub, PersistMarker(v, m)) && PersistOk(g, p, pub, p.pc.persist)
    ensures StepOk(g, pid, p, StepPersistMarker(cfg, g, p, pub, v, m, c))
  {
    var g' := StepPersistMarker(cfg, g, p, pub, v, m, c).0;
    if g'.markers != g.markers {
      PersistMarkerWrites(cfg, g, pid, p, pub, v, m, c);
    } else if g' != g {
      PersistMarkerLoses(cfg, g, pid, p, pub, v, m, c);
    } else {
      PersistMarkerFails(cfg, g, pid, p, pub, v, m, c);
    }
  }

  /** Raising the flag of a lost record changes nothing the facts depend on. */
  lemma LosesRecord(g: Shared, pid: nat)
    requires SharedOk(g)
    ensures var g' := g.(recordLost := true); SharedOk(g') && EvolvesBy(g, g', pid)
  {
    var g' := g.(recordLost := true);
    assert Evolves(g, g');
    MarkersKept(g, g');
    RecordsKept(g, g');
    ProposalsKept(g, g');
  }

  lemma LosesRecordThen(g: Shared, g1: Shared, pid: nat)
    requires SharedOk(g1) && EvolvesBy(g, g1, pid)
    ensures var g' := g1.(recordLost := true); SharedOk(g') && EvolvesBy(g, g', pid)
  {
    LosesRecord(g1, pid);
  }

  /** A write of a visible record that may meet an error. */
  lemma TryVisibleOk(g: Shared, g': Shared, pid: nat, d: Domain, r: Record, pre: Precondition, fault: Fault)
    requires SharedOk(g) && RecordOk(g, d, r.txId, r) && r.status == Visible
    requires g' == g.(records := TryPut(g.records, (d, r.txId), r, pre, fault).0)
    ensures SharedOk(g') && EvolvesBy(g, g', pid)
  {
    if g' != g {
      WritesRecord(g, g', pid, d, r.txId, r);
    }
  }

  lemma PutVisibleOk(cfg: Config, g: Shared, pid: nat, d: Domain, r: Record, pre: Precondition, fault: Fault)
    requires SharedOk(g) && RecordOk(g, d, r.txId, r) && r.status == Visible
    ensures match PutVisible(cfg, g, d, r, pre, fault)
            case Some((g', _)) => SharedOk(g') && EvolvesBy(g, g', pid)
            case None => true
  {
    var g1 := g.(records := TryPut(g.records, (d, r.txId), r, pre, fault).0);
    TryVisibleOk(g, g1, pid, d, r, pre, fault);
    LosesRecordThen(g, g1, pid);
  }

  lemma PutRecordOk(cfg: Config, g: Shared, pid: nat, p: Proc, pub: Publication, c: Choice)
    requires SharedOk(g) && PublicationOk(g, p, pub) && Settled(g, p.domain, p.key, pub.record.txId)
    ensures match PutRecord(cfg, g, p, pub, c)
            case Some((g', _)) =>
              && SharedOk(g') && EvolvesBy(g, g', pid)
              && PublicationOk(g', p, pub) && Settled(g', p.domain, p.key, pub.record.txId)
            case None => true
  {
    PutVisibleOk(cfg, g, pid, p.domain, pub.record, MatchesVersion(pub.recordVersion), c.fault);
    match PutRecord(cfg, g, p, pub, c)
    case Some((g', _)) => PersistStable(g, g', p, pub, PersistRecordAfterError);
    case None =>
  }

  lemma PersistRecordOk(cfg: Config, g: Shared, pid: nat, p: Proc, pub: Publication, c: Choice)
    requires SharedOk(g) && p.pc == Persisting(pub, PersistRecord) && PersistOk(g, p, pub, PersistRecord)
    ensures StepOk(g, pid, p, StepPersistRecord(cfg, g, p, pub, c))
  {
    PutRecordOk(cfg, g, pid, p, pub, c);
    match PutRecord(cfg, g, p, pub, c)
    case Some((g', out)) =>
      PersistSucceededOk(g', pid, p, pub);
      PersistFailedOk(g', pid, p, pub);
    case None => Moves(g, pid, p, p.pc);
  }

  lemma PersistRecordAfterErrorOk(cfg: Config, g: Shared, pid: nat, p: Proc, pub: Publication, c: Choice)
    requires SharedOk(g) && p.pc == Persisting(pub, PersistRecordAfterError)
    requires PersistOk(g, p, pub, PersistRecordAfterError)
    ensures StepOk(g, pid, p, StepPersistRecordAfterError(cfg, g, p, pub, c))
  {
    PutRecordOk(cfg, g, pid, p, pub, c);
    match PutRecord(cfg, g, p, pub, c)
    case Some((g', _)) => PersistFailedOk(g', pid, p, pub);
    case None => Moves(g, pid, p, p.pc);
  }

  lemma RootAuditOk(g: Shared, pid: nat, p: Proc, rc: Receipt, repair: bool, c: Choice)
    requires SharedOk(g) && Answerable(g, p, rc)
    ensures StepOk(g, pid, p, StepRootAudit(g, rc, repair, c))
  {
    Moves(g, pid, p, StepRootAudit(g, rc, repair, c).1);
  }

  lemma ResolvedOk(g: Shared, g': Shared, pid: nat, p: Proc, r: Record, rc: Receipt, pre: Precondition)
    requires Evolves(g, g') && LoadOk(g, p, ResolvePut(r, rc, pre))
    ensures PcOk(g', pid, p, Done(rc, r.repairPending))
  {
  }

  lemma ResolvePutOk(cfg: Config, g: Shared, pid: nat, p: Proc, r: Record, rc: Receipt, pre: Precondition, c: Choice)
    requires SharedOk(g) && p.pc == Recording(ResolvePut(r, rc, pre)) && LoadOk(g, p, ResolvePut(r, rc, pre))
    ensures StepOk(g, pid, p, StepResolvePut(cfg, g, p, r, rc, pre, c))
  {
    PutVisibleOk(cfg, g, pid, p.domain, r, pre, c.fault);
    match PutVisible(cfg, g, p.domain, r, pre, c.fault)
    case Some((g', _)) => ResolvedOk(g, g', pid, p, r, rc, pre);
    case None => Moves(g, pid, p, p.pc);
  }

  lemma AbortPutOk(g: Shared, pid: nat, p: Proc, t: TxId, v: nat, r: Record, c: Choice)
    requires SharedOk(g) && LoadOk(g, p, AbortPut(t, v, r))
    ensures StepOk(g, pid, p, StepAbortPut(g, p, t, v, r, c))
  {
    var g' := StepAbortPut(g, p, t, v, r, c).0;
    if g' != g {
      WritesRecord(g, g', pid, p.domain, t, r.(status := Aborted, visibleAt := None, result := None));
    }
  }

  lemma MarkPreparedPutOk(g: Shared, pid: nat, p: Proc, t: TxId, v: nat, r: Record, c: Choice)
    requires SharedOk(g) && LoadOk(g, p, MarkPreparedPut(t, v, r))
    ensures StepOk(g, pid, p, StepMarkPreparedPut(g, p, t, v, r, c))
  {
    var g' := StepMarkPreparedPut(g, p, t, v, r, c).0;
    if g' != g {
      WritesRecord(g, g', pid, p.domain, t, r);
    }
  }

  // ------------------------------------------------------------------
  // Every step of a process
  // ------------------------------------------------------------------

  lemma AdvanceClaimOk(cfg: Config, g: Shared, pid: nat, p: Proc, pc: ClaimPc, c: Choice)
    requires SharedOk(g) && p.pc == Claiming(pc) && ClaimOk(g, p, pc)
    ensures StepOk(g, pid, p, AdvanceClaim(cfg, g, pid, p, pc, c))
  {
    match pc
    case ClaimPut(n) => ClaimPutOk(g, pid, p, n, c);
    case ClaimHead(n) => ClaimHeadOk(g, pid, p, n, c);
    case ClaimGet(n, v) => ClaimGetOk(g, pid, p, n, v, c);
    case ClaimClassify(n, v, m) => ClaimClassifyOk(cfg, g, pid, p, n, v, m, c);
    case ClaimReplace(n, v, m) => ClaimReplaceOk(g, pid, p, n, v, m, c);
  }

  lemma AdvanceWorkOk(cfg: Config, g: Shared, pid: nat, p: Proc, pc: WorkPc, c: Choice)
    requires SharedOk(g) && p.pc == Working(pc) && WorkOk(g, pid, p, pc)
    ensures StepOk(g, pid, p, AdvanceWork(cfg, g, pid, p, pc, c))
  {
    match pc
    case StorePrepared(t) => StorePreparedOk(g, pid, p, t, c);
    case Work(t) =>
      match p.domain {
        case Catalog => CatalogWorkOk(g, pid, p, t, c);
        case Orchestration => OrchestrationWorkOk(cfg, g, pid, p, t, c);
        case Root => RootWorkOk(g, pid, p, t, c);
      }
    case RootLoop(t, commits, refs, repair) =>
      if |commits| < |p.mutations| {
        Moves(g, pid, p, Working(pc));
      } else {
        RootPublishOk(g, pid, p, t, commits, refs, repair, c);
      }
    case RootWait(_, _, _, _, _) => Moves(g, pid, p, Working(pc));
    case RepairGet(m) => RepairGetOk(g, pid, p, m, c);
    case RepairWork(t) => RepairWorkOk(g, pid, p, t, c);
  }

  lemma AdvancePersistOk(cfg: Config, g: Shared, pid: nat, p: Proc, pub: Publication, pc: PersistPc, c: Choice)
    requires SharedOk(g) && p.pc == Persisting(pub, pc) && PersistOk(g, p, pub, pc)
    ensures StepOk(g, pid, p, AdvancePersist(cfg, g, p, pub, pc, c))
  {
    match pc
    case PersistHead => PersistHeadOk(g, pid, p, pub, c);
    case PersistGet(v) => PersistGetOk(g, pid, p, pub, v, c);
    case PersistMarker(v, m) => PersistMarkerOk(cfg, g, pid, p, pub, v, m, c);
    case PersistRecord => PersistRecordOk(cfg, g, pid, p, pub, c);
    case PersistRecordAfterError => PersistRecordAfterErrorOk(cfg, g, pid, p, pub, c);
  }

  lemma AdvanceRecordOk(cfg: Config, g: Shared, pid: nat, p: Proc, pc: RecordPc, c: Choice)
    requires SharedOk(g) && p.pc == Recording(pc) && LoadOk(g, p, pc)
    ensures StepOk(g, pid, p, AdvanceRecord(cfg, g, p, pc, c))
  {
    match pc
    case LoadHead(purpose, t) => LoadHeadOk(g, pid, p, purpose, t, c);
    case LoadGet(purpose, t, v) => LoadGetOk(g, pid, p, purpose, t, v, c);
    case RootAudit(rc, repair) => RootAuditOk(g, pid, p, rc, repair, c);
    case ResolvePut(r, rc, pre) => ResolvePutOk(cfg, g, pid, p, r, rc, pre, c);
    case AbortPut(t, v, r) => AbortPutOk(g, pid, p, t, v, r, c);
    case MarkPreparedPut(t, v, r) => MarkPreparedPutOk(g, pid, p, t, v, r, c);
  }

  lemma AdvanceOk(cfg: Config, g: Shared, pid: nat, p: Proc, c: Choice)
    requires SharedOk(g) && PcOk(g, pid, p, p.pc)
    ensures StepOk(g, pid, p, Advance(cfg, g, pid, p, c))
  {
    match p.pc
    case Claiming(pc) => AdvanceClaimOk(cfg, g, pid, p, pc, c);
    case Working(pc) => AdvanceWorkOk(cfg, g, pid, p, pc, c);
    case Persisting(pub, pc) => AdvancePersistOk(cfg, g, pid, p, pub, pc, c);
    case Recording(pc) => AdvanceRecordOk(cfg, g, pid, p, pc, c);
    case _ => Moves(g, pid, p, p.pc);
  }

  // ------------------------------------------------------------------
  // Participants of a root transaction
  // ------------------------------------------------------------------

  /** Adding a commit of a new domain keeps the one-to-one correspondence. */
  lemma CorrespondsExtends(commits: seq<DomainCommit>, refs: map<Domain, ManifestRef>, commit: DomainCommit)
    requires Corresponds(commits, refs)
    requires forall i :: 0 <= i < |commits| ==> commits[i].domain != commit.domain
    ensures Corresponds(commits + [commit], refs[commit.domain := RefOf(commit)])
  {
    var commits' := commits + [commit];
    var refs' := refs[commit.domain := RefOf(commit)];
    forall x | x in refs' ensures exists i :: 0 <= i < |commits'| && commits'[i].domain == x {
      if x == commit.domain {
        assert commits'[|commits|].domain == x;
      } else {
        var i :| 0 <= i < |commits| && commits[i].domain == x;
        assert commits'[i].domain == x;
      }
    }
  }

  lemma NewDomain(ms: seq<Mutation>, commits: seq<DomainCommit>)
    requires DistinctDomains(ms) && MetastoreMutation !in ms && |commits| < |ms|
    requires forall i :: 0 <= i < |commits| ==> commits[i].domain == MutationDomain(ms[i])
    ensures forall i :: 0 <= i < |commits| ==> commits[i].domain != MutationDomain(ms[|commits|])
  {
    forall i | 0 <= i < |commits| ensures commits[i].domain != MutationDomain(ms[|commits|]) {
      assert ms[i] in ms && ms[|commits|] in ms;
    }
  }

  /** The receipt of the awaited participant extends the root's progress. */
  lemma JoinProgress(g: Shared, p: Proc, commits: seq<DomainCommit>, refs: map<Domain, ManifestRef>, rc: Receipt,
                     d: Domain)
    requires RootProgress(g, p, commits, refs) && |commits| < |p.mutations| && DistinctDomains(p.mutations)
    requires d == MutationDomain(p.mutations[|commits|])
    requires Proposed(g, rc, d, rc.txId) && Settled(g, d, ParticipantKey(p.key, d), rc.txId)
    requires ClaimedKey(g, rc.txId, d, ParticipantKey(p.key, d))
    requires MayRepair(g, d) || g.owners[rc.txId].hash == MutationHash(p.mutations[|commits|])
    ensures RootProgress(g, p, commits + [CommitOf(rc)], refs[d := RefOf(CommitOf(rc))])
  {
    var commit := CommitOf(rc);
    assert commit.domain == d && commit.txId == rc.txId;
    NewDomain(p.mutations, commits);
    CorrespondsExtends(commits, refs, commit);
    assert ParticipantVisible(g, p.key, commit);
  }

  lemma JoinOk(g: Shared, pid: nat, p: Proc, w: WorkPc, child: Proc)
    requires DistinctDomains(p.mutations)
    requires w.RootWait? && WorkOk(g, pid, p, w) && PcOk(g, w.child, child, child.pc)
    requires child.domain == MutationDomain(p.mutations[|w.commits|])
    requires child.key == ParticipantKey(p.key, child.domain)
    requires child.hash == MutationHash(p.mutations[|w.commits|])
    ensures PcOk(g, pid, p, JoinChild(w, child.pc))
  {
    match child.pc
    case Done(rc, r) => JoinProgress(g, p, w.commits, w.refs, rc, child.domain);
    case _ =>
  }

  // ------------------------------------------------------------------
  // Every action keeps the invariant
  // ------------------------------------------------------------------

  ghost predicate NextOkFor(s: State, s': State) {
    Inv(s') && Evolves(s.g, s'.g) && ProcsEvolve(s.procs, s'.procs)
  }

  /** Processes a step did not touch keep their facts. */
  lemma ProcsKept(g: Shared, g': Shared, ps: map<nat, Proc>, ps': map<nat, Proc>, pid: nat)
    requires ProcsOk(g, ps) && EvolvesBy(g, g', pid) && ProposalsOk(g')
    requires forall q :: q in ps' ==>
               || (q in ps && ps'[q] == ps[q] && (q != pid || g'.proposals == g.proposals))
               || ProcOk(g', q, ps'[q])
    ensures ProcsOk(g', ps')
  {
    forall q | q in ps' ensures ProcOk(g', q, ps'[q]) {
      if q in ps && ps'[q] == ps[q] && (q != pid || g'.proposals == g.proposals) {
        PcStable(g, g', pid, q, ps[q], ps[q].pc);
      }
    }
  }

  lemma ChildrenKept(ps: map<nat, Proc>, pid: nat, p: Proc)
    requires ChildrenOk(ps) && pid in ps
    requires p == ps[pid].(pc := p.pc)
    requires AwaitsChild(p) ==> p.pc == ps[pid].pc
    ensures ChildrenOk(ps[pid := p])
  {
  }

  /** What is known of a process does not depend on where it is, only on where it goes. */
  lemma SameRequest(g: Shared, pid: nat, p: Proc, pc: Pc)
    requires PcOk(g, pid, p, pc)
    ensures PcOk(g, pid, p.(pc := pc), pc)
  {
  }

  /** A step of process `pid` is installed in the state. */
  lemma Installs(s: State, pid: nat, p: Proc, g': Shared)
    requires Inv(s) && pid in s.procs
    requires SharedOk(g') && EvolvesBy(s.g, g', pid) && PcOk(g', pid, p, p.pc)
    requires p == s.procs[pid].(pc := p.pc)
    requires AwaitsChild(p) || s.procs[pid].pc.Done? || s.procs[pid].pc.Failed? ==> p.pc == s.procs[pid].pc
    ensures NextOkFor(s, State(g', s.procs[pid := p]))
  {
    ChildrenKept(s.procs, pid, p);
    ProcsKept(s.g, g', s.procs, s.procs[pid := p], pid);
  }

  lemma NeverAwaits(cfg: Config, g: Shared, pid: nat, p: Proc, c: Choice)
    ensures var pc := Advance(cfg, g, pid, p, c).1;
            && (AwaitsChild(p.(pc := pc)) ==> pc == p.pc)
            && (p.pc.Done? || p.pc.Failed? ==> pc == p.pc)
  {
  }

  function Waiting(p: Proc, c: Choice): Proc
    requires StartsChild(p)
  {
    var w := p.pc.work;
    p.(pc := Working(RootWait(w.tx, w.commits, w.refs, w.repair, c.child)))
  }

  lemma StartedChildOk(g: Shared, pid: nat, p: Proc, c: Choice)
    requires StartsChild(p) && ProcOk(g, pid, p)
    ensures ProcOk(g, pid, Waiting(p, c)) && ProcOk(g, c.child, Child(p, p.mutations[|p.pc.work.commits|]))
  {
    assert WorkOk(g, pid, p, p.pc.work);
  }

  lemma StartedChildren(ps: map<nat, Proc>, pid: nat, c: Choice)
    requires ChildrenOk(ps) && pid in ps && StartsChild(ps[pid]) && c.child !in ps
    ensures var p := ps[pid];
            ChildrenOk(ps[c.child := Child(p, p.mutations[|p.pc.work.commits|])][pid := Waiting(p, c)])
  {
    var p := ps[pid];
    var ps' := ps[c.child := Child(p, p.mutations[|p.pc.work.commits|])][pid := Waiting(p, c)];
    forall q | q in ps' ensures ChildOk(ps', q, ps'[q]) {
      if q in ps {
        assert ChildOk(ps, q, ps[q]);
      }
    }
  }

  lemma StartedProcs(g: Shared, ps: map<nat, Proc>, pid: nat, c: Choice)
    requires SharedOk(g) && ProcsOk(g, ps) && pid in ps && StartsChild(ps[pid]) && c.child !in ps
    ensures var p := ps[pid];
            ProcsOk(g, ps[c.child := Child(p, p.mutations[|p.pc.work.commits|])][pid := Waiting(p, c)])
  {
    assert ProcOk(g, pid, ps[pid]);
    StartedChildOk(g, pid, ps[pid], c);
  }

  lemma EvolvesReflexive(g: Shared)
    ensures Evolves(g, g)
  {
  }

  lemma StartedEvolves(ps: map<nat, Proc>, pid: nat, c: Choice)
    requires pid in ps && StartsChild(ps[pid]) && c.child !in ps
    ensures var p := ps[pid];
            ProcsEvolve(ps, ps[c.child := Child(p, p.mutations[|p.pc.work.commits|])][pid := Waiting(p, c)])
  {
  }

  /** New processes over the same shared state. */
  lemma Assembles(s: State, ps: map<nat, Proc>)
    requires SharedOk(s.g) && ProcsOk(s.g, ps) && ChildrenOk(ps) && ProcsEvolve(s.procs, ps)
    ensures NextOkFor(s, State(s.g, ps))
  {
    EvolvesReflexive(s.g);
  }

  lemma StartChildKeepsInv(s: State, pid: nat, c: Choice)
    requires Inv(s) && pid in s.procs && StartsChild(s.procs[pid])
    ensures NextOkFor(s, StartChild(s, pid, s.procs[pid], c))
  {
    var p := s.procs[pid];
    if c.child !in s.procs {
      StartedProcs(s.g, s.procs, pid, c);
      StartedChildren(s.procs, pid, c);
      StartedEvolves(s.procs, pid, c);
      Assembles(s, s.procs[c.child := Child(p, p.mutations[|p.pc.work.commits|])][pid := Waiting(p, c)]);
    } else {
      Assembles(s, s.procs);
    }
  }

  lemma AwaitChildKeepsInv(s: State, pid: nat)
    requires Inv(s) && pid in s.procs && AwaitsChild(s.procs[pid])
    ensures var p := s.procs[pid];
            p.pc.work.child in s.procs
            && NextOkFor(s, State(s.g, s.procs[pid := p.(pc := JoinChild(p.pc.work, s.procs[p.pc.work.child].pc))]))
  {
    var p := s.procs[pid];
    assert WorkOk(s.g, pid, p, p.pc.work) && ChildOk(s.procs, pid, p);
    var child := p.pc.work.child;
    JoinOk(s.g, pid, p, p.pc.work, s.procs[child]);
    var pc := JoinChild(p.pc.work, s.procs[child].pc);
    SameRequest(s.g, pid, p, pc);
    Installs(s, pid, p.(pc := pc), s.g);
  }

  /** A new immutable manifest snapshot, or a pointer move. */
  lemma ManifestKeepsInv(s: State, g': Shared)
    requires Inv(s) && HistoryEvolves(s.g, g')
    requires g' == s.g.(manifests := g'.manifests, pointer := g'.pointer)
    ensures NextOkFor(s, State(g', s.procs))
  {
    assert Evolves(s.g, g');
    MarkersKept(s.g, g');
    RecordsKept(s.g, g');
    ProposalsKept(s.g, g');
    ProcsKept(s.g, g', s.procs, s.procs, 0);
  }

  lemma StepKeepsInv(cfg: Config, s: State, pid: nat, c: Choice)
    requires Inv(s) && pid in s.procs
    ensures NextOkFor(s, StepProcess(cfg, s, pid, s.procs[pid], c))
  {
    var p := s.procs[pid];
    if StartsChild(p) {
      StartChildKeepsInv(s, pid, c);
    } else if AwaitsChild(p) {
      AwaitChildKeepsInv(s, pid);
    } else {
      var (g, pc) := Advance(cfg, s.g, pid, p, c);
      AdvanceOk(cfg, s.g, pid, p, c);
      NeverAwaits(cfg, s.g, pid, p, c);
      SameRequest(g, pid, p, pc);
      Installs(s, pid, p.(pc := pc), g);
    }
  }

  lemma StartKeepsInv(cfg: Config, s: State, a: Action)
    requires Inv(s) && a.Start?
    ensures NextOkFor(s, Next(cfg, s, a))
  {
    var ps := Next(cfg, s, a).procs;
    forall q | q in ps ensures ProcOk(s.g, q, ps[q]) && ChildOk(ps, q, ps[q]) {
      if q in s.procs {
        assert ProcOk(s.g, q, s.procs[q]) && ChildOk(s.procs, q, s.procs[q]);
      }
    }
    Assembles(s, ps);
  }

  lemma NextKeepsInv(cfg: Config, s: State, a: Action)
    requires Inv(s)
    ensures NextOkFor(s, Next(cfg, s, a))
  {
    match a
    case Start(_, _, _, _, _) => StartKeepsInv(cfg, s, a);
    case Step(pid, c) => if pid in s.procs { StepKeepsInv(cfg, s, pid, c); }
    case _ => ManifestKeepsInv(s, Next(cfg, s, a).g);
  }

  lemma EvolvesTransitive(a: Shared, b: Shared, c: Shared)
    requires Evolves(a, b) && Evolves(b, c)
    ensures Evolves(a, c)
  {
  }

  /** Every run from a state satisfying the invariant keeps it, and evolves the state. */
  lemma {:induction false} ExecKeepsInv(cfg: Config, s: State, run: seq<Action>)
    requires Inv(s)
    ensures NextOkFor(s, Exec(cfg, s, run))
    decreases |run|
  {
    if run != [] {
      var s1 := Next(cfg, s, run[0]);
      NextKeepsInv(cfg, s, run[0]);
      ExecKeepsInv(cfg, s1, run[1..]);
      EvolvesTransitive(s.g, s1.g, Exec(cfg, s, run).g);
    }
  }
}

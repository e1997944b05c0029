/**
 What every reachable state of the transaction service satisfies.

 Two facts fail in some runs only.  That a visible transaction owns its key's marker can
 fail once a marker write was lost, and that a transaction has one receipt, built for the
 hash of its callers, can fail in orchestration once an append was ambiguous; the
 invariant claims them until then and everything else always.

 Facts about a process are phrased so that they survive any step of any other process:
 a version it read is old, a visible marker stays with its transaction, a receipt once
 built stays built.  `EvolvesBy` is the relation all steps satisfy and that keeps them.
 */
module TransactionInvariant {
  import opened ObjectStore
  import opened TransactionTypes
  import opened TransactionSteps

  /** Transaction `t` was allocated for this domain and key, with request hash `h`. */
  predicate ClaimedFor(g: Shared, t: TxId, d: Domain, key: string, h: string) {
    t in g.owners && g.owners[t].domain == d && g.owners[t].key == key && g.owners[t].hash == h
  }

  predicate ClaimedKey(g: Shared, t: TxId, d: Domain, key: string) {
    t in g.owners && g.owners[t].domain == d && g.owners[t].key == key
  }

  /** The key's marker carries `t`, unless a marker write was lost. */
  predicate Settled(g: Shared, d: Domain, key: string, t: TxId) { g.markerLost || MarkerVisible(g, d, key, t) }

  /** Batches of the domain may be repaired. */
  predicate MayRepair(g: Shared, d: Domain) { d == Orchestration && g.ambiguous }

  /** `t` was allocated for the process's key and, unless repairs are about, for its request hash. */
  predicate Entitled(g: Shared, p: Proc, t: TxId) {
    ClaimedKey(g, t, p.domain, p.key) && (MayRepair(g, p.domain) || g.owners[t].hash == p.hash)
  }

  predicate Proposed(g: Shared, rc: Receipt, d: Domain, t: TxId) {
    rc in g.proposals && rc.txId == t && ReceiptDomain(rc) == d
  }

  /** A record that may be published for (d, key): its transaction has a record to replace, prepared when this was. */
  predicate PublishableRecord(g: Shared, d: Domain, key: string, r: Record) {
    && (d, r.txId) in g.records.objects && g.records.objects[(d, r.txId)].body.preparedAt == r.preparedAt
    && ClaimedFor(g, r.txId, d, key, r.hash)
    && r.key == key && r.kind == KindOf(d)
    && r.status == Visible
    && r.result.Some? && Proposed(g, r.result.value, d, r.txId)
  }

  /** A marker that is, or once was, stored under (d, key). */
  predicate MarkerOk(g: Shared, d: Domain, key: string, m: Marker) {
    && ClaimedFor(g, m.txId, d, key, m.hash)
    && m.key == key && m.kind == KindOf(d)
    && (d, key) in g.markers.objects && g.markers.objects[(d, key)].body.hash == m.hash
    && (m.txRecord.Some? ==>
          && m.txRecord.value.txId == m.txId
          && PublishableRecord(g, d, key, m.txRecord.value)
          && MarkerVisible(g, d, key, m.txId))
  }

  predicate RecordOk(g: Shared, d: Domain, t: TxId, r: Record) {
    && r.txId == t && r.kind == KindOf(d)
    && ClaimedFor(g, t, d, r.key, r.hash)
    && (r.status == Visible ==> PublishableRecord(g, d, r.key, r) && Settled(g, d, r.key, t))
    && (r.status == Prepared && r.repairPending ==> MayRepair(g, d))
  }

  // ------------------------------------------------------------------
  // Root transactions
  // ------------------------------------------------------------------

  /** `commit` is the visible outcome of the participant that root key `rootKey` runs for its domain. */
  ghost predicate ParticipantVisible(g: Shared, rootKey: string, commit: DomainCommit) {
    && Settled(g, commit.domain, ParticipantKey(rootKey, commit.domain), commit.txId)
    && ClaimedKey(g, commit.txId, commit.domain, ParticipantKey(rootKey, commit.domain))
    && exists rc :: rc in g.proposals && CommitOf(rc) == commit
  }

  /** The super-manifest entries and the receipt's domain commits correspond one to one. */
  predicate Corresponds(commits: seq<DomainCommit>, refs: map<Domain, ManifestRef>) {
    && (forall i, j :: 0 <= i < j < |commits| ==> commits[i].domain != commits[j].domain)
    && (forall i :: 0 <= i < |commits| ==>
          && commits[i].domain in refs
          && refs[commits[i].domain]
             == ManifestRef(commits[i].manifestId, commits[i].manifestPath, commits[i].commitId))
    && (forall d :: d in refs ==> exists i :: 0 <= i < |commits| && commits[i].domain == d)
  }

  ghost predicate CommitsVisible(g: Shared, rootKey: string, commits: seq<DomainCommit>) {
    forall i :: 0 <= i < |commits| ==> ParticipantVisible(g, rootKey, commits[i])
  }

  /** What holds of every receipt ever built. */
  ghost predicate ReceiptOk(g: Shared, rc: Receipt) {
    && rc.txId in g.owners && g.owners[rc.txId].domain == ReceiptDomain(rc)
    && (rc.CatalogReceipt? ==> CatalogManifestPath(rc.manifestId) in g.manifests)
    && (rc.RootReceipt? ==>
          && rc.readToken == RootToken(rc.txId) && rc.txId != ""
          && rc.superManifestPath == SuperManifestPath(rc.txId)
          && rc.superManifestPath in g.supers.objects
          && g.supers.objects[rc.superManifestPath].body.txId == rc.txId
          && g.supers.objects[rc.superManifestPath].body.publishedAt == rc.visibleAt
          && Corresponds(rc.domainCommits, g.supers.objects[rc.superManifestPath].body.domains)
          && CommitsVisible(g, g.owners[rc.txId].key, rc.domainCommits))
  }

  // ------------------------------------------------------------------
  // The invariant
  // ------------------------------------------------------------------

  ghost predicate MarkersOk(g: Shared) {
    && WellFormed(g.markers)
    && forall d, key :: (d, key) in g.markers.objects ==> MarkerOk(g, d, key, g.markers.objects[(d, key)].body)
  }

  ghost predicate RecordsOk(g: Shared) {
    && WellFormed(g.records)
    && forall d, t :: (d, t) in g.records.objects ==> RecordOk(g, d, t, g.records.objects[(d, t)].body)
  }

  /** Unless its domain is under repair a transaction has at most one receipt. */
  ghost predicate ProposalsOk(g: Shared) {
    && (forall rc :: rc in g.proposals ==> ReceiptOk(g, rc))
    && (forall a, b :: a in g.proposals && b in g.proposals && a.txId == b.txId && !MayRepair(g, ReceiptDomain(a)) ==>
          a == b)
  }

  /** Process `pid` allocated `t` itself and has not built a receipt for it. */
  ghost predicate Owning(g: Shared, pid: nat, p: Proc, t: TxId) {
    && t != "" && ClaimedFor(g, t, p.domain, p.key, p.hash) && g.owners[t].pid == pid
    && (!MayRepair(g, p.domain) ==> forall rc :: rc in g.proposals ==> rc.txId != t)
  }

  /** Unless repairs are about, each commit was claimed with the hash of its own mutation. */
  predicate CommitsRequested(g: Shared, ms: seq<Mutation>, commits: seq<DomainCommit>)
    requires |commits| <= |ms|
  {
    forall i :: 0 <= i < |commits| ==>
      || MayRepair(g, commits[i].domain)
      || (commits[i].txId in g.owners && g.owners[commits[i].txId].hash == MutationHash(ms[i]))
  }

  ghost predicate RootProgress(g: Shared, p: Proc, commits: seq<DomainCommit>, refs: map<Domain, ManifestRef>) {
    && p.domain == Root
    && MetastoreMutation !in p.mutations
    && |commits| <= |p.mutations|
    && (forall i :: 0 <= i < |commits| ==> commits[i].domain == MutationDomain(p.mutations[i]))
    && Corresponds(commits, refs)
    && CommitsVisible(g, p.key, commits)
    && CommitsRequested(g, p.mutations, commits)
  }

  ghost predicate PurposeOk(g: Shared, p: Proc, purpose: Purpose, t: TxId) {
    && Entitled(g, p, t)
    && match purpose
       case Finalize(rc, _) => Proposed(g, rc, p.domain, t)
       case MarkVisible(rc) => Proposed(g, rc, p.domain, t) && Settled(g, p.domain, p.key, t)
       case MarkPrepared(_) => MayRepair(g, p.domain)
       case Abort => true
       case Resolve(m) => t == m.txId && MarkerOk(g, p.domain, p.key, m) && Settled(g, p.domain, p.key, t)
  }

  /** Processes that are claiming the key. */
  ghost predicate ClaimOk(g: Shared, p: Proc, pc: ClaimPc) {
    match pc
    case ClaimPut(_) => true
    case ClaimHead(_) => true
    case ClaimGet(_, v) => v < g.markers.next
    case ClaimClassify(_, v, m) => MarkerOk(g, p.domain, p.key, m) && Seen(g.markers, (p.domain, p.key), v, m)
    case ClaimReplace(_, v, m) =>
      Seen(g.markers, (p.domain, p.key), v, m) && m.txRecord.None? && m.hash == p.hash
  }

  /** Processes that own a transaction and have not built its receipt yet, or repair one. */
  ghost predicate WorkOk(g: Shared, pid: nat, p: Proc, pc: WorkPc) {
    match pc
    case StorePrepared(t) => Owning(g, pid, p, t)
    case Work(t) => Owning(g, pid, p, t) && (p.domain, t) in g.records.objects
    case RootLoop(t, commits, refs, _) =>
      Owning(g, pid, p, t) && (p.domain, t) in g.records.objects && RootProgress(g, p, commits, refs)
    case RootWait(t, commits, refs, _, _) =>
      && Owning(g, pid, p, t) && (p.domain, t) in g.records.objects
      && RootProgress(g, p, commits, refs) && |commits| < |p.mutations|
    case RepairGet(m) => MayRepair(g, p.domain) && MarkerOk(g, p.domain, p.key, m)
    case RepairWork(t) => MayRepair(g, p.domain) && ClaimedKey(g, t, p.domain, p.key)
  }

  ghost predicate PublicationOk(g: Shared, p: Proc, pub: Publication) {
    && PublishableRecord(g, p.domain, p.key, pub.record)
    && Proposed(g, pub.receipt, p.domain, pub.record.txId)
    && pub.recordVersion < g.records.next
    && Entitled(g, p, pub.record.txId)
    && (pub.who != Owner ==> Settled(g, p.domain, p.key, pub.record.txId))
  }

  /** Processes that are making a transaction visible. */
  ghost predicate PersistOk(g: Shared, p: Proc, pub: Publication, pc: PersistPc) {
    && PublicationOk(g, p, pub)
    && match pc
       case PersistHead => true
       case PersistGet(v) => v < g.markers.next
       case PersistMarker(v, m) =>
         && m.txId == pub.record.txId && m.hash == pub.record.hash && MarkerOk(g, p.domain, p.key, m)
         && Seen(g.markers, (p.domain, p.key), v, m)
       case PersistRecord => MarkerVisible(g, p.domain, p.key, pub.record.txId)
       case PersistRecordAfterError => Settled(g, p.domain, p.key, pub.record.txId)
  }

  /** A receipt that may be answered: it was built for the request, and its transaction owns the key for good. */
  predicate Answerable(g: Shared, p: Proc, rc: Receipt) {
    Proposed(g, rc, p.domain, rc.txId) && Entitled(g, p, rc.txId) && Settled(g, p.domain, p.key, rc.txId)
  }

  /** Processes that load or rewrite a record. */
  ghost predicate LoadOk(g: Shared, p: Proc, pc: RecordPc) {
    match pc
    case LoadHead(purpose, t) => PurposeOk(g, p, purpose, t)
    case LoadGet(purpose, t, v) => PurposeOk(g, p, purpose, t) && v < g.records.next
    case RootAudit(rc, _) => Answerable(g, p, rc)
    case ResolvePut(r, rc, pre) =>
      && PublishableRecord(g, p.domain, p.key, r) && r.result == Some(rc)
      && Entitled(g, p, r.txId) && Settled(g, p.domain, p.key, r.txId)
    case AbortPut(t, v, r) => RecordOk(g, p.domain, t, r) && r.status != Visible && Seen(g.records, (p.domain, t), v, r)
    case MarkPreparedPut(t, v, r) =>
      && RecordOk(g, p.domain, t, r) && r.status == Prepared
      && v < g.records.next
      && ((p.domain, t) in g.records.objects && g.records.objects[(p.domain, t)].version == v ==>
            && g.records.objects[(p.domain, t)].body.status != Visible
            && g.records.objects[(p.domain, t)].body.preparedAt == r.preparedAt)
  }

  ghost predicate PcOk(g: Shared, pid: nat, p: Proc, pc: Pc) {
    match pc
    case Claiming(c) => ClaimOk(g, p, c)
    case Working(w) => WorkOk(g, pid, p, w)
    case Persisting(pub, c) => PersistOk(g, p, pub, c)
    case Recording(c) => LoadOk(g, p, c)
    case Done(rc, _) => Answerable(g, p, rc)
    case Failed => true
  }

  ghost predicate ProcOk(g: Shared, pid: nat, p: Proc) {
    DistinctDomains(p.mutations) && PcOk(g, pid, p, p.pc)
  }

  ghost predicate SharedOk(g: Shared) {
    MarkersOk(g) && RecordsOk(g) && WellFormed(g.supers) && ProposalsOk(g)
  }

  /** A root process waits for a participant of the right domain, key and hash. */
  predicate ChildOk(procs: map<nat, Proc>, pid: nat, p: Proc) {
    AwaitsChild(p) && |p.pc.work.commits| < |p.mutations| ==>
      var child := p.pc.work.child;
      && child in procs && child != pid
      && procs[child].domain == MutationDomain(p.mutations[|p.pc.work.commits|])
      && procs[child].key == ParticipantKey(p.key, procs[child].domain)
      && procs[child].hash == MutationHash(p.mutations[|p.pc.work.commits|])
  }

  ghost predicate ProcsOk(g: Shared, ps: map<nat, Proc>) {
    forall pid :: pid in ps ==> ProcOk(g, pid, ps[pid])
  }

  predicate ChildrenOk(ps: map<nat, Proc>) {
    forall pid :: pid in ps ==> ChildOk(ps, pid, ps[pid])
  }

  ghost predicate Inv(s: State) { SharedOk(s.g) && ProcsOk(s.g, s.procs) && ChildrenOk(s.procs) }

  // ------------------------------------------------------------------
  // How states evolve
  // ------------------------------------------------------------------

  /** A marker keeps its request hash, and once it carries a visible record it keeps its transaction. */
  predicate MarkerEvolves(m: Marker, m': Marker) {
    m'.hash == m.hash && (m.txRecord.Some? ==> m'.txRecord.Some? && m'.txId == m.txId)
  }

  ghost predicate MarkersEvolve(g: Shared, g': Shared) {
    && Grows(g.markers, g'.markers)
    && forall k :: k in g.markers.objects ==> MarkerEvolves(g.markers.objects[k].body, g'.markers.objects[k].body)
  }

  /** A record keeps the time it was prepared at, and stays visible once it is. */
  ghost predicate RecordsEvolve(g: Shared, g': Shared) {
    && Grows(g.records, g'.records)
    && (forall k :: k in g.records.objects ==>
          g'.records.objects[k].body.preparedAt == g.records.objects[k].body.preparedAt)
    && forall k :: k in g.records.objects && g.records.objects[k].body.status == Visible
         ==> g'.records.objects[k].body.status == Visible
  }

  ghost predicate SupersEvolve(g: Shared, g': Shared) {
    forall k :: k in g.supers.objects ==> k in g'.supers.objects && g'.supers.objects[k] == g.supers.objects[k]
  }

  ghost predicate HistoryEvolves(g: Shared, g': Shared) {
    && (g.markerLost ==> g'.markerLost) && (g.recordLost ==> g'.recordLost) && (g.ambiguous ==> g'.ambiguous)
    && (forall t :: t in g.owners ==> t in g'.owners && g'.owners[t] == g.owners[t])
    && g.proposals <= g'.proposals
    && (forall path :: path in g.manifests ==> path in g'.manifests && g'.manifests[path] == g.manifests[path])
  }

  /** How shared state changes in every step and every run. */
  ghost predicate Evolves(g: Shared, g': Shared) {
    MarkersEvolve(g, g') && RecordsEvolve(g, g') && SupersEvolve(g, g') && HistoryEvolves(g, g')
  }

  /** One step of process `pid`: only receipts for its own transactions, or of a domain under repair, are new. */
  ghost predicate EvolvesBy(g: Shared, g': Shared, pid: nat) {
    && Evolves(g, g')
    && (forall rc :: rc in g'.proposals && rc !in g.proposals ==>
          rc.txId in g.owners && (MayRepair(g', ReceiptDomain(rc)) || g.owners[rc.txId].pid == pid))
  }

  /** Processes keep their request, and an answered process stays as it is. */
  predicate ProcsEvolve(ps: map<nat, Proc>, ps': map<nat, Proc>) {
    forall q :: q in ps ==>
      && q in ps' && ps'[q].domain == ps[q].domain && ps'[q].key == ps[q].key && ps'[q].hash == ps[q].hash
      && (ps[q].pc.Done? || ps[q].pc.Failed? ==> ps'[q] == ps[q])
  }
}

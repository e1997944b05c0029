/**
 The steps of the control-plane transaction service.

 Each function below is one storage operation of one process, or one answer of code
 this model treats as external.  `Next` is the whole transition function; every
 interleaving of callers is a sequence of actions, and a crash is a process that is
 never advanced again.
 */
module TransactionSteps {
  import opened ObjectStore
  import opened TransactionTypes

  const MAX_CLAIM_ATTEMPTS: nat := 4

  /** The marker of (d, key) belongs to `t` and carries its visible record. */
  predicate MarkerVisible(g: Shared, d: Domain, key: string, t: TxId) {
    && (d, key) in g.markers.objects
    && g.markers.objects[(d, key)].body.txId == t
    && g.markers.objects[(d, key)].body.txRecord.Some?
  }

  predicate RecordVisible(g: Shared, d: Domain, t: TxId) {
    (d, t) in g.records.objects && g.records.objects[(d, t)].body.status == Visible
  }

  // ------------------------------------------------------------------
  // Claiming the idempotency key
  // ------------------------------------------------------------------

  function FreshMarker(p: Proc, t: TxId, now: int): Marker {
    Marker(t, KindOf(p.domain), p.key, p.hash, now, None, None)
  }

  function PreparedRecord(p: Proc, t: TxId, now: int): Record {
    Record(t, KindOf(p.domain), Prepared, false, p.key, p.hash, now, None, None, None)
  }

  /** A new transaction id is one that was never allocated before. */
  predicate Unused(g: Shared, t: TxId) { t != "" && t !in g.owners }

  function Allocate(g: Shared, pid: nat, p: Proc, t: TxId): Shared {
    g.(owners := g.owners[t := Claimant(p.domain, p.key, p.hash, pid)])
  }

  function StepClaimPut(g: Shared, pid: nat, p: Proc, n: nat, c: Choice): (Shared, Pc) {
    if !Unused(g, c.freshId) then (g, p.pc)
    else
      var (ms, out) := TryPut(g.markers, (p.domain, p.key), FreshMarker(p, c.freshId, c.now), DoesNotExist, c.fault);
      var g1 := Allocate(g, pid, p, c.freshId).(markers := ms);
      match out
      case Written => (g1, Working(StorePrepared(c.freshId)))
      case PreconditionFailed => (g1, Claiming(ClaimHead(n)))
      case Errored => (g1, Failed)
  }

  function StepClaimHead(g: Shared, p: Proc, n: nat, c: Choice): (Shared, Pc) {
    if c.fault != NoFault || (p.domain, p.key) !in g.markers.objects then (g, Failed)
    else (g, Claiming(ClaimGet(n, g.markers.objects[(p.domain, p.key)].version)))
  }

  function StepClaimGet(g: Shared, p: Proc, n: nat, v: nat, c: Choice): (Shared, Pc) {
    if c.fault != NoFault || (p.domain, p.key) !in g.markers.objects then (g, Failed)
    else (g, Claiming(ClaimClassify(n, v, g.markers.objects[(p.domain, p.key)].body)))
  }

  datatype Disposition = IsVisible | InProgress | RepairPending | Retryable

  /** Where the owner of a marker stands, read from the marker's cache or else from its record. */
  function Classify(cfg: Config, records: Store<(Domain, TxId), Record>, d: Domain, m: Marker, now: int): Disposition {
    if m.txRecord.Some? then IsVisible
    else if (d, m.txId) in records.objects then
      var r := records.objects[(d, m.txId)].body;
      match r.status
      case Visible => IsVisible
      case Aborted => Retryable
      case Prepared =>
        if r.repairPending then RepairPending
        else if r.preparedAt + cfg.staleTimeout <= now then Retryable
        else InProgress
    else if m.createdAt + cfg.staleTimeout <= now then Retryable
    else InProgress
  }

  function StepClaimClassify(cfg: Config, g: Shared, p: Proc, n: nat, v: nat, m: Marker, c: Choice): (Shared, Pc) {
    if m.txRecord.None? && c.fault != NoFault then (g, Failed)
    else
      var disposition := Classify(cfg, g.records, p.domain, m, c.now);
      if disposition == RepairPending then
        (g, if p.domain == Orchestration then Working(RepairGet(m)) else Failed)
      else if m.hash != p.hash then (g, Failed)
      else match disposition
        case IsVisible => (g, Recording(LoadHead(Resolve(m), m.txId)))
        case Retryable => (g, Claiming(ClaimReplace(n, v, m)))
        case _ => (g, Failed)
  }

  function StepClaimReplace(g: Shared, pid: nat, p: Proc, n: nat, v: nat, c: Choice): (Shared, Pc) {
    if !Unused(g, c.freshId) then (g, p.pc)
    else
      var (ms, out) := TryPut(g.markers, (p.domain, p.key), FreshMarker(p, c.freshId, c.now), MatchesVersion(v),
                              c.fault);
      var g1 := Allocate(g, pid, p, c.freshId).(markers := ms);
      match out
      case Written => (g1, Working(StorePrepared(c.freshId)))
      case PreconditionFailed => (g1, if n + 1 < MAX_CLAIM_ATTEMPTS then Claiming(ClaimPut(n + 1)) else Failed)
      case Errored => (g1, Failed)
  }

  function StepStorePrepared(g: Shared, p: Proc, t: TxId, c: Choice): (Shared, Pc) {
    var (rs, out) := TryPut(g.records, (p.domain, t), PreparedRecord(p, t, c.now), DoesNotExist, c.fault);
    (g.(records := rs), if out == Written then Working(Work(t)) else Failed)
  }

  // ------------------------------------------------------------------
  // Doing the work of the transaction
  // ------------------------------------------------------------------

  function CatalogReceiptFor(t: TxId, w: WorkOutcome, now: int): Receipt
    requires w.Committed?
  {
    CatalogReceipt(t, w.eventId, w.commitId, w.manifestId, w.snapshotVersion, w.pointerVersion,
                   "catalog:" + w.manifestId, now)
  }

  function OrchestrationReceiptFor(t: TxId, w: WorkOutcome, now: int): Receipt
    requires w.Committed?
  {
    OrchestrationReceipt(t, w.commitId, w.manifestId, w.revision, w.deltaId, w.pointerVersion,
                         w.eventsProcessed, "orchestration:" + w.manifestId, now)
  }

  function Propose(g: Shared, t: TxId, rc: Receipt, repair: bool): (Shared, Pc) {
    (g.(proposals := g.proposals + {rc}), Recording(LoadHead(Finalize(rc, repair), t)))
  }

  /** The catalog writer: it either returns a commit whose manifest snapshot is stored, or fails. */
  function StepCatalogWork(g: Shared, pid: nat, p: Proc, t: TxId, c: Choice): (Shared, Pc) {
    if !c.ok then (g, Recording(LoadHead(Abort, t)))
    else
      var g1 := g.(applied := g.applied + [pid]);
      if !c.work.Committed? then (g1, Recording(LoadHead(Abort, t)))
      else if CatalogManifestPath(c.work.manifestId) !in g.manifests then (g, p.pc)
      else Propose(g1, t, CatalogReceiptFor(t, c.work, c.now), c.work.repairPending)
  }

  function StepOrchestrationWork(cfg: Config, g: Shared, p: Proc, t: TxId, c: Choice): (Shared, Pc) {
    match c.work
    case Committed(_, _, _, _, _, _, _, _, repair) => Propose(g, t, OrchestrationReceiptFor(t, c.work, c.now), repair)
    case DefiniteFailure => (g, Recording(LoadHead(Abort, t)))
    case AmbiguousAfterAppend(paths) =>
      if cfg.ambiguousAppends then (g.(ambiguous := true), Recording(LoadHead(MarkPrepared(paths), t))) else (g, p.pc)
  }

  /** A root transaction first takes its lock; metastore mutations are refused once it is held. */
  function StepRootWork(g: Shared, p: Proc, t: TxId, c: Choice): (Shared, Pc) {
    if !c.ok || MetastoreMutation in p.mutations then (g, Recording(LoadHead(Abort, t)))
    else (g, Working(RootLoop(t, [], map[], false)))
  }

  function Child(p: Proc, m: Mutation): Proc {
    Proc(MutationDomain(m), ParticipantKey(p.key, MutationDomain(m)), MutationHash(m), [], Claiming(ClaimPut(0)))
  }

  /** After the last participant the super-manifest is published, never over an existing one. */
  function StepRootPublish(g: Shared, p: Proc, t: TxId, commits: seq<DomainCommit>,
                           refs: map<Domain, ManifestRef>, repair: bool, c: Choice): (Shared, Pc) {
    var path := SuperManifestPath(t);
    var (ss, out) := TryPut(g.supers, path, SuperManifest(t, c.now, refs), DoesNotExist, c.fault);
    var g1 := g.(supers := ss);
    if out == Written then
      Propose(g1, t, RootReceipt(t, c.freshId, path, commits, RootToken(t), c.now), repair)
    else (g1, Recording(LoadHead(Abort, t)))
  }

  /** The participant's outcome is joined: its receipt is recorded, its failure aborts the root. */
  function JoinChild(w: WorkPc, childPc: Pc): Pc
    requires w.RootWait?
  {
    match childPc
    case Done(rc, r) =>
      var commit := CommitOf(rc);
      Working(RootLoop(w.tx, w.commits + [commit], w.refs[commit.domain := RefOf(commit)], w.repair || r))
    case Failed => Recording(LoadHead(Abort, w.tx))
    case _ => Working(w)
  }

  /** A repair of an ambiguous batch re-reads the record, then compacts the recorded event paths. */
  function StepRepairGet(g: Shared, p: Proc, m: Marker, c: Choice): (Shared, Pc) {
    if c.fault != NoFault || (p.domain, m.txId) !in g.records.objects then (g, Failed)
    else
      var r := g.records.objects[(p.domain, m.txId)].body;
      if r.status != Prepared || !r.repairPending || r.hash != m.hash || r.key != m.key || m.key != p.key
         || r.durableAppend.None? || r.durableAppend.value == []
      then (g, Failed)
      else (g, Working(RepairWork(m.txId)))
  }

  function StepRepairWork(g: Shared, p: Proc, t: TxId, c: Choice): (Shared, Pc) {
    if !c.work.Committed? then (g, Failed)
    else Propose(g, t, OrchestrationReceiptFor(t, c.work, c.now), c.work.repairPending)
  }

  // ------------------------------------------------------------------
  // Loading a record with its version
  // ------------------------------------------------------------------

  /** What a finalize that went wrong leads to: a root transaction is aborted, the others just fail. */
  function OwnerFailure(p: Proc, t: TxId): Pc {
    if p.domain == Root then Recording(LoadHead(Abort, t)) else Failed
  }

  function VisibleRecord(r: Record, rc: Receipt, repair: bool): Record {
    r.(status := Visible, repairPending := repair, visibleAt := Some(rc.visibleAt),
       durableAppend := None, result := Some(rc))
  }

  predicate SameTransaction(r: Record, m: Marker) {
    r.txId == m.txId && r.kind == m.kind && r.hash == m.hash && (m.key == "" || r.key == m.key)
  }

  predicate MayReplace(stored: Record, r: Record) {
    stored.txId == r.txId && stored.kind == r.kind && stored.hash == r.hash && (stored.key == "" || stored.key == r.key)
  }

  /** A visible transaction whose record lags is answered from the copy cached in the marker. */
  function FromCache(m: Marker, stored: Option<Object<Record>>): Pc {
    if m.txRecord.None? then Failed
    else
      var r := m.txRecord.value;
      if r.status != Visible || !SameTransaction(r, m) || r.result.None? then Failed
      else match stored
        case None => Recording(ResolvePut(r, r.result.value, DoesNotExist))
        case Some(o) =>
          if MayReplace(o.body, r) then Recording(ResolvePut(r, r.result.value, MatchesVersion(o.version))) else Failed
  }

  function AfterMissing(p: Proc, purpose: Purpose, t: TxId): Pc {
    match purpose
    case Finalize(_, _) => OwnerFailure(p, t)
    case MarkVisible(rc) => Done(rc, true)
    case MarkPrepared(_) => Failed
    case Abort => Failed
    case Resolve(m) => FromCache(m, None)
  }

  function AfterReadError(p: Proc, purpose: Purpose, t: TxId): Pc {
    if purpose.Resolve? then Failed else AfterMissing(p, purpose, t)
  }

  function AfterLoad(p: Proc, purpose: Purpose, t: TxId, v: nat, r: Record): Pc {
    match purpose
    case Finalize(rc, repair) => Persisting(Publication(Owner, rc, VisibleRecord(r, rc, repair), v), PersistHead)
    case MarkVisible(rc) =>
      if r.status != Visible || r.repairPending then Done(rc, true)
      else Persisting(Publication(RepairMarker, rc, r.(repairPending := true), v), PersistHead)
    case MarkPrepared(paths) =>
      if r.status != Prepared || (r.repairPending && r.durableAppend.Some?) then Failed
      else Recording(MarkPreparedPut(t, v, r.(repairPending := true, durableAppend := Some(paths))))
    case Abort =>
      if r.status == Visible then Failed
      else Recording(AbortPut(t, v, r))
    case Resolve(m) =>
      if r.status != Visible then FromCache(m, Some(Object(v, r)))
      else if r.result.None? then Failed
      else if m.visibleAt != r.visibleAt || m.txRecord.None? then
        Persisting(Publication(Replayer, r.result.value, r, v), PersistHead)
      else Done(r.result.value, r.repairPending)
  }

  function StepLoadHead(g: Shared, p: Proc, purpose: Purpose, t: TxId, c: Choice): (Shared, Pc) {
    if c.fault != NoFault then (g, AfterReadError(p, purpose, t))
    else if (p.domain, t) !in g.records.objects then (g, AfterMissing(p, purpose, t))
    else (g, Recording(LoadGet(purpose, t, g.records.objects[(p.domain, t)].version)))
  }

  function StepLoadGet(g: Shared, p: Proc, purpose: Purpose, t: TxId, v: nat, c: Choice): (Shared, Pc) {
    if c.fault != NoFault then (g, AfterReadError(p, purpose, t))
    else if (p.domain, t) !in g.records.objects then (g, AfterMissing(p, purpose, t))
    else (g, AfterLoad(p, purpose, t, v, g.records.objects[(p.domain, t)].body))
  }

  // ------------------------------------------------------------------
  // Writing the visible transaction: marker first, then record
  // ------------------------------------------------------------------

  function PersistSucceeded(p: Proc, pub: Publication): Pc {
    if pub.who == Owner && p.domain == Root then Recording(RootAudit(pub.receipt, pub.record.repairPending))
    else Done(pub.receipt, pub.record.repairPending)
  }

  function PersistFailed(p: Proc, pub: Publication): Pc {
    match pub.who
    case Owner => OwnerFailure(p, pub.receipt.txId)
    case RepairMarker => Done(pub.receipt, true)
    case Replayer => Done(pub.receipt, pub.record.repairPending)
  }

  function StepPersistHead(g: Shared, p: Proc, pub: Publication, c: Choice): (Shared, Pc) {
    if c.fault != NoFault || (p.domain, p.key) !in g.markers.objects then (g, PersistFailed(p, pub))
    else (g, Persisting(pub, PersistGet(g.markers.objects[(p.domain, p.key)].version)))
  }

  function StepPersistGet(g: Shared, p: Proc, pub: Publication, v: nat, c: Choice): (Shared, Pc) {
    if c.fault != NoFault || (p.domain, p.key) !in g.markers.objects then (g, PersistFailed(p, pub))
    else
      var m := g.markers.objects[(p.domain, p.key)].body;
      if m.txId != pub.record.txId || m.hash != pub.record.hash then (g, PersistFailed(p, pub))
      else (g, Persisting(pub, PersistMarker(v, m)))
  }

  /** The marker write; after a storage error the record is published all the same. */
  function StepPersistMarker(cfg: Config, g: Shared, p: Proc, pub: Publication, v: nat, m: Marker,
                             c: Choice): (Shared, Pc) {
    var m1 := m.(visibleAt := pub.record.visibleAt, txRecord := Some(pub.record));
    var (ms, out) := TryPut(g.markers, (p.domain, p.key), m1, MatchesVersion(v), c.fault);
    var g1 := g.(markers := ms);
    match out
    case Written => (g1, Persisting(pub, PersistRecord))
    case PreconditionFailed => (g1, PersistFailed(p, pub))
    case Errored =>
      if MarkerVisible(g1, p.domain, p.key, pub.record.txId) then (g1, Persisting(pub, PersistRecordAfterError))
      else if cfg.markerErrors then (g1.(markerLost := true), Persisting(pub, PersistRecordAfterError))
      else (g, p.pc)
  }

  /** The write of a visible record, unless it would meet an error the configuration rules out. */
  function PutVisible(cfg: Config, g: Shared, d: Domain, r: Record, pre: Precondition,
                      fault: Fault): Option<(Shared, Outcome)> {
    var (rs, out) := TryPut(g.records, (d, r.txId), r, pre, fault);
    var g1 := g.(records := rs);
    if out != Errored || RecordVisible(g1, d, r.txId) then Some((g1, out))
    else if cfg.recordErrors then Some((g1.(recordLost := true), out))
    else None
  }

  function PutRecord(cfg: Config, g: Shared, p: Proc, pub: Publication, c: Choice): Option<(Shared, Outcome)> {
    PutVisible(cfg, g, p.domain, pub.record, MatchesVersion(pub.recordVersion), c.fault)
  }

  function StepPersistRecord(cfg: Config, g: Shared, p: Proc, pub: Publication, c: Choice): (Shared, Pc) {
    match PutRecord(cfg, g, p, pub, c)
    case Some((g1, out)) => (g1, if out == Written then PersistSucceeded(p, pub) else PersistFailed(p, pub))
    case None => (g, p.pc)
  }

  /** After a storage error on the marker the record is still written, and the caller gets the error. */
  function StepPersistRecordAfterError(cfg: Config, g: Shared, p: Proc, pub: Publication, c: Choice): (Shared, Pc) {
    match PutRecord(cfg, g, p, pub, c)
    case Some((g1, _)) => (g1, PersistFailed(p, pub))
    case None => (g, p.pc)
  }

  function StepRootAudit(g: Shared, rc: Receipt, repair: bool, c: Choice): (Shared, Pc) {
    if c.ok || repair then (g, Done(rc, repair || !c.ok))
    else (g, Recording(LoadHead(MarkVisible(rc), rc.txId)))
  }

  // ------------------------------------------------------------------
  // Other writes of the record
  // ------------------------------------------------------------------

  /** A replay that brings the record up to date answers whether or not its write went through. */
  function StepResolvePut(cfg: Config, g: Shared, p: Proc, r: Record, rc: Receipt, pre: Precondition,
                          c: Choice): (Shared, Pc) {
    match PutVisible(cfg, g, p.domain, r, pre, c.fault)
    case Some((g1, _)) => (g1, Done(rc, r.repairPending))
    case None => (g, p.pc)
  }

  function StepAbortPut(g: Shared, p: Proc, t: TxId, v: nat, r: Record, c: Choice): (Shared, Pc) {
    var aborted := r.(status := Aborted, visibleAt := None, result := None);
    var (rs, _) := TryPut(g.records, (p.domain, t), aborted, MatchesVersion(v), c.fault);
    (g.(records := rs), Failed)
  }

  function StepMarkPreparedPut(g: Shared, p: Proc, t: TxId, v: nat, r: Record, c: Choice): (Shared, Pc) {
    var (rs, _) := TryPut(g.records, (p.domain, t), r, MatchesVersion(v), c.fault);
    (g.(records := rs), Failed)
  }

  // ------------------------------------------------------------------
  // The transition function
  // ------------------------------------------------------------------

  function StepWork(cfg: Config, g: Shared, pid: nat, p: Proc, t: TxId, c: Choice): (Shared, Pc) {
    match p.domain
    case Catalog => StepCatalogWork(g, pid, p, t, c)
    case Orchestration => StepOrchestrationWork(cfg, g, p, t, c)
    case Root => StepRootWork(g, p, t, c)
  }

  function AdvanceClaim(cfg: Config, g: Shared, pid: nat, p: Proc, pc: ClaimPc, c: Choice): (Shared, Pc) {
    match pc
    case ClaimPut(n) => StepClaimPut(g, pid, p, n, c)
    case ClaimHead(n) => StepClaimHead(g, p, n, c)
    case ClaimGet(n, v) => StepClaimGet(g, p, n, v, c)
    case ClaimClassify(n, v, m) => StepClaimClassify(cfg, g, p, n, v, m, c)
    case ClaimReplace(n, v, _) => StepClaimReplace(g, pid, p, n, v, c)
  }

  function AdvanceWork(cfg: Config, g: Shared, pid: nat, p: Proc, pc: WorkPc, c: Choice): (Shared, Pc) {
    match pc
    case StorePrepared(t) => StepStorePrepared(g, p, t, c)
    case Work(t) => StepWork(cfg, g, pid, p, t, c)
    case RootLoop(t, commits, refs, repair) =>
      if |commits| < |p.mutations| then (g, Working(pc)) else StepRootPublish(g, p, t, commits, refs, repair, c)
    case RootWait(_, _, _, _, _) => (g, Working(pc))
    case RepairGet(m) => StepRepairGet(g, p, m, c)
    case RepairWork(t) => StepRepairWork(g, p, t, c)
  }

  function AdvancePersist(cfg: Config, g: Shared, p: Proc, pub: Publication, pc: PersistPc, c: Choice): (Shared, Pc) {
    match pc
    case PersistHead => StepPersistHead(g, p, pub, c)
    case PersistGet(v) => StepPersistGet(g, p, pub, v, c)
    case PersistMarker(v, m) => StepPersistMarker(cfg, g, p, pub, v, m, c)
    case PersistRecord => StepPersistRecord(cfg, g, p, pub, c)
    case PersistRecordAfterError => StepPersistRecordAfterError(cfg, g, p, pub, c)
  }

  function AdvanceRecord(cfg: Config, g: Shared, p: Proc, pc: RecordPc, c: Choice): (Shared, Pc) {
    match pc
    case LoadHead(purpose, t) => StepLoadHead(g, p, purpose, t, c)
    case LoadGet(purpose, t, v) => StepLoadGet(g, p, purpose, t, v, c)
    case RootAudit(rc, repair) => StepRootAudit(g, rc, repair, c)
    case ResolvePut(r, rc, pre) => StepResolvePut(cfg, g, p, r, rc, pre, c)
    case AbortPut(t, v, r) => StepAbortPut(g, p, t, v, r, c)
    case MarkPreparedPut(t, v, r) => StepMarkPreparedPut(g, p, t, v, r, c)
  }

  /** One step of a process on its own; starting and joining participants is up to `Next`. */
  function Advance(cfg: Config, g: Shared, pid: nat, p: Proc, c: Choice): (Shared, Pc) {
    match p.pc
    case Claiming(pc) => AdvanceClaim(cfg, g, pid, p, pc, c)
    case Working(pc) => AdvanceWork(cfg, g, pid, p, pc, c)
    case Persisting(pub, pc) => AdvancePersist(cfg, g, p, pub, pc, c)
    case Recording(pc) => AdvanceRecord(cfg, g, p, pc, c)
    case Done(_, _) => (g, p.pc)
    case Failed => (g, p.pc)
  }

  /** Non-metastore mutations of one root request name pairwise different domains. */
  predicate DistinctDomains(ms: seq<Mutation>) {
    forall i, j :: 0 <= i < j < |ms| && !ms[i].MetastoreMutation? && !ms[j].MetastoreMutation?
                   ==> MutationDomain(ms[i]) != MutationDomain(ms[j])
  }

  /** The check a root request passes before it claims its key. */
  method CheckDistinctDomains(ms: seq<Mutation>) returns (ok: bool)
    ensures ok <==> DistinctDomains(ms)
  {
    var seen: set<Domain> := {};
    for k := 0 to |ms|
      invariant DistinctDomains(ms[..k])
      invariant forall d :: d in seen <==>
                exists i :: 0 <= i < k && !ms[i].MetastoreMutation? && MutationDomain(ms[i]) == d
    {
      if !ms[k].MetastoreMutation? {
        if MutationDomain(ms[k]) in seen {
          return false;
        }
        seen := seen + {MutationDomain(ms[k])};
      }
    }
    assert ms[..|ms|] == ms;
    return true;
  }

  datatype Action =
    | Start(pid: nat, domain: Domain, key: string, hash: string, mutations: seq<Mutation>)
    | Step(pid: nat, choice: Choice)
    | StoreManifest(path: string, body: string)
    | MovePointer(path: string)

  predicate StartsChild(p: Proc) {
    p.pc.Working? && p.pc.work.RootLoop? && |p.pc.work.commits| < |p.mutations|
  }

  predicate AwaitsChild(p: Proc) { p.pc.Working? && p.pc.work.RootWait? }

  function StartChild(s: State, pid: nat, p: Proc, c: Choice): State
    requires StartsChild(p)
  {
    if c.child in s.procs then s
    else
      var w := p.pc.work;
      var wait := RootWait(w.tx, w.commits, w.refs, w.repair, c.child);
      s.(procs := s.procs[c.child := Child(p, p.mutations[|w.commits|])][pid := p.(pc := Working(wait))])
  }

  function StepProcess(cfg: Config, s: State, pid: nat, p: Proc, c: Choice): State {
    if StartsChild(p) then StartChild(s, pid, p, c)
    else if AwaitsChild(p) then
      if p.pc.work.child !in s.procs then s
      else s.(procs := s.procs[pid := p.(pc := JoinChild(p.pc.work, s.procs[p.pc.work.child].pc))])
    else
      var (g, pc) := Advance(cfg, s.g, pid, p, c);
      State(g, s.procs[pid := p.(pc := pc)])
  }

  function Next(cfg: Config, s: State, a: Action): State {
    match a
    case Start(pid, d, key, hash, ms) =>
      if pid in s.procs || key == "" || !DistinctDomains(ms) then s
      else s.(procs := s.procs[pid := Proc(d, key, hash, ms, Claiming(ClaimPut(0)))])
    case Step(pid, c) => if pid in s.procs then StepProcess(cfg, s, pid, s.procs[pid], c) else s
    case StoreManifest(path, body) =>
      if path in s.g.manifests then s else s.(g := s.g.(manifests := s.g.manifests[path := body]))
    case MovePointer(path) => s.(g := s.g.(pointer := path))
  }

  /** The state a run of actions leads to. */
  function Exec(cfg: Config, s: State, run: seq<Action>): State
    decreases |run|
  {
    if run == [] then s else Exec(cfg, Next(cfg, s, run[0]), run[1..])
  }
}

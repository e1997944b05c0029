/**
 Stored objects and callers of the control-plane transaction service.

 A transaction is kept in two objects: an idempotency marker, addressed by (domain,
 idempotency key), and a transaction record, addressed by (domain, transaction id).
 A root transaction adds an immutable super-manifest.  Every API call in flight is a
 process with a program counter; one step of a process is one storage operation.
 */
module TransactionTypes {
  import opened ObjectStore

  type TxId = string

  datatype Domain = Catalog | Orchestration | Root

  datatype Kind = CatalogDdl | OrchestrationBatch | RootCommit

  datatype Status = Prepared | Visible | Aborted

  function KindOf(d: Domain): Kind {
    match d
    case Catalog => CatalogDdl
    case Orchestration => OrchestrationBatch
    case Root => RootCommit
  }

  function DomainName(d: Domain): string {
    match d
    case Catalog => "catalog"
    case Orchestration => "orchestration"
    case Root => "root"
  }

  /** The idempotency key under which a root transaction runs its participant for domain `d`. */
  function ParticipantKey(rootKey: string, d: Domain): string {
    "root:" + rootKey + ":" + DomainName(d)
  }

  function SuperManifestPath(t: TxId): string { "transactions/root/" + t + ".manifest.json" }

  function RootToken(t: TxId): string { "root:" + t }

  function CatalogManifestPath(manifestId: string): string { "manifests/catalog/" + manifestId + ".json" }

  function OrchestrationManifestPath(manifestId: string): string {
    "state/orchestration/manifests/" + manifestId + ".json"
  }

  // ------------------------------------------------------------------
  // Receipts
  // ------------------------------------------------------------------

  datatype DomainCommit = DomainCommit(
    domain: Domain, txId: TxId, commitId: string, manifestId: string, manifestPath: string, readToken: string)

  datatype Receipt =
    | CatalogReceipt(txId: TxId, eventId: string, commitId: string, manifestId: string,
                     snapshotVersion: nat, pointerVersion: string, readToken: string, visibleAt: int)
    | OrchestrationReceipt(txId: TxId, commitId: string, manifestId: string, revision: string, deltaId: string,
                           pointerVersion: string, eventsProcessed: nat, readToken: string, visibleAt: int)
    | RootReceipt(txId: TxId, rootCommitId: string, superManifestPath: string,
                  domainCommits: seq<DomainCommit>, readToken: string, visibleAt: int)

  function ReceiptDomain(rc: Receipt): Domain {
    match rc
    case CatalogReceipt(_, _, _, _, _, _, _, _) => Catalog
    case OrchestrationReceipt(_, _, _, _, _, _, _, _, _) => Orchestration
    case RootReceipt(_, _, _, _, _, _) => Root
  }

  /** The reference a root receipt keeps to a participant's receipt. */
  function CommitOf(rc: Receipt): DomainCommit {
    match rc
    case CatalogReceipt(t, _, c, m, _, _, token, _) =>
      DomainCommit(Catalog, t, c, m, CatalogManifestPath(m), token)
    case OrchestrationReceipt(t, c, m, _, _, _, _, token, _) =>
      DomainCommit(Orchestration, t, c, m, OrchestrationManifestPath(m), token)
    case RootReceipt(t, c, path, _, token, _) =>
      DomainCommit(Root, t, c, "", path, token)
  }

  datatype ManifestRef = ManifestRef(manifestId: string, manifestPath: string, commitId: string)

  function RefOf(c: DomainCommit): ManifestRef { ManifestRef(c.manifestId, c.manifestPath, c.commitId) }

  datatype SuperManifest = SuperManifest(txId: TxId, publishedAt: int, domains: map<Domain, ManifestRef>)

  // ------------------------------------------------------------------
  // Stored objects
  // ------------------------------------------------------------------

  datatype Record = Record(
    txId: TxId, kind: Kind, status: Status, repairPending: bool, key: string, hash: string,
    preparedAt: int, visibleAt: Option<int>, durableAppend: Option<seq<string>>, result: Option<Receipt>)

  datatype Marker = Marker(
    txId: TxId, kind: Kind, key: string, hash: string, createdAt: int,
    visibleAt: Option<int>, txRecord: Option<Record>)

  // ------------------------------------------------------------------
  // Callers
  // ------------------------------------------------------------------

  datatype Mutation = CatalogMutation(hash: string) | OrchestrationMutation(hash: string) | MetastoreMutation

  function MutationDomain(m: Mutation): Domain {
    if m.OrchestrationMutation? then Orchestration else Catalog
  }

  function MutationHash(m: Mutation): string {
    if m.MetastoreMutation? then "" else m.hash
  }

  /** Why a record is being loaded together with its version. */
  datatype Purpose =
    | Finalize(receipt: Receipt, repairPending: bool)
    | MarkVisible(receipt: Receipt)
    | MarkPrepared(eventPaths: seq<string>)
    | Abort
    | Resolve(marker: Marker)

  /** Who asked for the marker-then-record write: its outcome is handled differently. */
  datatype Persister = Owner | RepairMarker | Replayer

  /** Claiming the idempotency key. */
  datatype ClaimPc =
    | ClaimPut(attempt: nat)
    | ClaimHead(attempt: nat)
    | ClaimGet(attempt: nat, version: nat)
    | ClaimClassify(attempt: nat, version: nat, marker: Marker)
    | ClaimReplace(attempt: nat, version: nat, marker: Marker)

  /** Doing the work of a claimed transaction, or repairing an ambiguous one. */
  datatype WorkPc =
    | StorePrepared(tx: TxId)
    | Work(tx: TxId)
    | RootLoop(tx: TxId, commits: seq<DomainCommit>, refs: map<Domain, ManifestRef>, repair: bool)
    | RootWait(tx: TxId, commits: seq<DomainCommit>, refs: map<Domain, ManifestRef>, repair: bool, child: nat)
    | RepairGet(marker: Marker)
    | RepairWork(tx: TxId)

  /** Making a transaction visible: the marker first, then the record. */
  datatype PersistPc =
    | PersistHead
    | PersistGet(version: nat)
    | PersistMarker(version: nat, marker: Marker)
    | PersistRecord
    | PersistRecordAfterError

  /** Loading a record with its version, and the other writes of a record. */
  datatype RecordPc =
    | LoadHead(purpose: Purpose, tx: TxId)
    | LoadGet(purpose: Purpose, tx: TxId, version: nat)
    | RootAudit(receipt: Receipt, repair: bool)
    | ResolvePut(record: Record, receipt: Receipt, pre: Precondition)
    | AbortPut(tx: TxId, version: nat, record: Record)
    | MarkPreparedPut(tx: TxId, version: nat, record: Record)

  /** The visible record a process wants stored, and the record version it was derived from. */
  datatype Publication = Publication(who: Persister, receipt: Receipt, record: Record, recordVersion: nat)

  datatype Pc =
    | Claiming(claim: ClaimPc)
    | Working(work: WorkPc)
    | Persisting(pub: Publication, persist: PersistPc)
    | Recording(load: RecordPc)
    | Done(receipt: Receipt, repair: bool)
    | Failed

  datatype Proc = Proc(domain: Domain, key: string, hash: string, mutations: seq<Mutation>, pc: Pc)

  /** Who allocated a transaction id, and for which request. */
  datatype Claimant = Claimant(domain: Domain, key: string, hash: string, pid: nat)

  /**
   What the processes share.  `manifests` holds the immutable catalog manifest snapshots
   and `pointer` the moving catalog head.  The rest are histories: the allocated transaction
   ids, which a claim consults only to draw an id nobody has; and, read by no step, the
   receipts ever built, the processes that ran the catalog writer, whether a finalize went on
   although its marker write failed and left the marker without the transaction, whether the
   write of a visible record failed and left the record without it, and whether a batch
   append ever ended ambiguously.
   */
  datatype Shared = Shared(
    markers: Store<(Domain, string), Marker>,
    records: Store<(Domain, TxId), Record>,
    supers: Store<string, SuperManifest>,
    manifests: map<string, string>,
    pointer: string,
    owners: map<TxId, Claimant>,
    proposals: set<Receipt>,
    applied: seq<nat>,
    markerLost: bool,
    recordLost: bool,
    ambiguous: bool)

  datatype State = State(g: Shared, procs: map<nat, Proc>)

  function Init(): State {
    State(Shared(Empty(), Empty(), Empty(), map[], "", map[], {}, [], false, false, false), map[])
  }

  /** What the code this model does not show (catalog writer, ledger append, compaction) answers. */
  datatype WorkOutcome =
    | Committed(eventId: string, commitId: string, manifestId: string, snapshotVersion: nat,
                pointerVersion: string, revision: string, deltaId: string, eventsProcessed: nat, repairPending: bool)
    | DefiniteFailure
    | AmbiguousAfterAppend(eventPaths: seq<string>)

  /** Everything the environment decides about one step: clock, fresh ids, faults, outcomes. */
  datatype Choice = Choice(now: int, freshId: TxId, fault: Fault, work: WorkOutcome, ok: bool, child: nat)

  /**
   `markerErrors` says whether a storage error on the marker write of a finalize may leave
   the marker without the transaction; an error whose write took effect, or that hits a
   marker already carrying the transaction, is always possible.  `recordErrors` says the
   same of the write of a visible record.  `ambiguousAppends` says whether the outcome of a
   batch append may stay unknown.
   */
  datatype Config = Config(staleTimeout: int, markerErrors: bool, recordErrors: bool, ambiguousAppends: bool)
}

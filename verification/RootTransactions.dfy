/**
 Root transactions over whole runs: the super-manifest behind a read token, and what
 happens to the catalog participant when a root transaction is retried.
 */
module RootTransactions {
  import opened ObjectStore
  import opened TransactionTypes
  import opened TransactionSteps
  import opened TransactionInvariant
  import opened TransactionProofs
  import opened TransactionTheorems
  import opened TransactionRecords

  // ------------------------------------------------------------------
  // Pinned reads
  // ------------------------------------------------------------------

  datatype ReadError =
    | InvalidToken
    | RecordMissing
    | NotVisible
    | NoSuperManifestPath
    | SuperManifestMissing
    | DomainMissing
    | ManifestMissing

  datatype Result<T> = Ok(value: T) | Err(error: ReadError)

  function ParseRootToken(token: string): Result<TxId> {
    if |token| > 5 && token[..5] == "root:" then Ok(token[5..]) else Err(InvalidToken)
  }

  /** First read: the root record behind the token names the super-manifest. */
  function ReadRecord(g: Shared, token: string): Result<string> {
    match ParseRootToken(token)
    case Err(e) => Err(e)
    case Ok(t) =>
      if (Root, t) !in g.records.objects then Err(RecordMissing)
      else
        var r := g.records.objects[(Root, t)].body;
        if r.status != Visible then Err(NotVisible)
        else if r.result.None? || !r.result.value.RootReceipt? || r.result.value.superManifestPath == ""
        then Err(NoSuperManifestPath)
        else Ok(r.result.value.superManifestPath)
  }

  /** Second read: the super-manifest names the catalog manifest. */
  function ReadSuperManifest(g: Shared, path: string): Result<string> {
    if path !in g.supers.objects then Err(SuperManifestMissing)
    else
      var domains := g.supers.objects[path].body.domains;
      if Catalog !in domains then Err(DomainMissing) else Ok(domains[Catalog].manifestPath)
  }

  /** Third read: the immutable catalog manifest itself. */
  function ReadManifest(g: Shared, path: string): Result<string> {
    if path in g.manifests then Ok(g.manifests[path]) else Err(ManifestMissing)
  }

  /** The three reads in one state. */
  function ResolveRootToken(g: Shared, token: string): Result<string> {
    match ReadRecord(g, token)
    case Err(e) => Err(e)
    case Ok(super) =>
      match ReadSuperManifest(g, super)
      case Err(e) => Err(e)
      case Ok(path) => ReadManifest(g, path)
  }

  /** A token parses to a transaction exactly when it is the one made from it; every other token is invalid. */
  lemma TokenRoundTrip(token: string, t: TxId)
    ensures ParseRootToken(token) == Ok(t) <==> t != "" && token == RootToken(t)
    ensures !ParseRootToken(token).Ok? ==> ParseRootToken(token) == Err(InvalidToken)
  {
    assert RootToken(t)[..5] == "root:";
    assert RootToken(t)[5..] == t;
    if |token| > 5 && token[..5] == "root:" {
      assert token == token[..5] + token[5..];
    }
  }

  /** A visible root record points at its own super-manifest, and still does in every later state. */
  lemma VisibleRootPinsSuperManifest(s: State, s': State, token: string, path: string)
    requires Inv(s) && NextOkFor(s, s') && ReadRecord(s.g, token) == Ok(path)
    ensures ReadRecord(s'.g, token) == Ok(path)
    ensures path in s.g.supers.objects
  {
    var t := token[5..];
    var r := s.g.records.objects[(Root, t)].body;
    var r' := s'.g.records.objects[(Root, t)].body;
    assert RecordOk(s.g, Root, t, r) && RecordOk(s'.g, Root, t, r');
    assert ReceiptOk(s.g, r.result.value) && ReceiptOk(s'.g, r'.result.value);
  }

  /**
   A reader resolves a root token with three reads at three moments of a run.  The
   manifest it gets is the one the token resolves to in every later state, however the
   catalog pointer moves in between and whatever storage errors occur.
   */
  lemma RootTokenIsPinned(cfg: Config, run: seq<Action>, run1: seq<Action>, run2: seq<Action>, run3: seq<Action>,
                          token: string, super: string, path: string, body: string)
    requires ReadRecord(Exec(cfg, Init(), run).g, token) == Ok(super)
    requires ReadSuperManifest(Exec(cfg, Exec(cfg, Init(), run), run1).g, super) == Ok(path)
    requires ReadManifest(Exec(cfg, Exec(cfg, Exec(cfg, Init(), run), run1), run2).g, path) == Ok(body)
    ensures ResolveRootToken(Exec(cfg, Exec(cfg, Exec(cfg, Exec(cfg, Init(), run), run1), run2), run3).g, token)
            == Ok(body)
  {
    var s0 := Exec(cfg, Init(), run);
    Reached(cfg, run, run1);
    var s1 := Exec(cfg, s0, run1);
    ExecKeepsInv(cfg, s1, run2);
    var s2 := Exec(cfg, s1, run2);
    ExecKeepsInv(cfg, s2, run3);
    var s3 := Exec(cfg, s2, run3);
    VisibleRootPinsSuperManifest(s0, s1, token, super);
    VisibleRootPinsSuperManifest(s1, s2, token, super);
    VisibleRootPinsSuperManifest(s2, s3, token, super);
  }

  // ------------------------------------------------------------------
  // Super-manifests
  // ------------------------------------------------------------------

  /** The super-manifest of a root receipt exists, bears its transaction and time, and lists exactly its commits. */
  predicate SuperManifestMatches(g: Shared, rc: Receipt)
    requires rc.RootReceipt?
  {
    && rc.superManifestPath == SuperManifestPath(rc.txId)
    && rc.superManifestPath in g.supers.objects
    && g.supers.objects[rc.superManifestPath].body.txId == rc.txId
    && g.supers.objects[rc.superManifestPath].body.publishedAt == rc.visibleAt
    && Corresponds(rc.domainCommits, g.supers.objects[rc.superManifestPath].body.domains)
  }

  /** Record `r` makes a root transaction visible: it is its record, or the copy in its marker. */
  predicate ShowsRoot(g: Shared, r: Record) {
    || (RecordVisible(g, Root, r.txId) && g.records.objects[(Root, r.txId)].body == r)
    || ((Root, r.key) in g.markers.objects && g.markers.objects[(Root, r.key)].body.txRecord == Some(r))
  }

  lemma ShownRootHasReceipt(g: Shared, r: Record)
    requires SharedOk(g) && ShowsRoot(g, r)
    ensures r.status == Visible && r.result.Some? && r.result.value.RootReceipt? && ReceiptOk(g, r.result.value)
  {
    if RecordVisible(g, Root, r.txId) && g.records.objects[(Root, r.txId)].body == r {
      assert RecordOk(g, Root, r.txId, r);
    } else {
      assert MarkerOk(g, Root, r.key, g.markers.objects[(Root, r.key)].body);
    }
  }

  /** Whatever makes a root transaction visible, its record or the copy in its marker, has its super-manifest. */
  lemma VisibleRootHasSuperManifest(cfg: Config, run: seq<Action>, more: seq<Action>, r: Record)
    requires ShowsRoot(Exec(cfg, Init(), run).g, r)
    ensures r.status == Visible && r.result.Some? && r.result.value.RootReceipt?
    ensures var s := Exec(cfg, Init(), run);
            && SuperManifestMatches(s.g, r.result.value)
            && SuperManifestMatches(Exec(cfg, s, more).g, r.result.value)
            && Exec(cfg, s, more).g.supers.objects[r.result.value.superManifestPath]
               == s.g.supers.objects[r.result.value.superManifestPath]
  {
    Reached(cfg, run, more);
    ShownRootHasReceipt(Exec(cfg, Init(), run).g, r);
  }

  /** The participant receipt a commit of a root receipt was taken from. */
  lemma ParticipantOf(g: Shared, rc: Receipt, i: nat) returns (participant: Receipt)
    requires ProposalsOk(g) && rc in g.proposals && rc.RootReceipt? && i < |rc.domainCommits|
    ensures participant in g.proposals && CommitOf(participant) == rc.domainCommits[i]
    ensures rc.txId in g.owners
    ensures Settled(g, rc.domainCommits[i].domain, ParticipantKey(g.owners[rc.txId].key, rc.domainCommits[i].domain),
                    participant.txId)
  {
    assert ReceiptOk(g, rc);
    assert ParticipantVisible(g, g.owners[rc.txId].key, rc.domainCommits[i]);
    participant :| participant in g.proposals && CommitOf(participant) == rc.domainCommits[i];
  }

  lemma CatalogCommitIsStored(g: Shared, rc: Receipt, i: nat)
    requires ProposalsOk(g) && rc in g.proposals && rc.RootReceipt? && i < |rc.domainCommits|
    requires rc.domainCommits[i].domain == Catalog
    ensures rc.domainCommits[i].manifestPath in g.manifests
  {
    var participant := ParticipantOf(g, rc, i);
    assert ReceiptOk(g, participant);
  }

  /** The three reads of a token whose record and super-manifest are in place. */
  lemma TokenResolves(g: Shared, t: TxId, rc: Receipt, i: nat)
    requires t != "" && (Root, t) in g.records.objects
    requires var r := g.records.objects[(Root, t)].body; r.status == Visible && r.result == Some(rc)
    requires rc.RootReceipt? && SuperManifestMatches(g, rc) && i < |rc.domainCommits|
    requires rc.domainCommits[i].domain == Catalog
    requires rc.domainCommits[i].manifestPath in g.manifests
    ensures ResolveRootToken(g, RootToken(t)) == Ok(g.manifests[rc.domainCommits[i].manifestPath])
  {
    TokenRoundTrip(RootToken(t), t);
    assert |rc.superManifestPath| > 0;
  }

  /** Root transaction `t` is visible with receipt `rc`: in its record, or in the marker of `key`. */
  predicate VisibleRoot(g: Shared, key: string, t: TxId, rc: Receipt) {
    || (RecordVisible(g, Root, t) && g.records.objects[(Root, t)].body.result == Some(rc))
    || (MarkerVisible(g, Root, key, t) && g.markers.objects[(Root, key)].body.txRecord.value.result == Some(rc))
  }

  predicate CommitsCatalog(rc: Receipt, i: nat) {
    rc.RootReceipt? && i < |rc.domainCommits| && rc.domainCommits[i].domain == Catalog
  }

  /** What the token of a visible root transaction resolves to. */
  function Pinned(g: Shared, rc: Receipt, i: nat): Result<string>
    requires CommitsCatalog(rc, i)
  {
    if !RecordVisible(g, Root, rc.txId) then Err(NotVisible) else ReadManifest(g, rc.domainCommits[i].manifestPath)
  }

  /** The receipt of a visible root was built for it, and its record exists and holds no other receipt. */
  lemma VisibleRootIsRecorded(g: Shared, key: string, t: TxId, rc: Receipt)
    requires SharedOk(g) && VisibleRoot(g, key, t, rc)
    ensures rc in g.proposals && rc.RootReceipt? && rc.txId == t
    ensures (Root, t) in g.records.objects
    ensures RecordVisible(g, Root, t) ==> g.records.objects[(Root, t)].body.result == Some(rc)
  {
    if RecordVisible(g, Root, t) {
      assert RecordOk(g, Root, t, g.records.objects[(Root, t)].body);
    }
    if MarkerVisible(g, Root, key, t) {
      assert MarkerOk(g, Root, key, g.markers.objects[(Root, key)].body);
    }
  }

  lemma VisibleRootResolvesIn(g: Shared, key: string, t: TxId, rc: Receipt, i: nat)
    requires SharedOk(g) && VisibleRoot(g, key, t, rc) && CommitsCatalog(rc, i)
    ensures rc.txId == t && rc.domainCommits[i].manifestPath in g.manifests
    ensures ResolveRootToken(g, RootToken(t)) == Pinned(g, rc, i)
  {
    VisibleRootIsRecorded(g, key, t, rc);
    assert ReceiptOk(g, rc);
    CatalogCommitIsStored(g, rc, i);
    TokenRoundTrip(RootToken(t), t);
    if RecordVisible(g, Root, t) {
      TokenResolves(g, t, rc, i);
    }
  }

  /**
   The token of a visible root transaction with a catalog participant resolves to the manifest
   its receipt names when its record is visible.  Otherwise, while the record lags behind the
   marker, it is refused as not visible; no record, super-manifest or manifest is ever missing.
   */
  lemma VisibleRootResolves(cfg: Config, run: seq<Action>, key: string, t: TxId, rc: Receipt, i: nat)
    requires VisibleRoot(Exec(cfg, Init(), run).g, key, t, rc) && CommitsCatalog(rc, i)
    ensures var g := Exec(cfg, Init(), run).g;
            var path := rc.domainCommits[i].manifestPath;
            && path in g.manifests
            && ResolveRootToken(g, RootToken(t))
            == if RecordVisible(g, Root, t) then Ok(g.manifests[path]) else Err(NotVisible)
  {
    Reached(cfg, run, []);
    VisibleRootResolvesIn(Exec(cfg, Init(), run).g, key, t, rc, i);
  }

  lemma ListedCatalogCommits(rc: Receipt, domains: map<Domain, ManifestRef>)
    requires rc.RootReceipt? && Corresponds(rc.domainCommits, domains)
    ensures Catalog in domains ==> exists i: nat :: CommitsCatalog(rc, i)
  {
    if Catalog in domains {
      var i :| 0 <= i < |rc.domainCommits| && rc.domainCommits[i].domain == Catalog;
      assert CommitsCatalog(rc, i);
    }
  }

  /** The token of a visible root without a catalog participant is refused for want of one. */
  lemma NoCatalogToRead(g: Shared, t: TxId, rc: Receipt)
    requires SharedOk(g) && RecordVisible(g, Root, t) && g.records.objects[(Root, t)].body.result == Some(rc)
    requires forall i: nat :: !CommitsCatalog(rc, i)
    ensures ResolveRootToken(g, RootToken(t)) == Err(DomainMissing)
  {
    assert RecordOk(g, Root, t, g.records.objects[(Root, t)].body);
    assert ReceiptOk(g, rc);
    TokenRoundTrip(RootToken(t), t);
    ListedCatalogCommits(rc, g.supers.objects[rc.superManifestPath].body.domains);
    assert |rc.superManifestPath| > 0;
  }

  /**
   What reading with a root token gives, in every run and for every transaction: an error if
   there is no root record or it is not visible; otherwise the manifest the catalog commit of
   its receipt names, or an error if the receipt has none.  Nothing else can be missing.
   */
  lemma RootTokenReads(cfg: Config, run: seq<Action>, t: TxId)
    requires t != ""
    ensures var g := Exec(cfg, Init(), run).g;
            var read := ResolveRootToken(g, RootToken(t));
            if (Root, t) !in g.records.objects then read == Err(RecordMissing)
            else if !RecordVisible(g, Root, t) then read == Err(NotVisible)
            else
              exists rc :: g.records.objects[(Root, t)].body.result == Some(rc) && ReadsAs(g, rc, read)
  {
    Reached(cfg, run, []);
    var g := Exec(cfg, Init(), run).g;
    TokenRoundTrip(RootToken(t), t);
    if RecordVisible(g, Root, t) {
      assert RecordOk(g, Root, t, g.records.objects[(Root, t)].body);
      var rc := g.records.objects[(Root, t)].body.result.value;
      if i: nat :| CommitsCatalog(rc, i) {
        VisibleRootResolvesIn(g, "", t, rc, i);
      } else {
        NoCatalogToRead(g, t, rc);
      }
      assert ReadsAs(g, rc, ResolveRootToken(g, RootToken(t)));
    }
  }

  /** `read` is the manifest that the catalog commit of `rc` names, or says that there is none. */
  ghost predicate ReadsAs(g: Shared, rc: Receipt, read: Result<string>) {
    && rc.RootReceipt?
    && if forall i: nat :: !CommitsCatalog(rc, i) then read == Err(DomainMissing)
       else
         exists i: nat :: CommitsCatalog(rc, i) && rc.domainCommits[i].manifestPath in g.manifests
                     && read == Ok(g.manifests[rc.domainCommits[i].manifestPath])
  }

  /** The token of every root answer with a catalog participant resolves to the manifest the answer names. */
  ghost predicate AnsweredTokensResolve(s: State) {
    forall pid, key, rc, i: nat :: Answered(s, pid, Root, key, rc) && CommitsCatalog(rc, i) ==>
      var path := rc.domainCommits[i].manifestPath;
      path in s.g.manifests && ResolveRootToken(s.g, rc.readToken) == Ok(s.g.manifests[path])
  }

  lemma AnsweredTokenResolves(s: State, pid: nat, key: string, rc: Receipt, i: nat)
    requires Inv(s) && Answered(s, pid, Root, key, rc) && CommitsCatalog(rc, i) && RecordVisible(s.g, Root, rc.txId)
    ensures var path := rc.domainCommits[i].manifestPath;
            path in s.g.manifests && ResolveRootToken(s.g, rc.readToken) == Ok(s.g.manifests[path])
  {
    AnswerIsOwned(s, pid, Root, key, rc);
    assert ReceiptOk(s.g, rc);
    assert RecordOk(s.g, Root, rc.txId, s.g.records.objects[(Root, rc.txId)].body);
    VisibleRootResolvesIn(s.g, key, rc.txId, rc, i);
  }

  lemma AnsweredTokensResolveWithoutLoss(cfg: Config, run: seq<Action>)
    requires !Exec(cfg, Init(), run).g.recordLost
    ensures AnsweredTokensResolve(Exec(cfg, Init(), run))
  {
    var s := Exec(cfg, Init(), run);
    Reached(cfg, run, []);
    forall pid, key, rc, i: nat | Answered(s, pid, Root, key, rc) && CommitsCatalog(rc, i)
      ensures var path := rc.domainCommits[i].manifestPath;
              path in s.g.manifests && ResolveRootToken(s.g, rc.readToken) == Ok(s.g.manifests[path])
    {
      AnswersAreRecorded(cfg, run, pid, Root, key, rc);
      AnsweredTokenResolves(s, pid, key, rc, i);
    }
  }

  // ------------------------------------------------------------------
  // Retries
  // ------------------------------------------------------------------

  lemma OneParticipantCommit(g: Shared, rootKey: string, participant: Receipt, rc: Receipt, i: nat)
    requires ProposalsOk(g) && !g.markerLost && participant in g.proposals
    requires var d := ReceiptDomain(participant);
             && !MayRepair(g, d) && MarkerVisible(g, d, ParticipantKey(rootKey, d), participant.txId)
             && rc.RootReceipt? && i < |rc.domainCommits| && rc.domainCommits[i].domain == d
    requires rc in g.proposals && rc.txId in g.owners && g.owners[rc.txId].key == rootKey
    ensures rc.domainCommits[i] == CommitOf(participant)
  {
    var other := ParticipantOf(g, rc, i);
    assert other.txId == participant.txId;
  }

  /**
   Once a participant of a root key is visible, every root receipt of that key, in whatever
   retry it was built, reports that participant's commit.  This holds for the catalog, and
   for orchestration as long as no append was ambiguous.
   */
  lemma RetriesReportOneCommit(cfg: Config, run: seq<Action>, more: seq<Action>, rootKey: string,
                               participant: Receipt, rc: Receipt, i: nat)
    requires var s := Exec(cfg, Init(), run);
             var d := ReceiptDomain(participant);
             participant in s.g.proposals && MarkerVisible(s.g, d, ParticipantKey(rootKey, d), participant.txId)
    requires var s' := Exec(cfg, Exec(cfg, Init(), run), more);
             && !s'.g.markerLost && (ReceiptDomain(participant) == Orchestration ==> !s'.g.ambiguous)
             && rc in s'.g.proposals && rc.txId in s'.g.owners && s'.g.owners[rc.txId].key == rootKey
    requires rc.RootReceipt? && i < |rc.domainCommits| && rc.domainCommits[i].domain == ReceiptDomain(participant)
    ensures rc.domainCommits[i] == CommitOf(participant)
  {
    Reached(cfg, run, more);
    var s' := Exec(cfg, Exec(cfg, Init(), run), more);
    OneParticipantCommit(s'.g, rootKey, participant, rc, i);
  }

  // ------------------------------------------------------------------
  // Different root keys
  // ------------------------------------------------------------------

  lemma ParticipantKeyParts(key: string, d: Domain)
    ensures var (k, name) := (ParticipantKey(key, d), DomainName(d));
            && |k| == |key| + |name| + 6 && k[5..|k| - |name| - 1] == key && k[|k| - 1] == name[|name| - 1]
  {
    var (k, name) := (ParticipantKey(key, d), DomainName(d));
    assert k == ("root:" + key) + (":" + name);
    assert k[..5 + |key|] == "root:" + key;
  }

  /** The key a participant runs under tells the root key and the domain apart. */
  lemma ParticipantKeyIsInjective(key1: string, d1: Domain, key2: string, d2: Domain)
    requires ParticipantKey(key1, d1) == ParticipantKey(key2, d2)
    ensures key1 == key2 && d1 == d2
  {
    ParticipantKeyParts(key1, d1);
    ParticipantKeyParts(key2, d2);
  }

  /** Every commit a root receipt reports is of a transaction claimed under the key derived from the root's own. */
  lemma CommitsAreClaimedForTheRoot(cfg: Config, run: seq<Action>, rc: Receipt, i: nat)
    requires rc in Exec(cfg, Init(), run).g.proposals && rc.RootReceipt? && i < |rc.domainCommits|
    ensures var g := Exec(cfg, Init(), run).g;
            var commit := rc.domainCommits[i];
            && rc.txId in g.owners
            && ClaimedKey(g, commit.txId, commit.domain, ParticipantKey(g.owners[rc.txId].key, commit.domain))
  {
    Reached(cfg, run, []);
    var g := Exec(cfg, Init(), run).g;
    assert ReceiptOk(g, rc);
    assert ParticipantVisible(g, g.owners[rc.txId].key, rc.domainCommits[i]);
  }

  /** In every run, root receipts claimed under different root keys report no common participant transaction. */
  lemma RootsShareNoParticipant(cfg: Config, run: seq<Action>, rc1: Receipt, rc2: Receipt, i: nat, j: nat)
    requires var g := Exec(cfg, Init(), run).g;
             && rc1 in g.proposals && rc1.RootReceipt? && rc1.txId in g.owners && i < |rc1.domainCommits|
             && rc2 in g.proposals && rc2.RootReceipt? && rc2.txId in g.owners && j < |rc2.domainCommits|
             && g.owners[rc1.txId].key != g.owners[rc2.txId].key
    ensures rc1.domainCommits[i].txId != rc2.domainCommits[j].txId
  {
    CommitsAreClaimedForTheRoot(cfg, run, rc1, i);
    CommitsAreClaimedForTheRoot(cfg, run, rc2, j);
    var g := Exec(cfg, Init(), run).g;
    var (c1, c2) := (rc1.domainCommits[i], rc2.domainCommits[j]);
    if c1.txId == c2.txId {
      ParticipantKeyIsInjective(g.owners[rc1.txId].key, c1.domain, g.owners[rc2.txId].key, c2.domain);
    }
  }

  // ------------------------------------------------------------------
  // Who runs the catalog writer
  // ------------------------------------------------------------------

  /** A caller of a visible key that is not working yet never gets to: its claim is refused. */
  lemma ClaimIsRefused(cfg: Config, g: Shared, pid: nat, p: Proc, t: TxId, c: Choice)
    requires p.domain == Catalog && MarkerVisible(g, p.domain, p.key, t) && PcOk(g, pid, p, p.pc) && !p.pc.Working?
    ensures !Advance(cfg, g, pid, p, c).1.Working?
  {
  }

  /**
   Callers of the catalog key outside `working` have not started to work, and ran no
   catalog writer since `applied0` entries.
   */
  predicate NobodyElseWorks(s: State, working: set<nat>, applied0: nat, key: string) {
    && (forall q :: q in s.procs && q !in working && s.procs[q].domain == Catalog && s.procs[q].key == key ==>
          !s.procs[q].pc.Working?)
    && applied0 <= |s.g.applied|
    && (forall i :: applied0 <= i < |s.g.applied| ==>
          var q := s.g.applied[i];
          q in s.procs && (q in working || s.procs[q].domain != Catalog || s.procs[q].key != key))
  }

  lemma WorkApplies(cfg: Config, g: Shared, pid: nat, p: Proc, pc: WorkPc, c: Choice)
    ensures var g' := AdvanceWork(cfg, g, pid, p, pc, c).0; g'.applied == g.applied || g'.applied == g.applied + [pid]
  {
  }

  lemma AppliedGrows(cfg: Config, g: Shared, pid: nat, p: Proc, c: Choice)
    ensures var g' := Advance(cfg, g, pid, p, c).0;
            g'.applied == g.applied || (g'.applied == g.applied + [pid] && p.pc.Working?)
  {
    if p.pc.Working? {
      WorkApplies(cfg, g, pid, p, p.pc.work, c);
    }
  }

  /** Only root transactions wait for participants. */
  lemma RootsHaveParticipants(s: State, pid: nat)
    requires Inv(s) && pid in s.procs && (StartsChild(s.procs[pid]) || AwaitsChild(s.procs[pid]))
    ensures s.procs[pid].domain == Root
  {
    assert WorkOk(s.g, pid, s.procs[pid], s.procs[pid].pc.work);
  }

  lemma StepWorks(cfg: Config, s: State, working: set<nat>, applied0: nat, key: string, t: TxId, pid: nat, c: Choice)
    requires pid in s.procs && PcOk(s.g, pid, s.procs[pid], s.procs[pid].pc)
    requires !StartsChild(s.procs[pid]) && !AwaitsChild(s.procs[pid])
    requires MarkerVisible(s.g, Catalog, key, t) && NobodyElseWorks(s, working, applied0, key)
    ensures NobodyElseWorks(StepProcess(cfg, s, pid, s.procs[pid], c), working, applied0, key)
  {
    var p := s.procs[pid];
    AppliedGrows(cfg, s.g, pid, p, c);
    if pid !in working && p.domain == Catalog && p.key == key {
      ClaimIsRefused(cfg, s.g, pid, p, t, c);
    }
  }

  /** Participants are started and joined by root transactions, which run no catalog writer. */
  lemma ParticipantWorks(cfg: Config, s: State, working: set<nat>, applied0: nat, key: string, pid: nat, c: Choice)
    requires pid in s.procs && s.procs[pid].domain == Root && NobodyElseWorks(s, working, applied0, key)
    requires StartsChild(s.procs[pid]) || AwaitsChild(s.procs[pid])
    ensures NobodyElseWorks(StepProcess(cfg, s, pid, s.procs[pid], c), working, applied0, key)
  {
  }

  lemma NextWorks(cfg: Config, s: State, working: set<nat>, applied0: nat, key: string, t: TxId, a: Action)
    requires Inv(s) && MarkerVisible(s.g, Catalog, key, t) && NobodyElseWorks(s, working, applied0, key)
    ensures NobodyElseWorks(Next(cfg, s, a), working, applied0, key)
  {
    if a.Step? && a.pid in s.procs {
      if StartsChild(s.procs[a.pid]) || AwaitsChild(s.procs[a.pid]) {
        RootsHaveParticipants(s, a.pid);
        ParticipantWorks(cfg, s, working, applied0, key, a.pid, a.choice);
      } else {
        assert ProcOk(s.g, a.pid, s.procs[a.pid]);
        StepWorks(cfg, s, working, applied0, key, t, a.pid, a.choice);
      }
    }
  }

  lemma {:induction false} RunWorks(cfg: Config, s: State, run: seq<Action>, working: set<nat>, applied0: nat,
                                    key: string, t: TxId)
    requires Inv(s) && MarkerVisible(s.g, Catalog, key, t) && NobodyElseWorks(s, working, applied0, key)
    ensures NobodyElseWorks(Exec(cfg, s, run), working, applied0, key)
    decreases |run|
  {
    if run != [] {
      NextKeepsInv(cfg, s, run[0]);
      NextWorks(cfg, s, working, applied0, key, t, run[0]);
      RunWorks(cfg, Next(cfg, s, run[0]), run[1..], working, applied0, key, t);
    }
  }

  /**
   Once a catalog key is visible, only a caller that was already working then can still
   run the catalog writer for it.  A call that was merely claiming, or that starts
   afterwards, such as the participant of a root retry, never does.
   */
  lemma MutationIsNotAppliedAgain(cfg: Config, run: seq<Action>, more: seq<Action>, key: string, t: TxId, i: nat)
    requires MarkerVisible(Exec(cfg, Init(), run).g, Catalog, key, t)
    requires var s := Exec(cfg, Init(), run); |s.g.applied| <= i < |Exec(cfg, s, more).g.applied|
    ensures var s := Exec(cfg, Init(), run);
            var s' := Exec(cfg, s, more);
            var q := s'.g.applied[i];
            q in s'.procs
            && (s'.procs[q].domain == Catalog && s'.procs[q].key == key ==> q in s.procs && s.procs[q].pc.Working?)
  {
    Reached(cfg, run, more);
    var s := Exec(cfg, Init(), run);
    var working := set q | q in s.procs && s.procs[q].pc.Working?;
    RunWorks(cfg, s, more, working, |s.g.applied|, key, t);
  }

  // ------------------------------------------------------------------
  // When the mutation is applied again
  // ------------------------------------------------------------------

  /** Process `q` is a caller of the catalog key. */
  predicate CatalogCaller(s: State, q: nat, key: string) {
    q in s.procs && s.procs[q].domain == Catalog && s.procs[q].key == key
  }

  /** Between `s` and `s'` a caller of the catalog key ran the catalog writer. */
  ghost predicate Reapplied(s: State, s': State, key: string) {
    exists i :: |s.g.applied| <= i < |s'.g.applied| && CatalogCaller(s', s'.g.applied[i], key)
  }

  function WriterFails(): Choice { Choice(0, "", NoFault, DefiniteFailure, true, 0) }

  lemma WorkRunsWriter(cfg: Config, s: State, q: nat, key: string)
    requires CatalogCaller(s, q, key) && s.procs[q].pc.Working? && s.procs[q].pc.work.Work?
    ensures Reapplied(s, Next(cfg, s, Step(q, WriterFails())), key)
  {
    var s' := Next(cfg, s, Step(q, WriterFails()));
    assert s'.g.applied[|s.g.applied|] == q;
  }

  /** A caller that has claimed its key still runs the writer, whatever the key's marker says by now. */
  lemma WorkingCallerApplies(cfg: Config, s: State, q: nat, key: string) returns (more: seq<Action>)
    requires Inv(s) && RecordsFollow(s) && CatalogCaller(s, q, key) && s.procs[q].pc.Working?
    ensures Reapplied(s, Exec(cfg, s, more), key)
  {
    assert ProcOk(s.g, q, s.procs[q]) && Tied(s.g, q, s.procs[q]);
    var step := Step(q, WriterFails());
    if s.procs[q].pc.work.Work? {
      more := [step];
      WorkRunsWriter(cfg, s, q, key);
      assert Exec(cfg, s, more) == Next(cfg, s, step);
    } else {
      more := [step, step];
      var s1 := Next(cfg, s, step);
      WorkRunsWriter(cfg, s1, q, key);
      assert more[1..] == [step] && Exec(cfg, s1, [step]) == Next(cfg, s1, step);
    }
  }

  ghost predicate SomebodyWorks(s: State, key: string) {
    exists q :: CatalogCaller(s, q, key) && s.procs[q].pc.Working?
  }

  ghost predicate MayBeReapplied(cfg: Config, s: State, key: string) {
    exists more :: Reapplied(s, Exec(cfg, s, more), key)
  }

  lemma ReappliedByAWorker(cfg: Config, run: seq<Action>, more: seq<Action>, key: string, t: TxId)
    requires MarkerVisible(Exec(cfg, Init(), run).g, Catalog, key, t)
    requires var s := Exec(cfg, Init(), run); Reapplied(s, Exec(cfg, s, more), key)
    ensures SomebodyWorks(Exec(cfg, Init(), run), key)
  {
    var s := Exec(cfg, Init(), run);
    var s' := Exec(cfg, s, more);
    var i :| |s.g.applied| <= i < |s'.g.applied| && CatalogCaller(s', s'.g.applied[i], key);
    MutationIsNotAppliedAgain(cfg, run, more, key, t, i);
    Reached(cfg, run, more);
    assert CatalogCaller(s, s'.g.applied[i], key);
  }

  /**
   Once a catalog key is visible, the catalog writer may still run for it exactly when some
   caller of the key had already claimed it and not finished its work.
   */
  lemma MutationIsAppliedAgainIff(cfg: Config, run: seq<Action>, key: string, t: TxId)
    requires MarkerVisible(Exec(cfg, Init(), run).g, Catalog, key, t)
    ensures var s := Exec(cfg, Init(), run); MayBeReapplied(cfg, s, key) <==> SomebodyWorks(s, key)
  {
    var s := Exec(cfg, Init(), run);
    if SomebodyWorks(s, key) {
      Follow(cfg, run);
      var q :| CatalogCaller(s, q, key) && s.procs[q].pc.Working?;
      var more := WorkingCallerApplies(cfg, s, q, key);
    }
    if MayBeReapplied(cfg, s, key) {
      var more :| Reapplied(s, Exec(cfg, s, more), key);
      ReappliedByAWorker(cfg, run, more, key, t);
    }
  }
}

/**
 What is reported and what is stored: every receipt of a run reports a commit that its
 transaction's own work returned, and publishing it, left alone, stores exactly that receipt
 in marker and record if the key still belongs to the transaction, and nothing if not.
 */
module TransactionReceipts {
  import opened ObjectStore
  import opened TransactionTypes
  import opened TransactionSteps
  import opened TransactionInvariant
  import opened TransactionTheorems
  import opened TransactionReplay
  import opened TransactionClaims

  // ------------------------------------------------------------------
  // Where receipts come from
  // ------------------------------------------------------------------

  /** Receipt `rc` reports what the step of `p` with choice `c` committed. */
  predicate Reports(p: Proc, c: Choice, rc: Receipt) {
    match rc
    case CatalogReceipt(t, eventId, commitId, manifestId, snapshotVersion, pointerVersion, readToken, visibleAt) =>
      && p.domain == Catalog && p.pc == Working(Work(t)) && c.ok && c.work.Committed? && visibleAt == c.now
      && eventId == c.work.eventId && commitId == c.work.commitId && manifestId == c.work.manifestId
      && snapshotVersion == c.work.snapshotVersion && pointerVersion == c.work.pointerVersion
      && readToken == "catalog:" + c.work.manifestId
    case OrchestrationReceipt(t, commitId, manifestId, revision, deltaId, pointerVersion, events, readToken,
                              visibleAt) =>
      && p.domain == Orchestration && (p.pc == Working(Work(t)) || p.pc == Working(RepairWork(t)))
      && c.work.Committed? && visibleAt == c.now
      && commitId == c.work.commitId && manifestId == c.work.manifestId && revision == c.work.revision
      && deltaId == c.work.deltaId && pointerVersion == c.work.pointerVersion && events == c.work.eventsProcessed
      && readToken == "orchestration:" + c.work.manifestId
    case RootReceipt(t, rootCommitId, superManifestPath, domainCommits, readToken, visibleAt) =>
      && p.domain == Root && p.pc.Working? && p.pc.work.RootLoop? && p.pc.work.tx == t
      && p.pc.work.commits == domainCommits && |domainCommits| == |p.mutations|
      && rootCommitId == c.freshId && readToken == "root:" + t && visibleAt == c.now
  }

  /** Whether a receipt built by `p` is published as needing repair: a root inherits it from its participants. */
  predicate NeedsRepair(p: Proc, c: Choice)
    requires p.domain == Root ==> p.pc.Working? && p.pc.work.RootLoop?
    requires p.domain != Root ==> c.work.Committed?
  {
    if p.domain == Root then p.pc.work.repair else c.work.repairPending
  }

  /** The step `a` in `s` builds receipt `rc`, and its caller goes on to publish it. */
  predicate Builds(cfg: Config, s: State, a: Action, rc: Receipt) {
    && a.Step? && a.pid in s.procs && Reports(s.procs[a.pid], a.choice, rc)
    && var s' := Next(cfg, s, a);
    && a.pid in s'.procs
    && s'.procs[a.pid].pc == Recording(LoadHead(Finalize(rc, NeedsRepair(s.procs[a.pid], a.choice)), rc.txId))
  }

  ghost predicate BuiltAt(cfg: Config, run: seq<Action>, k: nat, rc: Receipt) {
    k < |run| && Builds(cfg, Exec(cfg, Init(), run[..k]), run[k], rc)
  }

  lemma WorkReports(cfg: Config, g: Shared, pid: nat, p: Proc, pc: WorkPc, c: Choice, rc: Receipt)
    requires p.pc == Working(pc) && WorkOk(g, pid, p, pc) && !StartsChild(p)
    requires rc in AdvanceWork(cfg, g, pid, p, pc, c).0.proposals && rc !in g.proposals
    ensures Reports(p, c, rc)
    ensures AdvanceWork(cfg, g, pid, p, pc, c).1 == Recording(LoadHead(Finalize(rc, NeedsRepair(p, c)), rc.txId))
  {
  }

  lemma ClaimReportsNothing(cfg: Config, g: Shared, pid: nat, p: Proc, pc: ClaimPc, c: Choice)
    ensures AdvanceClaim(cfg, g, pid, p, pc, c).0.proposals == g.proposals
  {
  }

  lemma PersistReportsNothing(cfg: Config, g: Shared, p: Proc, pub: Publication, pc: PersistPc, c: Choice)
    ensures AdvancePersist(cfg, g, p, pub, pc, c).0.proposals == g.proposals
  {
  }

  lemma LoadReportsNothing(cfg: Config, g: Shared, p: Proc, pc: RecordPc, c: Choice)
    ensures AdvanceRecord(cfg, g, p, pc, c).0.proposals == g.proposals
  {
  }

  lemma OthersReportNothing(cfg: Config, g: Shared, pid: nat, p: Proc, c: Choice)
    requires !p.pc.Working?
    ensures Advance(cfg, g, pid, p, c).0.proposals == g.proposals
  {
    match p.pc
    case Claiming(pc) => ClaimReportsNothing(cfg, g, pid, p, pc, c);
    case Persisting(pub, pc) => PersistReportsNothing(cfg, g, p, pub, pc, c);
    case Recording(pc) => LoadReportsNothing(cfg, g, p, pc, c);
    case _ =>
  }

  lemma NewReceiptReports(cfg: Config, s: State, a: Action, rc: Receipt)
    requires Inv(s) && rc in Next(cfg, s, a).g.proposals && rc !in s.g.proposals
    ensures Builds(cfg, s, a, rc)
  {
    if a.Step? && a.pid in s.procs {
      var p := s.procs[a.pid];
      assert ProcOk(s.g, a.pid, p);
      if p.pc.Working? {
        WorkReports(cfg, s.g, a.pid, p, p.pc.work, a.choice, rc);
      } else {
        OthersReportNothing(cfg, s.g, a.pid, p, a.choice);
      }
    }
  }

  /**
   In every run, every receipt reports in all its fields a commit that was returned, at some
   earlier moment of the run, to a caller working on the receipt's own transaction, and that
   caller went on to publish it.
   */
  lemma {:induction false} ReceiptsReportCommits(cfg: Config, run: seq<Action>, rc: Receipt) returns (k: nat)
    requires rc in Exec(cfg, Init(), run).g.proposals
    ensures BuiltAt(cfg, run, k, rc)
    decreases |run|
  {
    assert run != [];
    var n := |run| - 1;
    ExecSnoc(cfg, Init(), run[..n], run[n]);
    assert run[..n] + [run[n]] == run;
    var before := Exec(cfg, Init(), run[..n]);
    if rc in before.g.proposals {
      k := ReceiptsReportCommits(cfg, run[..n], rc);
      assert run[..n][..k] == run[..k];
    } else {
      Reached(cfg, run[..n], []);
      NewReceiptReports(cfg, before, run[n], rc);
      k := n;
    }
  }

  /** A catalog mutation is run in the catalog, an orchestration mutation in orchestration, each under its own hash. */
  predicate Fits(m: Mutation, d: Domain, hash: string) {
    match m
    case CatalogMutation(h) => d == Catalog && hash == h
    case OrchestrationMutation(h) => d == Orchestration && hash == h
    case MetastoreMutation => false
  }

  /**
   `commits` answer the mutations `ms` of a root request with key `key`, one for one and in
   order: each is the visible outcome of a transaction of the mutation's domain, claimed under
   the participant key of that root, and for the mutation's own hash unless batches of its
   domain are repaired.
   */
  ghost predicate AnswersRequest(g: Shared, key: string, ms: seq<Mutation>, commits: seq<DomainCommit>) {
    && |commits| == |ms|
    && forall i :: 0 <= i < |ms| ==>
         && Fits(ms[i], commits[i].domain, MutationHash(ms[i]))
         && Settled(g, commits[i].domain, ParticipantKey(key, commits[i].domain), commits[i].txId)
         && ClaimedKey(g, commits[i].txId, commits[i].domain, ParticipantKey(key, commits[i].domain))
         && (MayRepair(g, commits[i].domain) || Fits(ms[i], commits[i].domain, g.owners[commits[i].txId].hash))
  }

  lemma ProgressAnswers(g: Shared, p: Proc, commits: seq<DomainCommit>, refs: map<Domain, ManifestRef>)
    requires RootProgress(g, p, commits, refs) && |commits| == |p.mutations|
    ensures AnswersRequest(g, p.key, p.mutations, commits)
  {
    forall i | 0 <= i < |commits|
      ensures ParticipantVisible(g, p.key, commits[i])
      ensures Fits(p.mutations[i], commits[i].domain, MutationHash(p.mutations[i]))
    {
      assert p.mutations[i] in p.mutations;
    }
  }

  /** Every root receipt of a run answers, mutation by mutation, the request of the root caller that built it. */
  lemma RootReceiptsAnswerRequests(cfg: Config, run: seq<Action>, rc: Receipt) returns (k: nat)
    requires rc in Exec(cfg, Init(), run).g.proposals && rc.RootReceipt?
    ensures BuiltAt(cfg, run, k, rc)
    ensures var s := Exec(cfg, Init(), run[..k]);
            var p := s.procs[run[k].pid];
            && ClaimedFor(s.g, rc.txId, Root, p.key, p.hash)
            && AnswersRequest(s.g, p.key, p.mutations, rc.domainCommits)
  {
    k := ReceiptsReportCommits(cfg, run, rc);
    var s := Exec(cfg, Init(), run[..k]);
    Reached(cfg, run[..k], []);
    var (pid, p) := (run[k].pid, s.procs[run[k].pid]);
    assert ProcOk(s.g, pid, p);
    ProgressAnswers(s.g, p, rc.domainCommits, p.pc.work.refs);
  }

  // ------------------------------------------------------------------
  // Publishing alone
  // ------------------------------------------------------------------

  /** A caller that has built receipt `rc` for `t` and is about to publish it. */
  predicate AboutToPublish(g: Shared, p: Proc, t: TxId, rc: Receipt, repair: bool) {
    && p.pc == Recording(LoadHead(Finalize(rc, repair), t)) && rc.txId == t
    && (p.domain, t) in g.records.objects && g.records.objects[(p.domain, t)].body.txId == t
    && (p.domain, p.key) in g.markers.objects
  }

  /** The record of `t` as published: visible, with the receipt, its time and its repair flag. */
  function PublishedRecord(r: Record, rc: Receipt, repair: bool): Record {
    Record(r.txId, r.kind, Visible, repair, r.key, r.hash, r.preparedAt, Some(rc.visibleAt), None, Some(rc))
  }

  predicate StillOwns(g: Shared, p: Proc, t: TxId)
    requires (p.domain, t) in g.records.objects && (p.domain, p.key) in g.markers.objects
  {
    var m := g.markers.objects[(p.domain, p.key)].body;
    m.txId == t && m.hash == g.records.objects[(p.domain, t)].body.hash
  }

  lemma ReadsOwnRecord(cfg: Config, s: State, g: Shared, pid: nat, p: Proc, t: TxId, rc: Receipt, repair: bool,
                       cs: seq<Choice>)
    requires (p.domain, t) in g.records.objects && Faultless(cs) && |cs| >= 2
    requires p.pc == Recording(LoadGet(Finalize(rc, repair), t, g.records.objects[(p.domain, t)].version))
    ensures var o := g.records.objects[(p.domain, t)];
            var pub := Publication(Owner, rc, PublishedRecord(o.body, rc, repair), o.version);
            Solo(cfg, With(s, g, pid, p), pid, cs, 1)
            == Solo(cfg, With(s, g, pid, p.(pc := Persisting(pub, PersistHead))), pid, cs, 2)
  {
    SoloStep(cfg, s, g, pid, p, cs, 1);
  }

  lemma LoadsOwnRecord(cfg: Config, s: State, g: Shared, pid: nat, p: Proc, t: TxId, rc: Receipt, repair: bool,
                       cs: seq<Choice>)
    requires AboutToPublish(g, p, t, rc, repair) && Faultless(cs) && |cs| >= 3
    ensures var o := g.records.objects[(p.domain, t)];
            var pub := Publication(Owner, rc, PublishedRecord(o.body, rc, repair), o.version);
            var v := g.markers.objects[(p.domain, p.key)].version;
            Solo(cfg, With(s, g, pid, p), pid, cs, 0)
            == Solo(cfg, With(s, g, pid, p.(pc := Persisting(pub, PersistGet(v)))), pid, cs, 3)
  {
    var o := g.records.objects[(p.domain, t)];
    var pub := Publication(Owner, rc, PublishedRecord(o.body, rc, repair), o.version);
    SoloStep(cfg, s, g, pid, p, cs, 0);
    ReadsOwnRecord(cfg, s, g, pid, p.(pc := Recording(LoadGet(Finalize(rc, repair), t, o.version))), t, rc, repair, cs);
    SoloStep(cfg, s, g, pid, p.(pc := Persisting(pub, PersistHead)), cs, 2);
  }

  /** The key still belongs to the transaction: the marker is written ... */
  lemma WritesOwnMarker(cfg: Config, s: State, g: Shared, g': Shared, pid: nat, p: Proc, pub: Publication,
                        cs: seq<Choice>)
    requires Faultless(cs) && |cs| == 7 && (p.domain, p.key) in g.markers.objects
    requires p.pc == Persisting(pub, PersistGet(g.markers.objects[(p.domain, p.key)].version))
    requires var m := g.markers.objects[(p.domain, p.key)].body;
             && m.txId == pub.record.txId && m.hash == pub.record.hash
             && g' == g.(markers := Write(g.markers, (p.domain, p.key),
                                          m.(visibleAt := pub.record.visibleAt, txRecord := Some(pub.record))))
    ensures Solo(cfg, With(s, g, pid, p), pid, cs, 3)
            == Solo(cfg, With(s, g', pid, p.(pc := Persisting(pub, PersistRecord))), pid, cs, 5)
  {
    var o := g.markers.objects[(p.domain, p.key)];
    SoloStep(cfg, s, g, pid, p, cs, 3);
    WritesMarker(cfg, s, g, g', pid, p.(pc := Persisting(pub, PersistMarker(o.version, o.body))), cs, o.body, pub, 4);
  }

  /** ... and the record, and the receipt is answered. */
  lemma WritesOwnRecord(cfg: Config, s: State, g: Shared, pid: nat, p: Proc, pub: Publication, cs: seq<Choice>)
    requires Faultless(cs) && |cs| == 7 && cs[6].ok && pub.who == Owner && p.pc == Persisting(pub, PersistRecord)
    requires (p.domain, pub.record.txId) in g.records.objects
    requires g.records.objects[(p.domain, pub.record.txId)].version == pub.recordVersion
    ensures var g' := g.(records := Write(g.records, (p.domain, pub.record.txId), pub.record));
            Solo(cfg, With(s, g, pid, p), pid, cs, 5)
            == With(s, g', pid, p.(pc := Done(pub.receipt, pub.record.repairPending)))
  {
    var g' := g.(records := Write(g.records, (p.domain, pub.record.txId), pub.record));
    SoloStep(cfg, s, g, pid, p, cs, 5);
    if p.domain == Root {
      SoloStep(cfg, s, g', pid, p.(pc := Recording(RootAudit(pub.receipt, pub.record.repairPending))), cs, 6);
    }
    SoloDone(cfg, s, g', pid, p.(pc := Done(pub.receipt, pub.record.repairPending)), cs,
             if p.domain == Root then 7 else 6);
  }

  /** The key belongs to another transaction: the caller fails, and a root transaction aborts its record. */
  lemma LosesKeyAlone(cfg: Config, s: State, g: Shared, pid: nat, p: Proc, pub: Publication, cs: seq<Choice>)
    requires Faultless(cs) && |cs| == 7 && (p.domain, p.key) in g.markers.objects && pub.who == Owner
    requires p.pc == Persisting(pub, PersistGet(g.markers.objects[(p.domain, p.key)].version))
    requires var m := g.markers.objects[(p.domain, p.key)].body; m.txId != pub.record.txId || m.hash != pub.record.hash
    requires pub.receipt.txId == pub.record.txId && (p.domain, pub.record.txId) in g.records.objects
    requires g.records.objects[(p.domain, pub.record.txId)].body.status != Visible
    ensures var t := pub.record.txId;
            var r := AbortedRecord(g.records.objects[(p.domain, t)].body);
            var g' := if p.domain == Root then g.(records := Write(g.records, (p.domain, t), r)) else g;
            Solo(cfg, With(s, g, pid, p), pid, cs, 3) == With(s, g', pid, p.(pc := Failed))
  {
    SoloStep(cfg, s, g, pid, p, cs, 3);
    if p.domain == Root {
      AbortsAlone(cfg, s, g, pid, p.(pc := Recording(LoadHead(Abort, pub.record.txId))), pub.record.txId, cs, 4);
    } else {
      SoloDone(cfg, s, g, pid, p.(pc := Failed), cs, 4);
    }
  }

  /** Marker and record carry the receipt, and everything else about them is as it was. */
  predicate StoresReceipt(g: Shared, g': Shared, p: Proc, t: TxId, rc: Receipt, repair: bool)
    requires (p.domain, t) in g.records.objects && (p.domain, p.key) in g.markers.objects
  {
    var r := PublishedRecord(g.records.objects[(p.domain, t)].body, rc, repair);
    var m := g.markers.objects[(p.domain, p.key)].body;
    && (p.domain, t) in g'.records.objects && g'.records.objects[(p.domain, t)].body == r
    && (p.domain, p.key) in g'.markers.objects
    && g'.markers.objects[(p.domain, p.key)].body == m.(visibleAt := Some(rc.visibleAt), txRecord := Some(r))
  }

  lemma PublishesOwnKey(cfg: Config, s: State, pid: nat, p: Proc, t: TxId, rc: Receipt, repair: bool, cs: seq<Choice>)
    requires pid in s.procs && s.procs[pid] == p && AboutToPublish(s.g, p, t, rc, repair) && StillOwns(s.g, p, t)
    requires Faultless(cs) && |cs| == 7 && cs[6].ok
    ensures var s' := Solo(cfg, s, pid, cs, 0);
            pid in s'.procs && s'.procs[pid].pc == Done(rc, repair) && StoresReceipt(s.g, s'.g, p, t, rc, repair)
  {
    var (g, o) := (s.g, s.g.records.objects[(p.domain, t)]);
    var m := g.markers.objects[(p.domain, p.key)];
    var pub := Publication(Owner, rc, PublishedRecord(o.body, rc, repair), o.version);
    assert s.procs[pid := p] == s.procs && With(s, g, pid, p) == s;
    LoadsOwnRecord(cfg, s, g, pid, p, t, rc, repair, cs);
    var m' := m.body.(visibleAt := pub.record.visibleAt, txRecord := Some(pub.record));
    var g' := g.(markers := Write(g.markers, (p.domain, p.key), m'));
    WritesOwnMarker(cfg, s, g, g', pid, p.(pc := Persisting(pub, PersistGet(m.version))), pub, cs);
    WritesOwnRecord(cfg, s, g', pid, p.(pc := Persisting(pub, PersistRecord)), pub, cs);
  }

  /** The caller fails and no marker changes; of the records only a root's own does, to aborted. */
  predicate GivesUp(s: State, s': State, pid: nat, d: Domain, t: TxId) {
    && pid in s'.procs && s'.procs[pid].pc == Failed && s'.g.markers == s.g.markers
    && (d != Root ==> s'.g.records == s.g.records)
    && (d, t) in s'.g.records.objects
    && (d == Root ==> s'.g.records.objects[(Root, t)].body.status == Aborted)
  }

  lemma GivesUpKey(cfg: Config, s: State, pid: nat, p: Proc, t: TxId, rc: Receipt, repair: bool, cs: seq<Choice>)
    requires pid in s.procs && s.procs[pid] == p && AboutToPublish(s.g, p, t, rc, repair) && !StillOwns(s.g, p, t)
    requires Faultless(cs) && |cs| == 7 && s.g.records.objects[(p.domain, t)].body.status != Visible
    ensures GivesUp(s, Solo(cfg, s, pid, cs, 0), pid, p.domain, t)
  {
    var (g, o) := (s.g, s.g.records.objects[(p.domain, t)]);
    var m := g.markers.objects[(p.domain, p.key)];
    var pub := Publication(Owner, rc, PublishedRecord(o.body, rc, repair), o.version);
    assert s.procs[pid := p] == s.procs && With(s, g, pid, p) == s;
    LoadsOwnRecord(cfg, s, g, pid, p, t, rc, repair, cs);
    LosesKeyAlone(cfg, s, g, pid, p.(pc := Persisting(pub, PersistGet(m.version))), pub, cs);
  }

  /**
   A caller about to publish a receipt, stepped alone and without faults: if its key still
   belongs to its transaction it is answered, and marker and record carry the receipt with its
   time and repair flag; otherwise it fails, no marker changes, and only the record of a root
   transaction does, to aborted.
   */
  lemma PublishAlone(cfg: Config, s: State, pid: nat, p: Proc, t: TxId, rc: Receipt, repair: bool, cs: seq<Choice>)
    requires pid in s.procs && s.procs[pid] == p && AboutToPublish(s.g, p, t, rc, repair)
    requires Faultless(cs) && |cs| == 7 && cs[6].ok
    requires s.g.records.objects[(p.domain, t)].body.status != Visible
    ensures var s' := Solo(cfg, s, pid, cs, 0);
            if StillOwns(s.g, p, t)
            then pid in s'.procs && s'.procs[pid].pc == Done(rc, repair) && StoresReceipt(s.g, s'.g, p, t, rc, repair)
            else GivesUp(s, s', pid, p.domain, t)
  {
    if StillOwns(s.g, p, t) {
      PublishesOwnKey(cfg, s, pid, p, t, rc, repair, cs);
    } else {
      GivesUpKey(cfg, s, pid, p, t, rc, repair, cs);
    }
  }
}

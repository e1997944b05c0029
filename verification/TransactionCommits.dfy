/**
 Whole requests: a caller of a catalog or orchestration key that is new, or whose last claim
 has expired, left alone with a writer that commits, is answered with a receipt of that
 commit, and marker and record carry it.
 */
module TransactionCommits {
  import opened ObjectStore
  import opened TransactionTypes
  import opened TransactionSteps
  import opened TransactionInvariant
  import opened TransactionTheorems
  import opened TransactionReplay
  import opened TransactionClaims
  import opened TransactionReceipts

  /** The writer commits, and the catalog's commit has its manifest stored. */
  predicate WorkCommits(g: Shared, d: Domain, c: Choice) {
    && c.work.Committed? && d != Root
    && (d == Catalog ==> c.ok && CatalogManifestPath(c.work.manifestId) in g.manifests)
  }

  /** The marker, claimed at `claimed`, and the record, prepared at `prepared`, carry receipt `rc`. */
  predicate Carries(g: Shared, p: Proc, t: TxId, claimed: int, prepared: int, rc: Receipt, repair: bool) {
    var (d, kind) := (p.domain, KindOf(p.domain));
    var r := Record(t, kind, Visible, repair, p.key, p.hash, prepared, Some(rc.visibleAt), None, Some(rc));
    && (d, t) in g.records.objects && g.records.objects[(d, t)].body == r
    && (d, p.key) in g.markers.objects
    && g.markers.objects[(d, p.key)].body == Marker(t, kind, p.key, p.hash, claimed, Some(rc.visibleAt), Some(r))
  }

  /** The caller is answered with a receipt of the commit that `c` brought, and marker and record carry it. */
  predicate Answered(s: State, pid: nat, p: Proc, t: TxId, claimed: int, prepared: int, c: Choice, rc: Receipt) {
    && c.work.Committed? && Reports(p.(pc := Working(Work(t))), c, rc)
    && pid in s.procs && s.procs[pid].pc == Done(rc, c.work.repairPending)
    && Carries(s.g, p, t, claimed, prepared, rc, c.work.repairPending)
  }

  /** A caller that owns its key prepares, works and has a receipt to publish. */
  lemma WorksAlone(cfg: Config, s: State, pid: nat, p: Proc, t: TxId, cs: seq<Choice>) returns (s': State, rc: Receipt)
    requires pid in s.procs && s.procs[pid] == p && p.pc == Working(StorePrepared(t))
    requires (p.domain, t) !in s.g.records.objects && Faultless(cs) && |cs| == 2 && WorkCommits(s.g, p.domain, cs[1])
    ensures s' == Solo(cfg, s, pid, cs, 0) && Reports(p.(pc := Working(Work(t))), cs[1], rc) && rc.txId == t
    ensures pid in s'.procs && s'.procs[pid] == p.(pc := Recording(LoadHead(Finalize(rc, cs[1].work.repairPending), t)))
    ensures s'.g.markers == s.g.markers
    ensures s'.g.records == Write(s.g.records, (p.domain, t), PreparedRecord(p, t, cs[0].now))
  {
    assert With(s, s.g, pid, p) == s by { assert s.procs[pid := p] == s.procs; }
    var g1 := s.g.(records := Write(s.g.records, (p.domain, t), PreparedRecord(p, t, cs[0].now)));
    var p1 := p.(pc := Working(Work(t)));
    SoloStep(cfg, s, s.g, pid, p, cs, 0);
    SoloStep(cfg, s, g1, pid, p1, cs, 1);
    var (g2, pc2) := Advance(cfg, g1, pid, p1, cs[1]);
    s' := With(s, g2, pid, p1.(pc := pc2));
    rc := pc2.load.purpose.receipt;
  }

  /** A caller that owns its key, left alone with a writer that commits, is answered. */
  lemma OwnerIsAnswered(cfg: Config, s: State, pid: nat, p: Proc, t: TxId, claimed: int, cs: seq<Choice>)
    returns (rc: Receipt)
    requires pid in s.procs && s.procs[pid] == p && p.pc == Working(StorePrepared(t))
    requires (p.domain, p.key) in s.g.markers.objects && (p.domain, t) !in s.g.records.objects
    requires s.g.markers.objects[(p.domain, p.key)].body
             == Marker(t, KindOf(p.domain), p.key, p.hash, claimed, None, None)
    requires Faultless(cs) && |cs| == 9 && cs[8].ok && WorkCommits(s.g, p.domain, cs[1])
    ensures Answered(Solo(cfg, s, pid, cs, 0), pid, p, t, claimed, cs[0].now, cs[1], rc)
  {
    SoloSplits(cfg, s, pid, cs, 2, 0);
    var s1;
    s1, rc := WorksAlone(cfg, s, pid, p, t, cs[..2]);
    PublishAlone(cfg, s1, pid, s1.procs[pid], t, rc, cs[1].work.repairPending, cs[2..]);
  }

  lemma RecordedIsAllocated(g: Shared, d: Domain, t: TxId)
    requires SharedOk(g)
    ensures (d, t) in g.records.objects ==> t in g.owners
  {
    if (d, t) in g.records.objects {
      assert RecordOk(g, d, t, g.records.objects[(d, t)].body);
    }
  }

  /** The first caller of a key, left alone in any reachable state with a writer that commits, is answered. */
  lemma FirstCallCommits(cfg: Config, run: seq<Action>, pid: nat, d: Domain, key: string, hash: string,
                         ms: seq<Mutation>, cs: seq<Choice>) returns (rc: Receipt)
    requires var s := Exec(cfg, Init(), run);
             && (d, key) !in s.g.markers.objects && pid !in s.procs && key != "" && DistinctDomains(ms)
             && Faultless(cs) && |cs| == 10 && cs[9].ok && Unused(s.g, cs[0].freshId) && WorkCommits(s.g, d, cs[2])
    ensures var s := Exec(cfg, Init(), run);
            var p := Proc(d, key, hash, ms, Failed);
            Answered(Solo(cfg, Next(cfg, s, Start(pid, d, key, hash, ms)), pid, cs, 0), pid, p, cs[0].freshId,
                     cs[0].now, cs[1].now, cs[2], rc)
  {
    Reached(cfg, run, []);
    var s := Exec(cfg, Init(), run);
    var s0 := Next(cfg, s, Start(pid, d, key, hash, ms));
    var s1 := Next(cfg, s0, Step(pid, cs[0]));
    RecordedIsAllocated(s.g, d, cs[0].freshId);
    FreshKeyIsClaimed(cfg, s, pid, d, key, hash, ms, cs[0]);
    SoloSplits(cfg, s0, pid, cs, 1, 0);
    assert Solo(cfg, s0, pid, cs[..1], 0) == s1;
    rc := OwnerIsAnswered(cfg, s1, pid, s1.procs[pid], cs[0].freshId, cs[0].now, cs[1..]);
  }

  /**
   A caller that retries a key whose last claim was aborted or went stale, with the key's
   request hash and left alone in any reachable state with a writer that commits, is answered.
   */
  lemma RetryCommits(cfg: Config, run: seq<Action>, pid: nat, d: Domain, key: string, ms: seq<Mutation>,
                     cs: seq<Choice>) returns (rc: Receipt)
    requires var s := Exec(cfg, Init(), run);
             && (d, key) in s.g.markers.objects && pid !in s.procs && key != "" && DistinctDomains(ms)
             && Faultless(cs) && |cs| == 14 && cs[13].ok && WorkCommits(s.g, d, cs[6])
             && Unfinished(s.g, d, s.g.markers.objects[(d, key)].body)
             && Expired(cfg, s.g, d, s.g.markers.objects[(d, key)].body, cs[3].now)
             && Unused(s.g, cs[0].freshId) && Unused(s.g, cs[4].freshId) && cs[0].freshId != cs[4].freshId
    ensures var s := Exec(cfg, Init(), run);
            var hash := s.g.markers.objects[(d, key)].body.hash;
            var p := Proc(d, key, hash, ms, Failed);
            Answered(Solo(cfg, Next(cfg, s, Start(pid, d, key, hash, ms)), pid, cs, 0), pid, p, cs[4].freshId,
                     cs[4].now, cs[5].now, cs[6], rc)
  {
    Reached(cfg, run, []);
    var s := Exec(cfg, Init(), run);
    var hash := s.g.markers.objects[(d, key)].body.hash;
    var s0 := Next(cfg, s, Start(pid, d, key, hash, ms));
    RecordedIsAllocated(s.g, d, cs[4].freshId);
    ClaimAlone(cfg, s, pid, d, key, hash, ms, cs[..5]);
    SoloSplits(cfg, s0, pid, cs, 5, 0);
    var s1 := Solo(cfg, s0, pid, cs[..5], 0);
    rc := OwnerIsAnswered(cfg, s1, pid, s1.procs[pid], cs[4].freshId, cs[4].now, cs[5..]);
  }

  // ------------------------------------------------------------------
  // Repairing an ambiguous batch
  // ------------------------------------------------------------------

  /** The batch of the key was appended, perhaps, and waits for a repair. */
  predicate AwaitsRepair(g: Shared, key: string) {
    && (Orchestration, key) in g.markers.objects
    && var m := g.markers.objects[(Orchestration, key)].body;
    && m.txRecord.None? && (Orchestration, m.txId) in g.records.objects
    && var r := g.records.objects[(Orchestration, m.txId)].body;
       r.status == Prepared && r.repairPending
  }

  lemma MarksPrepared(cfg: Config, s: State, g: Shared, pid: nat, p: Proc, paths: seq<string>, t: TxId, cs: seq<Choice>)
    requires p.pc == Recording(LoadHead(MarkPrepared(paths), t)) && Faultless(cs) && |cs| == 4
    requires (p.domain, t) in g.records.objects
    requires var r := g.records.objects[(p.domain, t)].body; r.status == Prepared && !r.repairPending
    ensures var r := g.records.objects[(p.domain, t)].body;
            var r' := r.(repairPending := true, durableAppend := Some(paths));
            Solo(cfg, With(s, g, pid, p), pid, cs, 1)
            == With(s, g.(records := Write(g.records, (p.domain, t), r')), pid, p.(pc := Failed))
  {
    var o := g.records.objects[(p.domain, t)];
    SoloStep(cfg, s, g, pid, p, cs, 1);
    SoloStep(cfg, s, g, pid, p.(pc := Recording(LoadGet(MarkPrepared(paths), t, o.version))), cs, 2);
    var r' := o.body.(repairPending := true, durableAppend := Some(paths));
    SoloStep(cfg, s, g, pid, p.(pc := Recording(MarkPreparedPut(t, o.version, r'))), cs, 3);
  }

  /**
   A caller whose append ended ambiguously, left alone, leaves its prepared record waiting for
   a repair of exactly the appended paths, touches no marker and answers an error.
   */
  lemma AmbiguousWorkIsMarked(cfg: Config, s: State, pid: nat, t: TxId, cs: seq<Choice>)
    requires pid in s.procs && s.procs[pid].domain == Orchestration && s.procs[pid].pc == Working(Work(t))
    requires cfg.ambiguousAppends && Faultless(cs) && |cs| == 4 && cs[0].work.AmbiguousAfterAppend?
    requires (Orchestration, t) in s.g.records.objects
    requires var r := s.g.records.objects[(Orchestration, t)].body; r.status == Prepared && !r.repairPending
    ensures var s' := Solo(cfg, s, pid, cs, 0);
            var r := s.g.records.objects[(Orchestration, t)].body;
            && pid in s'.procs && s'.procs[pid].pc.Failed? && s'.g.markers == s.g.markers
            && s'.g.records == Write(s.g.records, (Orchestration, t),
                                     r.(repairPending := true, durableAppend := Some(cs[0].work.eventPaths)))
  {
    var p := s.procs[pid];
    assert With(s, s.g, pid, p) == s by { assert s.procs[pid := p] == s.procs; }
    SoloStep(cfg, s, s.g, pid, p, cs, 0);
    MarksPrepared(cfg, s, s.g.(ambiguous := true), pid,
                  p.(pc := Recording(LoadHead(MarkPrepared(cs[0].work.eventPaths), t))), cs[0].work.eventPaths, t, cs);
  }

  /** The repair looks at the record ... */
  lemma LooksForRepair(cfg: Config, s: State, g: Shared, pid: nat, p: Proc, cs: seq<Choice>, v: nat, m: Marker)
    requires Faultless(cs) && |cs| == 6 && p.domain == Orchestration && p.pc == Claiming(ClaimClassify(0, v, m))
    requires AwaitsRepair(g, p.key) && g.markers.objects[(p.domain, p.key)] == Object(v, m)
    requires var r := g.records.objects[(Orchestration, m.txId)].body;
             r.hash == m.hash && r.key == m.key && m.key == p.key
    ensures var r := g.records.objects[(Orchestration, m.txId)].body;
            if r.durableAppend.None? || r.durableAppend.value == [] || !cs[5].work.Committed?
            then Solo(cfg, With(s, g, pid, p), pid, cs, 3) == With(s, g, pid, p.(pc := Failed))
            else
              Solo(cfg, With(s, g, pid, p), pid, cs, 3)
              == With(s, Repaired(g, m.txId, cs[5]), pid,
                      p.(pc := Recording(LoadHead(Finalize(OrchestrationReceiptFor(m.txId, cs[5].work, cs[5].now),
                                                           cs[5].work.repairPending), m.txId))))
  {
    var r := g.records.objects[(Orchestration, m.txId)].body;
    SoloStep(cfg, s, g, pid, p, cs, 3);
    SoloStep(cfg, s, g, pid, p.(pc := Working(RepairGet(m))), cs, 4);
    if r.durableAppend.None? || r.durableAppend.value == [] {
      SoloDone(cfg, s, g, pid, p.(pc := Failed), cs, 5);
    } else {
      SoloStep(cfg, s, g, pid, p.(pc := Working(RepairWork(m.txId))), cs, 5);
    }
  }

  function Repaired(g: Shared, t: TxId, c: Choice): Shared
    requires c.work.Committed?
  {
    g.(proposals := g.proposals + {OrchestrationReceiptFor(t, c.work, c.now)})
  }

  predicate CanRepair(g: Shared, key: string)
    requires AwaitsRepair(g, key)
  {
    var t := g.markers.objects[(Orchestration, key)].body.txId;
    var paths := g.records.objects[(Orchestration, t)].body.durableAppend;
    paths.Some? && paths.value != []
  }

  /** The repair is answered with what it compacted; marker and record of the repaired transaction carry it. */
  predicate RepairAnswered(s: State, s': State, pid: nat, p: Proc, c: Choice, rc: Receipt)
    requires p.domain == Orchestration && AwaitsRepair(s.g, p.key)
  {
    var t := s.g.markers.objects[(Orchestration, p.key)].body.txId;
    && c.work.Committed? && Reports(p.(pc := Working(RepairWork(t))), c, rc)
    && pid in s'.procs && s'.procs[pid].pc == Done(rc, c.work.repairPending)
    && StoresReceipt(s.g, s'.g, p, t, rc, c.work.repairPending)
  }

  /** The repair has compacted and is about to publish. */
  predicate HasRepaired(s: State, s': State, pid: nat, p: Proc, c: Choice)
    requires p.domain == Orchestration && AwaitsRepair(s.g, p.key)
  {
    var m := s.g.markers.objects[(Orchestration, p.key)].body;
    var r := s.g.records.objects[(Orchestration, m.txId)].body;
    && s'.g.markers == s.g.markers && s'.g.records == s.g.records && r.txId == m.txId && r.hash == m.hash
    && c.work.Committed? && pid in s'.procs
    && var rc := OrchestrationReceiptFor(m.txId, c.work, c.now);
       s'.procs[pid] == p.(pc := Recording(LoadHead(Finalize(rc, c.work.repairPending), m.txId)))
  }

  lemma PublishesRepair(cfg: Config, s: State, s1: State, pid: nat, p: Proc, cs: seq<Choice>, c: Choice)
    requires p.domain == Orchestration && AwaitsRepair(s.g, p.key) && HasRepaired(s, s1, pid, p, c)
    requires Faultless(cs) && |cs| == 7 && cs[6].ok
    ensures exists rc :: RepairAnswered(s, Solo(cfg, s1, pid, cs, 0), pid, p, c, rc)
  {
    var m := s.g.markers.objects[(Orchestration, p.key)].body;
    var rc := OrchestrationReceiptFor(m.txId, c.work, c.now);
    PublishAlone(cfg, s1, pid, s1.procs[pid], m.txId, rc, c.work.repairPending, cs);
    assert RepairAnswered(s, Solo(cfg, s1, pid, cs, 0), pid, p, c, rc);
  }

  /** The caller reads marker and record and compacts. */
  lemma ReachesRepair(cfg: Config, s: State, pid: nat, p: Proc, cs: seq<Choice>) returns (s': State)
    requires Inv(s) && p.domain == Orchestration && AwaitsRepair(s.g, p.key)
    requires pid !in s.procs && p.key != "" && DistinctDomains(p.mutations)
    requires Faultless(cs) && |cs| == 6 && Unused(s.g, cs[0].freshId)
    ensures s' == Solo(cfg, Next(cfg, s, Start(pid, Orchestration, p.key, p.hash, p.mutations)), pid, cs, 0)
    ensures if CanRepair(s.g, p.key) && cs[5].work.Committed? then HasRepaired(s, s', pid, p, cs[5])
            else Refused(s, s', pid)
  {
    var p0 := p.(pc := Claiming(ClaimPut(0)));
    var g := Allocate(s.g, pid, p0, cs[0].freshId);
    var o := s.g.markers.objects[(Orchestration, p.key)];
    assert MarkerOk(s.g, Orchestration, p.key, o.body);
    assert RecordOk(s.g, Orchestration, o.body.txId, s.g.records.objects[(Orchestration, o.body.txId)].body);
    LooksAtMarker(cfg, s, pid, Orchestration, p.key, p.hash, p.mutations, cs);
    LooksForRepair(cfg, s, g, pid, p.(pc := Claiming(ClaimClassify(0, o.version, o.body))), cs, o.version, o.body);
    s' := Solo(cfg, Next(cfg, s, Start(pid, Orchestration, p.key, p.hash, p.mutations)), pid, cs, 0);
  }

  lemma RefusedStays(cfg: Config, s: State, s': State, pid: nat, cs: seq<Choice>)
    requires Refused(s, s', pid)
    ensures Refused(s, Solo(cfg, s', pid, cs, 0), pid)
  {
    assert With(s', s'.g, pid, s'.procs[pid]) == s' by { assert s'.procs[pid := s'.procs[pid]] == s'.procs; }
    SoloDone(cfg, s', s'.g, pid, s'.procs[pid], cs, 0);
  }

  /**
   A caller of a key whose batch waits for a repair, whatever its hash, left alone in any
   reachable state: if the record names appended events and their compaction commits, the
   caller is answered with that commit and the transaction is visible; otherwise the caller
   fails and no marker or record changes.
   */
  lemma RepairAlone(cfg: Config, run: seq<Action>, pid: nat, p: Proc, cs: seq<Choice>)
    requires p.domain == Orchestration && p.key != "" && DistinctDomains(p.mutations)
    requires var s := Exec(cfg, Init(), run);
             && AwaitsRepair(s.g, p.key) && pid !in s.procs
             && Faultless(cs) && |cs| == 13 && cs[12].ok && Unused(s.g, cs[0].freshId)
    ensures var s := Exec(cfg, Init(), run);
            var s' := Solo(cfg, Next(cfg, s, Start(pid, Orchestration, p.key, p.hash, p.mutations)), pid, cs, 0);
            if CanRepair(s.g, p.key) && cs[5].work.Committed?
            then exists rc :: RepairAnswered(s, s', pid, p, cs[5], rc)
            else Refused(s, s', pid)
  {
    Reached(cfg, run, []);
    var s := Exec(cfg, Init(), run);
    var s1 := ReachesRepair(cfg, s, pid, p, cs[..6]);
    SoloSplits(cfg, Next(cfg, s, Start(pid, Orchestration, p.key, p.hash, p.mutations)), pid, cs, 6, 0);
    if CanRepair(s.g, p.key) && cs[5].work.Committed? {
      PublishesRepair(cfg, s, s1, pid, p, cs[6..], cs[5]);
    } else {
      RefusedStays(cfg, s, s1, pid, cs[6..]);
    }
  }
}

/**
 A root request and its participants: what a root caller joins, what it publishes, and how it
 ends when a participant or the publication fails.
 */
module RootRequests {
  import opened ObjectStore
  import opened TransactionTypes
  import opened TransactionSteps
  import opened TransactionInvariant
  import opened TransactionProofs
  import opened TransactionTheorems
  import opened TransactionReplay
  import opened TransactionClaims
  import opened TransactionReceipts

  // ------------------------------------------------------------------
  // Joining participants
  // ------------------------------------------------------------------

  predicate HasProgress(p: Proc) { p.pc.Working? && (p.pc.work.RootLoop? || p.pc.work.RootWait?) }

  /** `commit` refers to the receipt `rc` of a participant: the same transaction, commit, manifest and read token. */
  predicate Refers(commit: DomainCommit, rc: Receipt) {
    match rc
    case CatalogReceipt(t, _, commitId, manifestId, _, _, readToken, _) =>
      commit == DomainCommit(Catalog, t, commitId, manifestId, "manifests/catalog/" + manifestId + ".json", readToken)
    case OrchestrationReceipt(t, commitId, manifestId, _, _, _, _, readToken, _) =>
      commit == DomainCommit(Orchestration, t, commitId, manifestId,
                             "state/orchestration/manifests/" + manifestId + ".json", readToken)
    case RootReceipt(_, _, _, _, _, _) => false
  }

  /** Process `q` is the answered participant of root request `p` for mutation `m`, and `commit` is its answer. */
  predicate IsParticipant(ps: map<nat, Proc>, p: Proc, m: Mutation, q: nat, commit: DomainCommit) {
    && q in ps && ps[q].pc.Done? && Refers(commit, ps[q].pc.receipt)
    && Fits(m, ps[q].domain, ps[q].hash) && ps[q].key == ParticipantKey(p.key, ps[q].domain)
  }

  /**
   `commits` are the answers of the participants `qs`, one per mutation, and `repair` says
   whether one needs repair.
   */
  predicate Joined(ps: map<nat, Proc>, p: Proc, commits: seq<DomainCommit>, repair: bool, qs: seq<nat>) {
    && |qs| == |commits| <= |p.mutations|
    && (forall i :: 0 <= i < |qs| ==> IsParticipant(ps, p, p.mutations[i], qs[i], commits[i]))
    && (repair <==> exists i :: 0 <= i < |qs| && ps[qs[i]].pc.repair)
  }

  lemma JoinedStays(ps: map<nat, Proc>, ps': map<nat, Proc>, p: Proc, p': Proc, commits: seq<DomainCommit>,
                    repair: bool, qs: seq<nat>)
    requires Joined(ps, p, commits, repair, qs) && ProcsEvolve(ps, ps')
    requires p'.key == p.key && p'.mutations == p.mutations
    ensures Joined(ps', p', commits, repair, qs)
  {
  }

  lemma JoinsOne(ps: map<nat, Proc>, p: Proc, commits: seq<DomainCommit>, repair: bool, qs: seq<nat>, q: nat)
    requires Joined(ps, p, commits, repair, qs) && |commits| < |p.mutations| && q in ps && ps[q].pc.Done?
    requires IsParticipant(ps, p, p.mutations[|commits|], q, CommitOf(ps[q].pc.receipt))
    ensures Joined(ps, p, commits + [CommitOf(ps[q].pc.receipt)], repair || ps[q].pc.repair, qs + [q])
  {
    var qs' := qs + [q];
    if repair {
      var i :| 0 <= i < |qs| && ps[qs[i]].pc.repair;
      assert qs'[i] == qs[i];
    }
    assert qs'[|qs|] == q;
  }

  predicate SameProgress(p: Proc, p': Proc) {
    && HasProgress(p) && HasProgress(p') && p'.key == p.key && p'.mutations == p.mutations
    && p'.pc.work.commits == p.pc.work.commits && p'.pc.work.repair == p.pc.work.repair
  }

  /** The root caller has just taken its lock. */
  predicate StartsProgress(p': Proc) { HasProgress(p') && p'.pc.work.commits == [] && !p'.pc.work.repair }

  /** The root caller has just joined the answered participant `q`. */
  predicate JoinsProgress(ps: map<nat, Proc>, p: Proc, p': Proc, q: nat) {
    && HasProgress(p) && HasProgress(p') && p'.key == p.key && p'.mutations == p.mutations
    && |p.pc.work.commits| < |p.mutations| && q in ps && ps[q].pc.Done?
    && IsParticipant(ps, p, p.mutations[|p.pc.work.commits|], q, CommitOf(ps[q].pc.receipt))
    && p'.pc.work.commits == p.pc.work.commits + [CommitOf(ps[q].pc.receipt)]
    && p'.pc.work.repair == (p.pc.work.repair || ps[q].pc.repair)
  }

  lemma AdvanceProgresses(cfg: Config, g: Shared, pid: nat, p: Proc, c: Choice)
    requires !AwaitsChild(p)
    ensures var p' := p.(pc := Advance(cfg, g, pid, p, c).1);
            HasProgress(p') ==> SameProgress(p, p') || StartsProgress(p')
  {
  }

  lemma JoinProgresses(s: State, pid: nat)
    requires Inv(s) && pid in s.procs && AwaitsChild(s.procs[pid]) && s.procs[pid].pc.work.child in s.procs
    ensures var (p, q) := (s.procs[pid], s.procs[pid].pc.work.child);
            var p' := p.(pc := JoinChild(p.pc.work, s.procs[q].pc));
            HasProgress(p') ==> SameProgress(p, p') || JoinsProgress(s.procs, p, p', q)
  {
    var p := s.procs[pid];
    assert ChildOk(s.procs, pid, p) && ProcOk(s.g, pid, p);
    assert ProcOk(s.g, p.pc.work.child, s.procs[p.pc.work.child]);
    assert p.mutations[|p.pc.work.commits|] in p.mutations;
  }

  /** Where a root caller's progress comes from: its own progress, a participant it joined, or its start. */
  ghost predicate Progresses(ps: map<nat, Proc>, p': Proc, pid: nat) {
    && pid in ps
    && (SameProgress(ps[pid], p') || StartsProgress(p') || exists q :: JoinsProgress(ps, ps[pid], p', q))
  }

  lemma ProgressComesFrom(cfg: Config, s: State, a: Action, pid: nat)
    requires Inv(s) && pid in Next(cfg, s, a).procs && HasProgress(Next(cfg, s, a).procs[pid])
    ensures Progresses(s.procs, Next(cfg, s, a).procs[pid], pid)
  {
    if a.Step? && a.pid == pid && pid in s.procs {
      var p := s.procs[pid];
      if AwaitsChild(p) {
        AwaitChildKeepsInv(s, pid);
        JoinProgresses(s, pid);
      } else if !StartsChild(p) {
        AdvanceProgresses(cfg, s.g, pid, p, a.choice);
      }
    }
  }

  lemma ProgressJoins(ps: map<nat, Proc>, p: Proc, p': Proc, qs: seq<nat>) returns (qs': seq<nat>)
    requires SameProgress(p, p') || exists q :: JoinsProgress(ps, p, p', q)
    requires HasProgress(p) && Joined(ps, p, p.pc.work.commits, p.pc.work.repair, qs)
    ensures HasProgress(p') && Joined(ps, p', p'.pc.work.commits, p'.pc.work.repair, qs')
  {
    if SameProgress(p, p') {
      qs' := qs;
    } else {
      var q :| JoinsProgress(ps, p, p', q);
      JoinsOne(ps, p, p.pc.work.commits, p.pc.work.repair, qs, q);
      qs' := qs + [q];
    }
  }

  lemma LastStep(cfg: Config, run: seq<Action>, pid: nat)
    requires var s := Exec(cfg, Init(), run); pid in s.procs && HasProgress(s.procs[pid])
    ensures run != []
    ensures var (ps, ps') := (Exec(cfg, Init(), run[..|run| - 1]).procs, Exec(cfg, Init(), run).procs);
            ProcsEvolve(ps, ps') && Progresses(ps, ps'[pid], pid)
  {
    assert run != [];
    var n := |run| - 1;
    ExecSnoc(cfg, Init(), run[..n], run[n]);
    assert run[..n] + [run[n]] == run;
    Reached(cfg, run[..n], []);
    NextKeepsInv(cfg, Exec(cfg, Init(), run[..n]), run[n]);
    ProgressComesFrom(cfg, Exec(cfg, Init(), run[..n]), run[n], pid);
  }

  /**
   In every run, what a root caller has gathered so far are the answers of participants it
   started, in the order of its mutations, each for its mutation's domain, hash and key, and
   it notes a repair exactly when one of them reported one.
   */
  lemma {:induction false} RootJoinsParticipants(cfg: Config, run: seq<Action>, pid: nat) returns (qs: seq<nat>)
    requires var s := Exec(cfg, Init(), run); pid in s.procs && HasProgress(s.procs[pid])
    ensures var s := Exec(cfg, Init(), run);
            Joined(s.procs, s.procs[pid], s.procs[pid].pc.work.commits, s.procs[pid].pc.work.repair, qs)
    decreases |run|
  {
    LastStep(cfg, run, pid);
    var n := |run| - 1;
    var (ps, ps') := (Exec(cfg, Init(), run[..n]).procs, Exec(cfg, Init(), run).procs);
    if StartsProgress(ps'[pid]) {
      qs := [];
    } else {
      qs := RootJoinsParticipants(cfg, run[..n], pid);
      qs := ProgressJoins(ps, ps[pid], ps'[pid], qs);
      JoinedStays(ps, ps', ps'[pid], ps'[pid], ps'[pid].pc.work.commits, ps'[pid].pc.work.repair, qs);
    }
  }

  // ------------------------------------------------------------------
  // Publishing the root, and failing to
  // ------------------------------------------------------------------

  /**
   Every root receipt of a run lists, mutation by mutation, what the participants of the root
   request were answered, and is published as needing repair exactly when one of them was.
   */
  lemma RootReceiptsJoinParticipants(cfg: Config, run: seq<Action>, rc: Receipt) returns (k: nat, qs: seq<nat>)
    requires rc in Exec(cfg, Init(), run).g.proposals && rc.RootReceipt?
    ensures BuiltAt(cfg, run, k, rc)
    ensures var s := Exec(cfg, Init(), run[..k]);
            var p := s.procs[run[k].pid];
            && |rc.domainCommits| == |p.mutations|
            && Joined(s.procs, p, rc.domainCommits, NeedsRepair(p, run[k].choice), qs)
  {
    k := ReceiptsReportCommits(cfg, run, rc);
    qs := RootJoinsParticipants(cfg, run[..k], run[k].pid);
  }

  /** The root cannot go on: its participant failed, or its super-manifest was not stored. */
  predicate RootFails(s: State, pid: nat, c: Choice) {
    && pid in s.procs && HasProgress(s.procs[pid])
    && var (p, w) := (s.procs[pid], s.procs[pid].pc.work);
       if w.RootWait? then w.child in s.procs && s.procs[w.child].pc.Failed?
       else
         && |w.commits| == |p.mutations|
         && (c.fault != NoFault || SuperManifestPath(w.tx) in s.g.supers.objects)
  }

  lemma RootStartsAbort(cfg: Config, s: State, pid: nat, c: Choice)
    requires RootFails(s, pid, c)
    ensures var (s', t) := (Next(cfg, s, Step(pid, c)), s.procs[pid].pc.work.tx);
            s' == With(s, s.g.(supers := s'.g.supers), pid, s.procs[pid].(pc := Recording(LoadHead(Abort, t))))
  {
  }

  lemma RootRecordIsHidden(s: State, pid: nat)
    requires Inv(s) && pid in s.procs && HasProgress(s.procs[pid])
    ensures var t := s.procs[pid].pc.work.tx;
            s.procs[pid].domain == Root && (Root, t) in s.g.records.objects && !RecordVisible(s.g, Root, t)
  {
    var (g, t) := (s.g, s.procs[pid].pc.work.tx);
    assert ProcOk(g, pid, s.procs[pid]);
    assert RecordOk(g, Root, t, g.records.objects[(Root, t)].body);
  }

  /**
   A root whose participant failed, or whose super-manifest was not stored, stepped alone from
   any reachable state, leaves its record aborted, touches no marker and answers an error.
   */
  lemma FailedRootIsAborted(cfg: Config, run: seq<Action>, pid: nat, cs: seq<Choice>)
    requires |cs| == 4 && Faultless(cs[1..]) && RootFails(Exec(cfg, Init(), run), pid, cs[0])
    ensures var s := Exec(cfg, Init(), run);
            var (s', t) := (Solo(cfg, s, pid, cs, 0), s.procs[pid].pc.work.tx);
            && pid in s'.procs && s'.procs[pid].pc.Failed? && s'.g.markers == s.g.markers
            && (Root, t) in s.g.records.objects
            && s'.g.records == Write(s.g.records, (Root, t), AbortedRecord(s.g.records.objects[(Root, t)].body))
  {
    Reached(cfg, run, []);
    var s := Exec(cfg, Init(), run);
    var s1 := Next(cfg, s, Step(pid, cs[0]));
    RootRecordIsHidden(s, pid);
    RootStartsAbort(cfg, s, pid, cs[0]);
    SoloSuffix(cfg, s1, pid, cs, 1, 0);
    AbortsAlone(cfg, s, s1.g, pid, s1.procs[pid], s.procs[pid].pc.work.tx, cs[1..], 0);
  }

  // ------------------------------------------------------------------
  // The audit receipt
  // ------------------------------------------------------------------

  /** The root is visible in marker and record, and its caller is about to write the audit receipt. */
  predicate Audits(g: Shared, p: Proc, rc: Receipt, repair: bool) {
    && p.domain == Root && p.pc == Recording(RootAudit(rc, repair))
    && (Root, rc.txId) in g.records.objects && (Root, p.key) in g.markers.objects
    && var (r, m) := (g.records.objects[(Root, rc.txId)].body, g.markers.objects[(Root, p.key)].body);
    && r.txId == rc.txId && r.status == Visible && r.repairPending == repair
    && m.txId == rc.txId && m.hash == r.hash
  }

  /** Marker and record of the root carry record `r`. */
  predicate MarkedAs(g: Shared, g': Shared, key: string, r: Record)
    requires (Root, key) in g.markers.objects
  {
    && g'.records == Write(g.records, (Root, r.txId), r)
    && g'.markers == Write(g.markers, (Root, key),
                           g.markers.objects[(Root, key)].body.(visibleAt := r.visibleAt, txRecord := Some(r)))
  }

  lemma ReachesMark(cfg: Config, s: State, g: Shared, pid: nat, p: Proc, pub: Publication, cs: seq<Choice>)
    requires p.domain == Root && p.pc == Persisting(pub, PersistHead) && Faultless(cs) && |cs| == 7
    requires (Root, p.key) in g.markers.objects
    requires var m := g.markers.objects[(Root, p.key)].body; m.txId == pub.record.txId && m.hash == pub.record.hash
    ensures var m := g.markers.objects[(Root, p.key)];
            Solo(cfg, With(s, g, pid, p), pid, cs, 3)
            == Solo(cfg, With(s, g, pid, p.(pc := Persisting(pub, PersistMarker(m.version, m.body)))), pid, cs, 5)
  {
    SoloStep(cfg, s, g, pid, p, cs, 3);
    SoloStep(cfg, s, g, pid, p.(pc := Persisting(pub, PersistGet(g.markers.objects[(Root, p.key)].version))), cs, 4);
  }

  lemma StoresMark(cfg: Config, s: State, g: Shared, pid: nat, p: Proc, pub: Publication, cs: seq<Choice>)
    requires p.domain == Root && p.pc == Persisting(pub, PersistHead) && pub.who == RepairMarker
    requires Faultless(cs) && |cs| == 7
    requires (Root, pub.record.txId) in g.records.objects && (Root, p.key) in g.markers.objects
    requires g.records.objects[(Root, pub.record.txId)].version == pub.recordVersion
    requires var m := g.markers.objects[(Root, p.key)].body; m.txId == pub.record.txId && m.hash == pub.record.hash
    ensures var s' := Solo(cfg, With(s, g, pid, p), pid, cs, 3);
            && pid in s'.procs && s'.procs[pid].pc == Done(pub.receipt, pub.record.repairPending)
            && MarkedAs(g, s'.g, p.key, pub.record)
  {
    var m := g.markers.objects[(Root, p.key)];
    ReachesMark(cfg, s, g, pid, p, pub, cs);
    SoloStep(cfg, s, g, pid, p.(pc := Persisting(pub, PersistMarker(m.version, m.body))), cs, 5);
    var m' := m.body.(visibleAt := pub.record.visibleAt, txRecord := Some(pub.record));
    var g' := g.(markers := Write(g.markers, (Root, p.key), m'));
    SoloStep(cfg, s, g', pid, p.(pc := Persisting(pub, PersistRecord)), cs, 6);
  }

  lemma MarksAlone(cfg: Config, s: State, g: Shared, pid: nat, p: Proc, rc: Receipt, cs: seq<Choice>)
    requires Audits(g, p.(pc := Recording(RootAudit(rc, false))), rc, false) && Faultless(cs) && |cs| == 7
    requires p.pc == Recording(LoadHead(MarkVisible(rc), rc.txId))
    ensures var s' := Solo(cfg, With(s, g, pid, p), pid, cs, 1);
            && pid in s'.procs && s'.procs[pid].pc == Done(rc, true)
            && MarkedAs(g, s'.g, p.key, g.records.objects[(Root, rc.txId)].body.(repairPending := true))
  {
    var o := g.records.objects[(Root, rc.txId)];
    var pub := Publication(RepairMarker, rc, o.body.(repairPending := true), o.version);
    SoloStep(cfg, s, g, pid, p, cs, 1);
    SoloStep(cfg, s, g, pid, p.(pc := Recording(LoadGet(MarkVisible(rc), rc.txId, o.version))), cs, 2);
    StoresMark(cfg, s, g, pid, p.(pc := Persisting(pub, PersistHead)), pub, cs);
  }

  /**
   The audit receipt of a visible root, written alone: if the write succeeds, or the root
   already needs repair, nothing else changes; otherwise marker and record are marked as
   needing repair.  The caller is answered either way, and told whether a repair is needed.
   */
  lemma AuditAlone(cfg: Config, s: State, pid: nat, rc: Receipt, repair: bool, cs: seq<Choice>)
    requires pid in s.procs && Audits(s.g, s.procs[pid], rc, repair) && Faultless(cs) && |cs| == 7
    ensures var s' := Solo(cfg, s, pid, cs, 0);
            && pid in s'.procs && s'.procs[pid].pc == Done(rc, repair || !cs[0].ok)
            && if repair || cs[0].ok then s'.g == s.g
               else MarkedAs(s.g, s'.g, s.procs[pid].key,
                             s.g.records.objects[(Root, rc.txId)].body.(repairPending := true))
  {
    var p := s.procs[pid];
    assert With(s, s.g, pid, p) == s by { assert s.procs[pid := p] == s.procs; }
    SoloStep(cfg, s, s.g, pid, p, cs, 0);
    if repair || cs[0].ok {
      SoloDone(cfg, s, s.g, pid, p.(pc := Done(rc, repair || !cs[0].ok)), cs, 1);
    } else {
      MarksAlone(cfg, s, s.g, pid, p.(pc := Recording(LoadHead(MarkVisible(rc), rc.txId))), rc, cs);
    }
  }

  /** The caller is marking its visible root as needing repair, or has been answered with that. */
  predicate Marking(pc: Pc, rc: Receipt) {
    match pc
    case Recording(LoadHead(purpose, _)) => purpose == MarkVisible(rc)
    case Recording(LoadGet(purpose, _, _)) => purpose == MarkVisible(rc)
    case Persisting(pub, _) => pub.who == RepairMarker && pub.receipt == rc && pub.record.repairPending
    case Done(answer, repair) => answer == rc && repair
    case _ => false
  }

  /** The caller's root is visible: it is writing the audit receipt, marking the root, or has been answered. */
  predicate Answering(pc: Pc, rc: Receipt) {
    Marking(pc, rc) || (pc.Recording? && pc.load.RootAudit? && pc.load.receipt == rc) || (pc.Done? && pc.receipt == rc)
  }

  lemma MarkIsStored(cfg: Config, g: Shared, p: Proc, pub: Publication, pc: PersistPc, c: Choice, rc: Receipt)
    requires p.pc == Persisting(pub, pc) && Marking(p.pc, rc)
    ensures Marking(AdvancePersist(cfg, g, p, pub, pc, c).1, rc)
  {
  }

  lemma MarkIsLoaded(cfg: Config, g: Shared, p: Proc, pc: RecordPc, c: Choice, rc: Receipt)
    requires p.pc == Recording(pc) && Marking(p.pc, rc)
    ensures Marking(AdvanceRecord(cfg, g, p, pc, c).1, rc)
  {
  }

  lemma MarkingStays(cfg: Config, g: Shared, pid: nat, p: Proc, c: Choice, rc: Receipt)
    requires Marking(p.pc, rc)
    ensures Marking(Advance(cfg, g, pid, p, c).1, rc)
  {
    match p.pc
    case Persisting(pub, pc) => MarkIsStored(cfg, g, p, pub, pc, c, rc);
    case Recording(pc) => MarkIsLoaded(cfg, g, p, pc, c, rc);
    case _ =>
  }

  lemma AnsweringStays(cfg: Config, s: State, a: Action, pid: nat, rc: Receipt)
    requires pid in s.procs && Answering(s.procs[pid].pc, rc)
    ensures pid in Next(cfg, s, a).procs && Answering(Next(cfg, s, a).procs[pid].pc, rc)
    ensures Marking(s.procs[pid].pc, rc) ==> Marking(Next(cfg, s, a).procs[pid].pc, rc)
  {
    if a.Step? && a.pid == pid && Marking(s.procs[pid].pc, rc) {
      MarkingStays(cfg, s.g, pid, s.procs[pid], a.choice, rc);
    }
  }

  /**
   Once a root is visible its caller never fails, whatever faults the audit receipt and the
   repair mark meet: in every continuation it is still about to be answered, or has been
   answered with its receipt, and with a repair pending if the audit receipt failed.
   */
  lemma {:induction false} VisibleRootIsAnswered(cfg: Config, s: State, run: seq<Action>, pid: nat, rc: Receipt)
    requires pid in s.procs && Answering(s.procs[pid].pc, rc)
    ensures var s' := Exec(cfg, s, run);
            && pid in s'.procs && Answering(s'.procs[pid].pc, rc)
            && (Marking(s.procs[pid].pc, rc) ==> Marking(s'.procs[pid].pc, rc))
    decreases |run|
  {
    if run != [] {
      AnsweringStays(cfg, s, run[0], pid, rc);
      VisibleRootIsAnswered(cfg, Next(cfg, s, run[0]), run[1..], pid, rc);
    }
  }
}

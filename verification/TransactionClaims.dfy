/**
 When a claim is respected.  A key passes from one transaction to another only after the
 replacing caller has seen the earlier one aborted or stale; and a new caller left alone
 takes such a claim over, and fails on any other that is not visible.
 */
module TransactionClaims {
  import opened ObjectStore
  import opened TransactionTypes
  import opened TransactionSteps
  import opened TransactionInvariant
  import opened TransactionTheorems
  import opened TransactionRecords
  import opened TransactionReplay

  /**
   What is stored about the transaction of marker `m` lets another caller take the key at
   time `now`: it was aborted, or its record, or without one its marker, has the timeout's age.
   */
  predicate Expired(cfg: Config, g: Shared, d: Domain, m: Marker, now: int) {
    if (d, m.txId) in g.records.objects then
      var r := g.records.objects[(d, m.txId)].body;
      || r.status == Aborted
      || (r.status == Prepared && !r.repairPending && now - r.preparedAt >= cfg.staleTimeout)
    else now - m.createdAt >= cfg.staleTimeout
  }

  // ------------------------------------------------------------------
  // A claim is replaced only after it expired
  // ------------------------------------------------------------------

  /** The step of `pid` in `s` looks at marker `m`, has its request hash, and finds its transaction expired. */
  predicate FindsExpired(cfg: Config, s: State, a: Action, pid: nat, m: Marker) {
    && a.Step? && a.pid == pid && pid in s.procs
    && s.procs[pid].pc.Claiming? && s.procs[pid].pc.claim.ClaimClassify? && s.procs[pid].pc.claim.marker == m
    && m.hash == s.procs[pid].hash && m.txRecord.None? && Expired(cfg, s.g, s.procs[pid].domain, m, a.choice.now)
  }

  /** At moment `k` of the run `pid` found the transaction of marker `m` expired. */
  ghost predicate FoundExpired(cfg: Config, run: seq<Action>, k: nat, pid: nat, m: Marker) {
    k < |run| && FindsExpired(cfg, Exec(cfg, Init(), run[..k]), run[k], pid, m)
  }

  predicate Replacing(s: State, pid: nat, m: Marker) {
    && pid in s.procs && s.procs[pid].pc.Claiming?
    && s.procs[pid].pc.claim.ClaimReplace? && s.procs[pid].pc.claim.marker == m
  }

  lemma ClaimEntersReplace(cfg: Config, g: Shared, pid: nat, p: Proc, pc: ClaimPc, c: Choice)
    requires p.pc == Claiming(pc)
    ensures var pc' := AdvanceClaim(cfg, g, pid, p, pc, c).1;
            pc'.Claiming? && pc'.claim.ClaimReplace? ==>
              || pc' == p.pc
              || (pc.ClaimClassify? && pc.marker == pc'.claim.marker && pc.marker.hash == p.hash
                  && pc.marker.txRecord.None? && Expired(cfg, g, p.domain, pc.marker, c.now))
  {
  }

  lemma OthersEnterNothing(cfg: Config, g: Shared, pid: nat, p: Proc, c: Choice)
    requires !p.pc.Claiming?
    ensures !Advance(cfg, g, pid, p, c).1.Claiming?
  {
  }

  /** A caller is about to replace a claim only if it was so before, or has just found it expired. */
  lemma EntersReplace(cfg: Config, s: State, a: Action, pid: nat, m: Marker)
    requires Replacing(Next(cfg, s, a), pid, m)
    ensures Replacing(s, pid, m) || FindsExpired(cfg, s, a, pid, m)
  {
    if a.Step? && a.pid == pid && pid in s.procs && !StartsChild(s.procs[pid]) && !AwaitsChild(s.procs[pid]) {
      if s.procs[pid].pc.Claiming? {
        ClaimEntersReplace(cfg, s.g, pid, s.procs[pid], s.procs[pid].pc.claim, a.choice);
      } else {
        OthersEnterNothing(cfg, s.g, pid, s.procs[pid], a.choice);
      }
    }
  }

  lemma {:induction false} ReplacerLooked(cfg: Config, run: seq<Action>, pid: nat, m: Marker) returns (k: nat)
    requires Replacing(Exec(cfg, Init(), run), pid, m)
    ensures FoundExpired(cfg, run, k, pid, m)
    decreases |run|
  {
    var n := |run| - 1;
    assert run != [];
    ExecSnoc(cfg, Init(), run[..n], run[n]);
    assert run[..n] + [run[n]] == run;
    EntersReplace(cfg, Exec(cfg, Init(), run[..n]), run[n], pid, m);
    if Replacing(Exec(cfg, Init(), run[..n]), pid, m) {
      k := ReplacerLooked(cfg, run[..n], pid, m);
      assert run[..n][..k] == run[..k];
    } else {
      k := n;
    }
  }

  predicate MarkerOf(g: Shared, d: Domain, key: string, t: TxId) {
    (d, key) in g.markers.objects && g.markers.objects[(d, key)].body.txId == t
  }

  lemma ClaimPassesOn(cfg: Config, g: Shared, pid: nat, p: Proc, pc: ClaimPc, c: Choice, d: Domain, key: string,
                      t: TxId)
    requires p.pc == Claiming(pc) && ClaimOk(g, p, pc)
    requires MarkerOf(g, d, key, t) && !MarkerOf(AdvanceClaim(cfg, g, pid, p, pc, c).0, d, key, t)
    ensures pc.ClaimReplace? && pc.marker == g.markers.objects[(d, key)].body
  {
  }

  lemma PublicationKeepsTransaction(cfg: Config, g: Shared, p: Proc, pub: Publication, pc: PersistPc, c: Choice,
                                    d: Domain, key: string, t: TxId)
    requires PersistOk(g, p, pub, pc) && MarkerOf(g, d, key, t)
    ensures MarkerOf(AdvancePersist(cfg, g, p, pub, pc, c).0, d, key, t)
  {
  }

  /** Only a caller that replaces exactly the stored marker gives its key to another transaction. */
  lemma KeyPassesOn(cfg: Config, s: State, a: Action, d: Domain, key: string, t: TxId)
    requires Inv(s) && MarkerOf(s.g, d, key, t) && !MarkerOf(Next(cfg, s, a).g, d, key, t)
    ensures a.Step? && Replacing(s, a.pid, s.g.markers.objects[(d, key)].body)
  {
    if a.Step? && a.pid in s.procs {
      var p := s.procs[a.pid];
      assert ProcOk(s.g, a.pid, p);
      match p.pc
      case Claiming(pc) => ClaimPassesOn(cfg, s.g, a.pid, p, pc, a.choice, d, key, t);
      case Working(pc) => WorkLeavesMarkers(cfg, s.g, a.pid, p, pc, a.choice);
      case Persisting(pub, pc) => PublicationKeepsTransaction(cfg, s.g, p, pub, pc, a.choice, d, key, t);
      case Recording(pc) => LoadLeavesMarkers(cfg, s.g, p, pc, a.choice);
      case _ =>
    }
  }

  /**
   In every run, when a key passes from one transaction to another, the caller that replaces
   the claim had at some earlier moment of the run looked at exactly the marker it replaces,
   with its own request hash, and found the transaction aborted, or its record, or without
   one the marker, at least as old as the stale timeout.
   */
  lemma KeyPassesOnlyWhenExpired(cfg: Config, run: seq<Action>, a: Action, d: Domain, key: string, t: TxId)
    returns (k: nat)
    requires var s := Exec(cfg, Init(), run); MarkerOf(s.g, d, key, t) && !MarkerOf(Next(cfg, s, a).g, d, key, t)
    ensures a.Step?
    ensures FoundExpired(cfg, run, k, a.pid, Exec(cfg, Init(), run).g.markers.objects[(d, key)].body)
  {
    Reached(cfg, run, []);
    var s := Exec(cfg, Init(), run);
    KeyPassesOn(cfg, s, a, d, key, t);
    k := ReplacerLooked(cfg, run, a.pid, s.g.markers.objects[(d, key)].body);
  }

  // ------------------------------------------------------------------
  // A caller left alone
  // ------------------------------------------------------------------

  /** The transaction of marker `m` is neither visible nor waiting for a repair. */
  predicate Unfinished(g: Shared, d: Domain, m: Marker) {
    && m.txRecord.None?
    && ((d, m.txId) in g.records.objects ==>
          var r := g.records.objects[(d, m.txId)].body;
          r.status == Aborted || (r.status == Prepared && !r.repairPending))
  }

  /** The caller owns the key as transaction `t` and is about to work; no record or manifest has changed. */
  predicate Claimed(s: State, s': State, pid: nat, d: Domain, key: string, hash: string, t: TxId, now: int) {
    && pid in s'.procs && s'.procs[pid].pc == Working(StorePrepared(t))
    && s'.procs[pid].domain == d && s'.procs[pid].key == key && s'.procs[pid].hash == hash
    && (d, key) in s'.g.markers.objects
    && s'.g.markers.objects[(d, key)].body == Marker(t, KindOf(d), key, hash, now, None, None)
    && s'.g.records == s.g.records && s'.g.manifests == s.g.manifests
  }

  /** The caller has failed and left markers and records as they were. */
  predicate Refused(s: State, s': State, pid: nat) {
    pid in s'.procs && s'.procs[pid].pc.Failed? && s'.g.markers == s.g.markers && s'.g.records == s.g.records
  }

  /** A caller that has read the marker fails on a claim it may not replace ... */
  lemma RefusesAlone(cfg: Config, s: State, g: Shared, pid: nat, p: Proc, cs: seq<Choice>, v: nat, m: Marker)
    requires Faultless(cs) && |cs| == 5 && p.pc == Claiming(ClaimClassify(0, v, m)) && Unfinished(g, p.domain, m)
    requires m.hash != p.hash || !Expired(cfg, g, p.domain, m, cs[3].now)
    ensures Solo(cfg, With(s, g, pid, p), pid, cs, 3) == With(s, g, pid, p.(pc := Failed))
  {
    SoloStep(cfg, s, g, pid, p, cs, 3);
    SoloDone(cfg, s, g, pid, p.(pc := Failed), cs, 4);
  }

  /** ... and replaces one that has expired. */
  lemma ReplacesAlone(cfg: Config, s: State, g: Shared, pid: nat, p: Proc, cs: seq<Choice>, v: nat, m: Marker)
    requires Faultless(cs) && |cs| == 5 && p.pc == Claiming(ClaimClassify(0, v, m)) && Unfinished(g, p.domain, m)
    requires m.hash == p.hash && Expired(cfg, g, p.domain, m, cs[3].now) && Unused(g, cs[4].freshId)
    requires (p.domain, p.key) in g.markers.objects && g.markers.objects[(p.domain, p.key)] == Object(v, m)
    requires g.records == s.g.records && g.manifests == s.g.manifests
    ensures var s' := Solo(cfg, With(s, g, pid, p), pid, cs, 3);
            Claimed(s, s', pid, p.domain, p.key, p.hash, cs[4].freshId, cs[4].now)
  {
    SoloStep(cfg, s, g, pid, p, cs, 3);
    SoloStep(cfg, s, g, pid, p.(pc := Claiming(ClaimReplace(0, v, m))), cs, 4);
  }

  /** A new caller finds the key claimed and reads its marker. */
  lemma LooksAtMarker(cfg: Config, s: State, pid: nat, d: Domain, key: string, hash: string, ms: seq<Mutation>,
                      cs: seq<Choice>)
    requires (d, key) in s.g.markers.objects && pid !in s.procs && key != "" && DistinctDomains(ms)
    requires Faultless(cs) && |cs| >= 3 && Unused(s.g, cs[0].freshId)
    ensures var p := Proc(d, key, hash, ms, Claiming(ClaimPut(0)));
            var g := Allocate(s.g, pid, p, cs[0].freshId);
            var o := s.g.markers.objects[(d, key)];
            Solo(cfg, Next(cfg, s, Start(pid, d, key, hash, ms)), pid, cs, 0)
            == Solo(cfg, With(s, g, pid, p.(pc := Claiming(ClaimClassify(0, o.version, o.body)))), pid, cs, 3)
  {
    ReadsMarker(cfg, s, s.g, pid, Proc(d, key, hash, ms, Claiming(ClaimPut(0))), cs, 0);
  }

  /**
   A new caller, stepped alone and without faults, of a key whose transaction is neither
   visible nor waiting for a repair: it takes the key over exactly when it carries the key's
   request hash and the claim has expired by the time it looks; otherwise it fails and
   changes neither markers nor records.
   */
  lemma ClaimAlone(cfg: Config, s: State, pid: nat, d: Domain, key: string, hash: string, ms: seq<Mutation>,
                   cs: seq<Choice>)
    requires (d, key) in s.g.markers.objects && Unfinished(s.g, d, s.g.markers.objects[(d, key)].body)
    requires pid !in s.procs && key != "" && DistinctDomains(ms)
    requires Faultless(cs) && |cs| == 5 && cs[0].freshId != cs[4].freshId
    requires Unused(s.g, cs[0].freshId) && Unused(s.g, cs[4].freshId)
    ensures var s' := Solo(cfg, Next(cfg, s, Start(pid, d, key, hash, ms)), pid, cs, 0);
            var m := s.g.markers.objects[(d, key)].body;
            if m.hash == hash && Expired(cfg, s.g, d, m, cs[3].now)
            then Claimed(s, s', pid, d, key, hash, cs[4].freshId, cs[4].now)
            else Refused(s, s', pid)
  {
    var p := Proc(d, key, hash, ms, Claiming(ClaimPut(0)));
    var g := Allocate(s.g, pid, p, cs[0].freshId);
    var o := s.g.markers.objects[(d, key)];
    var p' := p.(pc := Claiming(ClaimClassify(0, o.version, o.body)));
    LooksAtMarker(cfg, s, pid, d, key, hash, ms, cs);
    if o.body.hash == hash && Expired(cfg, s.g, d, o.body, cs[3].now) {
      ReplacesAlone(cfg, s, g, pid, p', cs, o.version, o.body);
    } else {
      RefusesAlone(cfg, s, g, pid, p', cs, o.version, o.body);
    }
  }

  /** A new caller of a key nobody has claimed owns it after one step. */
  lemma FreshKeyIsClaimed(cfg: Config, s: State, pid: nat, d: Domain, key: string, hash: string, ms: seq<Mutation>,
                          c: Choice)
    requires (d, key) !in s.g.markers.objects && pid !in s.procs && key != "" && DistinctDomains(ms)
    requires c.fault == NoFault && Unused(s.g, c.freshId)
    ensures var s' := Next(cfg, Next(cfg, s, Start(pid, d, key, hash, ms)), Step(pid, c));
            Claimed(s, s', pid, d, key, hash, c.freshId, c.now)
  {
  }

  /** A caller with another hash that has read the marker fails. */
  lemma ForeignHashFails(cfg: Config, s: State, g: Shared, pid: nat, p: Proc, cs: seq<Choice>, v: nat, m: Marker)
    requires Faultless(cs) && |cs| >= 4 && p.pc == Claiming(ClaimClassify(0, v, m)) && m.hash != p.hash
    requires Unfinished(g, p.domain, m) || m.txRecord.Some? || RecordVisible(g, p.domain, m.txId)
    ensures Solo(cfg, With(s, g, pid, p), pid, cs, 3) == With(s, g, pid, p.(pc := Failed))
  {
    SoloStep(cfg, s, g, pid, p, cs, 3);
    SoloDone(cfg, s, g, pid, p.(pc := Failed), cs, 4);
  }

  /** A request with another hash than the key's fails, unless the key's batch waits for a repair. */
  lemma ForeignHashAlone(cfg: Config, s: State, pid: nat, d: Domain, key: string, hash: string, ms: seq<Mutation>,
                         cs: seq<Choice>)
    requires (d, key) in s.g.markers.objects && s.g.markers.objects[(d, key)].body.hash != hash
    requires Unfinished(s.g, d, s.g.markers.objects[(d, key)].body) || VisibleKey(s.g, d, key)
    requires pid !in s.procs && key != "" && DistinctDomains(ms)
    requires Faultless(cs) && |cs| >= 4 && Unused(s.g, cs[0].freshId)
    ensures Refused(s, Solo(cfg, Next(cfg, s, Start(pid, d, key, hash, ms)), pid, cs, 0), pid)
  {
    var p := Proc(d, key, hash, ms, Claiming(ClaimPut(0)));
    var o := s.g.markers.objects[(d, key)];
    ReadsMarker(cfg, s, s.g, pid, p, cs, 0);
    ForeignHashFails(cfg, s, Allocate(s.g, pid, p, cs[0].freshId), pid,
                     p.(pc := Claiming(ClaimClassify(0, o.version, o.body))), cs, o.version, o.body);
  }

  /**
   A caller that meets a storage fault while it claims, stores its prepared record or reads a
   record to repair fails; a fault before the write changes no marker and no record.
   */
  lemma FaultsFail(cfg: Config, s: State, pid: nat, c: Choice)
    requires pid in s.procs && c.fault != NoFault
    requires match s.procs[pid].pc
             case Claiming(ClaimClassify(_, _, m)) => m.txRecord.None?
             case Claiming(_) => Unused(s.g, c.freshId)
             case Working(w) => w.StorePrepared? || w.RepairGet?
             case _ => false
    ensures var s' := Next(cfg, s, Step(pid, c));
            && pid in s'.procs && s'.procs[pid].pc.Failed?
            && (c.fault == ErrorBefore ==> s'.g.markers == s.g.markers && s'.g.records == s.g.records)
  {
  }

  // ------------------------------------------------------------------
  // Work that fails
  // ------------------------------------------------------------------

  /** The delegated work reports a failure that applied nothing it must answer for. */
  predicate WorkFails(p: Proc, c: Choice) {
    match p.domain
    case Catalog => !c.ok || !c.work.Committed?
    case Orchestration => c.work.DefiniteFailure?
    case Root => !c.ok || MetastoreMutation in p.mutations
  }

  lemma WorkStartsAbort(cfg: Config, g: Shared, pid: nat, p: Proc, t: TxId, c: Choice)
    requires p.pc == Working(Work(t)) && WorkFails(p, c)
    ensures var r := Advance(cfg, g, pid, p, c);
            r.1 == Recording(LoadHead(Abort, t)) && r.0 == g.(applied := r.0.applied)
  {
  }

  function AbortedRecord(r: Record): Record { r.(status := Aborted, visibleAt := None, result := None) }

  /** Aborting alone. */
  lemma AbortsAlone(cfg: Config, s: State, g: Shared, pid: nat, p: Proc, t: TxId, cs: seq<Choice>, k: nat)
    requires Faultless(cs) && k + 3 <= |cs| && p.pc == Recording(LoadHead(Abort, t))
    requires (p.domain, t) in g.records.objects && g.records.objects[(p.domain, t)].body.status != Visible
    ensures var r := AbortedRecord(g.records.objects[(p.domain, t)].body);
            var g' := g.(records := Write(g.records, (p.domain, t), r));
            Solo(cfg, With(s, g, pid, p), pid, cs, k) == With(s, g', pid, p.(pc := Failed))
  {
    var (v, r) := (g.records.objects[(p.domain, t)].version, g.records.objects[(p.domain, t)].body);
    SoloStep(cfg, s, g, pid, p, cs, k);
    SoloStep(cfg, s, g, pid, p.(pc := Recording(LoadGet(Abort, t, v))), cs, k + 1);
    SoloStep(cfg, s, g, pid, p.(pc := Recording(AbortPut(t, v, r))), cs, k + 2);
    SoloDone(cfg, s, g.(records := Write(g.records, (p.domain, t), AbortedRecord(r))), pid, p.(pc := Failed), cs,
             k + 3);
  }

  lemma WorkedRecordIsHidden(s: State, pid: nat, t: TxId)
    requires Inv(s) && pid in s.procs && s.procs[pid].pc == Working(Work(t)) && !MayRepair(s.g, s.procs[pid].domain)
    ensures var d := s.procs[pid].domain; (d, t) in s.g.records.objects && !RecordVisible(s.g, d, t)
  {
    var (g, d) := (s.g, s.procs[pid].domain);
    assert ProcOk(g, pid, s.procs[pid]);
    assert RecordOk(g, d, t, g.records.objects[(d, t)].body);
  }

  /**
   A caller whose work fails, stepped alone and without faults from any reachable state,
   leaves its record aborted and otherwise as prepared, and touches no marker.
   */
  lemma FailedWorkIsAborted(cfg: Config, run: seq<Action>, pid: nat, t: TxId, cs: seq<Choice>)
    requires var s := Exec(cfg, Init(), run);
             && pid in s.procs && s.procs[pid].pc == Working(Work(t)) && !MayRepair(s.g, s.procs[pid].domain)
             && Faultless(cs) && |cs| == 4 && WorkFails(s.procs[pid], cs[0])
    ensures var s := Exec(cfg, Init(), run);
            var s' := Solo(cfg, s, pid, cs, 0);
            var d := s.procs[pid].domain;
            && pid in s'.procs && s'.procs[pid].pc.Failed? && s'.g.markers == s.g.markers
            && (d, t) in s.g.records.objects && (d, t) in s'.g.records.objects
            && s'.g.records.objects[(d, t)].body
               == s.g.records.objects[(d, t)].body.(status := Aborted, visibleAt := None, result := None)
            && forall k :: k in s.g.records.objects && k != (d, t) ==>
                 k in s'.g.records.objects && s'.g.records.objects[k] == s.g.records.objects[k]
  {
    Reached(cfg, run, []);
    var s := Exec(cfg, Init(), run);
    var p := s.procs[pid];
    WorkedRecordIsHidden(s, pid, t);
    assert s.procs[pid := p] == s.procs;
    WorkStartsAbort(cfg, s.g, pid, p, t, cs[0]);
    SoloStep(cfg, s, s.g, pid, p, cs, 0);
    AbortsAlone(cfg, s, Advance(cfg, s.g, pid, p, cs[0]).0, pid, p.(pc := Recording(LoadHead(Abort, t))), t, cs, 1);
  }
}

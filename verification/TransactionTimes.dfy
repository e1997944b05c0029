/**
 The times and counts that decide whether a claim may be replaced: a marker carries the time
 of the claim that wrote it, a record the time it was first stored, for good, and a caller
 gives up a contended key only after its fourth replacement was refused.
 */
module TransactionTimes {
  import opened ObjectStore
  import opened TransactionTypes
  import opened TransactionSteps
  import opened TransactionInvariant
  import opened TransactionProofs
  import opened TransactionTheorems
  import opened TransactionRecords
  import opened TransactionClaims

  // ------------------------------------------------------------------
  // When a marker was created
  // ------------------------------------------------------------------

  /** The step of `s` claims (d, key) for the transaction of marker `m`, with its hash and at its creation time. */
  predicate Claims(s: State, a: Action, d: Domain, key: string, m: Marker) {
    && a.Step? && a.pid in s.procs
    && var p := s.procs[a.pid];
    && p.domain == d && p.key == key && p.hash == m.hash
    && p.pc.Claiming? && (p.pc.claim.ClaimPut? || p.pc.claim.ClaimReplace?)
    && a.choice.freshId == m.txId && a.choice.now == m.createdAt
  }

  /** The marker is of the same claim: transaction, hash and creation time. */
  predicate SameClaim(g: Shared, d: Domain, key: string, m: Marker) {
    && (d, key) in g.markers.objects
    && var m0 := g.markers.objects[(d, key)].body; m0.txId == m.txId && m0.hash == m.hash && m0.createdAt == m.createdAt
  }

  /** A write of the fresh marker of `t`. */
  lemma FreshMarkerCreates(g: Shared, p: Proc, t: TxId, now: int, pre: Precondition, fault: Fault, d: Domain,
                           key: string)
    ensures var ms := TryPut(g.markers, (p.domain, p.key), FreshMarker(p, t, now), pre, fault).0;
            (d, key) in ms.objects ==>
              var m := ms.objects[(d, key)].body;
              || SameClaim(g, d, key, m)
              || (p.domain == d && p.key == key && p.hash == m.hash && t == m.txId && now == m.createdAt)
  {
  }

  lemma ClaimCreates(cfg: Config, s: State, pid: nat, pc: ClaimPc, c: Choice, d: Domain, key: string)
    requires pid in s.procs && s.procs[pid].pc == Claiming(pc)
    ensures var g' := AdvanceClaim(cfg, s.g, pid, s.procs[pid], pc, c).0;
            (d, key) in g'.markers.objects ==>
              var m := g'.markers.objects[(d, key)].body;
              SameClaim(s.g, d, key, m) || Claims(s, Step(pid, c), d, key, m)
  {
    match pc
    case ClaimPut(_) => FreshMarkerCreates(s.g, s.procs[pid], c.freshId, c.now, DoesNotExist, c.fault, d, key);
    case ClaimReplace(_, v, _) =>
      FreshMarkerCreates(s.g, s.procs[pid], c.freshId, c.now, MatchesVersion(v), c.fault, d, key);
    case _ =>
  }

  lemma RewriteKeepsClaim(g: Shared, p: Proc, v: nat, m: Marker, m': Marker, fault: Fault, d: Domain, key: string)
    requires Seen(g.markers, (p.domain, p.key), v, m)
    requires m'.txId == m.txId && m'.hash == m.hash && m'.createdAt == m.createdAt
    ensures var ms := TryPut(g.markers, (p.domain, p.key), m', MatchesVersion(v), fault).0;
            (d, key) in ms.objects ==> SameClaim(g, d, key, ms.objects[(d, key)].body)
  {
  }

  lemma MarkerWriteKeepsClaim(cfg: Config, g: Shared, p: Proc, pub: Publication, v: nat, m: Marker, c: Choice,
                              d: Domain, key: string)
    requires Seen(g.markers, (p.domain, p.key), v, m)
    ensures var g' := StepPersistMarker(cfg, g, p, pub, v, m, c).0;
            (d, key) in g'.markers.objects ==> SameClaim(g, d, key, g'.markers.objects[(d, key)].body)
  {
    RewriteKeepsClaim(g, p, v, m, m.(visibleAt := pub.record.visibleAt, txRecord := Some(pub.record)), c.fault, d, key);
  }

  lemma PublicationKeepsClaim(cfg: Config, g: Shared, p: Proc, pub: Publication, pc: PersistPc, c: Choice,
                              d: Domain, key: string)
    requires pc.PersistMarker? ==> Seen(g.markers, (p.domain, p.key), pc.version, pc.marker)
    ensures var g' := AdvancePersist(cfg, g, p, pub, pc, c).0;
            (d, key) in g'.markers.objects ==> SameClaim(g, d, key, g'.markers.objects[(d, key)].body)
  {
    match pc
    case PersistMarker(v, m) => MarkerWriteKeepsClaim(cfg, g, p, pub, v, m, c, d, key);
    case _ =>
  }

  lemma AdvanceCreates(cfg: Config, s: State, pid: nat, c: Choice, d: Domain, key: string)
    requires pid in s.procs && PcOk(s.g, pid, s.procs[pid], s.procs[pid].pc)
    ensures var g' := Advance(cfg, s.g, pid, s.procs[pid], c).0;
            (d, key) in g'.markers.objects ==>
              var m := g'.markers.objects[(d, key)].body;
              SameClaim(s.g, d, key, m) || Claims(s, Step(pid, c), d, key, m)
  {
    var p := s.procs[pid];
    match p.pc
    case Claiming(pc) => ClaimCreates(cfg, s, pid, pc, c, d, key);
    case Working(pc) => WorkLeavesMarkers(cfg, s.g, pid, p, pc, c);
    case Persisting(pub, pc) => PublicationKeepsClaim(cfg, s.g, p, pub, pc, c, d, key);
    case Recording(pc) => LoadLeavesMarkers(cfg, s.g, p, pc, c);
    case _ =>
  }

  lemma NextCreates(cfg: Config, s: State, a: Action, d: Domain, key: string)
    requires ProcsOk(s.g, s.procs) && (d, key) in Next(cfg, s, a).g.markers.objects
    ensures var m := Next(cfg, s, a).g.markers.objects[(d, key)].body;
            SameClaim(s.g, d, key, m) || Claims(s, a, d, key, m)
  {
    if a.Step? && a.pid in s.procs {
      assert ProcOk(s.g, a.pid, s.procs[a.pid]);
      AdvanceCreates(cfg, s, a.pid, a.choice, d, key);
    }
  }

  ghost predicate ClaimedAt(cfg: Config, run: seq<Action>, k: nat, d: Domain, key: string, m: Marker) {
    k < |run| && Claims(Exec(cfg, Init(), run[..k]), run[k], d, key, m)
  }

  /** In every run, every marker has the transaction, the request hash and the time of a claim made in the run. */
  lemma {:induction false} MarkersAreDated(cfg: Config, run: seq<Action>, d: Domain, key: string, m: Marker)
    returns (k: nat)
    requires SameClaim(Exec(cfg, Init(), run).g, d, key, m)
    ensures ClaimedAt(cfg, run, k, d, key, m)
    decreases |run|
  {
    assert run != [];
    var n := |run| - 1;
    ExecSnoc(cfg, Init(), run[..n], run[n]);
    assert run[..n] + [run[n]] == run;
    var before := Exec(cfg, Init(), run[..n]);
    Reached(cfg, run[..n], []);
    NextCreates(cfg, before, run[n], d, key);
    if SameClaim(before.g, d, key, m) {
      k := MarkersAreDated(cfg, run[..n], d, key, m);
      assert run[..n][..k] == run[..k];
    } else {
      k := n;
    }
  }

  // ------------------------------------------------------------------
  // When a record was prepared
  // ------------------------------------------------------------------

  /** The step of `s` stores the first record of `t`, for this request and at this time. */
  predicate Prepares(s: State, a: Action, d: Domain, t: TxId, key: string, hash: string, at: int) {
    && a.Step? && a.pid in s.procs
    && var p := s.procs[a.pid];
    && p.domain == d && p.key == key && p.hash == hash && p.pc == Working(StorePrepared(t)) && a.choice.now == at
  }

  predicate HasRecord(g: Shared, d: Domain, t: TxId, key: string, hash: string, at: int) {
    && (d, t) in g.records.objects
    && var r := g.records.objects[(d, t)].body; r.key == key && r.hash == hash && r.preparedAt == at
  }

  lemma WorkPrepares(cfg: Config, g: Shared, pid: nat, p: Proc, pc: WorkPc, c: Choice, d: Domain, t: TxId)
    requires var g' := AdvanceWork(cfg, g, pid, p, pc, c).0;
             (d, t) in g'.records.objects && (d, t) !in g.records.objects
    ensures pc == StorePrepared(t) && p.domain == d
    ensures HasRecord(AdvanceWork(cfg, g, pid, p, pc, c).0, d, t, p.key, p.hash, c.now)
  {
  }

  lemma PublicationAddsNoRecord(cfg: Config, g: Shared, p: Proc, pub: Publication, pc: PersistPc, c: Choice)
    requires (p.domain, pub.record.txId) in g.records.objects
    ensures AdvancePersist(cfg, g, p, pub, pc, c).0.records.objects.Keys == g.records.objects.Keys
  {
  }

  lemma LoadAddsNoRecord(cfg: Config, g: Shared, p: Proc, pc: RecordPc, c: Choice)
    requires pc.ResolvePut? ==> (p.domain, pc.record.txId) in g.records.objects
    ensures AdvanceRecord(cfg, g, p, pc, c).0.records.objects.Keys == g.records.objects.Keys
  {
  }

  lemma ClaimAddsNoRecord(cfg: Config, g: Shared, pid: nat, p: Proc, pc: ClaimPc, c: Choice)
    ensures AdvanceClaim(cfg, g, pid, p, pc, c).0.records == g.records
  {
  }

  lemma NextPrepares(cfg: Config, s: State, a: Action, d: Domain, t: TxId, key: string, hash: string, at: int)
    requires Inv(s) && HasRecord(Next(cfg, s, a).g, d, t, key, hash, at) && (d, t) !in s.g.records.objects
    ensures Prepares(s, a, d, t, key, hash, at)
  {
    if a.Step? && a.pid in s.procs {
      var p := s.procs[a.pid];
      assert ProcOk(s.g, a.pid, p);
      match p.pc
      case Claiming(pc) => ClaimAddsNoRecord(cfg, s.g, a.pid, p, pc, a.choice);
      case Working(pc) => WorkPrepares(cfg, s.g, a.pid, p, pc, a.choice, d, t);
      case Persisting(pub, pc) => PublicationAddsNoRecord(cfg, s.g, p, pub, pc, a.choice);
      case Recording(pc) => LoadAddsNoRecord(cfg, s.g, p, pc, a.choice);
      case _ =>
    }
  }

  /** What a record says of its request and its preparation never changes. */
  lemma RecordKeepsRequest(cfg: Config, s: State, a: Action, d: Domain, t: TxId, key: string, hash: string, at: int)
    requires Inv(s) && HasRecord(Next(cfg, s, a).g, d, t, key, hash, at) && (d, t) in s.g.records.objects
    ensures HasRecord(s.g, d, t, key, hash, at)
  {
    NextKeepsInv(cfg, s, a);
    var s' := Next(cfg, s, a);
    assert RecordOk(s.g, d, t, s.g.records.objects[(d, t)].body);
    assert RecordOk(s'.g, d, t, s'.g.records.objects[(d, t)].body);
  }

  ghost predicate PreparedAt(cfg: Config, run: seq<Action>, k: nat, d: Domain, t: TxId, key: string, hash: string,
                             at: int) {
    k < |run| && Prepares(Exec(cfg, Init(), run[..k]), run[k], d, t, key, hash, at)
  }

  /**
   In every run, every record, whatever became of it, carries the key and hash of the caller
   that stored it first and the time at which it did.
   */
  lemma {:induction false} RecordsAreDated(cfg: Config, run: seq<Action>, d: Domain, t: TxId, key: string, hash: string,
                                           at: int) returns (k: nat)
    requires HasRecord(Exec(cfg, Init(), run).g, d, t, key, hash, at)
    ensures PreparedAt(cfg, run, k, d, t, key, hash, at)
    decreases |run|
  {
    assert run != [];
    var n := |run| - 1;
    ExecSnoc(cfg, Init(), run[..n], run[n]);
    assert run[..n] + [run[n]] == run;
    var before := Exec(cfg, Init(), run[..n]);
    Reached(cfg, run[..n], []);
    if (d, t) in before.g.records.objects {
      RecordKeepsRequest(cfg, before, run[n], d, t, key, hash, at);
      k := RecordsAreDated(cfg, run[..n], d, t, key, hash, at);
      assert run[..n][..k] == run[..k];
    } else {
      NextPrepares(cfg, before, run[n], d, t, key, hash, at);
      k := n;
    }
  }

  // ------------------------------------------------------------------
  // How often a contended key is tried
  // ------------------------------------------------------------------

  /** In this step `pid` tries to replace a claim that is no longer the one it read, and is told so. */
  predicate IsRefused(s: State, a: Action, pid: nat) {
    && a.Step? && a.pid == pid && pid in s.procs && a.choice.fault == NoFault && Unused(s.g, a.choice.freshId)
    && var p := s.procs[pid];
    && p.pc.Claiming? && p.pc.claim.ClaimReplace?
    && !((p.domain, p.key) in s.g.markers.objects
         && s.g.markers.objects[(p.domain, p.key)].version == p.pc.claim.version)
  }

  /** How often `pid` was refused in the run. */
  ghost function Refusals(cfg: Config, run: seq<Action>, pid: nat): nat
    decreases |run|
  {
    if run == [] then 0
    else
      var n := |run| - 1;
      Refusals(cfg, run[..n], pid) + (if IsRefused(Exec(cfg, Init(), run[..n]), run[n], pid) then 1 else 0)
  }

  /** A claiming caller was refused as often as its attempts say. */
  ghost predicate CountsRefusals(cfg: Config, run: seq<Action>, pid: nat) {
    var s := Exec(cfg, Init(), run);
    && (pid !in s.procs ==> Refusals(cfg, run, pid) == 0)
    && (pid in s.procs && s.procs[pid].pc.Claiming? ==>
          s.procs[pid].pc.claim.attempt == Refusals(cfg, run, pid) && Refusals(cfg, run, pid) < 4)
  }

  lemma ClaimCounts(cfg: Config, g: Shared, pid: nat, p: Proc, pc: ClaimPc, c: Choice, refused: bool)
    requires p.pc == Claiming(pc) && pc.attempt < 4
    requires refused <==> (pc.ClaimReplace? && c.fault == NoFault && Unused(g, c.freshId)
                           && !((p.domain, p.key) in g.markers.objects
                                && g.markers.objects[(p.domain, p.key)].version == pc.version))
    ensures var pc' := AdvanceClaim(cfg, g, pid, p, pc, c).1;
            && (refused ==> if pc.attempt + 1 < 4 then pc' == Claiming(ClaimPut(pc.attempt + 1)) else pc' == Failed)
            && (!refused && pc'.Claiming? ==> pc'.claim.attempt == pc.attempt)
  {
  }

  lemma StepCounts(cfg: Config, s: State, pid: nat, c: Choice, n: nat)
    requires pid in s.procs && (s.procs[pid].pc.Claiming? ==> s.procs[pid].pc.claim.attempt == n < 4)
    ensures var (s', refused) := (Next(cfg, s, Step(pid, c)), IsRefused(s, Step(pid, c), pid));
            && pid in s'.procs
            && (refused ==>
                  if n + 1 < 4 then s'.procs[pid].pc == Claiming(ClaimPut(n + 1)) else s'.procs[pid].pc == Failed)
            && (s'.procs[pid].pc.Claiming? ==> s'.procs[pid].pc.claim.attempt == n + (if refused then 1 else 0) < 4)
  {
    var p := s.procs[pid];
    if p.pc.Claiming? {
      ClaimCounts(cfg, s.g, pid, p, p.pc.claim, c, IsRefused(s, Step(pid, c), pid));
    } else if !StartsChild(p) && !AwaitsChild(p) {
      OthersEnterNothing(cfg, s.g, pid, p, c);
    }
  }

  lemma {:induction false} RefusalsAreCounted(cfg: Config, run: seq<Action>, pid: nat)
    ensures CountsRefusals(cfg, run, pid)
    decreases |run|
  {
    if run != [] {
      var n := |run| - 1;
      ExecSnoc(cfg, Init(), run[..n], run[n]);
      assert run[..n] + [run[n]] == run;
      RefusalsAreCounted(cfg, run[..n], pid);
      var before := Exec(cfg, Init(), run[..n]);
      if run[n].Step? && run[n].pid == pid && pid in before.procs {
        StepCounts(cfg, before, pid, run[n].choice, Refusals(cfg, run[..n], pid));
      }
    }
  }

  /** In every run, a caller whose replacement is refused claims again, unless it was the fourth refusal. */
  lemma RefusedCallersRetry(cfg: Config, run: seq<Action>, pid: nat, c: Choice)
    requires IsRefused(Exec(cfg, Init(), run), Step(pid, c), pid)
    ensures var s' := Next(cfg, Exec(cfg, Init(), run), Step(pid, c));
            && pid in s'.procs
            && if Refusals(cfg, run, pid) + 1 < 4
               then s'.procs[pid].pc.Claiming? && s'.procs[pid].pc.claim.ClaimPut?
               else s'.procs[pid].pc.Failed?
  {
    RefusalsAreCounted(cfg, run, pid);
    StepCounts(cfg, Exec(cfg, Init(), run), pid, c, Refusals(cfg, run, pid));
  }
}

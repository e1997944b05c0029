/**
 Replays finish: from every reachable state in which a key is visible, in its marker or only
 in its record, a new caller with the key's request hash that is left alone is answered
 within ten storage operations and leaves marker and record visible and in agreement.
 */
module TransactionReplay {
  import opened ObjectStore
  import opened TransactionTypes
  import opened TransactionSteps
  import opened TransactionInvariant
  import opened TransactionTheorems

  /** The steps of one process alone, one per choice from the `k`-th on. */
  function Solo(cfg: Config, s: State, pid: nat, cs: seq<Choice>, k: nat): State
    decreases |cs| - k
  {
    if k >= |cs| then s else Solo(cfg, Next(cfg, s, Step(pid, cs[k])), pid, cs, k + 1)
  }

  predicate Faultless(cs: seq<Choice>) { forall i :: 0 <= i < |cs| ==> cs[i].fault == NoFault }

  /** The state with process `pid` at `p` over shared state `g`. */
  function With(s: State, g: Shared, pid: nat, p: Proc): State { State(g, s.procs[pid := p]) }

  lemma SoloStep(cfg: Config, s: State, g: Shared, pid: nat, p: Proc, cs: seq<Choice>, k: nat)
    requires k < |cs| && !StartsChild(p) && !AwaitsChild(p)
    ensures var (g', pc) := Advance(cfg, g, pid, p, cs[k]);
            Solo(cfg, With(s, g, pid, p), pid, cs, k) == Solo(cfg, With(s, g', pid, p.(pc := pc)), pid, cs, k + 1)
  {
    var (g', pc) := Advance(cfg, g, pid, p, cs[k]);
    assert With(s, g, pid, p).procs[pid := p.(pc := pc)] == s.procs[pid := p.(pc := pc)];
  }

  /** A process that has answered or failed does nothing more. */
  lemma {:induction false} SoloDone(cfg: Config, s: State, g: Shared, pid: nat, p: Proc, cs: seq<Choice>, k: nat)
    requires p.pc.Done? || p.pc.Failed?
    ensures Solo(cfg, With(s, g, pid, p), pid, cs, k) == With(s, g, pid, p)
    decreases |cs| - k
  {
    if k < |cs| {
      SoloStep(cfg, s, g, pid, p, cs, k);
      assert p.(pc := p.pc) == p;
      SoloDone(cfg, s, g, pid, p, cs, k + 1);
    }
  }

  lemma {:induction false} SoloSuffix(cfg: Config, s: State, pid: nat, cs: seq<Choice>, j: nat, k: nat)
    requires j + k <= |cs|
    ensures Solo(cfg, s, pid, cs, j + k) == Solo(cfg, s, pid, cs[j..], k)
    decreases |cs| - k
  {
    if j + k < |cs| {
      SoloSuffix(cfg, Next(cfg, s, Step(pid, cs[j + k])), pid, cs, j, k + 1);
    }
  }

  /** Choices are taken one after the other. */
  lemma {:induction false} SoloSplits(cfg: Config, s: State, pid: nat, cs: seq<Choice>, j: nat, k: nat)
    requires k <= j <= |cs|
    ensures Solo(cfg, s, pid, cs, k) == Solo(cfg, Solo(cfg, s, pid, cs[..j], k), pid, cs[j..], 0)
    decreases j - k
  {
    if k < j {
      SoloSplits(cfg, Next(cfg, s, Step(pid, cs[k])), pid, cs, j, k + 1);
    } else {
      SoloSuffix(cfg, s, pid, cs, j, 0);
    }
  }

  /** The transaction of the key's marker is visible, in the marker or in its record. */
  predicate VisibleKey(g: Shared, d: Domain, key: string) {
    && (d, key) in g.markers.objects
    && var m := g.markers.objects[(d, key)].body;
       m.txRecord.Some? || RecordVisible(g, d, m.txId)
  }

  /** Marker and record of `t` are visible and hold receipt `rc`; under repairs the marker may hold another. */
  predicate Agrees(g: Shared, d: Domain, key: string, t: TxId, rc: Receipt) {
    && MarkerVisible(g, d, key, t) && RecordVisible(g, d, t)
    && g.records.objects[(d, t)].body.result == Some(rc) && rc.txId == t
    && (MayRepair(g, d) || g.markers.objects[(d, key)].body.txRecord.value.result == Some(rc))
  }

  /** What a caller of a visible key knows of its marker and record. */
  predicate Replayable(g: Shared, d: Domain, key: string, m: Marker) {
    && (d, key) in g.markers.objects && g.markers.objects[(d, key)].body == m
    && (d, m.txId) in g.records.objects
    && var r := g.records.objects[(d, m.txId)].body;
    && r.txId == m.txId && r.hash == m.hash && r.kind == m.kind && r.key == m.key && m.key == key
    && (m.txRecord.None? ==> r.status == Visible)
    && (r.status == Visible ==> r.result.Some? && r.result.value.txId == m.txId)
    && (m.txRecord.Some? ==>
          var cached := m.txRecord.value;
          && cached.status == Visible && SameTransaction(cached, m) && MayReplace(r, cached)
          && cached.result.Some? && cached.result.value.txId == m.txId
          && (r.status == Visible && !MayRepair(g, d) ==> cached.result == r.result))
  }

  lemma VisibleKeyIsReplayable(g: Shared, d: Domain, key: string)
    requires SharedOk(g) && VisibleKey(g, d, key)
    ensures Replayable(g, d, key, g.markers.objects[(d, key)].body)
  {
    var m := g.markers.objects[(d, key)].body;
    assert MarkerOk(g, d, key, m);
    assert RecordOk(g, d, m.txId, g.records.objects[(d, m.txId)].body);
  }

  /** The claim fails and the marker is read ... */
  lemma ReadsMarker(cfg: Config, s: State, g: Shared, pid: nat, p: Proc, cs: seq<Choice>, k: nat)
    requires Faultless(cs) && k + 3 <= |cs| && Unused(g, cs[k].freshId) && p.pc == Claiming(ClaimPut(0))
    requires (p.domain, p.key) in g.markers.objects
    ensures var o := g.markers.objects[(p.domain, p.key)];
            var p' := p.(pc := Claiming(ClaimClassify(0, o.version, o.body)));
            Solo(cfg, With(s, g, pid, p), pid, cs, k)
            == Solo(cfg, With(s, Allocate(g, pid, p, cs[k].freshId), pid, p'), pid, cs, k + 3)
  {
    var g1 := Allocate(g, pid, p, cs[k].freshId);
    SoloStep(cfg, s, g, pid, p, cs, k);
    SoloStep(cfg, s, g1, pid, p.(pc := Claiming(ClaimHead(0))), cs, k + 1);
    SoloStep(cfg, s, g1, pid, p.(pc := Claiming(ClaimGet(0, g.markers.objects[(p.domain, p.key)].version))), cs, k + 2);
  }

  /** ... and its transaction is found visible. */
  lemma FindsVisible(cfg: Config, s: State, g: Shared, pid: nat, p: Proc, cs: seq<Choice>, v: nat, m: Marker, k: nat)
    requires Faultless(cs) && p.pc == Claiming(ClaimClassify(0, v, m)) && k + 1 <= |cs| && m.hash == p.hash
    requires m.txRecord.Some? || RecordVisible(g, p.domain, m.txId)
    ensures var p' := p.(pc := Recording(LoadHead(Resolve(m), m.txId)));
            Solo(cfg, With(s, g, pid, p), pid, cs, k) == Solo(cfg, With(s, g, pid, p'), pid, cs, k + 1)
  {
    SoloStep(cfg, s, g, pid, p, cs, k);
  }

  /** The record is read. */
  lemma ReadsRecord(cfg: Config, s: State, g: Shared, pid: nat, p: Proc, cs: seq<Choice>, m: Marker, k: nat)
    requires Faultless(cs) && p.pc == Recording(LoadHead(Resolve(m), m.txId)) && k + 2 <= |cs|
    requires (p.domain, m.txId) in g.records.objects
    ensures var o := g.records.objects[(p.domain, m.txId)];
            Solo(cfg, With(s, g, pid, p), pid, cs, k)
            == Solo(cfg, With(s, g, pid, p.(pc := AfterLoad(p, Resolve(m), m.txId, o.version, o.body))), pid, cs, k + 2)
  {
    var v := g.records.objects[(p.domain, m.txId)].version;
    SoloStep(cfg, s, g, pid, p, cs, k);
    SoloStep(cfg, s, g, pid, p.(pc := Recording(LoadGet(Resolve(m), m.txId, v))), cs, k + 1);
  }

  /** A record that lags is brought up to date from the marker's copy. */
  lemma UpdatesRecord(cfg: Config, s: State, g: Shared, pid: nat, p: Proc, cs: seq<Choice>, m: Marker, v: nat, k: nat)
    requires Faultless(cs) && k + 1 <= |cs| && Replayable(g, p.domain, p.key, m) && m.txRecord.Some?
    requires g.records.objects[(p.domain, m.txId)].version == v
    requires var cached := m.txRecord.value;
             p.pc == Recording(ResolvePut(cached, cached.result.value, MatchesVersion(v)))
    ensures var s' := Solo(cfg, With(s, g, pid, p), pid, cs, k);
            var rc := m.txRecord.value.result.value;
            Answered(s', pid, p.domain, p.key, rc) && Agrees(s'.g, p.domain, p.key, m.txId, rc)
  {
    var cached := m.txRecord.value;
    var g' := g.(records := Write(g.records, (p.domain, m.txId), cached));
    SoloStep(cfg, s, g, pid, p, cs, k);
    SoloDone(cfg, s, g', pid, p.(pc := Done(cached.result.value, cached.repairPending)), cs, k + 1);
  }

  /** A marker that lags is read again ... */
  lemma RereadsMarker(cfg: Config, s: State, g: Shared, pid: nat, p: Proc, cs: seq<Choice>, m: Marker, pub: Publication,
                      k: nat)
    requires Faultless(cs) && k + 2 <= |cs| && p.pc == Persisting(pub, PersistHead)
    requires (p.domain, p.key) in g.markers.objects && g.markers.objects[(p.domain, p.key)].body == m
    requires m.txId == pub.record.txId && m.hash == pub.record.hash
    ensures var p' := p.(pc := Persisting(pub, PersistMarker(g.markers.objects[(p.domain, p.key)].version, m)));
            Solo(cfg, With(s, g, pid, p), pid, cs, k) == Solo(cfg, With(s, g, pid, p'), pid, cs, k + 2)
  {
    SoloStep(cfg, s, g, pid, p, cs, k);
    SoloStep(cfg, s, g, pid, p.(pc := Persisting(pub, PersistGet(g.markers.objects[(p.domain, p.key)].version))), cs,
             k + 1);
  }

  /** ... and written, ... */
  lemma WritesMarker(cfg: Config, s: State, g: Shared, g': Shared, pid: nat, p: Proc, cs: seq<Choice>, m: Marker,
                     pub: Publication, k: nat)
    requires Faultless(cs) && k + 1 <= |cs| && (p.domain, p.key) in g.markers.objects
    requires p.pc == Persisting(pub, PersistMarker(g.markers.objects[(p.domain, p.key)].version, m))
    requires var m' := m.(visibleAt := pub.record.visibleAt, txRecord := Some(pub.record));
             g' == g.(markers := Write(g.markers, (p.domain, p.key), m'))
    ensures var p' := p.(pc := Persisting(pub, PersistRecord));
            Solo(cfg, With(s, g, pid, p), pid, cs, k) == Solo(cfg, With(s, g', pid, p'), pid, cs, k + 1)
  {
    SoloStep(cfg, s, g, pid, p, cs, k);
  }

  /** ... and the record is written over itself. */
  lemma RewritesRecord(cfg: Config, s: State, g: Shared, pid: nat, p: Proc, cs: seq<Choice>, pub: Publication, k: nat)
    requires Faultless(cs) && k + 1 <= |cs| && pub.who == Replayer && p.pc == Persisting(pub, PersistRecord)
    requires MarkerVisible(g, p.domain, p.key, pub.record.txId)
    requires g.markers.objects[(p.domain, p.key)].body.txRecord == Some(pub.record)
    requires (p.domain, pub.record.txId) in g.records.objects
    requires g.records.objects[(p.domain, pub.record.txId)].version == pub.recordVersion
    requires pub.record.status == Visible && pub.record.result == Some(pub.receipt)
    requires pub.receipt.txId == pub.record.txId
    ensures var s' := Solo(cfg, With(s, g, pid, p), pid, cs, k);
            Answered(s', pid, p.domain, p.key, pub.receipt)
            && Agrees(s'.g, p.domain, p.key, pub.record.txId, pub.receipt)
  {
    var g' := g.(records := Write(g.records, (p.domain, pub.record.txId), pub.record));
    SoloStep(cfg, s, g, pid, p, cs, k);
    SoloDone(cfg, s, g', pid, p.(pc := Done(pub.receipt, pub.record.repairPending)), cs, k + 1);
  }

  lemma UpdatesMarker(cfg: Config, s: State, g: Shared, pid: nat, p: Proc, cs: seq<Choice>, m: Marker, pub: Publication,
                      k: nat)
    requires Faultless(cs) && k + 4 <= |cs| && Replayable(g, p.domain, p.key, m)
    requires g.records.objects[(p.domain, m.txId)] == Object(pub.recordVersion, pub.record)
    requires pub.who == Replayer && pub.record.status == Visible && pub.record.result == Some(pub.receipt)
    requires p.pc == Persisting(pub, PersistHead)
    ensures var s' := Solo(cfg, With(s, g, pid, p), pid, cs, k);
            Answered(s', pid, p.domain, p.key, pub.receipt) && Agrees(s'.g, p.domain, p.key, m.txId, pub.receipt)
  {
    var v := g.markers.objects[(p.domain, p.key)].version;
    var m' := m.(visibleAt := pub.record.visibleAt, txRecord := Some(pub.record));
    var g' := g.(markers := Write(g.markers, (p.domain, p.key), m'));
    RereadsMarker(cfg, s, g, pid, p, cs, m, pub, k);
    WritesMarker(cfg, s, g, g', pid, p.(pc := Persisting(pub, PersistMarker(v, m))), cs, m, pub, k + 2);
    RewritesRecord(cfg, s, g', pid, p.(pc := Persisting(pub, PersistRecord)), cs, pub, k + 3);
  }

  /** Whatever the record says, four more steps bring marker and record into agreement. */
  lemma Converges(cfg: Config, s: State, g: Shared, pid: nat, p: Proc, cs: seq<Choice>, m: Marker, k: nat)
    returns (rc: Receipt)
    requires Faultless(cs) && k + 4 <= |cs| && Replayable(g, p.domain, p.key, m)
    requires var o := g.records.objects[(p.domain, m.txId)];
             p.pc == AfterLoad(p, Resolve(m), m.txId, o.version, o.body)
    ensures var s' := Solo(cfg, With(s, g, pid, p), pid, cs, k);
            Answered(s', pid, p.domain, p.key, rc) && Agrees(s'.g, p.domain, p.key, m.txId, rc)
  {
    var o := g.records.objects[(p.domain, m.txId)];
    if o.body.status != Visible {
      rc := m.txRecord.value.result.value;
      UpdatesRecord(cfg, s, g, pid, p, cs, m, o.version, k);
    } else if m.visibleAt != o.body.visibleAt || m.txRecord.None? {
      rc := o.body.result.value;
      UpdatesMarker(cfg, s, g, pid, p, cs, m, Publication(Replayer, rc, o.body, o.version), k);
    } else {
      rc := o.body.result.value;
      SoloDone(cfg, s, g, pid, p, cs, k);
    }
  }

  /** From the claim to the record, in six steps. */
  lemma ReachesRecord(cfg: Config, s: State, g: Shared, g': Shared, pid: nat, p: Proc, cs: seq<Choice>, m: Marker,
                      k: nat)
    requires Faultless(cs) && k + 6 <= |cs| && Unused(g, cs[k].freshId) && p.pc == Claiming(ClaimPut(0))
    requires Replayable(g, p.domain, p.key, m) && m.hash == p.hash && g' == Allocate(g, pid, p, cs[k].freshId)
    ensures var o := g.records.objects[(p.domain, m.txId)];
            var p' := p.(pc := AfterLoad(p, Resolve(m), m.txId, o.version, o.body));
            Solo(cfg, With(s, g, pid, p), pid, cs, k) == Solo(cfg, With(s, g', pid, p'), pid, cs, k + 6)
  {
    var v := g.markers.objects[(p.domain, p.key)].version;
    ReadsMarker(cfg, s, g, pid, p, cs, k);
    FindsVisible(cfg, s, g', pid, p.(pc := Claiming(ClaimClassify(0, v, m))), cs, v, m, k + 3);
    ReadsRecord(cfg, s, g', pid, p.(pc := Recording(LoadHead(Resolve(m), m.txId))), cs, m, k + 4);
  }

  lemma ReplayConvergesFrom(cfg: Config, s: State, pid: nat, p: Proc, cs: seq<Choice>, m: Marker, k: nat)
    returns (rc: Receipt)
    requires Faultless(cs) && k + 10 <= |cs| && Unused(s.g, cs[k].freshId) && p.pc == Claiming(ClaimPut(0))
    requires Replayable(s.g, p.domain, p.key, m) && m.hash == p.hash
    ensures var s' := Solo(cfg, With(s, s.g, pid, p), pid, cs, k);
            Answered(s', pid, p.domain, p.key, rc) && Agrees(s'.g, p.domain, p.key, m.txId, rc)
  {
    var g := Allocate(s.g, pid, p, cs[k].freshId);
    ReachesRecord(cfg, s, s.g, g, pid, p, cs, m, k);
    var o := g.records.objects[(p.domain, m.txId)];
    var p' := p.(pc := AfterLoad(p, Resolve(m), m.txId, o.version, o.body));
    assert Replayable(g, p.domain, p.key, m);
    rc := Converges(cfg, s, g, pid, p', cs, m, k + 6);
  }

  /**
   A new caller of a visible key with the key's request hash, stepped alone and without
   faults from any reachable state, is answered for the visible transaction within ten
   steps, and marker and record then agree.
   */
  lemma ReplayConverges(cfg: Config, run: seq<Action>, pid: nat, d: Domain, key: string, hash: string,
                        ms: seq<Mutation>, cs: seq<Choice>) returns (rc: Receipt)
    requires var s := Exec(cfg, Init(), run);
             && VisibleKey(s.g, d, key) && s.g.markers.objects[(d, key)].body.hash == hash
             && pid !in s.procs && |cs| >= 10 && Unused(s.g, cs[0].freshId)
    requires Faultless(cs) && key != "" && DistinctDomains(ms)
    ensures var s := Exec(cfg, Init(), run);
            var s' := Solo(cfg, Next(cfg, s, Start(pid, d, key, hash, ms)), pid, cs, 0);
            Answered(s', pid, d, key, rc) && Agrees(s'.g, d, key, s.g.markers.objects[(d, key)].body.txId, rc)
  {
    Reached(cfg, run, []);
    var s := Exec(cfg, Init(), run);
    var m := s.g.markers.objects[(d, key)].body;
    VisibleKeyIsReplayable(s.g, d, key);
    rc := ReplayConvergesFrom(cfg, s, pid, Proc(d, key, hash, ms, Claiming(ClaimPut(0))), cs, m, 0);
  }
}

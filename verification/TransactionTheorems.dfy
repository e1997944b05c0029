/**
 What the control-plane transaction service guarantees over whole runs.

 Every theorem speaks about the state after an arbitrary run and, where it says
 "later", about an arbitrary continuation of it: any number of callers, any
 interleaving, crashes between any two storage operations, lost replies and storage
 errors everywhere.  Uniqueness is claimed for runs in which no finalize went on after
 a marker write that failed and left the marker without the transaction.
 */
module TransactionTheorems {
  import opened ObjectStore
  import opened TransactionTypes
  import opened TransactionSteps
  import opened TransactionInvariant
  import opened TransactionProofs

  lemma InitOk()
    ensures Inv(Init())
  {
  }

  /** A reachable state and a later one satisfy the invariant and are related. */
  lemma Reached(cfg: Config, run: seq<Action>, more: seq<Action>)
    ensures var s := Exec(cfg, Init(), run); Inv(s) && NextOkFor(s, Exec(cfg, s, more))
  {
    InitOk();
    ExecKeepsInv(cfg, Init(), run);
    ExecKeepsInv(cfg, Exec(cfg, Init(), run), more);
  }

  /** The flags a configuration rules out stay down. */
  predicate FlagsKept(cfg: Config, g: Shared, g': Shared) {
    && (!cfg.markerErrors && !g.markerLost ==> !g'.markerLost)
    && (!cfg.recordErrors && !g.recordLost ==> !g'.recordLost)
    && (!cfg.ambiguousAppends && !g.ambiguous ==> !g'.ambiguous)
  }

  lemma WorkKeepsFlags(cfg: Config, g: Shared, pid: nat, p: Proc, pc: WorkPc, c: Choice)
    ensures FlagsKept(cfg, g, AdvanceWork(cfg, g, pid, p, pc, c).0)
  {
  }

  lemma PersistKeepsFlags(cfg: Config, g: Shared, p: Proc, pub: Publication, pc: PersistPc, c: Choice)
    ensures FlagsKept(cfg, g, AdvancePersist(cfg, g, p, pub, pc, c).0)
  {
  }

  lemma RecordKeepsFlags(cfg: Config, g: Shared, p: Proc, pc: RecordPc, c: Choice)
    ensures FlagsKept(cfg, g, AdvanceRecord(cfg, g, p, pc, c).0)
  {
  }

  lemma AdvanceKeepsFlags(cfg: Config, g: Shared, pid: nat, p: Proc, c: Choice)
    ensures FlagsKept(cfg, g, Advance(cfg, g, pid, p, c).0)
  {
    match p.pc
    case Working(pc) => WorkKeepsFlags(cfg, g, pid, p, pc, c);
    case Persisting(pub, pc) => PersistKeepsFlags(cfg, g, p, pub, pc, c);
    case Recording(pc) => RecordKeepsFlags(cfg, g, p, pc, c);
    case _ =>
  }

  lemma NextKeepsFlags(cfg: Config, s: State, a: Action)
    ensures FlagsKept(cfg, s.g, Next(cfg, s, a).g)
  {
    if a.Step? && a.pid in s.procs {
      AdvanceKeepsFlags(cfg, s.g, a.pid, s.procs[a.pid], a.choice);
    }
  }

  lemma {:induction false} ExecKeepsFlags(cfg: Config, s: State, run: seq<Action>)
    ensures FlagsKept(cfg, s.g, Exec(cfg, s, run).g)
    decreases |run|
  {
    if run != [] {
      NextKeepsFlags(cfg, s, run[0]);
      ExecKeepsFlags(cfg, Next(cfg, s, run[0]), run[1..]);
    }
  }

  lemma {:induction false} ExecSnoc(cfg: Config, s: State, run: seq<Action>, a: Action)
    ensures Exec(cfg, s, run + [a]) == Next(cfg, Exec(cfg, s, run), a)
    decreases |run|
  {
    if run != [] {
      assert (run + [a])[1..] == run[1..] + [a];
      ExecSnoc(cfg, Next(cfg, s, run[0]), run[1..], a);
    } else {
      assert run + [a] == [a];
      assert Exec(cfg, Next(cfg, s, a), []) == Next(cfg, s, a);
    }
  }

  /**
   A visible record stays visible under every mix of finalizes, aborts, repair marks and
   replays, whatever errors occur.
   */
  lemma VisibleIsAbsorbing(cfg: Config, run: seq<Action>, more: seq<Action>, d: Domain, t: TxId)
    requires RecordVisible(Exec(cfg, Init(), run).g, d, t)
    ensures RecordVisible(Exec(cfg, Exec(cfg, Init(), run), more).g, d, t)
  {
    Reached(cfg, run, more);
  }

  // ------------------------------------------------------------------
  // One transaction per key
  // ------------------------------------------------------------------

  /** Two records of one (domain, key), visible now or later, belong to one transaction. */
  lemma AtMostOneVisibleTransaction(cfg: Config, run: seq<Action>, more: seq<Action>, d: Domain, t1: TxId, t2: TxId)
    requires var s := Exec(cfg, Init(), run); !Exec(cfg, s, more).g.markerLost
    requires var s := Exec(cfg, Init(), run); RecordVisible(s.g, d, t1)
    requires var s := Exec(cfg, Init(), run); RecordVisible(Exec(cfg, s, more).g, d, t2)
    requires var s := Exec(cfg, Init(), run);
             s.g.records.objects[(d, t1)].body.key == Exec(cfg, s, more).g.records.objects[(d, t2)].body.key
    ensures t1 == t2
  {
    Reached(cfg, run, more);
    var s := Exec(cfg, Init(), run);
    var s' := Exec(cfg, s, more);
    var key := s.g.records.objects[(d, t1)].body.key;
    assert RecordOk(s.g, d, t1, s.g.records.objects[(d, t1)].body);
    assert RecordOk(s'.g, d, t2, s'.g.records.objects[(d, t2)].body);
    assert MarkerVisible(s.g, d, key, t1) && MarkerVisible(s'.g, d, key, t2);
  }

  /**
   A marker that caches a record agrees with it, the cached record is visible, and the
   marker is never given to another transaction; the request hash of a key never changes.
   */
  lemma MarkersAreConsistent(cfg: Config, run: seq<Action>, more: seq<Action>, d: Domain, key: string)
    requires (d, key) in Exec(cfg, Init(), run).g.markers.objects
    ensures var s := Exec(cfg, Init(), run);
            var s' := Exec(cfg, s, more);
            var m := s.g.markers.objects[(d, key)].body;
            && (d, key) in s'.g.markers.objects
            && s'.g.markers.objects[(d, key)].body.hash == m.hash
            && (m.txRecord.Some? ==>
                  && m.txRecord.value.txId == m.txId && m.txRecord.value.hash == m.hash
                  && m.txRecord.value.key == key && m.txRecord.value.status == Visible
                  && MarkerVisible(s'.g, d, key, m.txId))
  {
    Reached(cfg, run, more);
    var s := Exec(cfg, Init(), run);
    assert MarkerOk(s.g, d, key, s.g.markers.objects[(d, key)].body);
  }

  // ------------------------------------------------------------------
  // One receipt per key
  // ------------------------------------------------------------------

  predicate Answered(s: State, pid: nat, d: Domain, key: string, rc: Receipt) {
    && pid in s.procs && s.procs[pid].domain == d && s.procs[pid].key == key
    && s.procs[pid].pc.Done? && s.procs[pid].pc.receipt == rc
  }

  /** An answered receipt was built by the service for the key, and its transaction owns the key. */
  lemma AnswerIsOwned(s: State, pid: nat, d: Domain, key: string, rc: Receipt)
    requires Inv(s) && Answered(s, pid, d, key, rc)
    ensures Proposed(s.g, rc, d, rc.txId) && Settled(s.g, d, key, rc.txId) && Entitled(s.g, s.procs[pid], rc.txId)
  {
    assert ProcOk(s.g, pid, s.procs[pid]);
    assert Answerable(s.g, s.procs[pid], rc);
  }

  /**
   Two successful answers for one key, given now or later by the owner, by a replay of
   the record or by a replay of the marker's copy, name the same transaction; unless a
   batch append was ambiguous, and always outside orchestration, they carry the same receipt.
   */
  lemma AnswersAgree(cfg: Config, run: seq<Action>, more: seq<Action>, d: Domain, key: string,
                     pid1: nat, rc1: Receipt, pid2: nat, rc2: Receipt)
    requires !Exec(cfg, Exec(cfg, Init(), run), more).g.markerLost
    requires Answered(Exec(cfg, Init(), run), pid1, d, key, rc1)
    requires Answered(Exec(cfg, Exec(cfg, Init(), run), more), pid2, d, key, rc2)
    ensures rc1.txId == rc2.txId
    ensures d != Orchestration || !Exec(cfg, Exec(cfg, Init(), run), more).g.ambiguous ==> rc1 == rc2
  {
    Reached(cfg, run, more);
    var s := Exec(cfg, Init(), run);
    var s' := Exec(cfg, s, more);
    AnswerIsOwned(s, pid1, d, key, rc1);
    AnswerIsOwned(s', pid2, d, key, rc2);
  }

  /**
   A caller whose request hash differs from the one its key was claimed with is never
   answered with a receipt, unless a batch append was ambiguous, and never outside
   orchestration; marker errors do not matter.
   */
  lemma AnswersMatchTheRequest(cfg: Config, run: seq<Action>, d: Domain, key: string, pid: nat, rc: Receipt)
    requires Answered(Exec(cfg, Init(), run), pid, d, key, rc)
    ensures var s := Exec(cfg, Init(), run);
            && ClaimedKey(s.g, rc.txId, d, key)
            && (d != Orchestration || !s.g.ambiguous ==> ClaimedFor(s.g, rc.txId, d, key, s.procs[pid].hash))
  {
    Reached(cfg, run, []);
    AnswerIsOwned(Exec(cfg, Init(), run), pid, d, key, rc);
  }

  /**
   An answer and a visible record of the same key agree, and unless repairs are about the
   record carries the answered receipt.
   */
  lemma AnswersMatchRecords(cfg: Config, run: seq<Action>, d: Domain, key: string, pid: nat, rc: Receipt, t: TxId)
    requires !Exec(cfg, Init(), run).g.markerLost
    requires Answered(Exec(cfg, Init(), run), pid, d, key, rc)
    requires RecordVisible(Exec(cfg, Init(), run).g, d, t)
    requires Exec(cfg, Init(), run).g.records.objects[(d, t)].body.key == key
    ensures t == rc.txId
    ensures d != Orchestration || !Exec(cfg, Init(), run).g.ambiguous ==>
              Exec(cfg, Init(), run).g.records.objects[(d, t)].body.result == Some(rc)
  {
    Reached(cfg, run, []);
    var s := Exec(cfg, Init(), run);
    AnswerIsOwned(s, pid, d, key, rc);
    assert RecordOk(s.g, d, t, s.g.records.objects[(d, t)].body);
  }
}

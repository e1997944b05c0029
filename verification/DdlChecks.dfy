/**
 What a check of a DDL idempotency key finds, in terms of the stored marker and the clock,
 and that a claim is taken over only after its owner's time has run out.
 */
module DdlChecks {
  import opened ObjectStore
  import opened DdlIdempotency
  import opened DdlTheorems

  /** The owner's time ran out: its start plus the timeout is past. */
  predicate TimedOut(m: Marker, timeout: int, now: int) { now > m.startedAt + timeout }

  predicate Reserved(m: Marker) { m.entityId.Some? && m.entityName.Some? }

  /** What a request with hash `hash` learns from marker `m`, read with version `v` at time `now`. */
  ghost predicate Learns(pc: Pc, hash: string, m: Marker, v: nat, timeout: int, now: int) {
    if hash != m.requestHash then pc == Answered(HashConflict)
    else
      match m.status
      case InProgress =>
        if !TimedOut(m, timeout, now) then pc == Answered(StillInProgress(m.startedAt))
        else if Reserved(m) then pc == StaleReserved(m, v)
        else pc == TakeOver(m, v, false)
      case Committed => Reserved(m) ==> pc == Answered(Replay(m.entityId.value, m.entityName.value))
      case Failed =>
        m.errorStatus.Some? && m.errorMessage.Some? ==>
          pc == Answered(PreviousFailed(m.errorStatus.value, m.errorMessage.value))
  }

  // ------------------------------------------------------------------
  // A check left alone
  // ------------------------------------------------------------------

  function CheckRun(pid: nat, key: string, hash: string, cs: seq<Choice>): seq<Action>
    requires |cs| == 3
  {
    [Start(pid, key, hash), Step(pid, cs[0]), Step(pid, cs[1]), Step(pid, cs[2])]
  }

  lemma ExecCheck(timeout: int, s: State, pid: nat, key: string, hash: string, cs: seq<Choice>)
    requires |cs| == 3
    ensures var s1 := Next(timeout, s, Start(pid, key, hash));
            var s2 := Next(timeout, s1, Step(pid, cs[0]));
            var s3 := Next(timeout, s2, Step(pid, cs[1]));
            Exec(timeout, s, CheckRun(pid, key, hash, cs)) == Next(timeout, s3, Step(pid, cs[2]))
  {
    var run := CheckRun(pid, key, hash, cs);
    var s1 := Next(timeout, s, run[0]);
    var s2 := Next(timeout, s1, run[1]);
    var s3 := Next(timeout, s2, run[2]);
    assert Exec(timeout, s, run) == Exec(timeout, s1, run[1..]);
    assert Exec(timeout, s1, run[1..]) == Exec(timeout, s2, run[1..][1..]);
    assert run[1..][1..] == [run[2], run[3]] && [run[2], run[3]][1..] == [run[3]] && [run[3]][1..] == [];
    assert Exec(timeout, s3, [run[3]]) == Exec(timeout, Next(timeout, s3, run[3]), []);
  }

  /**
   A new request for a key that has a marker, without faults: it learns what the marker says
   at the time it reads it, and changes nothing.  In particular a request with the bound hash
   is told that the work is in progress exactly when the start plus the timeout is not past;
   later it recovers the reservation if there is one and takes the claim over if there is none.
   */
  lemma CheckAlone(timeout: int, s: State, pid: nat, key: string, hash: string, cs: seq<Choice>)
    requires key in s.markers.objects && pid !in s.procs
    requires |cs| == 3 && forall i :: 0 <= i < 3 ==> cs[i].fault == NoFault
    ensures var s' := Exec(timeout, s, CheckRun(pid, key, hash, cs));
            var o := s.markers.objects[key];
            && s'.markers == s.markers && s'.finalizers == s.finalizers
            && pid in s'.procs && Learns(s'.procs[pid].pc, hash, o.body, o.version, timeout, cs[2].now)
  {
    ExecCheck(timeout, s, pid, key, hash, cs);
    var s1 := Next(timeout, s, Start(pid, key, hash));
    var s2 := Next(timeout, s1, Step(pid, cs[0]));
    var s3 := Next(timeout, s2, Step(pid, cs[1]));
    assert s1.procs[pid] == Proc(key, hash, Claim);
    assert s2.markers == s.markers && s2.procs[pid].pc == LoadHead(s.markers.objects[key].version);
    assert s3.markers == s.markers && s3.procs[pid].pc == LoadGet(s.markers.objects[key].version);
  }

  /** A request for a key without a marker owns it, with its hash and start, after one step. */
  lemma FirstCheckOwns(timeout: int, s: State, pid: nat, key: string, hash: string, c: Choice)
    requires key !in s.markers.objects && pid !in s.procs && c.fault == NoFault
    ensures var s' := Next(timeout, Next(timeout, s, Start(pid, key, hash)), Step(pid, c));
            && key in s'.markers.objects && pid in s'.procs
            && var o := s'.markers.objects[key];
            && s'.procs[pid].pc == Owner(o.body, o.version)
            && o.body.status == InProgress && o.body.requestHash == hash && o.body.startedAt == c.now
            && !Reserved(o.body)
  {
  }

  /** A takeover that nobody overtakes owns the claim from now on, with its hash and reservation. */
  lemma TakeoverOwns(timeout: int, s: State, pid: nat, m: Marker, v: nat, recovering: bool, c: Choice)
    requires pid in s.procs && s.procs[pid].pc == TakeOver(m, v, recovering) && c.fault == NoFault
    requires s.procs[pid].key in s.markers.objects && s.markers.objects[s.procs[pid].key] == Object(v, m)
    requires m.status == InProgress
    ensures var s' := Next(timeout, s, Step(pid, c));
            && s.procs[pid].key in s'.markers.objects && pid in s'.procs
            && var o := s'.markers.objects[s.procs[pid].key];
            && s'.procs[pid].pc == Owner(o.body, o.version)
            && o.body.status == InProgress && o.body.requestHash == m.requestHash && o.body.startedAt == c.now
            && o.body.entityId == m.entityId && o.body.entityName == m.entityName
  {
  }

  /** A takeover that was overtaken reports what the key holds by now; a recovery calls a commit by another name. */
  predicate Reports(pc: Pc, m: Marker, recovering: bool) {
    match m.status
    case InProgress => pc == Answered(StillInProgress(m.startedAt))
    case Committed =>
      if recovering then pc == Answered(FinalizedDuringRecovery)
      else Reserved(m) ==> pc == Answered(Replay(m.entityId.value, m.entityName.value))
    case Failed =>
      m.errorStatus.Some? && m.errorMessage.Some? ==>
        pc == Answered(PreviousFailed(m.errorStatus.value, m.errorMessage.value))
  }

  /** A takeover that was overtaken, left alone and without faults, changes nothing and reports the current marker. */
  lemma LostTakeoverAlone(timeout: int, s: State, pid: nat, m: Marker, v: nat, recovering: bool, cs: seq<Choice>)
    requires pid in s.procs && s.procs[pid].pc == TakeOver(m, v, recovering)
    requires s.procs[pid].key in s.markers.objects && s.markers.objects[s.procs[pid].key].version != v
    requires |cs| == 3 && forall i :: 0 <= i < 3 ==> cs[i].fault == NoFault
    ensures var s1 := Next(timeout, s, Step(pid, cs[0]));
            var s3 := Next(timeout, Next(timeout, s1, Step(pid, cs[1])), Step(pid, cs[2]));
            && s3.markers == s.markers && s3.finalizers == s.finalizers
            && pid in s3.procs && Reports(s3.procs[pid].pc, s.markers.objects[s.procs[pid].key].body, recovering)
  {
    var s1 := Next(timeout, s, Step(pid, cs[0]));
    var s2 := Next(timeout, s1, Step(pid, cs[1]));
    assert s1.markers == s.markers && s1.procs[pid].pc == ReloadHead(recovering);
    assert s2.markers == s.markers && s2.procs[pid].pc == ReloadGet(recovering);
  }

  /** A request whose storage operation meets a fault stops, and so does an owner that gives up. */
  lemma FaultsStop(timeout: int, s: State, pid: nat, c: Choice)
    requires pid in s.procs
    requires match s.procs[pid].pc
             case Owner(_, _) => c.work == GiveUp
             case Finalized(_) => false
             case Superseded => false
             case Answered(_) => false
             case MissingInfo => false
             case Disappeared => false
             case Stopped => false
             case _ => c.fault != NoFault
    ensures var s' := Next(timeout, s, Step(pid, c));
            && pid in s'.procs && s'.procs[pid].pc == Stopped
            && (c.fault != ErrorAfter ==> s'.markers == s.markers)
  {
  }

  // ------------------------------------------------------------------
  // Takeovers over runs
  // ------------------------------------------------------------------

  lemma {:induction false} ExecSnoc(timeout: int, s: State, run: seq<Action>, a: Action)
    ensures Exec(timeout, s, run + [a]) == Next(timeout, Exec(timeout, s, run), a)
    decreases |run|
  {
    if run == [] {
      assert run + [a] == [a];
      assert Exec(timeout, Next(timeout, s, a), []) == Next(timeout, s, a);
    } else {
      assert (run + [a])[1..] == run[1..] + [a];
      ExecSnoc(timeout, Next(timeout, s, run[0]), run[1..], a);
    }
  }

  /** The request acts on marker `m`, which it read with version `v`, as one whose owner is gone. */
  predicate Supplants(pc: Pc, m: Marker, v: nat) {
    || (pc.TakeOver? && pc.marker == m && pc.version == v)
    || (pc.StaleReserved? && pc.marker == m && pc.version == v)
  }

  /** The step of `pid` in `s` reads marker `m` of its key, with its own hash, after the owner's time has run out. */
  predicate ReadsTimedOut(timeout: int, s: State, a: Action, pid: nat, m: Marker, v: nat) {
    && a.Step? && a.pid == pid && pid in s.procs && s.procs[pid].pc == LoadGet(v)
    && s.procs[pid].key in s.markers.objects && s.markers.objects[s.procs[pid].key].body == m
    && m.status == InProgress && m.requestHash == s.procs[pid].hash && TimedOut(m, timeout, a.choice.now)
  }

  ghost predicate ReadTimedOut(timeout: int, run: seq<Action>, k: nat, pid: nat, m: Marker, v: nat) {
    k < |run| && ReadsTimedOut(timeout, Exec(timeout, Init(), run[..k]), run[k], pid, m, v)
  }

  lemma EntersTakeover(timeout: int, s: State, a: Action, pid: nat, m: Marker, v: nat)
    requires pid in Next(timeout, s, a).procs && Supplants(Next(timeout, s, a).procs[pid].pc, m, v)
    ensures (pid in s.procs && Supplants(s.procs[pid].pc, m, v)) || ReadsTimedOut(timeout, s, a, pid, m, v)
  {
  }

  lemma {:induction false} SupplanterRead(timeout: int, run: seq<Action>, pid: nat, m: Marker, v: nat) returns (k: nat)
    requires var s := Exec(timeout, Init(), run); pid in s.procs && Supplants(s.procs[pid].pc, m, v)
    ensures ReadTimedOut(timeout, run, k, pid, m, v)
    decreases |run|
  {
    assert run != [];
    var n := |run| - 1;
    ExecSnoc(timeout, Init(), run[..n], run[n]);
    assert run[..n] + [run[n]] == run;
    var before := Exec(timeout, Init(), run[..n]);
    EntersTakeover(timeout, before, run[n], pid, m, v);
    if pid in before.procs && Supplants(before.procs[pid].pc, m, v) {
      k := SupplanterRead(timeout, run[..n], pid, m, v);
      assert run[..n][..k] == run[..k];
    } else {
      k := n;
    }
  }

  /**
   In every run, a takeover that takes effect replaces exactly the marker the request had
   read at some earlier moment of the run, when the owner's time had already run out.
   */
  lemma TakeoverWasTimedOut(timeout: int, run: seq<Action>, pid: nat, c: Choice) returns (k: nat)
    requires var s := Exec(timeout, Init(), run);
             pid in s.procs && s.procs[pid].pc.TakeOver? && Next(timeout, s, Step(pid, c)).markers != s.markers
    ensures var s := Exec(timeout, Init(), run);
            var (key, v) := (s.procs[pid].key, s.procs[pid].pc.version);
            && key in s.markers.objects && s.markers.objects[key].version == v
            && ReadTimedOut(timeout, run, k, pid, s.markers.objects[key].body, v)
  {
    var s := Exec(timeout, Init(), run);
    ReachedInv(timeout, s);
    assert PcOk(s.markers, s.finalizers, pid, s.procs[pid]);
    k := SupplanterRead(timeout, run, pid, s.procs[pid].pc.marker, s.procs[pid].pc.version);
  }

  // ------------------------------------------------------------------
  // Outcomes over runs
  // ------------------------------------------------------------------

  /**
   The marker of a claim `m` that was committed at `now` with an entity, or that failed:
   nothing else is left in it.
   */
  function CommittedMarker(m: Marker, id: string, name: string, now: int): Marker {
    Marker(Committed, m.requestHash, m.startedAt, Some(now), None, None, None, Some(id), Some(name))
  }

  function FailedMarker(m: Marker, httpStatus: nat, message: string, now: int): Marker {
    Marker(Failed, m.requestHash, m.startedAt, None, Some(now), Some(httpStatus), Some(message), None, None)
  }

  /** The outcome `f` is what the owner of the claim asked for, or the reserved entity that was found to exist. */
  predicate Decides(pc: Pc, c: Choice, f: Marker) {
    match pc
    case Owner(m, _) =>
      (match c.work
       case Commit(id, name) => f == CommittedMarker(m, id, name, c.now)
       case Fail(httpStatus, message) => f == FailedMarker(m, httpStatus, message, c.now)
       case _ => false)
    case StaleReserved(m, _) =>
      && c.lookup == Found && c.fault == NoFault && Reserved(m)
      && f == CommittedMarker(m, m.entityId.value, m.entityName.value, c.now)
    case _ => false
  }

  ghost predicate DecidedAt(timeout: int, run: seq<Action>, k: nat, pid: nat, f: Marker) {
    && k < |run| && run[k].Step? && run[k].pid == pid
    && var s := Exec(timeout, Init(), run[..k]);
       pid in s.procs && Decides(s.procs[pid].pc, run[k].choice, f)
  }

  predicate Concludes(pc: Pc, f: Marker) { (pc.Finalizing? || pc.Finalized?) && pc.final == f }

  lemma EntersFinalize(timeout: int, s: State, a: Action, pid: nat, f: Marker)
    requires pid in Next(timeout, s, a).procs && Concludes(Next(timeout, s, a).procs[pid].pc, f)
    ensures pid in s.procs
    ensures Concludes(s.procs[pid].pc, f) || (a.Step? && a.pid == pid && Decides(s.procs[pid].pc, a.choice, f))
  {
  }

  /**
   In every run, what a request finalizes is what its owner asked for at some earlier moment
   of the run, or the entity reserved in a claim it found abandoned and found to exist.
   */
  lemma {:induction false} FinalizedAsDecided(timeout: int, run: seq<Action>, pid: nat, f: Marker) returns (k: nat)
    requires var s := Exec(timeout, Init(), run); pid in s.procs && Concludes(s.procs[pid].pc, f)
    ensures DecidedAt(timeout, run, k, pid, f)
    decreases |run|
  {
    assert run != [];
    var n := |run| - 1;
    ExecSnoc(timeout, Init(), run[..n], run[n]);
    assert run[..n] + [run[n]] == run;
    var before := Exec(timeout, Init(), run[..n]);
    EntersFinalize(timeout, before, run[n], pid, f);
    if Concludes(before.procs[pid].pc, f) {
      k := FinalizedAsDecided(timeout, run[..n], pid, f);
      assert run[..n][..k] == run[..k];
    } else {
      k := n;
    }
  }

  // ------------------------------------------------------------------
  // Reservations
  // ------------------------------------------------------------------

  /** Two undisturbed steps of one request. */
  function Twice(timeout: int, s: State, pid: nat, cs: seq<Choice>): State
    requires |cs| == 2
  {
    Next(timeout, Next(timeout, s, Step(pid, cs[0])), Step(pid, cs[1]))
  }

  /** The request's key holds marker `m` with version `v`, as the request believes. */
  predicate Holding(s: State, pid: nat, m: Marker, v: nat) {
    pid in s.procs && s.procs[pid].key in s.markers.objects && s.markers.objects[s.procs[pid].key] == Object(v, m)
  }

  /** The request owns its key with exactly marker `m`. */
  predicate Owns(s: State, pid: nat, m: Marker) {
    && pid in s.procs && s.procs[pid].key in s.markers.objects
    && var o := s.markers.objects[s.procs[pid].key]; o.body == m && s.procs[pid].pc == Owner(m, o.version)
  }

  /**
   An owner that reserves an entity, undisturbed: without a reservation it holds exactly this
   one afterwards; with the same one nothing is written; with another, or half of one, the
   request stops and nothing is written.
   */
  lemma ReserveAlone(timeout: int, s: State, pid: nat, m: Marker, v: nat, id: string, name: string, cs: seq<Choice>)
    requires Holding(s, pid, m, v) && s.procs[pid].pc == Owner(m, v)
    requires |cs| == 2 && cs[0].work == cs[1].work == Reserve(id, name) && cs[1].fault == NoFault
    ensures var s' := Twice(timeout, s, pid, cs);
            if m.entityId.None? && m.entityName.None?
            then Owns(s', pid, m.(entityId := Some(id), entityName := Some(name)))
            else
              && s'.markers == s.markers && pid in s'.procs
              && if m.entityId == Some(id) && m.entityName == Some(name) then Owns(s', pid, m)
                 else s'.procs[pid].pc == Stopped
  {
    var s1 := Next(timeout, s, Step(pid, cs[0]));
    assert s1.markers == s.markers;
    if m.entityId.None? && m.entityName.None? {
      assert s1.procs[pid].pc == Reserving(m, v, m.(entityId := Some(id), entityName := Some(name)));
    }
  }

  /**
   The recovery of a stale reservation, undisturbed: if the entity exists the key is committed
   with it; if it does not, the request owns the claim, started anew and with the reservation
   kept; if something else is there the request stops and nothing is written.
   */
  lemma RecoverAlone(timeout: int, s: State, pid: nat, m: Marker, v: nat, cs: seq<Choice>)
    requires Holding(s, pid, m, v) && s.procs[pid].pc == StaleReserved(m, v) && Reserved(m) && m.status == InProgress
    requires |cs| == 2 && cs[0].fault == cs[1].fault == NoFault
    ensures var s' := Twice(timeout, s, pid, cs);
            var final := CommittedMarker(m, m.entityId.value, m.entityName.value, cs[0].now);
            && pid in s'.procs && s.procs[pid].key in s'.markers.objects
            && match cs[0].lookup
               case Found => s'.procs[pid].pc == Finalized(final) && s'.markers.objects[s.procs[pid].key].body == final
               case NotFound =>
                 Owns(s', pid,
                      Marker(InProgress, m.requestHash, cs[1].now, None, None, None, None, m.entityId, m.entityName))
               case Mismatch => s'.procs[pid].pc == Stopped && s'.markers == s.markers
  {
    var s1 := Next(timeout, s, Step(pid, cs[0]));
    assert s1.markers == s.markers;
  }

  /** An owner that was overtaken before it could reserve changes nothing and is told so. */
  lemma OvertakenReservationConflicts(timeout: int, s: State, pid: nat, c: Choice)
    requires LostItsVersion(s, pid) && s.procs[pid].pc.Reserving?
    ensures var s' := Next(timeout, s, Step(pid, c));
            && s'.markers == s.markers && s'.finalizers == s.finalizers
            && s'.procs[pid].pc == if c.fault == NoFault then Superseded else Stopped
  {
  }

  /** In every run, once an entity is reserved for a key, every claim of the key keeps exactly that reservation. */
  lemma ReservationsAreKept(timeout: int, run: seq<Action>, more: seq<Action>, key: string)
    requires var s := Exec(timeout, Init(), run); key in s.markers.objects && Reserved(s.markers.objects[key].body)
    requires var s := Exec(timeout, Init(), run); s.markers.objects[key].body.status == InProgress
    ensures var (s, s') := (Exec(timeout, Init(), run), Exec(timeout, Exec(timeout, Init(), run), more));
            && key in s'.markers.objects
            && var (m, m') := (s.markers.objects[key].body, s'.markers.objects[key].body);
               m'.status == InProgress ==> m'.entityId == m.entityId && m'.entityName == m.entityName
  {
    ExecKeepsInv(timeout, Init(), run);
    ExecKeepsInv(timeout, Exec(timeout, Init(), run), more);
  }
}

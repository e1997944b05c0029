/**
 Idempotency markers of catalog DDL: a request claims its key's marker, works, and
 finalizes the marker as committed or failed; a stale claim may be taken over.

 Requests run concurrently and each storage operation is one step.  The work itself, the
 clock and the lookup of a reserved entity are choices of the environment.
 */
module DdlIdempotency {
  import opened ObjectStore

  // ------------------------------------------------------------------
  // Markers
  // ------------------------------------------------------------------

  datatype Status = InProgress | Committed | Failed

  datatype Marker = Marker(
    status: Status, requestHash: string, startedAt: int, committedAt: Option<int>, failedAt: Option<int>,
    errorStatus: Option<nat>, errorMessage: Option<string>, entityId: Option<string>, entityName: Option<string>)

  function NewInProgress(hash: string, now: int): Marker {
    Marker(InProgress, hash, now, None, None, None, None, None, None)
  }

  function FinalizeCommitted(m: Marker, id: string, name: string, now: int): Marker {
    m.(status := Committed, committedAt := Some(now), failedAt := None, errorStatus := None, errorMessage := None,
       entityId := Some(id), entityName := Some(name))
  }

  function FinalizeFailed(m: Marker, httpStatus: nat, message: string, now: int): Marker {
    m.(status := Failed, failedAt := Some(now), errorStatus := Some(httpStatus), errorMessage := Some(message),
       committedAt := None, entityId := None, entityName := None)
  }

  function ReserveEntity(m: Marker, id: string, name: string): Marker {
    m.(entityId := Some(id), entityName := Some(name))
  }

  predicate HasReservedEntity(m: Marker) { m.status == InProgress && m.entityId.Some? && m.entityName.Some? }

  predicate IsStale(m: Marker, timeout: int, now: int) { m.status == InProgress && m.startedAt + timeout < now }

  /** The marker a takeover writes: a fresh claim that keeps the request hash and the reservation. */
  function Refreshed(m: Marker, now: int): Marker {
    NewInProgress(m.requestHash, now).(entityId := m.entityId, entityName := m.entityName)
  }

  // ------------------------------------------------------------------
  // Requests
  // ------------------------------------------------------------------

  /** What a check tells its caller. */
  datatype Answer =
    | Replay(entityId: string, entityName: string)
    | PreviousFailed(httpStatus: nat, message: string)
    | StillInProgress(startedAt: int)
    | HashConflict
    | FinalizedDuringRecovery

  /** The answer a stored marker gives, or nothing when it lacks the information it should hold. */
  function AnswerOf(m: Marker): Option<Answer> {
    match m.status
    case InProgress => Some(StillInProgress(m.startedAt))
    case Committed =>
      if m.entityId.Some? && m.entityName.Some? then Some(Replay(m.entityId.value, m.entityName.value)) else None
    case Failed =>
      if m.errorStatus.Some? && m.errorMessage.Some?
      then Some(PreviousFailed(m.errorStatus.value, m.errorMessage.value))
      else None
  }

  /** Each transition keeps the request hash and gives the answer its caller meant. */
  lemma MarkerTransitions(m: Marker, id: string, name: string, httpStatus: nat, message: string, now: int,
                          timeout: int, later: int)
    ensures AnswerOf(FinalizeCommitted(m, id, name, now)) == Some(Replay(id, name))
    ensures AnswerOf(FinalizeFailed(m, httpStatus, message, now)) == Some(PreviousFailed(httpStatus, message))
    ensures FinalizeCommitted(m, id, name, now).requestHash == FinalizeFailed(m, httpStatus, message, now).requestHash
            == m.requestHash
    ensures m.status == InProgress ==> HasReservedEntity(ReserveEntity(m, id, name))
    ensures var r := Refreshed(m, now);
            && AnswerOf(r) == Some(StillInProgress(now)) && r.requestHash == m.requestHash
            && (IsStale(r, timeout, later) <==> now + timeout < later)
            && (HasReservedEntity(r) <==> m.entityId.Some? && m.entityName.Some?)
  {
  }

  datatype Pc =
    | Claim
    | LoadHead(version: nat)
    | LoadGet(version: nat)
    | TakeOver(marker: Marker, version: nat, recovering: bool)
    | ReloadHead(recovering: bool)
    | ReloadGet(recovering: bool)
    | StaleReserved(marker: Marker, version: nat)
    | Owner(marker: Marker, version: nat)
    | Reserving(marker: Marker, version: nat, reserved: Marker)
    | Finalizing(marker: Marker, version: nat, final: Marker)
    | Finalized(final: Marker)
    | Superseded
    | Answered(answer: Answer)
    | MissingInfo
    | Disappeared
    | Stopped

  datatype Proc = Proc(key: string, hash: string, pc: Pc)

  /** `finalizers` is a history no step reads: which request's terminal write took effect, per key. */
  datatype State = State(markers: Store<string, Marker>, procs: map<nat, Proc>, finalizers: map<string, nat>)

  function Init(): State { State(Empty(), map[], map[]) }

  /** What the owner of a claim does next. */
  datatype Work =
    | Reserve(id: string, name: string)
    | Commit(id: string, name: string)
    | Fail(httpStatus: nat, message: string)
    | GiveUp

  /** Whether the entity of a stale reservation turned out to exist. */
  datatype Lookup = Found | NotFound | Mismatch

  datatype Choice = Choice(now: int, fault: Fault, work: Work, lookup: Lookup)

  function Goto(s: State, pid: nat, p: Proc, pc: Pc): State { s.(procs := s.procs[pid := p.(pc := pc)]) }

  predicate Terminal(m: Marker) { m.status != InProgress }

  /** A conditional write of the marker: where it leads when it takes effect and when the version moved on. */
  function PutMarker(s: State, pid: nat, p: Proc, m: Marker, pre: Precondition, fault: Fault, won: Pc,
                     lost: Pc): State {
    var (markers, out) := TryPut(s.markers, p.key, m, pre, fault);
    var pc := match out
      case Written => won
      case PreconditionFailed => lost
      case Errored => Stopped;
    s.(markers := markers, procs := s.procs[pid := p.(pc := pc)],
       finalizers := if markers != s.markers && Terminal(m) then s.finalizers[p.key := pid] else s.finalizers)
  }

  function Report(m: Marker): Pc {
    match AnswerOf(m)
    case Some(a) => Answered(a)
    case None => MissingInfo
  }

  /** Classification of the marker a failed claim found. */
  function Classify(p: Proc, existing: Marker, version: nat, timeout: int, now: int): Pc {
    if existing.requestHash != p.hash then Answered(HashConflict)
    else if existing.status != InProgress then Report(existing)
    else if !IsStale(existing, timeout, now) then Answered(StillInProgress(existing.startedAt))
    else if HasReservedEntity(existing) then StaleReserved(existing, version)
    else TakeOver(existing, version, false)
  }

  function StepClaim(s: State, pid: nat, p: Proc, c: Choice): State {
    var m := NewInProgress(p.hash, c.now);
    var lost := if p.key in s.markers.objects then LoadHead(s.markers.objects[p.key].version) else Stopped;
    PutMarker(s, pid, p, m, DoesNotExist, c.fault, Owner(m, s.markers.next), lost)
  }

  function StepTakeOver(s: State, pid: nat, p: Proc, m: Marker, version: nat, recovering: bool, c: Choice): State {
    var refreshed := Refreshed(m, c.now);
    PutMarker(s, pid, p, refreshed, MatchesVersion(version), c.fault, Owner(refreshed, s.markers.next),
              ReloadHead(recovering))
  }

  /** A stale reservation is committed when its entity exists, and taken over when it does not. */
  function StepStaleReserved(p: Proc, m: Marker, version: nat, c: Choice): Pc {
    if c.fault != NoFault || c.lookup == Mismatch || m.entityId.None? || m.entityName.None? then Stopped
    else if c.lookup == Found then
      Finalizing(m, version, FinalizeCommitted(m, m.entityId.value, m.entityName.value, c.now))
    else TakeOver(m, version, true)
  }

  function StepOwner(m: Marker, version: nat, c: Choice): Pc {
    match c.work
    case Reserve(id, name) =>
      if m.entityId == Some(id) && m.entityName == Some(name) then Owner(m, version)
      else if m.entityId.None? && m.entityName.None? then Reserving(m, version, ReserveEntity(m, id, name))
      else Stopped
    case Commit(id, name) => Finalizing(m, version, FinalizeCommitted(m, id, name, c.now))
    case Fail(httpStatus, message) => Finalizing(m, version, FinalizeFailed(m, httpStatus, message, c.now))
    case GiveUp => Stopped
  }

  function StepReload(m: Marker, recovering: bool): Pc {
    if recovering && m.status == Committed then Answered(FinalizedDuringRecovery) else Report(m)
  }

  function StepProcess(timeout: int, s: State, pid: nat, p: Proc, c: Choice): State {
    match p.pc
    case Claim => StepClaim(s, pid, p, c)
    case LoadHead(version) =>
      Goto(s, pid, p, if c.fault != NoFault then Stopped
                      else if p.key in s.markers.objects then LoadGet(version) else Disappeared)
    case LoadGet(version) =>
      Goto(s, pid, p, if c.fault != NoFault || p.key !in s.markers.objects then Stopped
                      else Classify(p, s.markers.objects[p.key].body, version, timeout, c.now))
    case TakeOver(m, version, recovering) => StepTakeOver(s, pid, p, m, version, recovering, c)
    case ReloadHead(recovering) =>
      Goto(s, pid, p, if c.fault != NoFault then Stopped
                      else if p.key in s.markers.objects then ReloadGet(recovering) else Disappeared)
    case ReloadGet(recovering) =>
      Goto(s, pid, p, if c.fault != NoFault || p.key !in s.markers.objects then Stopped
                      else StepReload(s.markers.objects[p.key].body, recovering))
    case StaleReserved(m, version) => Goto(s, pid, p, StepStaleReserved(p, m, version, c))
    case Owner(m, version) => Goto(s, pid, p, StepOwner(m, version, c))
    case Reserving(_, version, reserved) =>
      PutMarker(s, pid, p, reserved, MatchesVersion(version), c.fault, Owner(reserved, s.markers.next), Superseded)
    case Finalizing(_, version, final) =>
      PutMarker(s, pid, p, final, MatchesVersion(version), c.fault, Finalized(final), Superseded)
    case _ => s
  }

  datatype Action = Start(pid: nat, key: string, hash: string) | Step(pid: nat, choice: Choice)

  function Next(timeout: int, s: State, a: Action): State {
    match a
    case Start(pid, key, hash) => if pid in s.procs then s else s.(procs := s.procs[pid := Proc(key, hash, Claim)])
    case Step(pid, c) => if pid in s.procs then StepProcess(timeout, s, pid, s.procs[pid], c) else s
  }

  function Exec(timeout: int, s: State, run: seq<Action>): State
    decreases |run|
  {
    if run == [] then s else Exec(timeout, Next(timeout, s, run[0]), run[1..])
  }

  // ------------------------------------------------------------------
  // The invariant
  // ------------------------------------------------------------------

  /** A stored marker holds the information its status needs. */
  predicate MarkerOk(m: Marker) { AnswerOf(m).Some? }

  /** `m` is what the holder of `version` replaces if its write takes effect, and it is not terminal. */
  ghost predicate Holds(markers: Store<string, Marker>, p: Proc, m: Marker, version: nat) {
    && Seen(markers, p.key, version, m) && !Terminal(m) && m.requestHash == p.hash
    && p.key in markers.objects && markers.objects[p.key].body.requestHash == p.hash
  }

  ghost predicate PcOk(markers: Store<string, Marker>, finalizers: map<string, nat>, pid: nat, p: Proc) {
    match p.pc
    case LoadHead(v) => p.key in markers.objects && v < markers.next
    case LoadGet(v) => p.key in markers.objects && v < markers.next
    case TakeOver(m, v, _) => Holds(markers, p, m, v)
    case ReloadHead(_) => p.key in markers.objects && markers.objects[p.key].body.requestHash == p.hash
    case ReloadGet(_) => p.key in markers.objects && markers.objects[p.key].body.requestHash == p.hash
    case StaleReserved(m, v) => Holds(markers, p, m, v)
    case Owner(m, v) => Holds(markers, p, m, v)
    case Reserving(m, v, r) =>
      Holds(markers, p, m, v) && m.entityId.None? && m.entityName.None? && !Terminal(r) && r.requestHash == p.hash
    case Finalizing(m, v, f) => Holds(markers, p, m, v) && Terminal(f) && MarkerOk(f) && f.requestHash == p.hash
    case Finalized(f) =>
      && p.key in markers.objects && markers.objects[p.key].body == f && Terminal(f)
      && p.key in finalizers && finalizers[p.key] == pid
    case MissingInfo => false
    case Disappeared => false
    case _ => true
  }

  ghost predicate SharedOk(markers: Store<string, Marker>, finalizers: map<string, nat>) {
    && WellFormed(markers)
    && (forall key :: key in markers.objects ==> MarkerOk(markers.objects[key].body))
    && (forall key :: key in finalizers <==> key in markers.objects && Terminal(markers.objects[key].body))
  }

  ghost predicate Inv(s: State) {
    && SharedOk(s.markers, s.finalizers)
    && forall pid :: pid in s.procs ==> PcOk(s.markers, s.finalizers, pid, s.procs[pid])
  }

  /** A claim that replaces another keeps what it has reserved. */
  predicate KeepsReservation(m: Marker, m': Marker) {
    && m.status == InProgress
    && (m.entityId.Some? ==> m'.entityId == m.entityId) && (m.entityName.Some? ==> m'.entityName == m.entityName)
  }

  /** Terminal markers stay, a key's request hash and reservation stay, and so does who finalized it. */
  ghost predicate Evolves(s: State, s': State) {
    && Grows(s.markers, s'.markers)
    && (forall key :: key in s.markers.objects ==>
          && s'.markers.objects[key].body.requestHash == s.markers.objects[key].body.requestHash
          && (Terminal(s.markers.objects[key].body) ==> s'.markers.objects[key] == s.markers.objects[key])
          && (s'.markers.objects[key].body.status == InProgress ==>
                KeepsReservation(s.markers.objects[key].body, s'.markers.objects[key].body)))
    && (forall key :: key in s.finalizers ==> key in s'.finalizers && s'.finalizers[key] == s.finalizers[key])
  }

  lemma PcStable(s: State, s': State, pid: nat, p: Proc)
    requires Evolves(s, s') && PcOk(s.markers, s.finalizers, pid, p)
    ensures PcOk(s'.markers, s'.finalizers, pid, p)
  {
  }

  /** A write that creates the marker, or replaces one that is not terminal and has the same hash. */
  ghost predicate MayPut(s: State, p: Proc, m: Marker, pre: Precondition) {
    && MarkerOk(m)
    && (Admits(s.markers, p.key, pre) && p.key in s.markers.objects ==>
          && !Terminal(s.markers.objects[p.key].body) && s.markers.objects[p.key].body.requestHash == m.requestHash
          && (m.status == InProgress ==> KeepsReservation(s.markers.objects[p.key].body, m)))
  }

  lemma PutEvolves(s: State, pid: nat, p: Proc, m: Marker, pre: Precondition, fault: Fault, won: Pc, lost: Pc)
    requires SharedOk(s.markers, s.finalizers) && MayPut(s, p, m, pre)
    ensures var s' := PutMarker(s, pid, p, m, pre, fault, won, lost);
            Evolves(s, s') && SharedOk(s'.markers, s'.finalizers)
  {
    WriteGrows(s.markers, p.key, m);
  }

  lemma Installs(s: State, s': State, pid: nat)
    requires Inv(s) && Evolves(s, s') && SharedOk(s'.markers, s'.finalizers)
    requires pid in s'.procs && s'.procs == s.procs[pid := s'.procs[pid]]
    requires PcOk(s'.markers, s'.finalizers, pid, s'.procs[pid])
    ensures Inv(s')
  {
    forall q | q in s.procs && q != pid ensures PcOk(s'.markers, s'.finalizers, q, s'.procs[q]) {
      PcStable(s, s', q, s.procs[q]);
    }
  }

  lemma PutOk(s: State, pid: nat, p: Proc, m: Marker, pre: Precondition, fault: Fault, won: Pc, lost: Pc)
    requires Inv(s) && MayPut(s, p, m, pre)
    requires !Admits(s.markers, p.key, pre) ==> PcOk(s.markers, s.finalizers, pid, p.(pc := lost))
    requires Admits(s.markers, p.key, pre) ==>
               PcOk(Write(s.markers, p.key, m), if Terminal(m) then s.finalizers[p.key := pid] else s.finalizers, pid,
                    p.(pc := won))
    ensures var s' := PutMarker(s, pid, p, m, pre, fault, won, lost); Inv(s') && Evolves(s, s')
  {
    PutEvolves(s, pid, p, m, pre, fault, won, lost);
    Installs(s, PutMarker(s, pid, p, m, pre, fault, won, lost), pid);
  }

  lemma GotoOk(s: State, pid: nat, p: Proc, pc: Pc)
    requires Inv(s) && PcOk(s.markers, s.finalizers, pid, p.(pc := pc))
    ensures Inv(Goto(s, pid, p, pc)) && Evolves(s, Goto(s, pid, p, pc))
  {
  }

  lemma WriteStepOk(timeout: int, s: State, pid: nat, c: Choice)
    requires Inv(s) && pid in s.procs
    requires var pc := s.procs[pid].pc; pc.Claim? || pc.TakeOver? || pc.Reserving? || pc.Finalizing?
    ensures var s' := StepProcess(timeout, s, pid, s.procs[pid], c); Inv(s') && Evolves(s, s')
  {
    var p := s.procs[pid];
    assert PcOk(s.markers, s.finalizers, pid, p);
    match p.pc
    case Claim =>
      var m := NewInProgress(p.hash, c.now);
      var lost := if p.key in s.markers.objects then LoadHead(s.markers.objects[p.key].version) else Stopped;
      PutOk(s, pid, p, m, DoesNotExist, c.fault, Owner(m, s.markers.next), lost);
    case TakeOver(m, version, recovering) =>
      var r := Refreshed(m, c.now);
      PutOk(s, pid, p, r, MatchesVersion(version), c.fault, Owner(r, s.markers.next), ReloadHead(recovering));
    case Reserving(_, version, r) =>
      PutOk(s, pid, p, r, MatchesVersion(version), c.fault, Owner(r, s.markers.next), Superseded);
    case Finalizing(_, version, f) =>
      PutOk(s, pid, p, f, MatchesVersion(version), c.fault, Finalized(f), Superseded);
  }

  lemma LocalStepOk(timeout: int, s: State, pid: nat, c: Choice)
    requires Inv(s) && pid in s.procs
    requires var pc := s.procs[pid].pc; !pc.Claim? && !pc.TakeOver? && !pc.Reserving? && !pc.Finalizing?
    ensures var s' := StepProcess(timeout, s, pid, s.procs[pid], c); Inv(s') && Evolves(s, s')
  {
    var (p, s') := (s.procs[pid], StepProcess(timeout, s, pid, s.procs[pid], c));
    assert PcOk(s.markers, s.finalizers, pid, p);
    GotoOk(s, pid, p, s'.procs[pid].pc);
  }

  lemma NextKeepsInv(timeout: int, s: State, a: Action)
    requires Inv(s)
    ensures Inv(Next(timeout, s, a)) && Evolves(s, Next(timeout, s, a))
  {
    if a.Step? && a.pid in s.procs {
      var pc := s.procs[a.pid].pc;
      if pc.Claim? || pc.TakeOver? || pc.Reserving? || pc.Finalizing? {
        WriteStepOk(timeout, s, a.pid, a.choice);
      } else {
        LocalStepOk(timeout, s, a.pid, a.choice);
      }
    }
  }

  lemma EvolvesTransitive(a: State, b: State, c: State)
    requires Evolves(a, b) && Evolves(b, c)
    ensures Evolves(a, c)
  {
  }

  lemma {:induction false} ExecKeepsInv(timeout: int, s: State, run: seq<Action>)
    requires Inv(s)
    ensures Inv(Exec(timeout, s, run)) && Evolves(s, Exec(timeout, s, run))
    decreases |run|
  {
    if run != [] {
      var s1 := Next(timeout, s, run[0]);
      NextKeepsInv(timeout, s, run[0]);
      ExecKeepsInv(timeout, s1, run[1..]);
      EvolvesTransitive(s, s1, Exec(timeout, s, run));
    }
  }
}

/** What DDL idempotency markers guarantee over every interleaving of requests. */
module DdlTheorems {
  import opened ObjectStore
  import opened DdlIdempotency

  ghost predicate Reached(timeout: int, s: State) { exists run :: s == Exec(timeout, Init(), run) }

  lemma ReachedInv(timeout: int, s: State)
    requires Reached(timeout, s)
    ensures Inv(s)
  {
    var run :| s == Exec(timeout, Init(), run);
    ExecKeepsInv(timeout, Init(), run);
  }

  /**
   Once a marker is Committed or Failed, no claim, takeover, reservation or finalize ever
   changes it again; and a key keeps the request hash of its first claim.
   */
  lemma TerminalIsAbsorbing(timeout: int, s: State, run: seq<Action>, key: string)
    requires Reached(timeout, s) && key in s.markers.objects
    ensures var (m, s') := (s.markers.objects[key].body, Exec(timeout, s, run));
            && key in s'.markers.objects && s'.markers.objects[key].body.requestHash == m.requestHash
            && (Terminal(m) ==> s'.markers.objects[key] == s.markers.objects[key])
  {
    ReachedInv(timeout, s);
    ExecKeepsInv(timeout, s, run);
  }

  /** At most one finalize per key succeeds, and what it wrote is what the key holds. */
  lemma AtMostOneFinalize(timeout: int, s: State, pid: nat, other: nat)
    requires Reached(timeout, s) && pid in s.procs && other in s.procs
    requires s.procs[pid].pc.Finalized? && s.procs[other].pc.Finalized? && s.procs[pid].key == s.procs[other].key
    ensures pid == other
    ensures s.procs[pid].key in s.markers.objects && s.markers.objects[s.procs[pid].key].body == s.procs[pid].pc.final
  {
    ReachedInv(timeout, s);
    assert PcOk(s.markers, s.finalizers, pid, s.procs[pid]) && PcOk(s.markers, s.finalizers, other, s.procs[other]);
  }

  /** The error branches for markers that lack their information, or vanish, are unreachable. */
  lemma MissingInfoIsUnreachable(timeout: int, s: State, pid: nat)
    requires Reached(timeout, s) && pid in s.procs
    ensures !s.procs[pid].pc.MissingInfo? && !s.procs[pid].pc.Disappeared?
    ensures forall key :: key in s.markers.objects ==> AnswerOf(s.markers.objects[key].body).Some?
  {
    ReachedInv(timeout, s);
    assert PcOk(s.markers, s.finalizers, pid, s.procs[pid]);
  }

  // ------------------------------------------------------------------
  // Superseded owners
  // ------------------------------------------------------------------

  /** The version an owner writes with. */
  function HeldVersion(pc: Pc): Option<nat> {
    match pc
    case Owner(_, v) => Some(v)
    case Reserving(_, v, _) => Some(v)
    case Finalizing(_, v, _) => Some(v)
    case _ => None
  }

  /** The request is an owner whose version is no longer current. */
  ghost predicate LostItsVersion(s: State, pid: nat) {
    && pid in s.procs && HeldVersion(s.procs[pid].pc).Some? && s.procs[pid].key in s.markers.objects
    && s.markers.objects[s.procs[pid].key].version != HeldVersion(s.procs[pid].pc).value
  }

  ghost predicate OutOfTheRace(s: State, pid: nat) {
    LostItsVersion(s, pid) || (pid in s.procs && (s.procs[pid].pc.Superseded? || s.procs[pid].pc.Stopped?))
  }

  /** A superseded version never comes back. */
  lemma OthersKeepOut(s: State, s': State, pid: nat)
    requires OutOfTheRace(s, pid) && Grows(s.markers, s'.markers)
    requires match HeldVersion(s.procs[pid].pc)
             case Some(v) => v < s.markers.next
             case None => true
    requires pid in s'.procs && s'.procs[pid] == s.procs[pid]
    ensures OutOfTheRace(s', pid)
  {
  }

  lemma OwnStepStaysOut(timeout: int, s: State, pid: nat, c: Choice)
    requires OutOfTheRace(s, pid)
    ensures OutOfTheRace(StepProcess(timeout, s, pid, s.procs[pid], c), pid)
  {
  }

  /** A step of another request leaves this one where it is. */
  lemma OthersLeaveAlone(timeout: int, s: State, a: Action, pid: nat)
    requires pid in s.procs && !(a.Step? && a.pid == pid)
    ensures pid in Next(timeout, s, a).procs && Next(timeout, s, a).procs[pid] == s.procs[pid]
  {
  }

  lemma HeldVersionIsOld(s: State, pid: nat)
    requires Inv(s) && pid in s.procs && HeldVersion(s.procs[pid].pc).Some?
    ensures HeldVersion(s.procs[pid].pc).value < s.markers.next
  {
    assert PcOk(s.markers, s.finalizers, pid, s.procs[pid]);
  }

  lemma StepStaysOut(timeout: int, s: State, a: Action, pid: nat)
    requires Inv(s) && OutOfTheRace(s, pid)
    ensures OutOfTheRace(Next(timeout, s, a), pid)
  {
    if a.Step? && a.pid == pid {
      OwnStepStaysOut(timeout, s, pid, a.choice);
    } else {
      if HeldVersion(s.procs[pid].pc).Some? {
        HeldVersionIsOld(s, pid);
      }
      NextKeepsInv(timeout, s, a);
      OthersLeaveAlone(timeout, s, a, pid);
      OthersKeepOut(s, Next(timeout, s, a), pid);
    }
  }

  /** Once somebody else wrote the marker, the former owner never finalizes it, whatever it and others do. */
  lemma {:induction false} SupersededOwnerNeverFinalizes(timeout: int, s: State, run: seq<Action>, pid: nat)
    requires Inv(s) && OutOfTheRace(s, pid)
    ensures OutOfTheRace(Exec(timeout, s, run), pid)
    decreases |run|
  {
    if run != [] {
      NextKeepsInv(timeout, s, run[0]);
      StepStaysOut(timeout, s, run[0], pid);
      SupersededOwnerNeverFinalizes(timeout, Next(timeout, s, run[0]), run[1..], pid);
    }
  }

  /** A superseded owner's finalize changes nothing and is told so. */
  lemma SupersededFinalizeConflicts(timeout: int, s: State, pid: nat, c: Choice)
    requires LostItsVersion(s, pid) && s.procs[pid].pc.Finalizing?
    ensures var s' := Next(timeout, s, Step(pid, c));
            && s'.markers == s.markers && s'.finalizers == s.finalizers
            && s'.procs[pid].pc == if c.fault == NoFault then Superseded else Stopped
  {
  }

  /** A takeover that takes effect replaces a marker that was still in progress, and supersedes every owner of it. */
  lemma TakeoverSupersedes(timeout: int, s: State, pid: nat, owner: nat, c: Choice)
    requires Reached(timeout, s) && pid in s.procs && owner in s.procs && pid != owner
    requires s.procs[pid].pc.TakeOver? && HeldVersion(s.procs[owner].pc).Some? && s.procs[owner].key == s.procs[pid].key
    requires Next(timeout, s, Step(pid, c)).markers != s.markers
    ensures !Terminal(s.markers.objects[s.procs[pid].key].body)
    ensures LostItsVersion(Next(timeout, s, Step(pid, c)), owner)
  {
    ReachedInv(timeout, s);
    assert PcOk(s.markers, s.finalizers, pid, s.procs[pid]) && PcOk(s.markers, s.finalizers, owner, s.procs[owner]);
  }

  // ------------------------------------------------------------------
  // Later checks
  // ------------------------------------------------------------------

  /** The answer every later check of a finalized key gets; a recovery reports a commit in its own way. */
  ghost predicate RightAnswer(m: Marker, hash: string, recovering: bool, a: Answer) {
    if hash != m.requestHash then a == HashConflict
    else if recovering && m.status == Committed then a == FinalizedDuringRecovery
    else AnswerOf(m) == Some(a)
  }

  /** Requests that have not decided yet what the marker says, those that lose a takeover included. */
  predicate StillChecking(pc: Pc) {
    pc.Claim? || pc.LoadHead? || pc.LoadGet? || pc.TakeOver? || pc.ReloadHead? || pc.ReloadGet?
  }

  /** The request is recovering a stale reservation. */
  predicate Recovering(pc: Pc) {
    match pc
    case TakeOver(_, _, recovering) => recovering
    case ReloadHead(recovering) => recovering
    case ReloadGet(recovering) => recovering
    case _ => false
  }

  /** A request on the key that can still only give the right answer, or hit a storage error. */
  ghost predicate OnTrack(s: State, pid: nat, key: string, m: Marker, recovering: bool) {
    pid in s.procs && s.procs[pid].key == key ==>
      var (hash, pc) := (s.procs[pid].hash, s.procs[pid].pc);
      || (StillChecking(pc) && Recovering(pc) == recovering)
      || (pc.Answered? && RightAnswer(m, hash, recovering, pc.answer))
      || pc.Stopped?
  }

  lemma OwnStepStaysOnTrack(timeout: int, s: State, pid: nat, key: string, recovering: bool, c: Choice)
    requires SharedOk(s.markers, s.finalizers) && key in s.markers.objects && Terminal(s.markers.objects[key].body)
    requires pid in s.procs && s.procs[pid].key == key && PcOk(s.markers, s.finalizers, pid, s.procs[pid])
    requires OnTrack(s, pid, key, s.markers.objects[key].body, recovering)
    ensures OnTrack(StepProcess(timeout, s, pid, s.procs[pid], c), pid, key, s.markers.objects[key].body, recovering)
  {
  }

  lemma StepStaysOnTrack(timeout: int, s: State, a: Action, pid: nat, key: string, recovering: bool)
    requires Inv(s) && key in s.markers.objects && Terminal(s.markers.objects[key].body)
    requires OnTrack(s, pid, key, s.markers.objects[key].body, recovering) && (pid !in s.procs ==> !recovering)
    ensures OnTrack(Next(timeout, s, a), pid, key, s.markers.objects[key].body, recovering)
  {
    if pid in s.procs {
      if a.Step? && a.pid == pid {
        if s.procs[pid].key == key {
          OwnStepStaysOnTrack(timeout, s, pid, key, recovering, a.choice);
        }
      } else {
        OthersLeaveAlone(timeout, s, a, pid);
      }
    }
  }

  lemma {:induction false} StaysOnTrack(timeout: int, s: State, run: seq<Action>, pid: nat, key: string,
                                        recovering: bool)
    requires Inv(s) && key in s.markers.objects && Terminal(s.markers.objects[key].body)
    requires OnTrack(s, pid, key, s.markers.objects[key].body, recovering) && (pid !in s.procs ==> !recovering)
    ensures OnTrack(Exec(timeout, s, run), pid, key, s.markers.objects[key].body, recovering)
    decreases |run|
  {
    if run != [] {
      NextKeepsInv(timeout, s, run[0]);
      StepStaysOnTrack(timeout, s, run[0], pid, key, recovering);
      StaysOnTrack(timeout, Next(timeout, s, run[0]), run[1..], pid, key, recovering);
    }
  }

  /**
   After a key is finalized, every request that starts later, or is still claiming, loading,
   taking over or reloading the marker, and gets an answer gets the recorded outcome if it
   carries the bound hash, and a conflict otherwise; none of them becomes an owner.
   */
  lemma LaterChecksAgree(timeout: int, s: State, run: seq<Action>, pid: nat, key: string)
    requires Reached(timeout, s) && key in s.markers.objects && Terminal(s.markers.objects[key].body)
    requires pid in s.procs ==> StillChecking(s.procs[pid].pc)
    ensures var recovering := pid in s.procs && Recovering(s.procs[pid].pc);
            var (m, s') := (s.markers.objects[key].body, Exec(timeout, s, run));
            && OnTrack(s', pid, key, m, recovering)
            && (pid in s'.procs && s'.procs[pid].key == key && s'.procs[pid].pc.Answered? ==>
                  RightAnswer(m, s'.procs[pid].hash, recovering, s'.procs[pid].pc.answer))
  {
    ReachedInv(timeout, s);
    StaysOnTrack(timeout, s, run, pid, key, pid in s.procs && Recovering(s.procs[pid].pc));
  }
}

/**
 Sequence positions of the Tier-2 ledger: appenders draw positions from one stored counter
 with a conditional write, then write their event once.
 */
module SequenceAllocation {
  import opened MachineIntegers
  import opened ObjectStore

  const MAX_ATTEMPTS: nat := 10

  /** The counter an allocation leaves behind, or nothing on overflow. */
  function Bumped(next: nat): Option<nat> {
    if next < U64_MAX then Some(next + 1) else None
  }

  /** The in-memory counter, between reading it and writing it back. */
  class SequenceCounter {
    var next: U64

    constructor (n: U64)
      ensures next == n
    {
      next := n;
    }

    /** Hands out the next position; an overflow is an error and leaves the counter alone. */
    method Allocate() returns (position: Option<nat>)
      modifies this
      ensures match Bumped(old(next))
              case Some(n) => position == Some(old(next)) && next == n
              case None => position == None && next == old(next)
    {
      var drawn := next;
      if next == U64_MAX {
        return None;
      }
      next := next + 1;
      position := Some(drawn);
    }
  }

  // ------------------------------------------------------------------
  // The machine
  // ------------------------------------------------------------------

  datatype Envelope = Envelope(sequence: nat, payload: string)

  datatype Pc =
    | CheckExists
    | AllocHead(attempt: nat)
    | Create(attempt: nat)
    | AllocGet(attempt: nat, version: nat)
    | Bump(attempt: nat, version: nat, next: nat)
    | WriteEvent(position: nat)
    | Appended(position: nat)
    | WastedDuplicate(position: nat)
    | Duplicate
    | Failed

  /** An append; `startedAt` is a history: how many positions were granted when its allocation began. */
  datatype Proc = Proc(path: string, payload: string, startedAt: nat, pc: Pc)

  /** The append that drew a position, and the event it drew it for. */
  datatype Grant = Grant(pid: nat, path: string, payload: string)

  /** `grants` is a history no step reads: who drew a position, in the order of the counter writes. */
  datatype State = State(
    counter: Store<(), nat>, ledger: Store<string, Envelope>, procs: map<nat, Proc>, grants: seq<Grant>)

  function Init(): State { State(Empty(), Empty(), map[], []) }

  function Retry(attempt: nat): Pc {
    if attempt == MAX_ATTEMPTS then Failed else AllocHead(attempt + 1)
  }

  /** A conditional write of the counter that, if it takes effect, grants `position`. */
  function PutCounter(s: State, pid: nat, p: Proc, next: nat, pre: Precondition, attempt: nat, position: nat,
                      fault: Fault): State {
    var (counter, out) := TryPut(s.counter, (), next, pre, fault);
    var pc := match out
      case Written => WriteEvent(position)
      case PreconditionFailed => Retry(attempt)
      case Errored => Failed;
    s.(counter := counter, procs := s.procs[pid := p.(pc := pc)],
       grants := if counter == s.counter then s.grants else s.grants + [Grant(pid, p.path, p.payload)])
  }

  function Goto(s: State, pid: nat, p: Proc, pc: Pc): State { s.(procs := s.procs[pid := p.(pc := pc)]) }

  function StepWriteEvent(s: State, pid: nat, p: Proc, position: nat, fault: Fault): State {
    var (ledger, out) := TryPut(s.ledger, p.path, Envelope(position, p.payload), DoesNotExist, fault);
    var pc := match out
      case Written => Appended(position)
      case PreconditionFailed => WastedDuplicate(position)
      case Errored => Failed;
    s.(ledger := ledger, procs := s.procs[pid := p.(pc := pc)])
  }

  function StepProcess(s: State, pid: nat, p: Proc, fault: Fault): State {
    match p.pc
    case CheckExists =>
      if fault != NoFault then Goto(s, pid, p, Failed)
      else if p.path in s.ledger.objects then Goto(s, pid, p, Duplicate)
      else Goto(s, pid, p.(startedAt := |s.grants|), AllocHead(1))
    case AllocHead(attempt) =>
      if fault != NoFault then Goto(s, pid, p, Failed)
      else if () !in s.counter.objects then Goto(s, pid, p, Create(attempt))
      else Goto(s, pid, p, AllocGet(attempt, s.counter.objects[()].version))
    case Create(attempt) => PutCounter(s, pid, p, 2, DoesNotExist, attempt, 1, fault)
    case AllocGet(attempt, version) =>
      if fault != NoFault || () !in s.counter.objects then Goto(s, pid, p, Failed)
      else if Bumped(s.counter.objects[()].body).None? then Goto(s, pid, p, Failed)
      else Goto(s, pid, p, Bump(attempt, version, s.counter.objects[()].body))
    case Bump(attempt, version, next) => PutCounter(s, pid, p, next + 1, MatchesVersion(version), attempt, next, fault)
    case WriteEvent(position) => StepWriteEvent(s, pid, p, position, fault)
    case _ => s
  }

  datatype Action = Start(pid: nat, path: string, payload: string) | Step(pid: nat, fault: Fault)

  function Next(s: State, a: Action): State {
    match a
    case Start(pid, path, payload) =>
      if pid in s.procs then s else s.(procs := s.procs[pid := Proc(path, payload, 0, CheckExists)])
    case Step(pid, fault) => if pid in s.procs then StepProcess(s, pid, s.procs[pid], fault) else s
  }

  function Exec(s: State, run: seq<Action>): State
    decreases |run|
  {
    if run == [] then s else Exec(Next(s, run[0]), run[1..])
  }

  // ------------------------------------------------------------------
  // The invariant
  // ------------------------------------------------------------------

  /** Position `n` was granted by the n-th counter write. */
  ghost predicate Granted(grants: seq<Grant>, n: nat, g: Grant) { 1 <= n <= |grants| && grants[n - 1] == g }

  ghost predicate NotGranted(grants: seq<Grant>, pid: nat) {
    forall i :: 0 <= i < |grants| ==> grants[i].pid != pid
  }

  function PositionOf(pc: Pc): Option<nat> {
    match pc
    case WriteEvent(n) => Some(n)
    case Appended(n) => Some(n)
    case WastedDuplicate(n) => Some(n)
    case _ => None
  }

  predicate Allocating(pc: Pc) { pc.AllocHead? || pc.Create? || pc.AllocGet? || pc.Bump? }

  /** The counter is one past the number of grants, and absent before the first. */
  ghost predicate CounterOk(counter: Store<(), nat>, grants: seq<Grant>) {
    && WellFormed(counter)
    && (() in counter.objects <==> |grants| > 0)
    && (() in counter.objects ==> counter.objects[()].body == |grants| + 1 <= U64_MAX)
  }

  /** Every append draws at most once. */
  ghost predicate GrantsOk(grants: seq<Grant>, pids: set<nat>) {
    && (forall i :: 0 <= i < |grants| ==> grants[i].pid in pids)
    && (forall i, j :: 0 <= i < j < |grants| ==> grants[i].pid != grants[j].pid)
  }

  ghost predicate ProcOk(counter: Store<(), nat>, grants: seq<Grant>, pid: nat, p: Proc) {
    && p.startedAt <= |grants|
    && (match PositionOf(p.pc)
        case Some(n) => Granted(grants, n, Grant(pid, p.path, p.payload)) && n > p.startedAt
        case None => true)
    && (p.pc.CheckExists? || Allocating(p.pc) ==> NotGranted(grants, pid))
    && (p.pc.AllocGet? ==> p.pc.version < counter.next)
    && (p.pc.Bump? ==> Seen(counter, (), p.pc.version, p.pc.next) && p.pc.next < U64_MAX)
  }

  ghost predicate ProcsOk(counter: Store<(), nat>, grants: seq<Grant>, procs: map<nat, Proc>) {
    forall pid :: pid in procs ==> ProcOk(counter, grants, pid, procs[pid])
  }

  /** A ledger file carries an event and the position drawn for it. */
  ghost predicate FileOk(grants: seq<Grant>, path: string, e: Envelope) {
    1 <= e.sequence <= |grants| && grants[e.sequence - 1].path == path && grants[e.sequence - 1].payload == e.payload
  }

  ghost predicate FilesOk(ledger: Store<string, Envelope>, grants: seq<Grant>) {
    forall path :: path in ledger.objects ==> FileOk(grants, path, ledger.objects[path].body)
  }

  ghost predicate Inv(s: State) {
    && CounterOk(s.counter, s.grants) && GrantsOk(s.grants, s.procs.Keys)
    && ProcsOk(s.counter, s.grants, s.procs) && FilesOk(s.ledger, s.grants)
  }

  /** Ledger files are never rewritten. */
  ghost predicate WriteOnce(a: Store<string, Envelope>, b: Store<string, Envelope>) {
    forall path :: path in a.objects ==> path in b.objects && b.objects[path] == a.objects[path]
  }

  /** A counter write that takes effect grants the next position. */
  lemma CounterWritten(s: State, pid: nat, next: nat, position: nat, pc: Pc)
    requires Inv(s) && pid in s.procs && Allocating(s.procs[pid].pc)
    requires position == |s.grants| + 1 && next == position + 1 <= U64_MAX
    requires pc == WriteEvent(position) || pc.Failed?
    ensures var p := s.procs[pid];
            Inv(s.(counter := Write(s.counter, (), next), procs := s.procs[pid := p.(pc := pc)],
                   grants := s.grants + [Grant(pid, p.path, p.payload)]))
  {
    var (counter, grants) := (Write(s.counter, (), next),
                              s.grants + [Grant(pid, s.procs[pid].path, s.procs[pid].payload)]);
    WriteGrows(s.counter, (), next);
    forall q | q in s.procs && q != pid ensures ProcOk(counter, grants, q, s.procs[q]) {
      assert ProcOk(s.counter, s.grants, q, s.procs[q]);
    }
    assert ProcOk(s.counter, s.grants, pid, s.procs[pid]);
  }

  lemma GotoOk(s: State, pid: nat, p: Proc, pc: Pc)
    requires Inv(s) && pid in s.procs && ProcOk(s.counter, s.grants, pid, p.(pc := pc))
    ensures Inv(Goto(s, pid, p, pc))
  {
  }

  lemma PutCounterOk(s: State, pid: nat, next: nat, pre: Precondition, attempt: nat, position: nat, fault: Fault)
    requires Inv(s) && pid in s.procs && Allocating(s.procs[pid].pc)
    requires Admits(s.counter, (), pre) ==> position == |s.grants| + 1 && next == position + 1 <= U64_MAX
    ensures Inv(PutCounter(s, pid, s.procs[pid], next, pre, attempt, position, fault))
  {
    var s' := PutCounter(s, pid, s.procs[pid], next, pre, attempt, position, fault);
    if s'.counter == s.counter {
      GotoOk(s, pid, s.procs[pid], s'.procs[pid].pc);
    } else {
      CounterWritten(s, pid, next, position, s'.procs[pid].pc);
    }
  }

  lemma WriteEventOk(s: State, pid: nat, fault: Fault)
    requires Inv(s) && pid in s.procs && s.procs[pid].pc.WriteEvent?
    ensures Inv(StepWriteEvent(s, pid, s.procs[pid], s.procs[pid].pc.position, fault))
  {
    var s' := StepWriteEvent(s, pid, s.procs[pid], s.procs[pid].pc.position, fault);
    GotoOk(s, pid, s.procs[pid], s'.procs[pid].pc);
  }

  lemma ReadStepOk(s: State, pid: nat, fault: Fault)
    requires Inv(s) && pid in s.procs
    requires s.procs[pid].pc.CheckExists? || s.procs[pid].pc.AllocHead? || s.procs[pid].pc.AllocGet?
    ensures Inv(StepProcess(s, pid, s.procs[pid], fault))
  {
    var p' := StepProcess(s, pid, s.procs[pid], fault).procs[pid];
    assert ProcOk(s.counter, s.grants, pid, s.procs[pid]);
    GotoOk(s, pid, p', p'.pc);
  }

  lemma NextKeepsInv(s: State, a: Action)
    requires Inv(s)
    ensures Inv(Next(s, a))
  {
    if a.Step? && a.pid in s.procs {
      var (pid, p) := (a.pid, s.procs[a.pid]);
      assert ProcOk(s.counter, s.grants, pid, p);
      match p.pc
      case CheckExists => ReadStepOk(s, pid, a.fault);
      case AllocHead(_) => ReadStepOk(s, pid, a.fault);
      case AllocGet(_, _) => ReadStepOk(s, pid, a.fault);
      case Create(attempt) => PutCounterOk(s, pid, 2, DoesNotExist, attempt, 1, a.fault);
      case Bump(attempt, version, next) => PutCounterOk(s, pid, next + 1, MatchesVersion(version), attempt, next,
                                                        a.fault);
      case WriteEvent(_) => WriteEventOk(s, pid, a.fault);
      case _ =>
    }
  }

  /** An append that reported success, or found a duplicate, has its file in the ledger. */
  ghost predicate StoredOk(ledger: Store<string, Envelope>, p: Proc) {
    match p.pc
    case Appended(n) => p.path in ledger.objects && ledger.objects[p.path].body == Envelope(n, p.payload)
    case WastedDuplicate(_) => p.path in ledger.objects
    case Duplicate => p.path in ledger.objects
    case _ => true
  }

  ghost predicate AllStored(s: State) {
    forall pid :: pid in s.procs ==> StoredOk(s.ledger, s.procs[pid])
  }

  lemma NextKeepsStored(s: State, a: Action)
    requires AllStored(s)
    ensures AllStored(Next(s, a))
  {
    NextEvolves(s, a);
  }

  /** One step only adds grants and ledger files. */
  lemma NextEvolves(s: State, a: Action)
    ensures s.grants <= Next(s, a).grants && WriteOnce(s.ledger, Next(s, a).ledger)
  {
  }

  lemma {:induction false} ExecKeepsInv(s: State, run: seq<Action>)
    requires Inv(s)
    ensures Inv(Exec(s, run)) && s.grants <= Exec(s, run).grants && WriteOnce(s.ledger, Exec(s, run).ledger)
    ensures AllStored(s) ==> AllStored(Exec(s, run))
    decreases |run|
  {
    if run != [] {
      NextKeepsInv(s, run[0]);
      if AllStored(s) {
        NextKeepsStored(s, run[0]);
      }
      NextEvolves(s, run[0]);
      ExecKeepsInv(Next(s, run[0]), run[1..]);
    }
  }

  // ------------------------------------------------------------------
  // Main results
  // ------------------------------------------------------------------

  ghost predicate Reached(s: State) { exists run :: s == Exec(Init(), run) }

  lemma ReachedInv(s: State)
    requires Reached(s)
    ensures Inv(s) && AllStored(s)
  {
    var run :| s == Exec(Init(), run);
    ExecKeepsInv(Init(), run);
  }

  ghost function GrantOf(s: State, pid: nat): Grant
    requires pid in s.procs
  {
    Grant(pid, s.procs[pid].path, s.procs[pid].payload)
  }

  /**
   The position an append holds is its place in the order of the counter writes.  So an append
   that holds one now, even if it fails later, shares it with no append that holds one at any
   later time, and an append never draws a second one.
   */
  lemma PositionsFollowTheCounter(s: State, run: seq<Action>, pid: nat, other: nat)
    requires Reached(s) && pid in s.procs && PositionOf(s.procs[pid].pc).Some?
    requires var s' := Exec(s, run); other in s'.procs && PositionOf(s'.procs[other].pc).Some?
    ensures var s' := Exec(s, run);
            var (n, k) := (PositionOf(s.procs[pid].pc).value, PositionOf(s'.procs[other].pc).value);
            && Granted(s'.grants, n, GrantOf(s, pid)) && Granted(s'.grants, k, GrantOf(s', other))
            && (n == k <==> pid == other)
  {
    ReachedInv(s);
    ExecKeepsInv(s, run);
    var s' := Exec(s, run);
    assert ProcOk(s.counter, s.grants, pid, s.procs[pid]) && ProcOk(s'.counter, s'.grants, other, s'.procs[other]);
  }

  /** Every position in the ledger is below the counter, and no two files carry the same one. */
  lemma LedgerPositions(s: State, path: string, other: string)
    requires Reached(s) && path in s.ledger.objects && other in s.ledger.objects
    ensures () in s.counter.objects && 1 <= s.ledger.objects[path].body.sequence < s.counter.objects[()].body
    ensures s.ledger.objects[path].body.sequence == s.ledger.objects[other].body.sequence <==> path == other
  {
    ReachedInv(s);
    assert FileOk(s.grants, path, s.ledger.objects[path].body);
    assert FileOk(s.grants, other, s.ledger.objects[other].body);
  }

  /** A ledger file never changes once written. */
  lemma LedgerIsWriteOnce(s: State, run: seq<Action>, path: string)
    requires Reached(s) && path in s.ledger.objects
    ensures path in Exec(s, run).ledger.objects && Exec(s, run).ledger.objects[path] == s.ledger.objects[path]
  {
    ReachedInv(s);
    ExecKeepsInv(s, run);
  }

  /**
   A successful append leaves its event in the ledger under the position it was told, for
   good; a duplicate finds one there.
   */
  lemma AppendedEventsAreStored(s: State, run: seq<Action>, pid: nat)
    requires Reached(s) && pid in s.procs
    ensures StoredOk(s.ledger, s.procs[pid]) && StoredOk(Exec(s, run).ledger, s.procs[pid])
  {
    ReachedInv(s);
    ExecKeepsInv(s, run);
  }

  /** `pid` has not begun its allocation, or began it after `n` positions were granted. */
  ghost predicate BeginsAfter(s: State, pid: nat, n: nat) {
    && n <= |s.grants|
    && (pid !in s.procs || s.procs[pid].pc.CheckExists? || s.procs[pid].pc.Duplicate? || s.procs[pid].pc.Failed?
        || s.procs[pid].startedAt >= n)
  }

  lemma NextBeginsAfter(s: State, a: Action, pid: nat, n: nat)
    requires BeginsAfter(s, pid, n)
    ensures BeginsAfter(Next(s, a), pid, n)
  {
    NextEvolves(s, a);
  }

  lemma {:induction false} StillBeginsAfter(s: State, run: seq<Action>, pid: nat, n: nat)
    requires BeginsAfter(s, pid, n)
    ensures BeginsAfter(Exec(s, run), pid, n)
    decreases |run|
  {
    if run != [] {
      NextBeginsAfter(s, run[0], pid, n);
      StillBeginsAfter(Next(s, run[0]), run[1..], pid, n);
    }
  }

  /** An allocation that finished before another began got the smaller position, whatever runs in between. */
  lemma RealTimeOrder(s: State, run: seq<Action>, earlier: nat, later: nat)
    requires Reached(s) && earlier in s.procs && PositionOf(s.procs[earlier].pc).Some?
    requires later !in s.procs || s.procs[later].pc.CheckExists?
    requires later in Exec(s, run).procs && PositionOf(Exec(s, run).procs[later].pc).Some?
    ensures PositionOf(s.procs[earlier].pc).value < PositionOf(Exec(s, run).procs[later].pc).value
  {
    ReachedInv(s);
    var n := PositionOf(s.procs[earlier].pc).value;
    assert ProcOk(s.counter, s.grants, earlier, s.procs[earlier]);
    StillBeginsAfter(s, run, later, n);
    ExecKeepsInv(s, run);
    var s' := Exec(s, run);
    assert ProcOk(s'.counter, s'.grants, later, s'.procs[later]);
  }

  // ------------------------------------------------------------------
  // An append left alone
  // ------------------------------------------------------------------

  /** `k` faultless steps of one append. */
  function Solo(s: State, pid: nat, k: nat): State
    decreases k
  {
    if k == 0 then s else Solo(Next(s, Step(pid, NoFault)), pid, k - 1)
  }

  lemma {:induction false} SoloStops(s: State, pid: nat, k: nat)
    requires pid in s.procs && (s.procs[pid].pc.Appended? || s.procs[pid].pc.Duplicate? || s.procs[pid].pc.Failed?)
    ensures Solo(s, pid, k) == s
    decreases k
  {
    if k > 0 {
      SoloStops(s, pid, k - 1);
    }
  }

  /** What an append of a new path leaves: its event under the counter's position, and the counter one further. */
  ghost predicate AppendedAt(s: State, s': State, pid: nat, path: string, payload: string, n: nat) {
    && pid in s'.procs && s'.procs[pid].pc == Appended(n)
    && path in s'.ledger.objects && s'.ledger.objects[path].body == Envelope(n, payload)
    && () in s'.counter.objects && s'.counter.objects[()].body == n + 1
    && (forall x :: x in s.ledger.objects ==> x in s'.ledger.objects && s'.ledger.objects[x] == s.ledger.objects[x])
  }

  ghost predicate Unchanged(s: State, s': State) {
    s'.ledger == s.ledger && s'.counter == s.counter && s'.grants == s.grants
  }

  lemma FirstAppend(s: State, pid: nat, k: nat)
    requires pid in s.procs && s.procs[pid].pc == AllocHead(1) && () !in s.counter.objects && k >= 3
    requires s.procs[pid].path !in s.ledger.objects
    ensures AppendedAt(s, Solo(s, pid, k), pid, s.procs[pid].path, s.procs[pid].payload, 1)
  {
    var s1 := Next(s, Step(pid, NoFault));
    var s2 := Next(s1, Step(pid, NoFault));
    var s3 := Next(s2, Step(pid, NoFault));
    assert Solo(s, pid, k) == Solo(s1, pid, k - 1) == Solo(s2, pid, k - 2) == Solo(s3, pid, k - 3);
    SoloStops(s3, pid, k - 3);
  }

  lemma LaterAppend(s: State, pid: nat, k: nat)
    requires pid in s.procs && s.procs[pid].pc == AllocHead(1) && () in s.counter.objects && k >= 4
    requires s.counter.objects[()].body < U64_MAX && s.procs[pid].path !in s.ledger.objects
    ensures AppendedAt(s, Solo(s, pid, k), pid, s.procs[pid].path, s.procs[pid].payload, s.counter.objects[()].body)
  {
    var s1 := Next(s, Step(pid, NoFault));
    var s2 := Next(s1, Step(pid, NoFault));
    var s3 := Next(s2, Step(pid, NoFault));
    var s4 := Next(s3, Step(pid, NoFault));
    assert Solo(s, pid, k) == Solo(s1, pid, k - 1) == Solo(s2, pid, k - 2) == Solo(s3, pid, k - 3)
           == Solo(s4, pid, k - 4);
    SoloStops(s4, pid, k - 4);
  }

  lemma OverflowingAppend(s: State, pid: nat, k: nat)
    requires pid in s.procs && s.procs[pid].pc == AllocHead(1) && () in s.counter.objects && k >= 2
    requires s.counter.objects[()].body >= U64_MAX
    ensures var s' := Solo(s, pid, k); Unchanged(s, s') && pid in s'.procs && s'.procs[pid].pc.Failed?
  {
    var s1 := Next(s, Step(pid, NoFault));
    var s2 := Next(s1, Step(pid, NoFault));
    SoloStops(s2, pid, k - 2);
  }

  /**
   A new append, stepped alone and without faults, is done within five steps: on a path that
   exists it reports a duplicate and draws no position; on a new one it stores its event under
   the counter's position, the first one under 1, and fails only when the counter is exhausted.
   */
  lemma AppendAlone(s: State, pid: nat, path: string, payload: string, k: nat)
    requires pid !in s.procs && k >= 5
    ensures var s' := Solo(Next(s, Start(pid, path, payload)), pid, k);
            && pid in s'.procs
            && if path in s.ledger.objects then s'.procs[pid].pc.Duplicate? && Unchanged(s, s')
               else if () !in s.counter.objects then AppendedAt(s, s', pid, path, payload, 1)
               else if s.counter.objects[()].body < U64_MAX
               then AppendedAt(s, s', pid, path, payload, s.counter.objects[()].body)
               else s'.procs[pid].pc.Failed? && Unchanged(s, s')
  {
    var s0 := Next(s, Start(pid, path, payload));
    var s1 := Next(s0, Step(pid, NoFault));
    if path in s.ledger.objects {
      SoloStops(s1, pid, k - 1);
    } else if () !in s.counter.objects {
      FirstAppend(s1, pid, k - 1);
    } else if s.counter.objects[()].body < U64_MAX {
      LaterAppend(s1, pid, k - 1);
    } else {
      OverflowingAppend(s1, pid, k - 1);
    }
  }

  // ------------------------------------------------------------------
  // How often a contended counter is tried
  // ------------------------------------------------------------------

  lemma {:induction false} ExecSnoc(s: State, run: seq<Action>, a: Action)
    ensures Exec(s, run + [a]) == Next(Exec(s, run), a)
    decreases |run|
  {
    if run == [] {
      assert run + [a] == [a];
      assert Exec(Next(s, a), []) == Next(s, a);
    } else {
      assert (run + [a])[1..] == run[1..] + [a];
      ExecSnoc(Next(s, run[0]), run[1..], a);
    }
  }

  /** An append that has not ended and meets a storage fault fails. */
  lemma FaultsFail(s: State, pid: nat, fault: Fault)
    requires pid in s.procs && fault != NoFault
    requires var pc := s.procs[pid].pc; !pc.Appended? && !pc.WastedDuplicate? && !pc.Duplicate?
    ensures var s' := Next(s, Step(pid, fault));
            && pid in s'.procs && s'.procs[pid].pc.Failed?
            && (fault == ErrorBefore ==> s'.counter == s.counter && s'.ledger == s.ledger)
  {
  }

  /** In this step the append tries to write a counter that is no longer the one it read, and is told so. */
  predicate IsRefused(s: State, a: Action, pid: nat) {
    && a == Step(pid, NoFault) && pid in s.procs
    && match s.procs[pid].pc
       case Create(_) => () in s.counter.objects
       case Bump(_, version, _) => !(() in s.counter.objects && s.counter.objects[()].version == version)
       case _ => false
  }

  ghost function Refusals(run: seq<Action>, pid: nat): nat
    decreases |run|
  {
    if run == [] then 0
    else
      var n := |run| - 1;
      Refusals(run[..n], pid) + (if IsRefused(Exec(Init(), run[..n]), run[n], pid) then 1 else 0)
  }

  predicate CountsAttempts(pc: Pc, refusals: nat) {
    && (Allocating(pc) ==> pc.attempt == refusals + 1 <= 10)
    && (pc.CheckExists? ==> refusals == 0)
  }

  lemma StepCounts(s: State, a: Action, pid: nat, n: nat)
    requires pid in s.procs ==> CountsAttempts(s.procs[pid].pc, n)
    requires pid !in s.procs ==> n == 0
    ensures var (s', refused) := (Next(s, a), IsRefused(s, a, pid));
            && (pid in s'.procs ==> CountsAttempts(s'.procs[pid].pc, if refused then n + 1 else n))
            && (refused ==>
                  pid in s'.procs
                  && if n + 1 < 10 then s'.procs[pid].pc == AllocHead(n + 2) else s'.procs[pid].pc.Failed?)
  {
  }

  lemma {:induction false} RefusalsAreCounted(run: seq<Action>, pid: nat)
    ensures var s := Exec(Init(), run);
            && (pid in s.procs ==> CountsAttempts(s.procs[pid].pc, Refusals(run, pid)))
            && (pid !in s.procs ==> Refusals(run, pid) == 0)
    decreases |run|
  {
    if run != [] {
      var n := |run| - 1;
      ExecSnoc(Init(), run[..n], run[n]);
      assert run[..n] + [run[n]] == run;
      RefusalsAreCounted(run[..n], pid);
      StepCounts(Exec(Init(), run[..n]), run[n], pid, Refusals(run[..n], pid));
    }
  }

  /** In every run, an append whose counter write is refused tries again, unless it was the tenth refusal. */
  lemma RefusedAppendsRetry(run: seq<Action>, pid: nat)
    requires IsRefused(Exec(Init(), run), Step(pid, NoFault), pid)
    ensures var s' := Next(Exec(Init(), run), Step(pid, NoFault));
            && pid in s'.procs
            && if Refusals(run, pid) + 1 < 10 then s'.procs[pid].pc.AllocHead? else s'.procs[pid].pc.Failed?
  {
    RefusalsAreCounted(run, pid);
    StepCounts(Exec(Init(), run), Step(pid, NoFault), pid, Refusals(run, pid));
  }
}

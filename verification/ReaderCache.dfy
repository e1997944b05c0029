/**
 The reader's double-checked cache of decoded read models: look in the cache, take the
 refresh lock, look again, load, store.  Readers run concurrently; a reader may also fail
 or be cancelled at any point, which releases the lock it holds.
 */
module ReaderCache {
  import opened ObjectStore

  /** The part of a catalog manifest that identifies a snapshot. */
  datatype Identity = Identity(snapshotVersion: nat, manifestId: string, lastCommitId: Option<string>)

  datatype Manifest = Manifest(snapshotVersion: nat, manifestId: string, lastCommitId: Option<string>,
                               snapshotPath: string)

  function IdentityOf(m: Manifest): Identity { Identity(m.snapshotVersion, m.manifestId, m.lastCommitId) }

  /** Loading decodes immutable snapshot files, so it is a function of the manifest; nothing when a file is missing. */
  type Loader<!M> = Manifest -> Option<M>

  datatype Entry<M> = Entry(identity: Identity, model: M)

  datatype Pc<M> =
    | FirstCheck
    | AwaitLock
    | SecondCheck
    | Load
    | StoreModel(model: M)
    | Returned(model: M)
    | Failed

  datatype Proc<M> = Proc(manifest: Manifest, pc: Pc<M>)

  datatype State<M> = State(cache: Option<Entry<M>>, refresher: Option<nat>, procs: map<nat, Proc<M>>)

  function Init<M>(): State<M> { State(None, None, map[]) }

  /** A cached model counts only under the same identity. */
  function Cached<M>(cache: Option<Entry<M>>, id: Identity): Option<M> {
    if cache.Some? && cache.value.identity == id then Some(cache.value.model) else None
  }

  datatype Action = Start(pid: nat, manifest: Manifest) | Step(pid: nat) | Cancel(pid: nat)

  function Goto<M>(s: State<M>, pid: nat, pc: Pc<M>): State<M>
    requires pid in s.procs
  {
    s.(procs := s.procs[pid := s.procs[pid].(pc := pc)])
  }

  /** Leaves the critical section. */
  function Leave<M>(s: State<M>, pid: nat, pc: Pc<M>): State<M>
    requires pid in s.procs
  {
    Goto(s, pid, pc).(refresher := if s.refresher == Some(pid) then None else s.refresher)
  }

  function StepReader<M>(load: Loader<M>, s: State<M>, pid: nat): State<M>
    requires pid in s.procs
  {
    var p := s.procs[pid];
    var hit := Cached(s.cache, IdentityOf(p.manifest));
    match p.pc
    case FirstCheck => if hit.Some? then Goto(s, pid, Returned(hit.value)) else Goto(s, pid, AwaitLock)
    case AwaitLock => if s.refresher.Some? then s else Goto(s, pid, SecondCheck).(refresher := Some(pid))
    case SecondCheck => if hit.Some? then Leave(s, pid, Returned(hit.value)) else Goto(s, pid, Load)
    case Load =>
      (match load(p.manifest)
       case Some(model) => Goto(s, pid, StoreModel(model))
       case None => Leave(s, pid, Failed))
    case StoreModel(model) =>
      Leave(s.(cache := Some(Entry(IdentityOf(p.manifest), model))), pid, Returned(model))
    case _ => s
  }

  function Next<M>(load: Loader<M>, s: State<M>, a: Action): State<M> {
    match a
    case Start(pid, manifest) => if pid in s.procs then s else s.(procs := s.procs[pid := Proc(manifest, FirstCheck)])
    case Step(pid) => if pid in s.procs then StepReader(load, s, pid) else s
    case Cancel(pid) => if pid in s.procs && !s.procs[pid].pc.Returned? then Leave(s, pid, Failed) else s
  }

  function Exec<M>(load: Loader<M>, s: State<M>, run: seq<Action>): State<M>
    decreases |run|
  {
    if run == [] then s else Exec(load, Next(load, s, run[0]), run[1..])
  }

  // ------------------------------------------------------------------
  // The invariant
  // ------------------------------------------------------------------

  /** Snapshot version, manifest id and last commit are the same; the path may differ. */
  predicate SameSnapshot(a: Manifest, b: Manifest) {
    a.snapshotVersion == b.snapshotVersion && a.manifestId == b.manifestId && a.lastCommitId == b.lastCommitId
  }

  /** Manifests of the same snapshot load the same model. */
  ghost predicate IdentityDetermines<M(!new)>(load: Loader<M>) {
    forall a, b :: SameSnapshot(a, b) && load(a).Some? && load(b).Some? ==> load(a) == load(b)
  }

  predicate InRefresh<M>(pc: Pc<M>) { pc.SecondCheck? || pc.Load? || pc.StoreModel? }

  /** `model` is one that a manifest with this identity loads. */
  ghost predicate LoadedUnder<M(!new)>(load: Loader<M>, id: Identity, model: M) {
    exists m :: IdentityOf(m) == id && load(m) == Some(model)
  }

  ghost predicate ProcOk<M(!new)>(load: Loader<M>, p: Proc<M>) {
    match p.pc
    case StoreModel(model) => load(p.manifest) == Some(model)
    case Returned(model) => LoadedUnder(load, IdentityOf(p.manifest), model)
    case _ => true
  }

  ghost predicate Inv<M(!new)>(load: Loader<M>, s: State<M>) {
    && (s.cache.Some? ==> LoadedUnder(load, s.cache.value.identity, s.cache.value.model))
    && (forall pid :: pid in s.procs ==> ProcOk(load, s.procs[pid]))
    && (forall pid :: pid in s.procs && InRefresh(s.procs[pid].pc) ==> s.refresher == Some(pid))
    && (s.refresher.Some? ==> s.refresher.value in s.procs && InRefresh(s.procs[s.refresher.value].pc))
    && (forall pid :: pid in s.procs && (s.procs[pid].pc.Load? || s.procs[pid].pc.StoreModel?) ==>
          Cached(s.cache, IdentityOf(s.procs[pid].manifest)).None?)
  }

  lemma NextKeepsInv<M(!new)>(load: Loader<M>, s: State<M>, a: Action)
    requires Inv(load, s)
    ensures Inv(load, Next(load, s, a))
  {
    if a.Step? && a.pid in s.procs {
      assert ProcOk(load, s.procs[a.pid]);
    }
  }

  lemma {:induction false} ExecKeepsInv<M(!new)>(load: Loader<M>, s: State<M>, run: seq<Action>)
    requires Inv(load, s)
    ensures Inv(load, Exec(load, s, run))
    decreases |run|
  {
    if run != [] {
      NextKeepsInv(load, s, run[0]);
      ExecKeepsInv(load, Next(load, s, run[0]), run[1..]);
    }
  }

  // ------------------------------------------------------------------
  // Main results
  // ------------------------------------------------------------------

  /** At most one reader refreshes at a time. */
  lemma OneRefresher<M(!new)>(load: Loader<M>, run: seq<Action>, a: nat, b: nat)
    requires var s := Exec(load, Init(), run);
             a in s.procs && b in s.procs && InRefresh(s.procs[a].pc) && InRefresh(s.procs[b].pc)
    ensures a == b
  {
    ExecKeepsInv(load, Init(), run);
  }

  /**
   The refresh lock is held exactly while some reader refreshes: whoever returns, fails or
   is cancelled gives it back.
   */
  lemma LockIsGivenBack<M(!new)>(load: Loader<M>, run: seq<Action>, pid: nat)
    ensures var s := Exec(load, Init(), run);
            s.refresher == Some(pid) <==> pid in s.procs && InRefresh(s.procs[pid].pc)
  {
    ExecKeepsInv(load, Init(), run);
  }

  /** Readers that waited for a refresh use it: whoever loads finds nothing cached for its snapshot, in every run. */
  lemma LoadsOnlyWhatIsMissing<M(!new)>(load: Loader<M>, run: seq<Action>, pid: nat)
    requires var s := Exec(load, Init(), run); pid in s.procs && s.procs[pid].pc.Load?
    ensures var (s, m) := (Exec(load, Init(), run), Exec(load, Init(), run).procs[pid].manifest);
            s.cache.Some? ==>
              var id := s.cache.value.identity;
              !(id.snapshotVersion == m.snapshotVersion && id.manifestId == m.manifestId
                && id.lastCommitId == m.lastCommitId)
  {
    ExecKeepsInv(load, Init(), run);
  }

  function Solo<M>(load: Loader<M>, s: State<M>, pid: nat, k: nat): State<M>
    decreases k
  {
    if k == 0 then s else Solo(load, Next(load, s, Step(pid)), pid, k - 1)
  }

  lemma {:induction false} SoloStops<M>(load: Loader<M>, s: State<M>, pid: nat, k: nat)
    requires pid in s.procs && (s.procs[pid].pc.Returned? || s.procs[pid].pc.Failed?)
    ensures Solo(load, s, pid, k) == s
    decreases k
  {
    if k > 0 {
      SoloStops(load, s, pid, k - 1);
    }
  }

  /**
   A new reader that finds the refresh lock free and is left alone is done within five steps:
   it returns the cached model of its manifest's identity and leaves the cache alone, or loads
   its own model, returns it and caches it under that identity, or fails when it cannot load.
   */
  lemma ReaderAlone<M(!new)>(load: Loader<M>, s: State<M>, pid: nat, m: Manifest, k: nat)
    requires pid !in s.procs && s.refresher.None? && k >= 5
    ensures var s' := Solo(load, Next(load, s, Start(pid, m)), pid, k);
            && pid in s'.procs && s'.refresher.None?
            && if s.cache.Some? && s.cache.value.identity == IdentityOf(m)
               then s'.procs[pid].pc == Returned(s.cache.value.model) && s'.cache == s.cache
               else
                 match load(m)
                 case Some(model) =>
                   s'.procs[pid].pc == Returned(model) && s'.cache == Some(Entry(IdentityOf(m), model))
                 case None => s'.procs[pid].pc.Failed? && s'.cache == s.cache
  {
    var s0 := Next(load, s, Start(pid, m));
    var s1 := Next(load, s0, Step(pid));
    assert Solo(load, s0, pid, k) == Solo(load, s1, pid, k - 1);
    if s.cache.Some? && s.cache.value.identity == IdentityOf(m) {
      SoloStops(load, s1, pid, k - 1);
    } else {
      var s2 := Next(load, s1, Step(pid));
      var s3 := Next(load, s2, Step(pid));
      var s4 := Next(load, s3, Step(pid));
      assert Solo(load, s1, pid, k - 1) == Solo(load, s2, pid, k - 2) == Solo(load, s3, pid, k - 3);
      assert Solo(load, s3, pid, k - 3) == Solo(load, s4, pid, k - 4);
      if load(m).None? {
        SoloStops(load, s4, pid, k - 4);
      } else {
        var s5 := Next(load, s4, Step(pid));
        assert Solo(load, s4, pid, k - 4) == Solo(load, s5, pid, k - 5);
        SoloStops(load, s5, pid, k - 5);
      }
    }
  }

  /** Every reader that returns, returns a model its manifest may stand for: its own, when it can load one. */
  ghost predicate ReturnsItsOwn<M(!new)>(load: Loader<M>, s: State<M>) {
    forall pid :: pid in s.procs && s.procs[pid].pc.Returned? && load(s.procs[pid].manifest).Some? ==>
      load(s.procs[pid].manifest) == Some(s.procs[pid].pc.model)
  }

  ghost predicate AlwaysItsOwn<M(!new)>(load: Loader<M>) {
    forall run :: ReturnsItsOwn(load, Exec(load, Init(), run))
  }

  lemma DeterminedModels<M(!new)>(load: Loader<M>, run: seq<Action>)
    requires IdentityDetermines(load)
    ensures ReturnsItsOwn(load, Exec(load, Init(), run))
  {
    ExecKeepsInv(load, Init(), run);
    var s := Exec(load, Init(), run);
    forall pid | pid in s.procs && s.procs[pid].pc.Returned? && load(s.procs[pid].manifest).Some?
      ensures load(s.procs[pid].manifest) == Some(s.procs[pid].pc.model)
    {
      assert ProcOk(load, s.procs[pid]);
    }
  }

  /** One reader fills the cache, the next one hits it. */
  function FillThenHit(a: Manifest, b: Manifest): seq<Action> {
    [Start(0, a), Step(0), Step(0), Step(0), Step(0), Step(0), Start(1, b), Step(1)]
  }

  lemma {:induction false} ExecConcat<M>(load: Loader<M>, s: State<M>, a: seq<Action>, b: seq<Action>)
    ensures Exec(load, s, a + b) == Exec(load, Exec(load, s, a), b)
    decreases |a|
  {
    if a == [] {
      assert a + b == b;
    } else {
      assert (a + b)[1..] == a[1..] + b;
      ExecConcat(load, Next(load, s, a[0]), a[1..], b);
    }
  }

  lemma FirstReaderFills<M>(load: Loader<M>, a: Manifest)
    requires load(a).Some?
    ensures Exec(load, Init(), [Start(0, a), Step(0), Step(0), Step(0), Step(0), Step(0)]) ==
            State(Some(Entry(IdentityOf(a), load(a).value)), None, map[0 := Proc(a, Returned(load(a).value))])
  {
    var s0: State<M> := Init();
    var s1 := Next(load, s0, Start(0, a));
    var s2 := Next(load, s1, Step(0));
    var s3 := Next(load, s2, Step(0));
    var s4 := Next(load, s3, Step(0));
    var s5 := Next(load, s4, Step(0));
    var s6 := Next(load, s5, Step(0));
    assert Exec(load, s5, [Step(0)]) == s6;
    assert Exec(load, s4, [Step(0), Step(0)]) == s6;
    assert Exec(load, s3, [Step(0), Step(0), Step(0)]) == s6;
    assert Exec(load, s2, [Step(0), Step(0), Step(0), Step(0)]) == s6;
    assert Exec(load, s1, [Step(0), Step(0), Step(0), Step(0), Step(0)]) == s6;
    assert s6.procs == map[0 := Proc(a, Returned(load(a).value))];
  }

  lemma SecondReaderHits<M>(load: Loader<M>, a: Manifest, b: Manifest)
    requires load(a).Some? && IdentityOf(a) == IdentityOf(b)
    ensures var s := Exec(load, Init(), FillThenHit(a, b));
            1 in s.procs && s.procs[1] == Proc(b, Returned(load(a).value))
  {
    var fill := [Start(0, a), Step(0), Step(0), Step(0), Step(0), Step(0)];
    var hit := [Start(1, b), Step(1)];
    assert FillThenHit(a, b) == fill + hit;
    FirstReaderFills(load, a);
    ExecConcat(load, Init(), fill, hit);
    var s := Exec(load, Init(), fill);
    var s1 := Next(load, s, hit[0]);
    assert Exec(load, s1, [Step(1)]) == Next(load, s1, Step(1));
    assert hit[1..] == [Step(1)];
  }

  /**
   In every interleaving every reader gets the model of its own manifest, exactly when the
   snapshot identity determines the model.
   */
  lemma CacheIsTransparentIff<M(!new)>(load: Loader<M>)
    ensures AlwaysItsOwn(load) <==> IdentityDetermines(load)
  {
    if IdentityDetermines(load) {
      forall run ensures ReturnsItsOwn(load, Exec(load, Init(), run)) {
        DeterminedModels(load, run);
      }
    }
    if AlwaysItsOwn(load) {
      forall a, b | SameSnapshot(a, b) && load(a).Some? && load(b).Some? ensures load(a) == load(b) {
        SecondReaderHits(load, a, b);
        assert ReturnsItsOwn(load, Exec(load, Init(), FillThenHit(a, b)));
      }
    }
  }
}

/**
 Where coverage stops: a compactor given explicit names moves the watermark past files it
 skips, and a file appended below the watermark is not covered by it.
 */
module CompactorBoundary {
  import opened ObjectStore
  import opened LexOrder
  import opened CompactorFold
  import opened CompactorProtocol
  import opened CompactorTheorems

  const FIRST: string := "a.json"
  const SECOND: string := "b.json"

  const FILE: EventFile := LegacyPayload(Record("m", "asset", 1, 1))

  lemma NamesInOrder()
    ensures Less(FIRST, SECOND) && !Less(SECOND, FIRST) && FIRST != SECOND && IsEventName(FIRST) && IsEventName(SECOND)
  {
    assert FIRST[0] == 'a' && SECOND[0] == 'b';
    assert FIRST[1..] == ".json" && SECOND[1..] == ".json";
  }

  lemma Do(cfg: Config, run: seq<Action>, s: State, a: Action) returns (run': seq<Action>, s': State)
    requires Exec(cfg, Init(), run) == s
    ensures Exec(cfg, Init(), run') == s' && s' == Next(cfg, s, a)
  {
    run', s' := run + [a], Next(cfg, s, a);
    ExecConcat(cfg, Init(), run, [a]);
    assert Exec(cfg, Next(cfg, s, a), []) == Next(cfg, s, a);
  }

  lemma ReadsOne(ledger: seq<LedgerFile>, name: string, e: Event)
    requires FindFile(ledger, name) == Some(e)
    ensures ReadEvents(ledger, [name]) == Some([e])
  {
    assert [name][..0] == [];
    assert ReadEvents(ledger, []) == Some([]);
    var none: seq<Event> := [];
    assert none + [e] == [e];
  }

  lemma ListsOne(f: LedgerFile)
    ensures Listing([f]) == [f] && NamesAfter([f], None) == [f.name] && FindFile([f], f.name) == Some(f.event)
  {
    assert [f][..0] == [];
    assert Listing([]) == [] && NamesAfter([], None) == [];
  }

  const GO: Choice := Choice(0, NoFault, false)

  /** Nothing was compacted yet. */
  predicate Untouched(s: State) { s.manifests == Init().manifests && s.snapshots == Init().snapshots }

  /** A compactor starts and reads the initial manifest. */
  lemma CompactorReads(cfg: Config, run: seq<Action>, s: State, explicit: Option<seq<string>>)
    returns (run': seq<Action>, s': State)
    requires Exec(cfg, Init(), run) == s && Untouched(s) && s.procs == map[]
    requires cfg.maxRetries > 0 && (explicit.Some? ==> !cfg.listingOnly)
    ensures Exec(cfg, Init(), run') == s'
    ensures s' == s.(procs := map[0 := Proc(explicit, 0, Plan(0, INITIAL_MANIFEST))])
  {
    var r1, s1 := Do(cfg, run, s, Start(0, explicit));
    var r2, s2 := Do(cfg, r1, s1, Step(0, GO));
    run', s' := Do(cfg, r2, s2, Step(0, GO));
  }

  /** It plans to fold the second file only ... */
  lemma CompactorPlans(cfg: Config, run: seq<Action>, s: State, explicit: Option<seq<string>>)
    returns (run': seq<Action>, s': State)
    requires Exec(cfg, Init(), run) == s && s.procs == map[0 := Proc(explicit, 0, Plan(0, INITIAL_MANIFEST))]
    requires explicit == Some([SECOND]) || (explicit == None && NamesAfter(Listing(s.ledger), None) == [SECOND])
    ensures Exec(cfg, Init(), run') == s'
    ensures s' == s.(procs := map[0 := Proc(explicit, 0, FoldEventFiles(0, INITIAL_MANIFEST, [SECOND], Some(SECOND)))])
  {
    if explicit.Some? {
      assert [SECOND][..0] == [];
      assert ExplicitNames([], None, cfg.late) == [];
      assert ExplicitNames([SECOND], None, cfg.late) == [SECOND];
    }
    run', s' := Do(cfg, run, s, Step(0, GO));
  }

  /** ... and publishes. */
  lemma CompactorPublishes(cfg: Config, run: seq<Action>, s: State, explicit: Option<seq<string>>)
    returns (run': seq<Action>, s': State)
    requires cfg.fold == FoldOnto && Exec(cfg, Init(), run) == s && Untouched(s)
    requires s.procs == map[0 := Proc(explicit, 0, FoldEventFiles(0, INITIAL_MANIFEST, [SECOND], Some(SECOND)))]
    requires FindFile(s.ledger, SECOND) == Some(Decode(FILE))
    ensures Exec(cfg, Init(), run') == s' && s'.ledger == s.ledger
    ensures () in s'.manifests.objects
    ensures var m := s'.manifests.objects[()].body; m.totalEvents == 1 && m.watermark == Some(SECOND)
  {
    ReadsOne(s.ledger, SECOND, Decode(FILE));
    assert [Decode(FILE)][0].Good?;
    UnreadableAppliesNothing(map[], [Decode(FILE)]);
    var r1, s1 := Do(cfg, run, s, Step(0, GO));
    assert s1.procs[0].pc.WriteSnapshot?;
    var r2, s2 := Do(cfg, r1, s1, Step(0, GO));
    assert s2.procs[0].pc.Publish?;
    run', s' := Do(cfg, r2, s2, Step(0, GO));
  }

  /** The published snapshot covers exactly the files at or below the watermark. */
  ghost predicate Covers(s: State) { exists chain :: CoversExactly(s, chain) }

  /** One file counted, two at or below the watermark. */
  lemma Uncovered(s: State)
    requires () in s.manifests.objects && |s.ledger| == 2
    requires forall i :: 0 <= i < 2 ==> s.ledger[i].name == FIRST || s.ledger[i].name == SECOND
    requires var m := s.manifests.objects[()].body; m.totalEvents == 1 && m.watermark == Some(SECOND)
    ensures !Covers(s)
  {
    NamesInOrder();
    Irreflexive(SECOND);
    assert !After(s.ledger[1].name, Some(SECOND));
  }

  /** A compactor that is told to fold the second file skips the first for good. */
  lemma ExplicitNamesSkipFiles(cfg: Config) returns (run: seq<Action>)
    requires cfg.fold == FoldOnto && cfg.maxRetries > 0 && !cfg.listingOnly
    ensures !Covers(Exec(cfg, Init(), run))
  {
    NamesInOrder();
    var r1, s1 := Do(cfg, [], Init(), Append(FIRST, FILE));
    var r2, s2 := Do(cfg, r1, s1, Append(SECOND, FILE));
    var r3, s3 := CompactorReads(cfg, r2, s2, Some([SECOND]));
    var r4, s4 := CompactorPlans(cfg, r3, s3, Some([SECOND]));
    assert s4.ledger == [LedgerFile(FIRST, Decode(FILE)), LedgerFile(SECOND, Decode(FILE))];
    var r5, s5 := CompactorPublishes(cfg, r4, s4, Some([SECOND]));
    Uncovered(s5);
    run := r5;
  }

  /** The second file is the only one, and a listing compactor publishes it. */
  lemma SecondIsPublished(cfg: Config) returns (run: seq<Action>, s: State)
    requires cfg.fold == FoldOnto && cfg.maxRetries > 0
    ensures Exec(cfg, Init(), run) == s && s.ledger == [LedgerFile(SECOND, Decode(FILE))] && () in s.manifests.objects
    ensures var m := s.manifests.objects[()].body; m.totalEvents == 1 && m.watermark == Some(SECOND)
  {
    NamesInOrder();
    var r1, s1 := Do(cfg, [], Init(), Append(SECOND, FILE));
    assert s1.ledger == [LedgerFile(SECOND, Decode(FILE))];
    ListsOne(s1.ledger[0]);
    var r2, s2 := CompactorReads(cfg, r1, s1, None);
    var r3, s3 := CompactorPlans(cfg, r2, s2, None);
    run, s := CompactorPublishes(cfg, r3, s3, None);
  }

  /** A file appended after a later name was compacted stays out. */
  lemma LateAppendsStayOut(cfg: Config) returns (run: seq<Action>)
    requires cfg.fold == FoldOnto && cfg.maxRetries > 0 && !cfg.sortedAppends
    ensures !Covers(Exec(cfg, Init(), run))
  {
    NamesInOrder();
    var r1, s1 := SecondIsPublished(cfg);
    var r2, s2 := Do(cfg, r1, s1, Append(FIRST, FILE));
    assert s2 == s1.(ledger := [LedgerFile(SECOND, Decode(FILE)), LedgerFile(FIRST, Decode(FILE))]);
    Uncovered(s2);
    run := r2;
  }

  /** Without attempts nothing is ever published. */
  ghost predicate Idle(s: State) { Untouched(s) && forall pid :: pid in s.procs ==> s.procs[pid].pc.Failed? }

  lemma {:induction false} StaysIdle(cfg: Config, s: State, run: seq<Action>)
    requires cfg.maxRetries == 0 && Idle(s)
    ensures Idle(Exec(cfg, s, run))
    decreases |run|
  {
    if run != [] {
      StaysIdle(cfg, Next(cfg, s, run[0]), run[1..]);
    }
  }

  lemma IdleCovers(s: State)
    requires Idle(s)
    ensures Covers(s)
  {
    assert CoversExactly(s, [Cut(0, map[])]);
  }

  /**
   The published snapshot covers exactly the files at or below the watermark in every run
   if and only if all compactors list and names are appended in order, or no compactor
   makes any attempt.
   */
  lemma CoverageIff(cfg: Config)
    requires cfg.fold == FoldOnto
    ensures (forall run :: Covers(Exec(cfg, Init(), run))) <==>
            (cfg.listingOnly && cfg.sortedAppends) || cfg.maxRetries == 0
  {
    if cfg.maxRetries == 0 {
      forall run ensures Covers(Exec(cfg, Init(), run)) {
        StaysIdle(cfg, Init(), run);
        IdleCovers(Exec(cfg, Init(), run));
      }
    } else if !cfg.listingOnly {
      var run := ExplicitNamesSkipFiles(cfg);
      assert !Covers(Exec(cfg, Init(), run));
    } else if !cfg.sortedAppends {
      var run := LateAppendsStayOut(cfg);
      assert !Covers(Exec(cfg, Init(), run));
    } else {
      forall run ensures Covers(Exec(cfg, Init(), run)) {
        assert cfg == Orderly(cfg.policy, cfg.late, cfg.maxRetries);
        PublishedSnapshotCovers(cfg.policy, cfg.late, cfg.maxRetries, run);
      }
    }
  }
}

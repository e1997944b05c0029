/**
 Where the guarantees stop: concrete runs, and the exact boundaries.

 When the marker write of a finalize fails and leaves the marker without the transaction,
 the record is published anyway, and two transactions of one key can become visible and
 be answered.  When the write of a visible record fails, a caller can be answered with a
 token that is refused.  When two callers repair one ambiguous orchestration batch, both
 publish, and their answers differ; a caller with another request hash is answered as
 well.  An owner whose claim was replaced can still run the catalog writer.
 */
module TransactionCounterexamples {
  import opened ObjectStore
  import opened TransactionTypes
  import opened TransactionSteps
  import opened TransactionInvariant
  import opened TransactionTheorems
  import opened TransactionRuns
  import opened RootTransactions

  // ------------------------------------------------------------------
  // Visible transactions
  // ------------------------------------------------------------------

  /** With marker errors possible, two transactions of one key become visible. */
  lemma TwoVisibleTransactions(cfg: Config, d: Domain) returns (run: seq<Action>)
    requires cfg.markerErrors
    ensures var g := Exec(cfg, Init(), run).g;
            && RecordVisible(g, d, "a") && g.records.objects[(d, "a")].body.key == KEY
            && RecordVisible(g, d, "b") && g.records.objects[(d, "b")].body.key == KEY
  {
    var w1, pubA := MarkerIsLost(cfg, d);
    var w2, pubB := SecondPublishes(w1, d);
    run := w2.run;
  }

  ghost predicate OneVisiblePerKey(g: Shared, d: Domain) {
    forall t1, t2 ::
      && RecordVisible(g, d, t1) && RecordVisible(g, d, t2)
      && g.records.objects[(d, t1)].body.key == g.records.objects[(d, t2)].body.key
      ==> t1 == t2
  }

  lemma OneVisibleWithoutLoss(cfg: Config, run: seq<Action>, d: Domain)
    requires !Exec(cfg, Init(), run).g.markerLost
    ensures OneVisiblePerKey(Exec(cfg, Init(), run).g, d)
  {
    var g := Exec(cfg, Init(), run).g;
    forall t1, t2 | RecordVisible(g, d, t1) && RecordVisible(g, d, t2)
                    && g.records.objects[(d, t1)].body.key == g.records.objects[(d, t2)].body.key
      ensures t1 == t2
    {
      assert Exec(cfg, Exec(cfg, Init(), run), []) == Exec(cfg, Init(), run);
      AtMostOneVisibleTransaction(cfg, run, [], d, t1, t2);
    }
  }

  /**
   In every domain, every run keeps one visible transaction per key exactly when no storage
   error on a marker write can leave the marker without the transaction.  Lost replies of
   writes that took effect are harmless, and possible either way.
   */
  lemma OneVisiblePerKeyIffNoMarkerErrors(cfg: Config, d: Domain)
    ensures (forall run :: OneVisiblePerKey(Exec(cfg, Init(), run).g, d)) <==> !cfg.markerErrors
  {
    if cfg.markerErrors {
      var run := TwoVisibleTransactions(cfg, d);
      assert !OneVisiblePerKey(Exec(cfg, Init(), run).g, d);
    } else {
      forall run ensures OneVisiblePerKey(Exec(cfg, Init(), run).g, d) {
        ExecKeepsFlags(cfg, Init(), run);
        OneVisibleWithoutLoss(cfg, run, d);
      }
    }
  }

  // ------------------------------------------------------------------
  // Who still runs the catalog writer
  // ------------------------------------------------------------------

  /** An owner that was already working when another transaction of its key became visible still runs the writer. */
  lemma SlowOwnerStillWrites(cfg: Config) returns (run: seq<Action>, more: seq<Action>)
    ensures var s := Exec(cfg, Init(), run);
            var s' := Exec(cfg, s, more);
            && MarkerVisible(s.g, Catalog, KEY, "b") && RecordVisible(s.g, Catalog, "b")
            && s'.g.applied == s.g.applied + [1] && CatalogCaller(s', 1, KEY)
  {
    var w1 := FirstClaims(cfg, Catalog);
    var w2 := Prepares(w1, 1, Caller(Catalog, Working(StorePrepared("a"))), "a", 0);
    var w3 := SecondTakesOver(w2, Catalog);
    var w4, pub := SecondPublishes(w3, Catalog);
    var w5 := Go(From(cfg, w4.s), 1, Caller(Catalog, Working(Work("a"))), WriterFails());
    run, more := w4.run, w5.run;
  }

  /**
   Between the two moments of the run, the writer ran for a catalog key with a visible record
   only on behalf of callers that had claimed the key before the first moment.
   */
  ghost predicate OnlyWorkersReapply(s: State, s': State) {
    forall key, t, i ::
      && RecordVisible(s.g, Catalog, t) && s.g.records.objects[(Catalog, t)].body.key == key
      && |s.g.applied| <= i < |s'.g.applied| && CatalogCaller(s', s'.g.applied[i], key)
      ==> CatalogCaller(s, s'.g.applied[i], key) && s.procs[s'.g.applied[i]].pc.Working?
  }

  /**
   After a lost marker write, a caller that was only claiming runs the writer although the
   record of "a" is visible.
   */
  lemma ClaimantStillWrites(cfg: Config) returns (run: seq<Action>, more: seq<Action>)
    requires cfg.markerErrors
    ensures var s := Exec(cfg, Init(), run); !OnlyWorkersReapply(s, Exec(cfg, s, more))
  {
    var w1, pub := MarkerIsLost(cfg, Catalog);
    var w2 := SecondClaims(From(cfg, w1.s), Catalog);
    var w3 := Prepares(w2, 2, Caller(Catalog, Working(StorePrepared("b"))), "b", Later(cfg));
    var w4 := Go(w3, 2, Caller(Catalog, Working(Work("b"))), WriterFails().(now := Later(cfg)));
    assert w4.s.g.applied == w1.s.g.applied + [2] && CatalogCaller(w4.s, 2, KEY);
    assert w4.s.g.applied[|w1.s.g.applied|] == 2;
    run, more := w1.run, w4.run;
  }

  lemma VisibleRecordHasMarker(cfg: Config, run: seq<Action>, d: Domain, t: TxId)
    requires var g := Exec(cfg, Init(), run).g; !g.markerLost && RecordVisible(g, d, t)
    ensures var g := Exec(cfg, Init(), run).g; MarkerVisible(g, d, g.records.objects[(d, t)].body.key, t)
  {
    Reached(cfg, run, []);
    var g := Exec(cfg, Init(), run).g;
    assert RecordOk(g, d, t, g.records.objects[(d, t)].body);
  }

  /** Whoever calls a catalog key now called it before, if it was there. */
  lemma CallersKeepTheirKey(cfg: Config, run: seq<Action>, more: seq<Action>, q: nat, key: string)
    requires var s := Exec(cfg, Init(), run); q in s.procs && CatalogCaller(Exec(cfg, s, more), q, key)
    ensures CatalogCaller(Exec(cfg, Init(), run), q, key)
  {
    Reached(cfg, run, more);
  }

  lemma OnlyWorkersReapplyWithoutLoss(cfg: Config, run: seq<Action>, more: seq<Action>)
    requires !Exec(cfg, Init(), run).g.markerLost
    ensures var s := Exec(cfg, Init(), run); OnlyWorkersReapply(s, Exec(cfg, s, more))
  {
    var s := Exec(cfg, Init(), run);
    var s' := Exec(cfg, s, more);
    forall key, t, i |
      && RecordVisible(s.g, Catalog, t) && s.g.records.objects[(Catalog, t)].body.key == key
      && |s.g.applied| <= i < |s'.g.applied| && CatalogCaller(s', s'.g.applied[i], key)
      ensures CatalogCaller(s, s'.g.applied[i], key) && s.procs[s'.g.applied[i]].pc.Working?
    {
      VisibleRecordHasMarker(cfg, run, Catalog, t);
      MutationIsNotAppliedAgain(cfg, run, more, key, t, i);
      CallersKeepTheirKey(cfg, run, more, s'.g.applied[i], key);
    }
  }

  /**
   Once a catalog record is visible, only callers already working then can still run the
   writer for its key: in all runs, exactly when no marker write can be lost.
   */
  lemma OnlyWorkersReapplyIffNoMarkerErrors(cfg: Config)
    ensures (forall run, more :: OnlyWorkersReapply(Exec(cfg, Init(), run), Exec(cfg, Exec(cfg, Init(), run), more)))
            <==> !cfg.markerErrors
  {
    if cfg.markerErrors {
      var run, more := ClaimantStillWrites(cfg);
      assert !OnlyWorkersReapply(Exec(cfg, Init(), run), Exec(cfg, Exec(cfg, Init(), run), more));
    } else {
      forall run, more ensures OnlyWorkersReapply(Exec(cfg, Init(), run), Exec(cfg, Exec(cfg, Init(), run), more)) {
        ExecKeepsFlags(cfg, Init(), run);
        OnlyWorkersReapplyWithoutLoss(cfg, run, more);
      }
    }
  }

  // ------------------------------------------------------------------
  // Read tokens
  // ------------------------------------------------------------------

  /**
   A caller is answered with the token of a root transaction that has a catalog
   participant, and the token is refused.
   */
  lemma AnsweredTokenIsRefused(cfg: Config) returns (run: seq<Action>, root: Receipt)
    requires cfg.recordErrors
    ensures var s := Exec(cfg, Init(), run);
            && Answered(s, 5, Root, "r", root) && CommitsCatalog(root, 0)
            && ResolveRootToken(s.g, root.readToken) == Err(NotVisible)
  {
    var w1, root1 := RootStops(cfg);
    root := root1;
    var w2 := RetryFindsLag(w1, root);
    var w3 := RetryAnswers(w2, root);
    TokenRoundTrip(RootToken("z"), "z");
    run := w3.run;
  }

  /**
   The token of every answered root transaction resolves to the catalog manifest its receipt
   names, in all runs, exactly when the write of a visible record cannot fail without effect.
   */
  lemma AnsweredTokensResolveIffNoRecordErrors(cfg: Config)
    ensures (forall run :: AnsweredTokensResolve(Exec(cfg, Init(), run))) <==> !cfg.recordErrors
  {
    if cfg.recordErrors {
      var run, root := AnsweredTokenIsRefused(cfg);
      assert !AnsweredTokensResolve(Exec(cfg, Init(), run));
    } else {
      forall run ensures AnsweredTokensResolve(Exec(cfg, Init(), run)) {
        ExecKeepsFlags(cfg, Init(), run);
        AnsweredTokensResolveWithoutLoss(cfg, run);
      }
    }
  }

  // ------------------------------------------------------------------
  // Root transactions and their participants
  // ------------------------------------------------------------------

  /** Every root receipt of a key reports the commit of its visible catalog participant. */
  ghost predicate OneCatalogCommitPerRoot(g: Shared) {
    forall rootKey, cat, rc, i ::
      && cat in g.proposals && cat.CatalogReceipt?
      && MarkerVisible(g, Catalog, ParticipantKey(rootKey, Catalog), cat.txId)
      && rc in g.proposals && rc.RootReceipt? && ClaimedKey(g, rc.txId, Root, rootKey)
      && 0 <= i < |rc.domainCommits| && rc.domainCommits[i].domain == Catalog
      ==> rc.domainCommits[i] == CommitOf(cat)
  }

  /** The transaction of a visible marker has a receipt. */
  lemma VisibleMarkerHasReceipt(cfg: Config, run: seq<Action>, key: string, t: TxId) returns (cat: Receipt)
    requires MarkerVisible(Exec(cfg, Init(), run).g, Catalog, key, t)
    ensures cat in Exec(cfg, Init(), run).g.proposals && cat.CatalogReceipt? && cat.txId == t
  {
    Reached(cfg, run, []);
    var g := Exec(cfg, Init(), run).g;
    assert MarkerOk(g, Catalog, key, g.markers.objects[(Catalog, key)].body);
    cat := g.markers.objects[(Catalog, key)].body.txRecord.value.result.value;
  }

  lemma RootOwnsItsTransaction(cfg: Config, run: seq<Action>)
    requires Waits(Exec(cfg, Init(), run))
    ensures ClaimedKey(Exec(cfg, Init(), run).g, "z", Root, "r")
  {
    Reached(cfg, run, []);
    var s := Exec(cfg, Init(), run);
    assert WorkOk(s.g, 4, s.procs[4], s.procs[4].pc.work);
  }

  lemma RootReportsAnotherCommit(cfg: Config) returns (run: seq<Action>)
    requires cfg.markerErrors
    ensures !OneCatalogCommitPerRoot(Exec(cfg, Init(), run).g)
  {
    var w1, rc := ParticipantAfterLoss(cfg);
    RootOwnsItsTransaction(cfg, w1.run);
    var w2, root := RootProposes(w1, rc, Later(cfg));
    var cat := VisibleMarkerHasReceipt(cfg, w2.run, KEY, "b");
    assert root.domainCommits[0].txId != CommitOf(cat).txId;
    run := w2.run;
  }

  lemma OneCatalogCommitWithoutLoss(cfg: Config, run: seq<Action>)
    requires !Exec(cfg, Init(), run).g.markerLost
    ensures OneCatalogCommitPerRoot(Exec(cfg, Init(), run).g)
  {
    Reached(cfg, run, []);
    var g := Exec(cfg, Init(), run).g;
    forall rootKey, cat, rc, i |
      && cat in g.proposals && cat.CatalogReceipt?
      && MarkerVisible(g, Catalog, ParticipantKey(rootKey, Catalog), cat.txId)
      && rc in g.proposals && rc.RootReceipt? && ClaimedKey(g, rc.txId, Root, rootKey)
      && 0 <= i < |rc.domainCommits| && rc.domainCommits[i].domain == Catalog
      ensures rc.domainCommits[i] == CommitOf(cat)
    {
      OneParticipantCommit(g, rootKey, cat, rc, i);
    }
  }

  /**
   Root receipts agree with the visible participant in every run, retries included, exactly
   when no marker write can be lost.
   */
  lemma OneCatalogCommitPerRootIffNoMarkerErrors(cfg: Config)
    ensures (forall run :: OneCatalogCommitPerRoot(Exec(cfg, Init(), run).g)) <==> !cfg.markerErrors
  {
    if cfg.markerErrors {
      var run := RootReportsAnotherCommit(cfg);
      assert !OneCatalogCommitPerRoot(Exec(cfg, Init(), run).g);
    } else {
      forall run ensures OneCatalogCommitPerRoot(Exec(cfg, Init(), run).g) {
        ExecKeepsFlags(cfg, Init(), run);
        OneCatalogCommitWithoutLoss(cfg, run);
      }
    }
  }

  // ------------------------------------------------------------------
  // Repairs
  // ------------------------------------------------------------------

  /** Two repairs of one ambiguous batch answer with two receipts. */
  lemma OrchestrationAnswersDiffer(cfg: Config) returns (run: seq<Action>, rc1: Receipt, rc2: Receipt)
    requires cfg.ambiguousAppends
    ensures var s := Exec(cfg, Init(), run);
            && Answered(s, 2, Orchestration, "k", rc1) && Answered(s, 3, Orchestration, "k", rc2) && rc1 != rc2
            && RecordVisible(s.g, Orchestration, "a") && s.g.records.objects[(Orchestration, "a")].body.key == "k"
  {
    var w1 := BatchAmbiguous(cfg);
    var w2 := Repairer(w1, 2, "x", "h");
    var w3 := Repairer(w2, 3, "y", "h");
    var w4 := RepairCompletes(w3, 2, "h", "c1");
    var w5 := RepairCompletes(w4, 3, "h", "c2");
    run, rc1, rc2 := w5.run, BatchReceipt("c1"), BatchReceipt("c2");
  }

  /** A caller with request hash "other" is answered with the receipt of a batch claimed under hash "h". */
  lemma ForeignRequestIsAnswered(cfg: Config) returns (run: seq<Action>, rc: Receipt)
    requires cfg.ambiguousAppends
    ensures var s := Exec(cfg, Init(), run);
            && Answered(s, 2, Orchestration, "k", rc) && s.procs[2].hash == "other"
            && rc.txId == "a" && "a" in s.g.owners && s.g.owners["a"].hash == "h"
  {
    var w1 := BatchAmbiguous(cfg);
    var w2 := Repairer(w1, 2, "x", "other");
    var w3 := RepairCompletes(w2, 2, "other", "c");
    run, rc := w3.run, BatchReceipt("c");
  }

  // ------------------------------------------------------------------
  // The exact boundaries of answers
  // ------------------------------------------------------------------

  ghost predicate OneAnswerPerKey(s: State, d: Domain) {
    forall pid1, pid2, key, rc1, rc2 :: Answered(s, pid1, d, key, rc1) && Answered(s, pid2, d, key, rc2) ==> rc1 == rc2
  }

  lemma OneAnswerWithoutRepair(cfg: Config, run: seq<Action>, d: Domain)
    requires var g := Exec(cfg, Init(), run).g; !g.markerLost && !MayRepair(g, d)
    ensures OneAnswerPerKey(Exec(cfg, Init(), run), d)
  {
    var s := Exec(cfg, Init(), run);
    assert Exec(cfg, s, []) == s;
    forall pid1, pid2, key, rc1, rc2 | Answered(s, pid1, d, key, rc1) && Answered(s, pid2, d, key, rc2)
      ensures rc1 == rc2
    {
      AnswersAgree(cfg, run, [], d, key, pid1, rc1, pid2, rc2);
    }
  }

  /** No marker write can be lost, and in orchestration no append is ambiguous. */
  predicate AnswersAreSafe(cfg: Config, d: Domain) {
    !cfg.markerErrors && (d != Orchestration || !cfg.ambiguousAppends)
  }

  /**
   A domain answers each key with one receipt, in all runs, exactly when neither kind of
   error that matters to it is possible.
   */
  lemma OneAnswerPerKeyIff(cfg: Config, d: Domain)
    ensures (forall run :: OneAnswerPerKey(Exec(cfg, Init(), run), d)) <==> AnswersAreSafe(cfg, d)
  {
    if cfg.markerErrors {
      var w, rc2, rc3 := AnswersDifferAfterLoss(cfg, d);
      assert !OneAnswerPerKey(Exec(cfg, Init(), w.run), d);
    } else if d == Orchestration && cfg.ambiguousAppends {
      var run, rc1, rc2 := OrchestrationAnswersDiffer(cfg);
      assert !OneAnswerPerKey(Exec(cfg, Init(), run), d);
    } else {
      forall run ensures OneAnswerPerKey(Exec(cfg, Init(), run), d) {
        ExecKeepsFlags(cfg, Init(), run);
        OneAnswerWithoutRepair(cfg, run, d);
      }
    }
  }

  /** Every answer of the domain is for the visible record of its key and carries its receipt. */
  ghost predicate AnswersMatchAllRecords(s: State, d: Domain) {
    forall key, pid, rc, t ::
      Answered(s, pid, d, key, rc) && RecordVisible(s.g, d, t) && s.g.records.objects[(d, t)].body.key == key ==>
        t == rc.txId && s.g.records.objects[(d, t)].body.result == Some(rc)
  }

  lemma AnswersMatchWithoutRepair(cfg: Config, run: seq<Action>, d: Domain)
    requires var g := Exec(cfg, Init(), run).g; !g.markerLost && !MayRepair(g, d)
    ensures AnswersMatchAllRecords(Exec(cfg, Init(), run), d)
  {
    var s := Exec(cfg, Init(), run);
    forall key, pid, rc, t |
      Answered(s, pid, d, key, rc) && RecordVisible(s.g, d, t) && s.g.records.objects[(d, t)].body.key == key
      ensures t == rc.txId && s.g.records.objects[(d, t)].body.result == Some(rc)
    {
      AnswersMatchRecords(cfg, run, d, key, pid, rc, t);
    }
  }

  /** Answers and visible records of a domain agree in every run under the same condition. */
  lemma AnswersMatchRecordsIff(cfg: Config, d: Domain)
    ensures (forall run :: AnswersMatchAllRecords(Exec(cfg, Init(), run), d)) <==> AnswersAreSafe(cfg, d)
  {
    if cfg.markerErrors {
      var w, rc2, rc3 := AnswersDifferAfterLoss(cfg, d);
      assert Answered(w.s, 2, d, KEY, rc2);
      assert !AnswersMatchAllRecords(Exec(cfg, Init(), w.run), d);
    } else if d == Orchestration && cfg.ambiguousAppends {
      var run, rc1, rc2 := OrchestrationAnswersDiffer(cfg);
      assert !AnswersMatchAllRecords(Exec(cfg, Init(), run), d);
    } else {
      forall run ensures AnswersMatchAllRecords(Exec(cfg, Init(), run), d) {
        ExecKeepsFlags(cfg, Init(), run);
        AnswersMatchWithoutRepair(cfg, run, d);
      }
    }
  }

  /** Every answer of the domain is for a transaction claimed with the caller's own request hash. */
  ghost predicate AnswersFit(s: State, d: Domain) {
    forall pid, key, rc :: Answered(s, pid, d, key, rc) ==> ClaimedFor(s.g, rc.txId, d, key, s.procs[pid].hash)
  }

  /**
   A request whose hash differs from its key's gets no receipt, exactly when the domain is
   not orchestration or no append is ambiguous; marker errors make no difference.
   */
  lemma AnswersFitIff(cfg: Config, d: Domain)
    ensures (forall run :: AnswersFit(Exec(cfg, Init(), run), d)) <==> d != Orchestration || !cfg.ambiguousAppends
  {
    if d == Orchestration && cfg.ambiguousAppends {
      var run, rc := ForeignRequestIsAnswered(cfg);
      assert !AnswersFit(Exec(cfg, Init(), run), d);
    } else {
      forall run ensures AnswersFit(Exec(cfg, Init(), run), d) {
        ExecKeepsFlags(cfg, Init(), run);
        var s := Exec(cfg, Init(), run);
        forall pid, key, rc | Answered(s, pid, d, key, rc) ensures ClaimedFor(s.g, rc.txId, d, key, s.procs[pid].hash) {
          AnswersMatchTheRequest(cfg, run, d, key, pid, rc);
        }
      }
    }
  }
}

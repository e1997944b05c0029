/**
 What readers of a published execution snapshot may rely on, over every run of listing
 compactors against a ledger that grows in name order.
 */
module CompactorTheorems {
  import opened ObjectStore
  import opened CompactorFold
  import opened CompactorBatch
  import opened CompactorProtocol
  import opened CompactorCoverage

  lemma UnreadableAppliesNothing(m: Snapshot, es: seq<Event>)
    ensures FoldOnto(m, es).None? <==> AllUnreadable(es)
  {
    FoldCounts(m, es);
    GoodIsCounted(es);
  }

  lemma UnreadableLeavesNoTrace(m: Snapshot, bad: seq<Event>, es: seq<Event>)
    requires AllUnreadable(bad)
    ensures FoldOnto(m, bad + es) == FoldOnto(m, es)
  {
    BadPrefixIsInvisible(Load(m), bad, es);
  }

  /** The compactor's fold obeys the laws the protocol relies on. */
  lemma FoldOntoLaws()
    ensures FoldLaws(FoldOnto)
  {
    forall m, es ensures FoldOnto(m, es).None? <==> AllUnreadable(es) {
      UnreadableAppliesNothing(m, es);
    }
    forall m, bad, es | AllUnreadable(bad) ensures FoldOnto(m, bad + es) == FoldOnto(m, es) {
      UnreadableLeavesNoTrace(m, bad, es);
    }
  }

  // ------------------------------------------------------------------
  // Batchwise folding
  // ------------------------------------------------------------------

  /** Folding a batch onto a snapshot, whether or not it applies anything. */
  lemma OntoIsFoldBatch(m: Snapshot, es: seq<Event>)
    ensures Onto(FoldOnto, m, es) == FoldBatch(m, es)
  {
    UnreadableAppliesNothing(m, es);
    if AllUnreadable(es) {
      assert es + [] == es;
      BadPrefixIsInvisible(Load(m), es, []);
    }
  }

  /** `b` is `a` with the files from `a.count` up to `b.count` folded onto it as one batch. */
  ghost predicate BatchStep(ledger: seq<LedgerFile>, a: Cut, b: Cut) {
    a.count <= b.count <= |ledger| && b.content == FoldBatch(a.content, Batch(ledger, a.count, b.count))
  }

  /** Consecutive batches from nothing: every covered file is in exactly one of them. */
  ghost predicate BatchChain(ledger: seq<LedgerFile>, chain: seq<Cut>) {
    && |chain| > 0 && chain[0] == Cut(0, map[])
    && forall k :: 1 <= k < |chain| ==> BatchStep(ledger, chain[k - 1], chain[k])
  }

  lemma CutIsBatchStep(h: History, k: nat)
    requires h.fold == FoldOnto && HistoryOk(h) && 1 <= k < |h.cuts| && FoldsOn(h, k)
    ensures BatchStep(h.ledger, h.cuts[k - 1], h.cuts[k])
  {
    OntoIsFoldBatch(h.cuts[k - 1].content, Batch(h.ledger, h.cuts[k - 1].count, h.cuts[k].count));
  }

  lemma CutsAreBatchChain(h: History)
    requires h.fold == FoldOnto && HistoryOk(h) && ChainOk(h)
    ensures BatchChain(h.ledger, h.cuts)
  {
    forall k | 1 <= k < |h.cuts| ensures BatchStep(h.ledger, h.cuts[k - 1], h.cuts[k]) {
      assert FoldsOn(h, k);
      CutIsBatchStep(h, k);
    }
  }

  // ------------------------------------------------------------------
  // Main results
  // ------------------------------------------------------------------

  ghost function Orderly(policy: UnknownEventPolicy, late: LateEventPolicy, maxRetries: nat): Config {
    Config(FoldOnto, policy, late, maxRetries, true, true)
  }

  /**
   The published snapshot holds exactly the files at or below the watermark, each folded
   in once, in consecutive batches, and the manifest counts them.
   */
  ghost predicate CoversExactly(s: State, chain: seq<Cut>) {
    && () in s.manifests.objects
    && var m := s.manifests.objects[()].body;
    && m.totalEvents <= |s.ledger|
    && (forall i :: 0 <= i < |s.ledger| ==> (i < m.totalEvents <==> !After(s.ledger[i].name, m.watermark)))
    && BatchChain(s.ledger, chain) && chain[|chain| - 1].count == m.totalEvents
    && LoadSnapshot(s.snapshots, m) == Some(chain[|chain| - 1].content)
  }

  /** The files since the last snapshot are unreadable and change nothing. */
  lemma LastBatchChangesNothing(h: History, m: Manifest)
    requires HistoryOk(h) && Published(h, m)
    ensures var last := h.cuts[m.snapshotVersion]; BatchStep(h.ledger, last, Cut(m.totalEvents, last.content))
  {
    var last := h.cuts[m.snapshotVersion];
    var bad := Batch(h.ledger, last.count, m.totalEvents);
    assert AllUnreadable(bad);
    OntoIsFoldBatch(last.content, bad);
    UnreadableAppliesNothing(last.content, bad);
  }

  lemma ChainGrows(ledger: seq<LedgerFile>, chain: seq<Cut>, c: Cut)
    requires BatchChain(ledger, chain) && BatchStep(ledger, chain[|chain| - 1], c)
    ensures BatchChain(ledger, chain + [c])
  {
    var more := chain + [c];
    forall k | 1 <= k < |more| ensures BatchStep(ledger, more[k - 1], more[k]) {
      if k < |chain| {
        assert BatchStep(ledger, chain[k - 1], chain[k]);
      }
    }
  }

  lemma StateCovers(cfg: Config, s: State) returns (chain: seq<Cut>)
    requires cfg.fold == FoldOnto && Coverage(cfg, s)
    ensures CoversExactly(s, chain)
  {
    var (h, m) := (HistoryOf(cfg, s), s.manifests.objects[()].body);
    CoveredIs(s.ledger, m.watermark, m.totalEvents);
    BaseIsSnapshot(h, s.snapshots, m);
    CutsAreBatchChain(h);
    LastBatchChangesNothing(h, m);
    var last := Cut(m.totalEvents, s.cuts[m.snapshotVersion].content);
    ChainGrows(s.ledger, s.cuts, last);
    chain := s.cuts + [last];
  }

  /** In every reachable state the published snapshot covers exactly the files at or below the watermark. */
  lemma PublishedSnapshotCovers(policy: UnknownEventPolicy, late: LateEventPolicy, maxRetries: nat, run: seq<Action>)
    ensures exists chain :: CoversExactly(Exec(Orderly(policy, late, maxRetries), Init(), run), chain)
  {
    var cfg := Orderly(policy, late, maxRetries);
    FoldOntoLaws();
    InitCovers(cfg);
    ExecCovers(cfg, Init(), run);
    var chain := StateCovers(cfg, Exec(cfg, Init(), run));
  }

  // ------------------------------------------------------------------
  // When batching cannot be seen
  // ------------------------------------------------------------------

  /** No idempotency key is delivered twice and sequences never fall for an id. */
  ghost predicate CleanDelivery(es: seq<Event>) {
    forall i, j :: 0 <= i < j < |es| && es[i].Good? && es[j].Good? ==>
      es[i].key != es[j].key && (es[i].record.id == es[j].record.id ==> Rank(es[i].sequence) <= Rank(es[j].sequence))
  }

  lemma CleanSplit(m: Snapshot, a: seq<Event>, b: seq<Event>)
    requires CleanDelivery(a + b)
    ensures CleanDelivery(a) && FoldBatch(FoldBatch(m, a), b) == FoldBatch(m, a + b)
  {
    var es := a + b;
    assert forall i :: 0 <= i < |a| ==> a[i] == es[i];
    assert forall j :: 0 <= j < |b| ==> b[j] == es[|a| + j];
    MonotoneSequencesSplit(m, a, b);
  }

  lemma FirstBatch(ledger: seq<LedgerFile>)
    ensures FoldBatch(map[], Batch(ledger, 0, 0)) == map[]
  {
    assert Batch(ledger, 0, 0) == [];
  }

  /** Every link of a batch chain is one fold of everything it covers. */
  lemma {:induction false} BatchingIsInvisible(ledger: seq<LedgerFile>, chain: seq<Cut>, k: nat)
    requires BatchChain(ledger, chain) && k < |chain| && chain[k].count <= |ledger|
    requires CleanDelivery(Batch(ledger, 0, chain[k].count))
    ensures chain[k].content == FoldBatch(map[], Batch(ledger, 0, chain[k].count))
    decreases k
  {
    if k == 0 {
      FirstBatch(ledger);
    } else {
      assert BatchStep(ledger, chain[k - 1], chain[k]);
      var (a, b) := (chain[k - 1].count, chain[k].count);
      assert Batch(ledger, 0, b) == Batch(ledger, 0, a) + Batch(ledger, a, b);
      CleanSplit(map[], Batch(ledger, 0, a), Batch(ledger, a, b));
      BatchingIsInvisible(ledger, chain, k - 1);
    }
  }

  /** With clean deliveries the published snapshot is one fold of everything at or below the watermark. */
  lemma PublishedSnapshotIsOneFold(policy: UnknownEventPolicy, late: LateEventPolicy, maxRetries: nat, run: seq<Action>)
    ensures var s := Exec(Orderly(policy, late, maxRetries), Init(), run);
            && () in s.manifests.objects
            && var m := s.manifests.objects[()].body;
            && m.totalEvents <= |s.ledger|
            && (CleanDelivery(Batch(s.ledger, 0, m.totalEvents)) ==>
                  LoadSnapshot(s.snapshots, m) == Some(FoldBatch(map[], Batch(s.ledger, 0, m.totalEvents))))
  {
    PublishedSnapshotCovers(policy, late, maxRetries, run);
    var s := Exec(Orderly(policy, late, maxRetries), Init(), run);
    var chain :| CoversExactly(s, chain);
    if CleanDelivery(Batch(s.ledger, 0, s.manifests.objects[()].body.totalEvents)) {
      BatchingIsInvisible(s.ledger, chain, |chain| - 1);
    }
  }
}

/**
 Folding a batch of ledger events into a snapshot.

 A batch is folded in name order: events the compactor cannot read are rejected or
 quarantined, repeated deliveries within the batch are dropped by idempotency key, and
 the rest are upserted by materialization id, where the sequence position decides.  A
 snapshot read back has lost its sequence positions.
 */
module CompactorFold {
  import opened ObjectStore

  datatype Record = Record(id: string, assetId: string, rowCount: int, byteSize: int)

  /** Idempotency keys: given in the envelope, or the collision-free digest of a legacy payload. */
  datatype Key = Given(text: string) | Digest(record: Record)

  /** A ledger file as stored. */
  datatype EventFile =
    | Envelope(valid: bool, eventType: string, eventVersion: nat, key: Key, payload: Option<Record>,
               sequence: Option<nat>)
    | LegacyPayload(record: Record)
    | Unparseable

  const EXPECTED_TYPE: string := "materialization.completed"
  const EXPECTED_VERSION: nat := 1

  datatype Event = Bad | Good(key: Key, record: Record, sequence: Option<nat>)

  function Decode(f: EventFile): Event {
    match f
    case Envelope(valid, ty, version, key, payload, sequence) =>
      if !valid || payload.None? || ty != EXPECTED_TYPE || version != EXPECTED_VERSION then Bad
      else Good(key, payload.value, sequence)
    case LegacyPayload(record) => Good(Digest(record), record, None)
    case Unparseable => Bad
  }

  function DecodeAll(fs: seq<EventFile>): (es: seq<Event>)
    ensures |es| == |fs| && forall i :: 0 <= i < |fs| ==> es[i] == Decode(fs[i])
  {
    seq(|fs|, i requires 0 <= i < |fs| => Decode(fs[i]))
  }

  predicate ShouldReplace(existing: Option<nat>, incoming: Option<nat>) {
    match (existing, incoming)
    case (Some(e), Some(i)) => i >= e
    case (Some(_), None) => false
    case (None, _) => true
  }

  // ------------------------------------------------------------------
  // The fold, event by event
  // ------------------------------------------------------------------

  type Snapshot = map<string, Record>

  /**
   The fold so far.  `sequences` has the sequence position of a record that came with one;
   ids whose record came without one, or from the loaded snapshot, are absent.
   */
  datatype Fold = Fold(
    records: Snapshot, sequences: map<string, nat>, seen: set<Key>, applied: nat, deduped: nat, quarantined: nat)

  /** A snapshot as the compactor loads it: no record has a sequence position. */
  function Load(m: Snapshot): Fold { Fold(m, map[], {}, 0, 0, 0) }

  function SequenceAt(sequences: map<string, nat>, id: string): Option<nat> {
    if id in sequences then Some(sequences[id]) else None
  }

  function WithSequence(sequences: map<string, nat>, id: string, sequence: Option<nat>): map<string, nat> {
    match sequence
    case Some(n) => sequences[id := n]
    case None => sequences - {id}
  }

  function FoldEvent(f: Fold, e: Event): Fold {
    match e
    case Bad => f.(quarantined := f.quarantined + 1)
    case Good(key, record, sequence) =>
      if key in f.seen then f.(deduped := f.deduped + 1)
      else
        var replace := record.id in f.records ==> ShouldReplace(SequenceAt(f.sequences, record.id), sequence);
        f.(seen := f.seen + {key}, applied := f.applied + 1,
           records := if replace then f.records[record.id := record] else f.records,
           sequences := if replace then WithSequence(f.sequences, record.id, sequence) else f.sequences)
  }

  function FoldEvents(f: Fold, es: seq<Event>): Fold
    decreases |es|
  {
    if es == [] then f else FoldEvent(FoldEvents(f, es[..|es| - 1]), es[|es| - 1])
  }

  /** One batch on top of a snapshot; sequence positions do not survive. */
  function FoldBatch(m: Snapshot, es: seq<Event>): Snapshot { FoldEvents(Load(m), es).records }

  // ------------------------------------------------------------------
  // What the fold means
  // ------------------------------------------------------------------

  /** The event survives deduplication: no earlier readable event of the batch has its key. */
  ghost predicate Survives(es: seq<Event>, i: int) {
    && 0 <= i < |es| && es[i].Good?
    && forall j :: 0 <= j < i && es[j].Good? ==> es[j].key != es[i].key
  }

  /** Sequence positions in order of precedence: none is below any. */
  function Rank(s: Option<nat>): int {
    match s
    case None => -1
    case Some(n) => n
  }

  ghost predicate Concerns(es: seq<Event>, i: int, id: string) { Survives(es, i) && es[i].record.id == id }

  /** Event `i` decides id: of the survivors for id it has the highest sequence, the latest one on ties. */
  ghost predicate Wins(es: seq<Event>, i: int, id: string) {
    && Concerns(es, i, id)
    && forall j :: Concerns(es, j, id) ==>
         Rank(es[j].sequence) < Rank(es[i].sequence) || (Rank(es[j].sequence) == Rank(es[i].sequence) && j <= i)
  }

  ghost predicate Touched(es: seq<Event>, id: string) { exists i :: Concerns(es, i, id) }

  lemma WinnerIsUnique(es: seq<Event>, i: int, j: int, id: string)
    requires Wins(es, i, id) && Wins(es, j, id)
    ensures i == j
  {
  }

  /** The winner for `id`, or -1 when no survivor concerns it. */
  ghost function Winner(es: seq<Event>, id: string): (w: int)
    ensures -1 <= w < |es|
    ensures w >= 0 ==> es[w].Good? && es[w].record.id == id
    decreases |es|
  {
    if es == [] then -1
    else
      var n := |es| - 1;
      var w := Winner(es[..n], id);
      if Concerns(es, n, id) && (w < 0 || Rank(es[n].sequence) >= Rank(es[w].sequence)) then n else w
  }

  lemma PrefixConcerns(es: seq<Event>, n: nat, i: int, id: string)
    requires i < n <= |es|
    ensures Concerns(es, i, id) <==> Concerns(es[..n], i, id)
  {
  }

  lemma {:induction false} WinnerWins(es: seq<Event>, id: string)
    ensures Winner(es, id) >= 0 ==> Wins(es, Winner(es, id), id)
    ensures Winner(es, id) < 0 ==> !Touched(es, id)
    decreases |es|
  {
    if es != [] {
      var n := |es| - 1;
      WinnerWins(es[..n], id);
      forall i | i < n ensures Concerns(es, i, id) <==> Concerns(es[..n], i, id) {
        PrefixConcerns(es, n, i, id);
      }
    }
  }

  /** The fold has seen exactly the keys of the readable events. */
  lemma {:induction false} SeenKeys(f: Fold, es: seq<Event>, key: Key)
    requires f.seen == {}
    ensures key in FoldEvents(f, es).seen <==> exists i :: 0 <= i < |es| && es[i].Good? && es[i].key == key
    decreases |es|
  {
    if es != [] {
      var n := |es| - 1;
      SeenKeys(f, es[..n], key);
      assert forall i :: 0 <= i < n ==> es[..n][i] == es[i];
    }
  }

  /** The fold applies an event exactly when it survives deduplication. */
  lemma LastApplied(f: Fold, es: seq<Event>)
    requires f.seen == {} && es != [] && es[|es| - 1].Good?
    ensures es[|es| - 1].key !in FoldEvents(f, es[..|es| - 1]).seen <==> Survives(es, |es| - 1)
  {
    var n := |es| - 1;
    SeenKeys(f, es[..n], es[n].key);
    assert forall i :: 0 <= i < n ==> es[..n][i] == es[i];
  }

  function RecordAt(m: Snapshot, id: string): Option<Record> {
    if id in m then Some(m[id]) else None
  }

  /** After the fold, id holds its winner's record and sequence, or else the snapshot's record and none. */
  lemma {:induction false} FoldHoldsWinner(m: Snapshot, es: seq<Event>, id: string)
    ensures var (f, w) := (FoldEvents(Load(m), es), Winner(es, id));
            && RecordAt(f.records, id) == (if w >= 0 then Some(es[w].record) else RecordAt(m, id))
            && SequenceAt(f.sequences, id) == (if w >= 0 then es[w].sequence else None)
    decreases |es|
  {
    if es != [] {
      var n := |es| - 1;
      FoldHoldsWinner(m, es[..n], id);
      if es[n].Good? {
        LastApplied(Load(m), es);
        if es[n].record.id != id {
          assert !Concerns(es, n, id);
        }
      }
    }
  }

  // ------------------------------------------------------------------
  // The meaning of one batch
  // ------------------------------------------------------------------

  /**
   One batch, declaratively.  For every id: if some surviving event concerns it, the
   snapshot ends up with the record of the event that wins; otherwise it keeps what it had.
   */
  lemma FoldBatchMeaning(m: Snapshot, es: seq<Event>, id: string, i: int)
    ensures Wins(es, i, id) ==> id in FoldBatch(m, es) && FoldBatch(m, es)[id] == es[i].record
    ensures Touched(es, id) <==> exists w :: Wins(es, w, id)
    ensures !Touched(es, id) ==> (id in FoldBatch(m, es) <==> id in m) && (id in m ==> FoldBatch(m, es)[id] == m[id])
  {
    FoldHoldsWinner(m, es, id);
    WinnerWins(es, id);
    if Wins(es, i, id) {
      WinnerIsUnique(es, i, Winner(es, id), id);
    }
  }

  function CountGood(es: seq<Event>): nat {
    if es == [] then 0 else CountGood(es[..|es| - 1]) + (if es[|es| - 1].Good? then 1 else 0)
  }

  /**
   Every event of a batch is applied, dropped as a duplicate, or quarantined; something is
   applied iff something is readable.
   */
  lemma {:induction false} FoldCounts(m: Snapshot, es: seq<Event>)
    ensures var f := FoldEvents(Load(m), es);
            && f.applied + f.deduped + f.quarantined == |es|
            && f.applied + f.deduped == CountGood(es)
            && (f.applied > 0 <==> CountGood(es) > 0)
            && (f.applied == 0 ==> f.seen == {})
    decreases |es|
  {
    if es != [] {
      FoldCounts(m, es[..|es| - 1]);
    }
  }

  // ------------------------------------------------------------------
  // Splitting a batch
  // ------------------------------------------------------------------

  /** No idempotency key occurs on both sides of the cut. */
  predicate NoSharedKey(a: seq<Event>, b: seq<Event>) {
    forall i, j :: 0 <= i < |a| && 0 <= j < |b| && a[i].Good? && b[j].Good? ==> a[i].key != b[j].key
  }

  lemma SuffixConcerns(a: seq<Event>, b: seq<Event>, j: int, id: string)
    requires NoSharedKey(a, b) && 0 <= j < |b|
    ensures Concerns(a + b, |a| + j, id) <==> Concerns(b, j, id)
  {
    var es := a + b;
    if Concerns(b, j, id) {
      forall k | 0 <= k < |a| + j && es[k].Good? ensures es[k].key != es[|a| + j].key {
        if k >= |a| {
          assert es[k] == b[k - |a|];
        }
      }
    }
    if Concerns(es, |a| + j, id) {
      forall k | 0 <= k < j && b[k].Good? ensures b[k].key != b[j].key {
        assert es[|a| + k] == b[k];
      }
    }
  }

  /** The suffix overrules the prefix for `id` unless the prefix winner has a higher sequence. */
  ghost predicate SuffixOverrules(a: seq<Event>, b: seq<Event>, id: string) {
    var (wa, wb) := (Winner(a, id), Winner(b, id));
    wb >= 0 && (wa < 0 || Rank(b[wb].sequence) >= Rank(a[wa].sequence))
  }

  lemma {:induction false} WinnerOfSplit(a: seq<Event>, b: seq<Event>, id: string)
    requires NoSharedKey(a, b)
    ensures Winner(a + b, id) == if SuffixOverrules(a, b, id) then |a| + Winner(b, id) else Winner(a, id)
    decreases |b|
  {
    var es := a + b;
    if b == [] {
      assert es == a;
    } else {
      var n := |b| - 1;
      assert es[..|es| - 1] == a + b[..n];
      WinnerOfSplit(a, b[..n], id);
      SuffixConcerns(a, b, n, id);
    }
  }

  lemma FoldBatchAt(m: Snapshot, es: seq<Event>, id: string)
    ensures var w := Winner(es, id);
            RecordAt(FoldBatch(m, es), id) == if w >= 0 then Some(es[w].record) else RecordAt(m, id)
  {
    FoldHoldsWinner(m, es, id);
  }

  /** For `id`, the suffix's winner has at least the prefix winner's sequence, or is the same record. */
  ghost predicate CutIsSafe(a: seq<Event>, b: seq<Event>, id: string) {
    forall i, j :: Wins(a, i, id) && Wins(b, j, id) ==>
      Rank(a[i].sequence) <= Rank(b[j].sequence) || a[i].record == b[j].record
  }

  lemma CutIsSafeForWinners(a: seq<Event>, b: seq<Event>, id: string)
    ensures var (i, j) := (Winner(a, id), Winner(b, id));
            CutIsSafe(a, b, id) <==>
              (i >= 0 && j >= 0 ==> Rank(a[i].sequence) <= Rank(b[j].sequence) || a[i].record == b[j].record)
  {
    WinnerWins(a, id);
    WinnerWins(b, id);
    forall i, j | Wins(a, i, id) && Wins(b, j, id) ensures i == Winner(a, id) && j == Winner(b, id) {
      WinnerIsUnique(a, i, Winner(a, id), id);
      WinnerIsUnique(b, j, Winner(b, id), id);
    }
  }

  /** An event of the suffix that survives in the whole batch survives in the suffix. */
  lemma SurvivorsOfSuffix(a: seq<Event>, b: seq<Event>, j: int, id: string)
    requires 0 <= j < |b| && Concerns(a + b, |a| + j, id)
    ensures Concerns(b, j, id)
  {
    forall k | 0 <= k < j && b[k].Good? ensures b[k].key != b[j].key {
      assert (a + b)[|a| + k] == b[k];
    }
  }

  /** A suffix without a survivor for `id` leaves the decision to the prefix. */
  lemma {:induction false} WinnerOfPrefix(a: seq<Event>, b: seq<Event>, id: string)
    requires Winner(b, id) < 0
    ensures Winner(a + b, id) == Winner(a, id)
    decreases |b|
  {
    var es := a + b;
    if b == [] {
      assert es == a;
    } else {
      var n := |b| - 1;
      assert es[..|es| - 1] == a + b[..n];
      WinnerOfPrefix(a, b[..n], id);
      WinnerWins(b, id);
      if Concerns(es, |a| + n, id) {
        SurvivorsOfSuffix(a, b, n, id);
      }
    }
  }

  /**
   For `id`, whatever wins in the suffix has the record that the whole batch decides, or
   that the snapshot holds if it decides none.
   */
  ghost predicate CutIsHarmless(m: Snapshot, a: seq<Event>, b: seq<Event>, id: string) {
    forall j :: Wins(b, j, id) ==>
      || (exists k :: Wins(a + b, k, id) && (a + b)[k].record == b[j].record)
      || (!Touched(a + b, id) && RecordAt(m, id) == Some(b[j].record))
  }

  lemma CutIsHarmlessForWinners(m: Snapshot, a: seq<Event>, b: seq<Event>, id: string)
    ensures var (w, j) := (Winner(a + b, id), Winner(b, id));
            CutIsHarmless(m, a, b, id) <==>
              (j >= 0 ==> (if w >= 0 then Some((a + b)[w].record) else RecordAt(m, id)) == Some(b[j].record))
  {
    WinnerWins(a + b, id);
    WinnerWins(b, id);
    forall j | Wins(b, j, id) ensures j == Winner(b, id) {
      WinnerIsUnique(b, j, Winner(b, id), id);
    }
    forall k | Wins(a + b, k, id) ensures k == Winner(a + b, id) {
      WinnerIsUnique(a + b, k, Winner(a + b, id), id);
    }
  }

  /** At one id, folding the two parts in turn agrees with folding them at once iff the cut is harmless there. */
  lemma SplitAt(m: Snapshot, a: seq<Event>, b: seq<Event>, id: string)
    ensures RecordAt(FoldBatch(FoldBatch(m, a), b), id) == RecordAt(FoldBatch(m, a + b), id) <==>
            CutIsHarmless(m, a, b, id)
  {
    FoldBatchAt(m, a, id);
    FoldBatchAt(FoldBatch(m, a), b, id);
    FoldBatchAt(m, a + b, id);
    if Winner(b, id) < 0 {
      WinnerOfPrefix(a, b, id);
    }
    CutIsHarmlessForWinners(m, a, b, id);
  }

  /**
   Cutting a batch in two, forgetting keys and sequence positions in between, cannot be
   seen exactly when the cut is harmless for every id.
   */
  lemma BatchSplitIsInvisibleIff(m: Snapshot, a: seq<Event>, b: seq<Event>)
    ensures FoldBatch(FoldBatch(m, a), b) == FoldBatch(m, a + b) <==> forall id :: CutIsHarmless(m, a, b, id)
  {
    var (split, whole) := (FoldBatch(FoldBatch(m, a), b), FoldBatch(m, a + b));
    forall id ensures RecordAt(split, id) == RecordAt(whole, id) <==> CutIsHarmless(m, a, b, id) {
      SplitAt(m, a, b, id);
    }
    if forall id :: CutIsHarmless(m, a, b, id) {
      forall id ensures (id in split <==> id in whole) && (id in split ==> split[id] == whole[id]) {
        assert CutIsHarmless(m, a, b, id);
        assert RecordAt(split, id) == RecordAt(whole, id);
      }
    }
  }

  /**
   The winner of the whole, picked from the winners of the parts, has the suffix winner's
   record iff the cut is safe.
   */
  lemma PickedWinner(a: seq<Event>, b: seq<Event>, i: int, j: int, w: int)
    requires -1 <= i < |a| && -1 <= j < |b| && (i >= 0 ==> a[i].Good?) && (j >= 0 ==> b[j].Good?)
    requires w == if j >= 0 && (i < 0 || Rank(b[j].sequence) >= Rank(a[i].sequence)) then |a| + j else i
    ensures (j >= 0 ==> w >= 0 && (a + b)[w].record == b[j].record) <==>
            (i >= 0 && j >= 0 ==> Rank(a[i].sequence) <= Rank(b[j].sequence) || a[i].record == b[j].record)
    ensures j >= 0 ==> w >= 0
  {
  }

  /** Without a shared key, a cut is harmless for an id exactly when it is safe for it. */
  lemma HarmlessIffSafe(m: Snapshot, a: seq<Event>, b: seq<Event>, id: string)
    requires NoSharedKey(a, b)
    ensures CutIsHarmless(m, a, b, id) <==> CutIsSafe(a, b, id)
  {
    var (i, j, w) := (Winner(a, id), Winner(b, id), Winner(a + b, id));
    var safe := i >= 0 && j >= 0 ==> Rank(a[i].sequence) <= Rank(b[j].sequence) || a[i].record == b[j].record;
    assert CutIsSafe(a, b, id) <==> safe by { CutIsSafeForWinners(a, b, id); }
    assert w == if SuffixOverrules(a, b, id) then |a| + j else i by { WinnerOfSplit(a, b, id); }
    PickedWinner(a, b, i, j, w);
    assert CutIsHarmless(m, a, b, id) <==> safe by { CutIsHarmlessForWinners(m, a, b, id); }
  }

  /**
   When no idempotency key spans the cut, forgetting sequence positions is invisible
   exactly when per id the suffix's winner has at least the prefix winner's sequence, or
   is the same record.
   */
  lemma KeylessSplitIsInvisibleIff(m: Snapshot, a: seq<Event>, b: seq<Event>)
    requires NoSharedKey(a, b)
    ensures FoldBatch(FoldBatch(m, a), b) == FoldBatch(m, a + b) <==> forall id :: CutIsSafe(a, b, id)
  {
    BatchSplitIsInvisibleIff(m, a, b);
    forall id ensures CutIsHarmless(m, a, b, id) <==> CutIsSafe(a, b, id) {
      HarmlessIffSafe(m, a, b, id);
    }
  }

  /** Sequences that never fall from prefix to suffix, per id, make every cut safe. */
  lemma MonotoneSequencesSplit(m: Snapshot, a: seq<Event>, b: seq<Event>)
    requires NoSharedKey(a, b)
    requires forall i, j ::
               && 0 <= i < |a| && 0 <= j < |b| && a[i].Good? && b[j].Good?
               && a[i].record.id == b[j].record.id ==>
               Rank(a[i].sequence) <= Rank(b[j].sequence)
    ensures FoldBatch(FoldBatch(m, a), b) == FoldBatch(m, a + b)
  {
    KeylessSplitIsInvisibleIff(m, a, b);
  }

  /** A duplicate delivered in a later batch is applied again and brings an overwritten record back. */
  lemma DuplicateAcrossBatches(key: Key, key2: Key, older: Record, newer: Record)
    requires key != key2 && older.id == newer.id
    ensures var a := [Good(key, older, None), Good(key2, newer, None)];
            var b := [Good(key, older, None)];
            && RecordAt(FoldBatch(map[], a + b), older.id) == Some(newer)
            && RecordAt(FoldBatch(FoldBatch(map[], a), b), older.id) == Some(older)
  {
    var id := older.id;
    var a := [Good(key, older, None), Good(key2, newer, None)];
    var b := [Good(key, older, None)];
    var es := a + b;
    assert es[0] == es[2] && !Survives(es, 2);
    assert Wins(es, 1, id);
    assert Wins(b, 0, id);
    FoldBatchMeaning(map[], es, id, 1);
    FoldBatchMeaning(FoldBatch(map[], a), b, id, 0);
  }

  /**
   Compacting a batch, redelivered or not, changes nothing exactly when the snapshot
   already holds each id's winner.
   */
  lemma RedeliveryIsHarmlessIff(m: Snapshot, es: seq<Event>)
    ensures FoldBatch(m, es) == m <==> forall id, i :: Wins(es, i, id) ==> RecordAt(m, id) == Some(es[i].record)
  {
    forall id ensures RecordAt(FoldBatch(m, es), id) == RecordAt(m, id) <==>
                      forall i :: Wins(es, i, id) ==> RecordAt(m, id) == Some(es[i].record)
    {
      FoldBatchAt(m, es, id);
      WinnerWins(es, id);
      forall i | Wins(es, i, id) ensures i == Winner(es, id) {
        WinnerIsUnique(es, i, Winner(es, id), id);
      }
    }
    if forall id, i :: Wins(es, i, id) ==> RecordAt(m, id) == Some(es[i].record) {
      forall id ensures (id in FoldBatch(m, es) <==> id in m) && (id in m ==> FoldBatch(m, es)[id] == m[id]) {
        assert RecordAt(FoldBatch(m, es), id) == RecordAt(m, id);
      }
    }
  }

  /** Quarantined events leave no trace: not even the deduplication notices them. */
  lemma {:induction false} BadPrefixIsInvisible(f: Fold, bad: seq<Event>, es: seq<Event>)
    requires forall i :: 0 <= i < |bad| ==> bad[i].Bad?
    ensures FoldEvents(f, bad + es) == FoldEvents(f, es).(quarantined := FoldEvents(f, es).quarantined + |bad|)
    decreases |bad| + |es|
  {
    if es != [] {
      assert (bad + es)[..|bad| + |es| - 1] == bad + es[..|es| - 1];
      BadPrefixIsInvisible(f, bad, es[..|es| - 1]);
    } else if bad != [] {
      assert bad + es == bad;
      assert bad[..|bad| - 1] + [] == bad[..|bad| - 1];
      BadPrefixIsInvisible(f, bad[..|bad| - 1], []);
    }
  }
}

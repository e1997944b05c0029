/**
 One compaction batch as the compactor runs it: load the snapshot rows, walk over the
 event files updating the record map and the set of seen keys in place, and write the
 surviving records back sorted by id.
 */
module CompactorBatch {
  import opened ObjectStore
  import opened LexOrder
  import opened CompactorFold

  datatype UnknownEventPolicy = Reject | Quarantine

  /** The snapshot a sequence of rows stands for; a later row of the same id wins. */
  function FromRows(rows: seq<Record>): Snapshot {
    if rows == [] then map[]
    else
      var last := rows[|rows| - 1];
      FromRows(rows[..|rows| - 1])[last.id := last]
  }

  predicate Ascending(rows: seq<Record>) {
    forall i, j :: 0 <= i < j < |rows| ==> Less(rows[i].id, rows[j].id)
  }

  method LoadRows(rows: seq<Record>) returns (records: Snapshot)
    ensures records == FromRows(rows)
  {
    records := map[];
    for k := 0 to |rows|
      invariant records == FromRows(rows[..k])
    {
      assert rows[..k + 1][..k] == rows[..k];
      records := records[rows[k].id := rows[k]];
    }
    assert rows[..|rows|] == rows;
  }

  // ------------------------------------------------------------------
  // Event files
  // ------------------------------------------------------------------

  /** A file the compactor can use: a legacy payload, or a valid envelope of the expected type and version with one. */
  predicate Readable(f: EventFile) {
    || f.LegacyPayload?
    || (f.Envelope? && f.valid && f.payload.Some? && f.eventType == EXPECTED_TYPE && f.eventVersion == EXPECTED_VERSION)
  }

  function RecordIn(f: EventFile): Record
    requires Readable(f)
  {
    if f.LegacyPayload? then f.record else f.payload.value
  }

  /** Only envelopes carry a sequence position. */
  function SequenceIn(f: EventFile): Option<nat>
    requires Readable(f)
  {
    if f.Envelope? then f.sequence else None
  }

  /** Two readable files deliver the same event: equal keys, where the key of a legacy payload is that of its record. */
  predicate SameDelivery(f: EventFile, g: EventFile)
    requires Readable(f) && Readable(g)
  {
    if f.LegacyPayload? && g.LegacyPayload? then f.record == g.record
    else if f.LegacyPayload? then g.key == Digest(f.record)
    else if g.LegacyPayload? then f.key == Digest(g.record)
    else f.key == g.key
  }

  /** What decoding finds in a file, and when it takes two files for one delivery. */
  lemma DecodedFiles(f: EventFile, g: EventFile)
    ensures Decode(f).Good? <==> Readable(f)
    ensures Readable(f) ==> Decode(f).record == RecordIn(f) && Decode(f).sequence == SequenceIn(f)
    ensures Readable(f) && Readable(g) ==> (Decode(f).key == Decode(g).key <==> SameDelivery(f, g))
  {
  }

  /** File `i` is the first delivery of its event. */
  ghost predicate FirstDelivery(files: seq<EventFile>, i: int) {
    && 0 <= i < |files| && Readable(files[i])
    && forall j :: 0 <= j < i && Readable(files[j]) ==> !SameDelivery(files[j], files[i])
  }

  /** Sequence position `a` gives way to `b` when `b` comes later in the batch. */
  predicate GivesWay(a: Option<nat>, b: Option<nat>) { a.None? || (b.Some? && a.value <= b.value) }

  /**
   File `i` decides id: among the first deliveries for the id, those before it give way to it,
   and it gives way to none after it.
   */
  ghost predicate FileWins(files: seq<EventFile>, i: int, id: string) {
    && FirstDelivery(files, i) && RecordIn(files[i]).id == id
    && (forall j :: FirstDelivery(files, j) && RecordIn(files[j]).id == id ==>
          && (j < i ==> GivesWay(SequenceIn(files[j]), SequenceIn(files[i])))
          && (j > i ==> !GivesWay(SequenceIn(files[i]), SequenceIn(files[j]))))
  }

  lemma FirstDeliverySurvives(files: seq<EventFile>, i: int)
    ensures FirstDelivery(files, i) <==> Survives(DecodeAll(files), i)
  {
    if 0 <= i < |files| {
      forall j | 0 <= j < |files|
        ensures Decode(files[j]).Good? <==> Readable(files[j])
        ensures Readable(files[j]) && Readable(files[i]) ==>
                  (Decode(files[j]).key == Decode(files[i]).key <==> SameDelivery(files[j], files[i]))
      {
        DecodedFiles(files[j], files[i]);
      }
    }
  }

  lemma FileConcerns(files: seq<EventFile>, i: int, id: string)
    ensures FirstDelivery(files, i) && RecordIn(files[i]).id == id <==> Concerns(DecodeAll(files), i, id)
    ensures FirstDelivery(files, i) ==> DecodeAll(files)[i].sequence == SequenceIn(files[i])
    ensures FirstDelivery(files, i) ==> DecodeAll(files)[i].record == RecordIn(files[i])
  {
    FirstDeliverySurvives(files, i);
    if 0 <= i < |files| {
      DecodedFiles(files[i], files[i]);
    }
  }

  /** The file that decides an id is the one whose event wins. */
  lemma FileWinsIff(files: seq<EventFile>, i: int, id: string)
    ensures FileWins(files, i, id) <==> Wins(DecodeAll(files), i, id)
  {
    forall j
      ensures FirstDelivery(files, j) && RecordIn(files[j]).id == id <==> Concerns(DecodeAll(files), j, id)
      ensures FirstDelivery(files, j) ==> DecodeAll(files)[j].sequence == SequenceIn(files[j])
    {
      FileConcerns(files, j, id);
    }
  }

  /** After a batch every id holds the record of the file that decides it, and what it held if none does. */
  ghost predicate HoldsWinners(before: Snapshot, files: seq<EventFile>, after: Snapshot) {
    && (forall i, id :: FileWins(files, i, id) ==> RecordAt(after, id) == Some(RecordIn(files[i])))
    && (forall id :: (forall i :: !FileWins(files, i, id)) ==> RecordAt(after, id) == RecordAt(before, id))
  }

  lemma BatchHoldsWinners(before: Snapshot, files: seq<EventFile>)
    ensures HoldsWinners(before, files, FoldBatch(before, DecodeAll(files)))
  {
    var (es, after) := (DecodeAll(files), FoldBatch(before, DecodeAll(files)));
    forall i, id | FileWins(files, i, id) ensures RecordAt(after, id) == Some(RecordIn(files[i])) {
      FileWinsIff(files, i, id);
      FileConcerns(files, i, id);
      FoldBatchMeaning(before, es, id, i);
    }
    forall id | forall i :: !FileWins(files, i, id) ensures RecordAt(after, id) == RecordAt(before, id) {
      forall i ensures !Wins(es, i, id) {
        FileWinsIff(files, i, id);
      }
      FoldBatchMeaning(before, es, id, 0);
    }
  }

  /** A batch of legacy files with different ids loses none of them. */
  lemma LegacyFilesAreKept(before: Snapshot, files: seq<EventFile>, i: nat)
    requires forall j :: 0 <= j < |files| ==> files[j].LegacyPayload?
    requires forall j, k :: 0 <= j < k < |files| ==> files[j].record.id != files[k].record.id
    requires i < |files|
    ensures RecordAt(FoldBatch(before, DecodeAll(files)), files[i].record.id) == Some(files[i].record)
  {
    assert FileWins(files, i, files[i].record.id);
    BatchHoldsWinners(before, files);
  }

  // ------------------------------------------------------------------
  // The loops
  // ------------------------------------------------------------------

  /** The event loop: stops at the first unreadable file when the policy says so. */
  method FoldFiles(rows: seq<Record>, files: seq<EventFile>, policy: UnknownEventPolicy) returns (r: Option<Fold>)
    ensures r.None? <==> policy == Reject && exists i :: 0 <= i < |files| && !Readable(files[i])
    ensures r.Some? ==> r.value == FoldEvents(Load(FromRows(rows)), DecodeAll(files))
  {
    var records := LoadRows(rows);
    var sequences: map<string, nat> := map[];
    var seen: set<Key> := {};
    var applied, deduped, quarantined := 0, 0, 0;
    ghost var es := DecodeAll(files);
    for k := 0 to |files|
      invariant Fold(records, sequences, seen, applied, deduped, quarantined)
                == FoldEvents(Load(FromRows(rows)), es[..k])
      invariant policy == Reject ==> forall i :: 0 <= i < k ==> Readable(files[i])
    {
      assert es[..k + 1][..k] == es[..k] && es[..k + 1][k] == Decode(files[k]);
      DecodedFiles(files[k], files[k]);
      match Decode(files[k]) {
        case Bad =>
          if policy == Reject {
            return None;
          }
          quarantined := quarantined + 1;
        case Good(key, record, sequence) =>
          if key in seen {
            deduped := deduped + 1;
          } else {
            seen := seen + {key};
            if record.id !in records || ShouldReplace(SequenceAt(sequences, record.id), sequence) {
              records := records[record.id := record];
              sequences := WithSequence(sequences, record.id, sequence);
            }
            applied := applied + 1;
          }
      }
    }
    assert es[..|files|] == es;
    return Some(Fold(records, sequences, seen, applied, deduped, quarantined));
  }

  /** Records are filed under their id, before and after any fold. */
  predicate Keyed(records: Snapshot) {
    forall id :: id in records ==> records[id].id == id
  }

  lemma {:induction false} FoldKeepsKeyed(f: Fold, es: seq<Event>)
    requires Keyed(f.records)
    ensures Keyed(FoldEvents(f, es).records)
    decreases |es|
  {
    if es != [] {
      FoldKeepsKeyed(f, es[..|es| - 1]);
    }
  }

  predicate FitsAt(rows: seq<Record>, k: nat, r: Record)
    requires k <= |rows|
  {
    (forall i :: 0 <= i < k ==> Less(rows[i].id, r.id)) && (forall i :: k <= i < |rows| ==> Less(r.id, rows[i].id))
  }

  lemma InsertedRows(rows: seq<Record>, k: nat, r: Record)
    requires k <= |rows|
    ensures forall x :: x in rows[..k] + [r] + rows[k..] <==> x == r || x in rows
  {
    assert rows == rows[..k] + rows[k..];
  }

  lemma InsertedAscending(rows: seq<Record>, k: nat, r: Record)
    requires Ascending(rows) && k <= |rows| && FitsAt(rows, k, r)
    ensures Ascending(rows[..k] + [r] + rows[k..])
  {
    var out := rows[..k] + [r] + rows[k..];
    forall i, j | 0 <= i < j < |out| ensures Less(out[i].id, out[j].id) {
      assert out[i] == if i < k then rows[i] else if i == k then r else rows[i - 1];
      assert out[j] == if j < k then rows[j] else if j == k then r else rows[j - 1];
    }
  }

  /** Everything before the first row not above `r` is below it. */
  lemma PlaceFits(rows: seq<Record>, k: nat, r: Record)
    requires Ascending(rows) && k <= |rows|
    requires forall i :: k <= i < |rows| ==> Less(r.id, rows[i].id)
    requires k > 0 ==> rows[k - 1].id != r.id && !Less(r.id, rows[k - 1].id)
    ensures FitsAt(rows, k, r)
  {
    if k > 0 {
      Total(r.id, rows[k - 1].id);
      forall i | 0 <= i < k - 1 ensures Less(rows[i].id, r.id) {
        Transitive(rows[i].id, rows[k - 1].id, r.id);
      }
    }
  }

  /** Puts a row with a new id at its place. */
  method InsertRow(rows: seq<Record>, r: Record) returns (out: seq<Record>)
    requires Ascending(rows) && forall i :: 0 <= i < |rows| ==> rows[i].id != r.id
    ensures Ascending(out)
    ensures forall x :: x in out <==> x == r || x in rows
  {
    var k := |rows|;
    while k > 0 && Less(r.id, rows[k - 1].id)
      invariant 0 <= k <= |rows|
      invariant forall i :: k <= i < |rows| ==> Less(r.id, rows[i].id)
    {
      k := k - 1;
    }
    PlaceFits(rows, k, r);
    InsertedAscending(rows, k, r);
    InsertedRows(rows, k, r);
    out := rows[..k] + [r] + rows[k..];
  }

  /** The rows written to a snapshot file: every record once, in strictly ascending id order. */
  method SortRows(records: Snapshot) returns (rows: seq<Record>)
    requires Keyed(records)
    ensures Ascending(rows)
    ensures forall r :: r in rows <==> r.id in records && records[r.id] == r
  {
    rows := [];
    var todo := records.Keys;
    while todo != {}
      invariant todo <= records.Keys
      invariant Ascending(rows)
      invariant forall r :: r in rows <==> r.id in records && r.id !in todo && records[r.id] == r
      decreases |todo|
    {
      var id :| id in todo;
      rows := InsertRow(rows, records[id]);
      todo := todo - {id};
    }
  }

  lemma {:induction false} RowsAt(rows: seq<Record>, id: string)
    requires Ascending(rows)
    ensures id in FromRows(rows) <==> exists r :: r in rows && r.id == id
    ensures id in FromRows(rows) ==> FromRows(rows)[id] in rows && FromRows(rows)[id].id == id
    decreases |rows|
  {
    if rows != [] {
      var n := |rows| - 1;
      RowsAt(rows[..n], id);
      assert rows == rows[..n] + [rows[n]];
    }
  }

  lemma AscendingIdsAreUnique(rows: seq<Record>, a: Record, b: Record)
    requires Ascending(rows) && a in rows && b in rows && a.id == b.id
    ensures a == b
  {
    var i :| 0 <= i < |rows| && rows[i] == a;
    var j :| 0 <= j < |rows| && rows[j] == b;
    Irreflexive(a.id);
  }

  /** Reading a written snapshot back gives the records that were written, without sequence positions. */
  lemma SnapshotRoundTrip(records: Snapshot, rows: seq<Record>)
    requires Keyed(records) && Ascending(rows)
    requires forall r :: r in rows <==> r.id in records && records[r.id] == r
    ensures FromRows(rows) == records
  {
    forall id ensures id in FromRows(rows) <==> id in records {
      RowsAt(rows, id);
      if id in records {
        assert records[id] in rows;
      }
    }
    forall id | id in records ensures FromRows(rows)[id] == records[id] {
      RowsAt(rows, id);
      AscendingIdsAreUnique(rows, FromRows(rows)[id], records[id]);
    }
  }

  /**
   One whole batch: what the compactor reads back from the snapshot it wrote holds for every
   id the record of the file that decides it, and otherwise what it started from.
   */
  method CompactBatch(rows: seq<Record>, files: seq<EventFile>, policy: UnknownEventPolicy)
    returns (out: Option<seq<Record>>, applied: nat)
    ensures out.None? <==> policy == Reject && exists i :: 0 <= i < |files| && !Readable(files[i])
    ensures out.Some? ==> Ascending(out.value) && FromRows(out.value) == FoldBatch(FromRows(rows), DecodeAll(files))
    ensures out.Some? ==> HoldsWinners(FromRows(rows), files, FromRows(out.value))
    ensures out.Some? ==> (applied > 0 <==> exists i :: 0 <= i < |files| && Readable(files[i]))
  {
    var r := FoldFiles(rows, files, policy);
    if r.None? {
      return None, 0;
    }
    var f := r.value;
    LoadKeyed(rows);
    FoldKeepsKeyed(Load(FromRows(rows)), DecodeAll(files));
    var sorted := SortRows(f.records);
    SnapshotRoundTrip(f.records, sorted);
    FoldCounts(FromRows(rows), DecodeAll(files));
    GoodIsCounted(DecodeAll(files));
    BatchHoldsWinners(FromRows(rows), files);
    forall i | 0 <= i < |files| ensures DecodeAll(files)[i].Good? <==> Readable(files[i]) {
      DecodedFiles(files[i], files[i]);
    }
    return Some(sorted), f.applied;
  }

  lemma {:induction false} LoadKeyed(rows: seq<Record>)
    ensures Keyed(FromRows(rows))
    decreases |rows|
  {
    if rows != [] {
      LoadKeyed(rows[..|rows| - 1]);
    }
  }

  lemma {:induction false} GoodIsCounted(es: seq<Event>)
    ensures CountGood(es) > 0 <==> exists i :: 0 <= i < |es| && es[i].Good?
    decreases |es|
  {
    if es != [] {
      GoodIsCounted(es[..|es| - 1]);
      assert forall i :: 0 <= i < |es| - 1 ==> es[..|es| - 1][i] == es[i];
    }
  }
}

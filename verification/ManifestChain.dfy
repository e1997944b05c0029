/** Chains of catalog manifests accepted one succession at a time, and hash chains of commit records. */
module ManifestChain {
  import opened ObjectStore
  import opened LexOrder
  import opened MachineIntegers
  import opened ManifestIds

  // ------------------------------------------------------------------
  // Manifest succession
  // ------------------------------------------------------------------

  datatype Manifest = Manifest(
    id: string, snapshotVersion: nat, epoch: nat, parentHash: Option<string>, fencingToken: Option<nat>,
    commitUlid: Option<string>)

  datatype Verdict =
    | Accepted
    | BadId
    | IdRegression
    | VersionRegression
    | ParentHashMismatch
    | FencingRegression
    | EpochRegression
    | UlidRegression

  /** The checks, in the order they are made. */
  function ValidateSuccession(next: Manifest, previous: Manifest, previousHash: string): Verdict {
    var (p, n) := (ParseId(previous.id), ParseId(next.id));
    if !p.Ok? || !n.Ok? then BadId
    else if n.value < p.value then IdRegression
    else if next.snapshotVersion < previous.snapshotVersion then VersionRegression
    else if next.parentHash.Some? && next.parentHash.value != previousHash then ParentHashMismatch
    else if previous.fencingToken.Some? && next.fencingToken.Some?
            && next.fencingToken.value < previous.fencingToken.value
    then FencingRegression
    else if next.epoch < previous.epoch then EpochRegression
    else if previous.commitUlid.Some? && next.commitUlid.Some?
            && AtMost(next.commitUlid.value, previous.commitUlid.value)
    then UlidRegression
    else Accepted
  }

  /** Every member was accepted as the successor of the one before it, whose stored bytes have the given hash. */
  ghost predicate AcceptedChain(chain: seq<Manifest>, hashes: seq<string>) {
    |hashes| == |chain|
    && forall i :: 0 <= i < |chain| - 1 ==> ValidateSuccession(chain[i + 1], chain[i], hashes[i]) == Accepted
  }

  /** Between any two members, manifest id (in both orders), snapshot version and epoch never fall. */
  lemma {:induction false} ChainIsMonotone(chain: seq<Manifest>, hashes: seq<string>, i: nat, j: nat)
    requires AcceptedChain(chain, hashes) && i < j < |chain|
    ensures ParseId(chain[i].id).Ok? && ParseId(chain[j].id).Ok?
    ensures ParseId(chain[i].id).value <= ParseId(chain[j].id).value && AtMost(chain[i].id, chain[j].id)
    ensures chain[i].snapshotVersion <= chain[j].snapshotVersion && chain[i].epoch <= chain[j].epoch
    decreases j - i
  {
    assert ValidateSuccession(chain[j - 1 + 1], chain[j - 1], hashes[j - 1]) == Accepted;
    if i < j - 1 {
      ChainIsMonotone(chain, hashes, i, j - 1);
    }
    ParsedOrder(chain[i].id, chain[j].id);
  }

  /** Fencing tokens never fall over a stretch on which all members carry one. */
  lemma {:induction false} FencingIsMonotone(chain: seq<Manifest>, hashes: seq<string>, i: nat, j: nat)
    requires AcceptedChain(chain, hashes) && i < j < |chain|
    requires forall k :: i <= k <= j ==> chain[k].fencingToken.Some?
    ensures chain[i].fencingToken.value <= chain[j].fencingToken.value
    decreases j - i
  {
    assert ValidateSuccession(chain[j - 1 + 1], chain[j - 1], hashes[j - 1]) == Accepted;
    if i < j - 1 {
      FencingIsMonotone(chain, hashes, i, j - 1);
    }
  }

  /** Commit ULIDs strictly increase over a stretch on which all members carry one. */
  lemma {:induction false} UlidsIncrease(chain: seq<Manifest>, hashes: seq<string>, i: nat, j: nat)
    requires AcceptedChain(chain, hashes) && i < j < |chain|
    requires forall k :: i <= k <= j ==> chain[k].commitUlid.Some?
    ensures Less(chain[i].commitUlid.value, chain[j].commitUlid.value)
    decreases j - i
  {
    assert ValidateSuccession(chain[j - 1 + 1], chain[j - 1], hashes[j - 1]) == Accepted;
    Total(chain[j].commitUlid.value, chain[j - 1].commitUlid.value);
    if i < j - 1 {
      UlidsIncrease(chain, hashes, i, j - 1);
      Transitive(chain[i].commitUlid.value, chain[j - 1].commitUlid.value, chain[j].commitUlid.value);
    }
  }

  // ------------------------------------------------------------------
  // Exactly which extensions are accepted
  // ------------------------------------------------------------------

  ghost predicate WellFormedId(id: string) { exists v: U64 :: id == FormatId(v) }

  /** What each verdict other than acceptance says is violated, in terms of the stored fields. */
  ghost predicate Meets(next: Manifest, previous: Manifest, previousHash: string, v: Verdict) {
    match v
    case Accepted => true
    case BadId => WellFormedId(previous.id) && WellFormedId(next.id)
    case IdRegression => AtMost(previous.id, next.id)
    case VersionRegression => previous.snapshotVersion <= next.snapshotVersion
    case ParentHashMismatch => next.parentHash == None || next.parentHash == Some(previousHash)
    case FencingRegression =>
      || previous.fencingToken.None? || next.fencingToken.None?
      || previous.fencingToken.value <= next.fencingToken.value
    case EpochRegression => previous.epoch <= next.epoch
    case UlidRegression =>
      || previous.commitUlid.None? || next.commitUlid.None?
      || Less(previous.commitUlid.value, next.commitUlid.value)
  }

  lemma WellFormedIdParses(id: string)
    ensures WellFormedId(id) <==> ParseId(id).Ok?
  {
    if ParseId(id).Ok? {
      ParseIffFormatted(id, ParseId(id).value);
    }
    forall v: U64 | id == FormatId(v) ensures ParseId(id).Ok? {
      ParseIffFormatted(id, v);
    }
  }

  lemma IdsRegressInOrder(a: string, b: string)
    requires ParseId(a).Ok? && ParseId(b).Ok?
    ensures ParseId(b).value < ParseId(a).value <==> !AtMost(a, b)
  {
    ParsedOrder(a, b);
  }

  lemma NotAtMost(a: string, b: string)
    ensures AtMost(b, a) <==> !Less(a, b)
  {
    Total(a, b);
    if Less(a, b) {
      Asymmetric(a, b);
      Irreflexive(a);
    }
  }

  ghost predicate MeetsAll(next: Manifest, previous: Manifest, previousHash: string) {
    forall v :: Meets(next, previous, previousHash, v)
  }

  ghost predicate ViolatesOnly(next: Manifest, previous: Manifest, previousHash: string, v: Verdict) {
    !Meets(next, previous, previousHash, v) && forall u :: u != v ==> Meets(next, previous, previousHash, u)
  }

  /** Each check fails exactly when its requirement is violated. */
  lemma ChecksAreRequirements(next: Manifest, previous: Manifest, previousHash: string)
    ensures var v := ValidateSuccession(next, previous, previousHash);
            v == Accepted || !Meets(next, previous, previousHash, v)
    ensures ValidateSuccession(next, previous, previousHash) == Accepted ==> MeetsAll(next, previous, previousHash)
  {
    WellFormedIdParses(previous.id);
    WellFormedIdParses(next.id);
    if ParseId(previous.id).Ok? && ParseId(next.id).Ok? {
      IdsRegressInOrder(previous.id, next.id);
    }
    if previous.commitUlid.Some? && next.commitUlid.Some? {
      NotAtMost(previous.commitUlid.value, next.commitUlid.value);
    }
  }

  /** A successor is accepted iff it meets every requirement; if exactly one is violated, the verdict names it. */
  lemma VerdictNamesTheViolation(next: Manifest, previous: Manifest, previousHash: string, v: Verdict)
    ensures ValidateSuccession(next, previous, previousHash) == Accepted <==> MeetsAll(next, previous, previousHash)
    ensures ViolatesOnly(next, previous, previousHash, v) ==> ValidateSuccession(next, previous, previousHash) == v
  {
    ChecksAreRequirements(next, previous, previousHash);
    var verdict := ValidateSuccession(next, previous, previousHash);
    assert MeetsAll(next, previous, previousHash) ==> Meets(next, previous, previousHash, verdict);
    assert verdict == Accepted ==> Meets(next, previous, previousHash, v) || !MeetsAll(next, previous, previousHash);
  }

  /**
   An accepted chain stays accepted under an extension exactly when the new manifest has a
   well-formed id not below the last, version and epoch not below, no parent hash or the last
   one's, and a token and ULID that are missing on one side or do not fall.
   */
  lemma ChainExtendsIff(chain: seq<Manifest>, hashes: seq<string>, next: Manifest, hash: string)
    requires AcceptedChain(chain, hashes) && chain != []
    ensures AcceptedChain(chain + [next], hashes + [hash])
            <==> MeetsAll(next, chain[|chain| - 1], hashes[|chain| - 1])
  {
    var (more, all, n) := (chain + [next], hashes + [hash], |chain| - 1);
    VerdictNamesTheViolation(next, chain[n], hashes[n], Accepted);
    if AcceptedChain(more, all) {
      assert ValidateSuccession(more[n + 1], more[n], all[n]) == Accepted;
    }
    if MeetsAll(next, chain[n], hashes[n]) {
      forall i | 0 <= i < |more| - 1 ensures ValidateSuccession(more[i + 1], more[i], all[i]) == Accepted {
        if i < n {
          assert ValidateSuccession(chain[i + 1], chain[i], hashes[i]) == Accepted;
        }
      }
    }
  }

  // ------------------------------------------------------------------
  // Which presence patterns guarantee order
  // ------------------------------------------------------------------

  /** The chain carries fencing tokens exactly where the pattern says. */
  ghost predicate TokensAt(chain: seq<Manifest>, pattern: seq<bool>) {
    |chain| == |pattern| && forall k :: 0 <= k < |chain| ==> chain[k].fencingToken.Some? == pattern[k]
  }

  ghost predicate UlidsAt(chain: seq<Manifest>, pattern: seq<bool>) {
    |chain| == |pattern| && forall k :: 0 <= k < |chain| ==> chain[k].commitUlid.Some? == pattern[k]
  }

  ghost predicate PresentBetween(pattern: seq<bool>, i: nat, j: nat)
    requires j < |pattern|
  {
    forall k :: i <= k <= j ==> pattern[k]
  }

  /** Every accepted chain with the pattern has its tokens at `i` and `j` in order. */
  ghost predicate TokensOrdered(pattern: seq<bool>, i: nat, j: nat)
    requires i < j < |pattern| && pattern[i] && pattern[j]
  {
    forall chain: seq<Manifest>, hashes :: AcceptedChain(chain, hashes) && TokensAt(chain, pattern) ==>
      chain[i].fencingToken.value <= chain[j].fencingToken.value
  }

  ghost predicate UlidsOrdered(pattern: seq<bool>, i: nat, j: nat)
    requires i < j < |pattern| && pattern[i] && pattern[j]
  {
    forall chain: seq<Manifest>, hashes :: AcceptedChain(chain, hashes) && UlidsAt(chain, pattern) ==>
      Less(chain[i].commitUlid.value, chain[j].commitUlid.value)
  }

  function Plain(token: Option<nat>, ulid: Option<string>): Manifest { Manifest(FormatId(0), 0, 0, None, token, ulid) }

  /** Tokens that fall from 1 to 0 at the gap `g`. */
  ghost function FallingTokens(pattern: seq<bool>, g: nat): seq<Manifest> {
    seq(|pattern|,
        k requires 0 <= k < |pattern| => Plain(if !pattern[k] then None else Some(if k < g then 1 else 0), None))
  }

  ghost function NoHashes(n: nat): seq<string> { seq(n, _ => "") }

  lemma FallingTokensAccepted(pattern: seq<bool>, g: nat)
    requires g < |pattern| && !pattern[g]
    ensures AcceptedChain(FallingTokens(pattern, g), NoHashes(|pattern|))
    ensures TokensAt(FallingTokens(pattern, g), pattern)
  {
    ParseOfFormat(0);
  }

  /**
   A presence pattern guarantees ordered fencing tokens between two members iff no member
   of the stretch lacks one.
   */
  lemma TokensOrderedIffPresent(pattern: seq<bool>, i: nat, j: nat)
    requires i < j < |pattern| && pattern[i] && pattern[j]
    ensures TokensOrdered(pattern, i, j) <==> PresentBetween(pattern, i, j)
  {
    if PresentBetween(pattern, i, j) {
      forall chain: seq<Manifest>, hashes | AcceptedChain(chain, hashes) && TokensAt(chain, pattern)
        ensures chain[i].fencingToken.value <= chain[j].fencingToken.value
      {
        FencingIsMonotone(chain, hashes, i, j);
      }
    } else {
      var g :| i <= g <= j && !pattern[g];
      FallingTokensAccepted(pattern, g);
      var chain := FallingTokens(pattern, g);
      assert chain[i].fencingToken.value > chain[j].fencingToken.value;
    }
  }

  /** Strings of growing length, in order. */
  function Tally(n: nat): string { if n == 0 then "" else "0" + Tally(n - 1) }

  lemma {:induction false} TallyGrows(n: nat)
    ensures Less(Tally(n), Tally(n + 1)) && Less("1" + Tally(n), "1" + Tally(n + 1))
  {
    if n > 0 {
      TallyGrows(n - 1);
      assert Tally(n)[1..] == Tally(n - 1) && Tally(n + 1)[1..] == Tally(n);
    }
    assert ("1" + Tally(n))[1..] == Tally(n) && ("1" + Tally(n + 1))[1..] == Tally(n + 1);
  }

  /** ULIDs that grow on both sides of the gap `g` and fall across it. */
  ghost function FallingUlids(pattern: seq<bool>, g: nat): seq<Manifest> {
    seq(|pattern|, k requires 0 <= k < |pattern| =>
      Plain(None, if !pattern[k] then None else Some(if k < g then "1" + Tally(k) else Tally(k))))
  }

  lemma FallingUlidsFollow(pattern: seq<bool>, g: nat, k: nat)
    requires g < |pattern| && !pattern[g] && k + 1 < |pattern|
    ensures var chain := FallingUlids(pattern, g);
            chain[k].commitUlid.Some? && chain[k + 1].commitUlid.Some? ==>
              Less(chain[k].commitUlid.value, chain[k + 1].commitUlid.value)
  {
    TallyGrows(k);
  }

  lemma FallingUlidsAccepted(pattern: seq<bool>, g: nat)
    requires g < |pattern| && !pattern[g]
    ensures AcceptedChain(FallingUlids(pattern, g), NoHashes(|pattern|)) && UlidsAt(FallingUlids(pattern, g), pattern)
  {
    ParseOfFormat(0);
    var chain := FallingUlids(pattern, g);
    forall k | 0 <= k < |chain| - 1
      ensures ValidateSuccession(chain[k + 1], chain[k], NoHashes(|pattern|)[k]) == Accepted
    {
      FallingUlidsFollow(pattern, g, k);
      if chain[k].commitUlid.Some? && chain[k + 1].commitUlid.Some? {
        Asymmetric(chain[k].commitUlid.value, chain[k + 1].commitUlid.value);
        Irreflexive(chain[k].commitUlid.value);
      }
    }
  }

  /**
   A presence pattern guarantees increasing commit ULIDs between two members iff no member
   of the stretch lacks one.
   */
  lemma UlidsOrderedIffPresent(pattern: seq<bool>, i: nat, j: nat)
    requires i < j < |pattern| && pattern[i] && pattern[j]
    ensures UlidsOrdered(pattern, i, j) <==> PresentBetween(pattern, i, j)
  {
    if PresentBetween(pattern, i, j) {
      forall chain: seq<Manifest>, hashes | AcceptedChain(chain, hashes) && UlidsAt(chain, pattern)
        ensures Less(chain[i].commitUlid.value, chain[j].commitUlid.value)
      {
        UlidsIncrease(chain, hashes, i, j);
      }
    } else {
      var g :| i <= g <= j && !pattern[g];
      FallingUlidsAccepted(pattern, g);
      var chain := FallingUlids(pattern, g);
      assert chain[i].commitUlid.value[0] == '1' && chain[j].commitUlid.value[0] == '0';
    }
  }

  // ------------------------------------------------------------------
  // Parent hashes
  // ------------------------------------------------------------------

  /** Every stored manifest has its own hash, and every member but the first names its parent's. */
  ghost predicate ParentsNamed(hash: Manifest -> string, chain: seq<Manifest>, hashes: seq<string>) {
    && AcceptedChain(chain, hashes) && (forall i :: 0 <= i < |chain| ==> hashes[i] == hash(chain[i]))
    && (forall i :: 0 < i < |chain| ==> chain[i].parentHash.Some?)
  }

  /** Accepting a successor that names its parent pins the parent's bytes. */
  lemma ParentIsPinned(chain: seq<Manifest>, hashes: seq<string>, i: nat)
    requires AcceptedChain(chain, hashes) && 0 < i < |chain| && chain[i].parentHash.Some?
    ensures chain[i].parentHash.value == hashes[i - 1]
  {
    assert ValidateSuccession(chain[i - 1 + 1], chain[i - 1], hashes[i - 1]) == Accepted;
  }

  /** Accepted chains whose members name their parents and that end in one manifest agree as far back as both reach. */
  lemma {:induction false} LastManifestPinsHistory(hash: Manifest -> string, a: seq<Manifest>, ha: seq<string>,
                                                   b: seq<Manifest>, hb: seq<string>, k: nat)
    requires forall x, y :: hash(x) == hash(y) ==> x == y
    requires ParentsNamed(hash, a, ha) && ParentsNamed(hash, b, hb)
    requires a != [] && b != [] && a[|a| - 1] == b[|b| - 1] && k < |a| && k < |b|
    ensures a[|a| - 1 - k] == b[|b| - 1 - k]
    decreases k
  {
    if k > 0 {
      LastManifestPinsHistory(hash, a, ha, b, hb, k - 1);
      ParentIsPinned(a, ha, |a| - k);
      ParentIsPinned(b, hb, |b| - k);
    }
  }

  // ------------------------------------------------------------------
  // Hash chains of commit records
  // ------------------------------------------------------------------

  datatype CommitRecord = CommitRecord(
    commitId: string, prevCommitId: Option<string>, prevCommitHash: Option<string>, operation: string,
    payloadHash: string, createdAt: string)

  /** The hash covers every field; a collision-free function stands for it. */
  type Hash = CommitRecord -> string

  ghost predicate CollisionFree(hash: Hash) { forall a, b :: hash(a) == hash(b) ==> a == b }

  function NewSuccessor(hash: Hash, prev: CommitRecord, id: string, operation: string, payloadHash: string,
                        now: string): CommitRecord {
    CommitRecord(id, Some(prev.commitId), Some(hash(prev)), operation, payloadHash, now)
  }

  /** `next` names the record before it, by id and by hash. */
  ghost predicate IsSuccessor(hash: Hash, next: CommitRecord, prev: CommitRecord) {
    next.prevCommitId == Some(prev.commitId) && next.prevCommitHash == Some(hash(prev))
  }

  /** A new record extends any chain it was made for, and is determined by what it was made from. */
  lemma NewRecordsExtendChains(hash: Hash, chain: seq<CommitRecord>, r: CommitRecord)
    requires SuccessorChain(hash, chain)
    ensures SuccessorChain(hash, chain + [r])
            <==> r == NewSuccessor(hash, Head(chain), r.commitId, r.operation, r.payloadHash, r.createdAt)
  {
    var more := chain + [r];
    if SuccessorChain(hash, more) {
      assert IsSuccessor(hash, more[|chain|], more[|chain| - 1]);
    }
    if IsSuccessor(hash, r, Head(chain)) {
      forall i | 0 < i < |more| ensures IsSuccessor(hash, more[i], more[i - 1]) {
        if i < |chain| {
          assert IsSuccessor(hash, chain[i], chain[i - 1]);
        }
      }
    }
  }

  ghost predicate SuccessorChain(hash: Hash, chain: seq<CommitRecord>) {
    && chain != []
    && forall i :: 0 < i < |chain| ==> IsSuccessor(hash, chain[i], chain[i - 1])
  }

  function Head(chain: seq<CommitRecord>): CommitRecord
    requires chain != []
  {
    chain[|chain| - 1]
  }

  /** Chains with one head hash agree as far back as both reach. */
  lemma {:induction false} EqualHeadsAgree(hash: Hash, a: seq<CommitRecord>, b: seq<CommitRecord>, k: nat)
    requires CollisionFree(hash) && SuccessorChain(hash, a) && SuccessorChain(hash, b)
    requires hash(Head(a)) == hash(Head(b)) && k < |a| && k < |b|
    ensures a[|a| - 1 - k] == b[|b| - 1 - k]
    decreases k
  {
    if k > 0 {
      EqualHeadsAgree(hash, a, b, k - 1);
      var (i, j) := (|a| - k, |b| - k);
      assert IsSuccessor(hash, a[i], a[i - 1]) && IsSuccessor(hash, b[j], b[j - 1]);
    }
  }

  /** One chain cannot be longer when the other starts at a record without a predecessor. */
  lemma GenesisStops(hash: Hash, a: seq<CommitRecord>, b: seq<CommitRecord>)
    requires CollisionFree(hash) && SuccessorChain(hash, a) && SuccessorChain(hash, b)
    requires hash(Head(a)) == hash(Head(b)) && a[0].prevCommitHash.None?
    ensures |b| <= |a|
  {
    if |b| > |a| {
      assert IsSuccessor(hash, b[|b| - |a|], b[|b| - |a| - 1]);
      EqualHeadsAgree(hash, a, b, |a| - 1);
    }
  }

  /** The head hash determines the whole history back to genesis. */
  lemma HeadHashDeterminesHistory(hash: Hash, a: seq<CommitRecord>, b: seq<CommitRecord>)
    requires CollisionFree(hash) && SuccessorChain(hash, a) && SuccessorChain(hash, b)
    requires a[0].prevCommitHash.None? && b[0].prevCommitHash.None?
    ensures hash(Head(a)) == hash(Head(b)) <==> a == b
  {
    if hash(Head(a)) == hash(Head(b)) {
      GenesisStops(hash, a, b);
      GenesisStops(hash, b, a);
      forall i | 0 <= i < |a| ensures a[i] == b[i] {
        EqualHeadsAgree(hash, a, b, |a| - 1 - i);
      }
    }
  }
}

/**
 The versioned object store every protocol of this project is built on.

 A store maps a path to an object holding a version token and a body.  The only
 concurrency primitive is a conditional write: a put carries a precondition, a
 successful put installs a version no earlier object ever had, and nothing is
 deleted.  `head` (the version) and `get` (the body) are separate operations, so a
 caller that needs both reads them at two different moments.
 */
module ObjectStore {

  datatype Option<+T> = None | Some(value: T)

  datatype Object<+B> = Object(version: nat, body: B)

  datatype Store<K(==), B> = Store(objects: map<K, Object<B>>, next: nat)

  datatype Precondition = DoesNotExist | MatchesVersion(version: nat)

  /** What a put reports to its caller. */
  datatype Outcome = Written | PreconditionFailed | Errored

  /** Storage errors: before the write took effect, or after it did (a lost reply). */
  datatype Fault = NoFault | ErrorBefore | ErrorAfter

  function Empty<K, B>(): Store<K, B> { Store(map[], 0) }

  ghost predicate WellFormed<K, B>(s: Store<K, B>) {
    forall k :: k in s.objects ==> s.objects[k].version < s.next
  }

  predicate Admits<K, B>(s: Store<K, B>, k: K, pre: Precondition) {
    match pre
    case DoesNotExist => k !in s.objects
    case MatchesVersion(v) => k in s.objects && s.objects[k].version == v
  }

  function Write<K, B>(s: Store<K, B>, k: K, body: B): (r: Store<K, B>) {
    Store(s.objects[k := Object(s.next, body)], s.next + 1)
  }

  /** A conditional write that may meet a storage error. */
  function TryPut<K, B>(s: Store<K, B>, k: K, body: B, pre: Precondition, fault: Fault): (r: (Store<K, B>, Outcome))
    ensures r.1 == Written ==> Admits(s, k, pre) && r.0 == Write(s, k, body)
    ensures r.1 == PreconditionFailed ==> !Admits(s, k, pre) && r.0 == s
    ensures r.0 == s || (Admits(s, k, pre) && r.0 == Write(s, k, body))
  {
    if fault == ErrorBefore then (s, Errored)
    else if !Admits(s, k, pre) then (s, if fault == ErrorAfter then Errored else PreconditionFailed)
    else (Write(s, k, body), if fault == ErrorAfter then Errored else Written)
  }

  /** Without a fault a put reports exactly what it did; after a lost reply it may have taken effect all the same. */
  lemma PutIsExact<K, B>(s: Store<K, B>, k: K, body: B, pre: Precondition, fault: Fault)
    ensures var (s', out) := TryPut(s, k, body, pre, fault);
            && (s'.objects == if fault != ErrorBefore && Admits(s, k, pre)
                              then s.objects[k := Object(s.next, body)] else s.objects)
            && (out == if fault != NoFault then Errored else if Admits(s, k, pre) then Written else PreconditionFailed)
  {
  }

  /** `b` is a later state of `a`: nothing disappears and every changed object has a version `a` had not issued. */
  ghost predicate Grows<K, B>(a: Store<K, B>, b: Store<K, B>) {
    && a.next <= b.next
    && (forall k :: k in a.objects ==> k in b.objects)
    && (forall k :: k in b.objects ==>
          (k in a.objects && b.objects[k] == a.objects[k]) || b.objects[k].version >= a.next)
  }

  /**
   A caller knows version `v` of `k` from an earlier head and read the body `b` no
   earlier than that: if the version is still current, `b` is the body stored now.
   */
  ghost predicate Seen<K, B>(s: Store<K, B>, k: K, v: nat, b: B) {
    v < s.next && (k in s.objects && s.objects[k].version == v ==> s.objects[k].body == b)
  }

  lemma GrowsTransitive<K, B>(a: Store<K, B>, b: Store<K, B>, c: Store<K, B>)
    requires Grows(a, b) && Grows(b, c)
    ensures Grows(a, c)
  {
  }

  lemma WriteGrows<K, B>(s: Store<K, B>, k: K, body: B)
    requires WellFormed(s)
    ensures Grows(s, Write(s, k, body)) && WellFormed(Write(s, k, body))
  {
  }

  lemma SeenStable<K, B>(a: Store<K, B>, b: Store<K, B>, k: K, v: nat, body: B)
    requires Grows(a, b) && Seen(a, k, v, body)
    ensures Seen(b, k, v, body)
  {
  }

  // ------------------------------------------------------------------
  // Reading the version first and the body later is safe
  // ------------------------------------------------------------------

  /** One put by anybody, with any precondition and any fault. */
  datatype PutOp<K, B> = PutOp(key: K, body: B, pre: Precondition, fault: Fault)

  function Run<K, B>(s: Store<K, B>, ops: seq<PutOp<K, B>>): Store<K, B>
    decreases |ops|
  {
    if ops == [] then s
    else
      var op := ops[0];
      Run(TryPut(s, op.key, op.body, op.pre, op.fault).0, ops[1..])
  }

  lemma {:induction false} RunGrows<K, B>(s: Store<K, B>, ops: seq<PutOp<K, B>>)
    requires WellFormed(s)
    ensures Grows(s, Run(s, ops)) && WellFormed(Run(s, ops))
    decreases |ops|
  {
    if ops != [] {
      var op := ops[0];
      WriteGrows(s, op.key, op.body);
      var s1 := TryPut(s, op.key, op.body, op.pre, op.fault).0;
      RunGrows(s1, ops[1..]);
      GrowsTransitive(s, s1, Run(s, ops));
    }
  }

  /**
   A head at `s` returns version `v`; after any puts `before` a get returns `b`; after
   any further puts `after` a conditional write on `v` is admitted.  Then the body it
   replaces is exactly `b`, and nobody wrote the object in between.
   */
  lemma HeadThenGetThenCas<K, B>(s: Store<K, B>, before: seq<PutOp<K, B>>, after: seq<PutOp<K, B>>, k: K, v: nat, b: B)
    requires WellFormed(s)
    requires k in s.objects && s.objects[k].version == v
    requires var read := Run(s, before); k in read.objects && read.objects[k].body == b
    requires Admits(Run(Run(s, before), after), k, MatchesVersion(v))
    ensures Run(Run(s, before), after).objects[k] == Object(v, b)
    ensures s.objects[k] == Object(v, b)
  {
    var read := Run(s, before);
    RunGrows(s, before);
    RunGrows(read, after);
    assert Seen(read, k, v, b);
    SeenStable(read, Run(read, after), k, v, b);
    GrowsTransitive(s, read, Run(read, after));
  }
}

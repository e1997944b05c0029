/** Plain scans of decoded rows, and the loops that build lookup tables agreeing with them. */
module RowScans {
  import opened ObjectStore

  /** The rows with a key, in row order. */
  function Matching<T>(rows: seq<T>, key: T -> string, k: string): seq<T> {
    if rows == [] then []
    else
      var last := rows[|rows| - 1];
      Matching(rows[..|rows| - 1], key, k) + (if key(last) == k then [last] else [])
  }

  /** The last row with a key. */
  function Last<T>(rows: seq<T>, key: T -> string, k: string): Option<T> {
    if rows == [] then None
    else if key(rows[|rows| - 1]) == k then Some(rows[|rows| - 1])
    else Last(rows[..|rows| - 1], key, k)
  }

  /** The first row with a key. */
  function First<T>(rows: seq<T>, key: T -> string, k: string): Option<T> {
    if rows == [] then None
    else
      var first := First(rows[..|rows| - 1], key, k);
      if first.Some? then first
      else if key(rows[|rows| - 1]) == k then Some(rows[|rows| - 1])
      else None
  }

  function Lookup<T>(m: map<string, T>, k: string): Option<T> { if k in m then Some(m[k]) else None }

  lemma {:induction false} FirstIs<T>(rows: seq<T>, key: T -> string, k: string)
    ensures First(rows, key, k).None? <==> forall i :: 0 <= i < |rows| ==> key(rows[i]) != k
    ensures First(rows, key, k).Some? ==>
              exists i :: 0 <= i < |rows| && rows[i] == First(rows, key, k).value && key(rows[i]) == k
                          && forall j :: 0 <= j < i ==> key(rows[j]) != k
    decreases |rows|
  {
    if rows != [] {
      var init := rows[..|rows| - 1];
      FirstIs(init, key, k);
      assert forall i :: 0 <= i < |init| ==> init[i] == rows[i];
      if First(init, key, k).None? && key(rows[|rows| - 1]) == k {
        assert forall j :: 0 <= j < |rows| - 1 ==> key(rows[j]) != k;
      }
    }
  }

  lemma {:induction false} LastIs<T>(rows: seq<T>, key: T -> string, k: string)
    ensures Last(rows, key, k).None? <==> forall i :: 0 <= i < |rows| ==> key(rows[i]) != k
    ensures Last(rows, key, k).Some? ==>
              exists i :: 0 <= i < |rows| && rows[i] == Last(rows, key, k).value && key(rows[i]) == k
                          && forall j :: i < j < |rows| ==> key(rows[j]) != k
    decreases |rows|
  {
    if rows != [] && key(rows[|rows| - 1]) != k {
      var init := rows[..|rows| - 1];
      LastIs(init, key, k);
      assert forall i :: 0 <= i < |init| ==> init[i] == rows[i];
    }
  }

  // ------------------------------------------------------------------
  // Index loops
  // ------------------------------------------------------------------

  /** Collecting rows into a map: the last row with a key wins. */
  method IndexLast<T>(rows: seq<T>, key: T -> string) returns (m: map<string, T>)
    ensures forall k :: Lookup(m, k) == Last(rows, key, k)
  {
    m := map[];
    for i := 0 to |rows|
      invariant forall k :: Lookup(m, k) == Last(rows[..i], key, k)
    {
      assert rows[..i + 1][..i] == rows[..i];
      m := m[key(rows[i]) := rows[i]];
    }
    assert rows[..|rows|] == rows;
  }

  /** Inserting a row only where its key is vacant: the first row with a key wins. */
  method IndexFirst<T>(rows: seq<T>, key: T -> string) returns (m: map<string, T>)
    ensures forall k :: Lookup(m, k) == First(rows, key, k)
  {
    m := map[];
    for i := 0 to |rows|
      invariant forall k :: Lookup(m, k) == First(rows[..i], key, k)
    {
      assert rows[..i + 1][..i] == rows[..i];
      if key(rows[i]) !in m {
        m := m[key(rows[i]) := rows[i]];
      }
    }
    assert rows[..|rows|] == rows;
  }

  function Group<T>(m: map<string, seq<T>>, k: string): seq<T> { if k in m then m[k] else [] }

  /** Pushing each row onto its key's vector. */
  method GroupRows<T>(rows: seq<T>, key: T -> string) returns (m: map<string, seq<T>>)
    ensures forall k :: Group(m, k) == Matching(rows, key, k)
  {
    m := map[];
    for i := 0 to |rows|
      invariant forall k :: Group(m, k) == Matching(rows[..i], key, k)
    {
      assert rows[..i + 1][..i] == rows[..i];
      var k := key(rows[i]);
      m := m[k := Group(m, k) + [rows[i]]];
    }
    assert rows[..|rows|] == rows;
  }

  // ------------------------------------------------------------------
  // Stable sorting
  // ------------------------------------------------------------------

  ghost predicate Ascending<T>(rows: seq<T>, ordinal: T -> int) {
    forall i, j :: 0 <= i < j < |rows| ==> ordinal(rows[i]) <= ordinal(rows[j])
  }

  /** The rows with an ordinal, in row order. */
  ghost function AtOrdinal<T>(rows: seq<T>, ordinal: T -> int, o: int): seq<T> {
    if rows == [] then []
    else
      var last := rows[|rows| - 1];
      AtOrdinal(rows[..|rows| - 1], ordinal, o) + (if ordinal(last) == o then [last] else [])
  }

  /** Same rows, ascending, and rows with equal ordinals in their original order. */
  ghost predicate StablySorted<T>(rows: seq<T>, sorted: seq<T>, ordinal: T -> int) {
    Ascending(sorted, ordinal) && forall o :: AtOrdinal(sorted, ordinal, o) == AtOrdinal(rows, ordinal, o)
  }

  lemma {:induction false} AtOrdinalConcat<T>(a: seq<T>, b: seq<T>, ordinal: T -> int, o: int)
    ensures AtOrdinal(a + b, ordinal, o) == AtOrdinal(a, ordinal, o) + AtOrdinal(b, ordinal, o)
    decreases |b|
  {
    if b == [] {
      assert a + b == a;
    } else {
      assert (a + b)[..|a + b| - 1] == a + b[..|b| - 1];
      AtOrdinalConcat(a, b[..|b| - 1], ordinal, o);
    }
  }

  lemma {:induction false} AtOrdinalEmpty<T>(rows: seq<T>, ordinal: T -> int, o: int)
    ensures AtOrdinal(rows, ordinal, o) == [] <==> forall i :: 0 <= i < |rows| ==> ordinal(rows[i]) != o
    decreases |rows|
  {
    if rows != [] {
      AtOrdinalEmpty(rows[..|rows| - 1], ordinal, o);
    }
  }

  /** Where to insert: after everything not greater. */
  lemma InsertionIsStable<T>(sorted: seq<T>, at: nat, x: T, ordinal: T -> int, o: int)
    requires at <= |sorted| && forall i :: at <= i < |sorted| ==> ordinal(sorted[i]) > ordinal(x)
    ensures AtOrdinal(sorted[..at] + [x] + sorted[at..], ordinal, o) == AtOrdinal(sorted + [x], ordinal, o)
  {
    var (a, b) := (sorted[..at], sorted[at..]);
    assert sorted == a + b;
    AtOrdinalConcat(a + [x], b, ordinal, o);
    AtOrdinalConcat(a, [x], ordinal, o);
    AtOrdinalConcat(a, b, ordinal, o);
    AtOrdinalConcat(sorted, [x], ordinal, o);
    AtOrdinalEmpty(b, ordinal, o);
  }

  method InsertStably<T>(sorted: seq<T>, x: T, ordinal: T -> int) returns (r: seq<T>)
    requires Ascending(sorted, ordinal)
    ensures StablySorted(sorted + [x], r, ordinal)
  {
    var at := |sorted|;
    while at > 0 && ordinal(sorted[at - 1]) > ordinal(x)
      invariant 0 <= at <= |sorted| && forall i :: at <= i < |sorted| ==> ordinal(sorted[i]) > ordinal(x)
    {
      at := at - 1;
    }
    r := sorted[..at] + [x] + sorted[at..];
    forall o ensures AtOrdinal(r, ordinal, o) == AtOrdinal(sorted + [x], ordinal, o) {
      InsertionIsStable(sorted, at, x, ordinal, o);
    }
  }

  method SortStably<T>(rows: seq<T>, ordinal: T -> int) returns (sorted: seq<T>)
    ensures StablySorted(rows, sorted, ordinal)
  {
    sorted := [];
    for i := 0 to |rows|
      invariant StablySorted(rows[..i], sorted, ordinal)
    {
      ghost var before := sorted;
      sorted := InsertStably(sorted, rows[i], ordinal);
      forall o ensures AtOrdinal(sorted, ordinal, o) == AtOrdinal(rows[..i + 1], ordinal, o) {
        AtOrdinalConcat(before, [rows[i]], ordinal, o);
        AtOrdinalConcat(rows[..i], [rows[i]], ordinal, o);
        assert rows[..i + 1] == rows[..i] + [rows[i]];
      }
    }
    assert rows[..|rows|] == rows;
  }

  lemma LastOrdinals<T>(a: seq<T>, b: seq<T>, ordinal: T -> int)
    requires a != [] && Ascending(b, ordinal)
    requires forall o :: AtOrdinal(a, ordinal, o) == AtOrdinal(b, ordinal, o)
    ensures b != [] && ordinal(a[|a| - 1]) <= ordinal(b[|b| - 1])
  {
    var o := ordinal(a[|a| - 1]);
    AtOrdinalEmpty(a, ordinal, o);
    AtOrdinalEmpty(b, ordinal, o);
  }

  lemma SnocInjective<T>(p: seq<T>, x: T, q: seq<T>, y: T)
    requires p + [x] == q + [y]
    ensures p == q && x == y
  {
    assert (p + [x])[|p|] == x && (q + [y])[|q|] == y;
    assert (p + [x])[..|p|] == p && (q + [y])[..|q|] == q;
  }

  /** The stable sort is unique: the two conditions leave no choice. */
  lemma {:induction false} StableSortIsUnique<T>(a: seq<T>, b: seq<T>, ordinal: T -> int)
    requires Ascending(a, ordinal) && Ascending(b, ordinal)
    requires forall o :: AtOrdinal(a, ordinal, o) == AtOrdinal(b, ordinal, o)
    ensures a == b
    decreases |a|
  {
    if a == [] {
      if b != [] {
        LastOrdinals(b, a, ordinal);
      }
    } else {
      LastOrdinals(a, b, ordinal);
      LastOrdinals(b, a, ordinal);
      var (x, y) := (a[|a| - 1], b[|b| - 1]);
      var (a', b') := (a[..|a| - 1], b[..|b| - 1]);
      assert AtOrdinal(a, ordinal, ordinal(x)) == AtOrdinal(a', ordinal, ordinal(x)) + [x];
      assert AtOrdinal(b, ordinal, ordinal(x)) == AtOrdinal(b', ordinal, ordinal(x)) + [y];
      SnocInjective(AtOrdinal(a', ordinal, ordinal(x)), x, AtOrdinal(b', ordinal, ordinal(x)), y);
      forall o ensures AtOrdinal(a', ordinal, o) == AtOrdinal(b', ordinal, o) {
        if o != ordinal(x) {
          assert AtOrdinal(a, ordinal, o) == AtOrdinal(a', ordinal, o);
          assert AtOrdinal(b, ordinal, o) == AtOrdinal(b', ordinal, o);
        }
      }
      StableSortIsUnique(a', b', ordinal);
      assert a == a' + [x] && b == b' + [y];
    }
  }

  // ------------------------------------------------------------------
  // Listings
  // ------------------------------------------------------------------

  /** How many of the first `n` rows are wanted. */
  ghost function Wanted<T>(rows: seq<T>, wanted: T -> bool, n: nat): nat
    requires n <= |rows|
  {
    if n == 0 then 0 else Wanted(rows, wanted, n - 1) + (if wanted(rows[n - 1]) then 1 else 0)
  }

  /** `listed` is every wanted row once, in row order: a wanted row is preceded by just the wanted rows before it. */
  ghost predicate Picks<T>(rows: seq<T>, listed: seq<T>, wanted: T -> bool) {
    && |listed| == Wanted(rows, wanted, |rows|)
    && forall i :: 0 <= i < |rows| && wanted(rows[i]) ==>
         Wanted(rows, wanted, i) < |listed| && listed[Wanted(rows, wanted, i)] == rows[i]
  }

  lemma {:induction false} WantedInPrefix<T>(rows: seq<T>, last: T, wanted: T -> bool, n: nat)
    requires n <= |rows|
    ensures Wanted(rows + [last], wanted, n) == Wanted(rows, wanted, n)
    decreases n
  {
    if n > 0 {
      WantedInPrefix(rows, last, wanted, n - 1);
    }
  }

  /** A listing grows by the next row exactly when it is wanted. */
  lemma PicksGrow<T>(rows: seq<T>, listed: seq<T>, wanted: T -> bool, last: T, next: seq<T>)
    requires Picks(rows, listed, wanted) && next == listed + (if wanted(last) then [last] else [])
    ensures Picks(rows + [last], next, wanted)
  {
    var more := rows + [last];
    forall i: nat | i <= |rows| ensures Wanted(more, wanted, i) == Wanted(rows, wanted, i) {
      WantedInPrefix(rows, last, wanted, i);
    }
    forall i | 0 <= i < |more| && wanted(more[i])
      ensures Wanted(more, wanted, i) < |next| && next[Wanted(more, wanted, i)] == more[i]
    {
      if i < |rows| {
        assert wanted(rows[i]) && listed[Wanted(rows, wanted, i)] == rows[i];
      }
    }
  }

  /** Matching rows are picked, */
  lemma {:induction false} MatchingPicks<T(!new)>(rows: seq<T>, key: T -> string, k: string, wanted: T -> bool)
    requires forall x :: wanted(x) <==> key(x) == k
    ensures Picks(rows, Matching(rows, key, k), wanted)
    decreases |rows|
  {
    if rows != [] {
      var n := |rows| - 1;
      MatchingPicks(rows[..n], key, k, wanted);
      assert rows[..n] + [rows[n]] == rows;
      PicksGrow(rows[..n], Matching(rows[..n], key, k), wanted, rows[n], Matching(rows, key, k));
    }
  }

  /** and so are the rows of one ordinal, */
  lemma {:induction false} AtOrdinalPicks<T(!new)>(rows: seq<T>, ordinal: T -> int, o: int, wanted: T -> bool)
    requires forall x :: wanted(x) <==> ordinal(x) == o
    ensures Picks(rows, AtOrdinal(rows, ordinal, o), wanted)
    decreases |rows|
  {
    if rows != [] {
      var n := |rows| - 1;
      AtOrdinalPicks(rows[..n], ordinal, o, wanted);
      assert rows[..n] + [rows[n]] == rows;
      PicksGrow(rows[..n], AtOrdinal(rows[..n], ordinal, o), wanted, rows[n], AtOrdinal(rows, ordinal, o));
    }
  }

  lemma TiedGrows<T>(own: seq<T>, x: T, ordinal: T -> int, o: int)
    ensures AtOrdinal(own + [x], ordinal, o) == AtOrdinal(own, ordinal, o) + (if ordinal(x) == o then [x] else [])
  {
    assert (own + [x])[..|own|] == own;
  }

  /** and the rows of one ordinal among the matching rows. */
  lemma {:induction false} TiedPicks<T(!new)>(rows: seq<T>, key: T -> string, k: string, ordinal: T -> int, o: int,
                                              wanted: T -> bool)
    requires forall x :: wanted(x) <==> key(x) == k && ordinal(x) == o
    ensures Picks(rows, AtOrdinal(Matching(rows, key, k), ordinal, o), wanted)
    decreases |rows|
  {
    if rows != [] {
      var n := |rows| - 1;
      var own := Matching(rows[..n], key, k);
      TiedPicks(rows[..n], key, k, ordinal, o, wanted);
      assert rows[..n] + [rows[n]] == rows;
      TiedGrows(own, rows[n], ordinal, o);
      assert own + [] == own;
      PicksGrow(rows[..n], AtOrdinal(own, ordinal, o), wanted, rows[n], AtOrdinal(Matching(rows, key, k), ordinal, o));
    }
  }
}

/** The order in which the dashboard lists alerts: a sort by the status rank
    table PENDING = 0, ASSIGNED = 1, RESOLVED = 2, done in place on the array
    the dashboard holds. */
module DisplayOrder {
  import opened Alerts

  /** The rank table. */
  function Rank(st: Status): (r: nat)
    requires st.Known()
    ensures r <= 2
    ensures r == 0 <==> st == Pending
    ensures r == 2 <==> st == Resolved
  {
    match st
    case Pending => 0
    case Assigned => 1
    case Resolved => 2
  }

  /** The rank of a known status, and 3 for a status the table has no entry for.
      Used only to reason about the sort; the comparator never looks at it for
      unknown statuses. */
  function Class(st: Status): (c: nat)
    ensures c <= 3
    ensures c == 3 <==> !st.Known()
    ensures st.Known() ==> c == Rank(st)
  {
    if st.Known() then Rank(st) else 3
  }

  /** The comparator handed to the array sort. A status the table lacks looks up
      `undefined`; subtracting gives NaN, and the ECMAScript sort reads a NaN
      comparison result as +0, so such an alert compares equal to anything. */
  function Compare(x: Status, y: Status): (d: int)
    ensures d != 0 ==> x.Known() && y.Known()
    ensures x.Known() && y.Known() ==> (d < 0 <==> Rank(x) < Rank(y)) && (d > 0 <==> Rank(x) > Rank(y))
  {
    if x.Known() && y.Known() then Rank(x) - Rank(y) else 0
  }

  /** The comparator is antisymmetric. */
  lemma CompareAntisymmetric(x: Status, y: Status)
    ensures Compare(x, y) == -Compare(y, x)
  {
  }

  /** Every status of the sequence is one the rank table knows. */
  predicate AllKnown(s: seq<Alert>) {
    forall i :: 0 <= i < |s| ==> s[i].status.Known()
  }

  /** Non-decreasing in rank (with unknown statuses ranked last). */
  predicate Sorted(s: seq<Alert>) {
    forall p, q :: 0 <= p < q < |s| ==> Class(s[p].status) <= Class(s[q].status)
  }

  /** The alerts of class `k`, in the order they appear in `s`. */
  function Keep(s: seq<Alert>, k: nat): (r: seq<Alert>)
    ensures |r| <= |s|
    ensures forall i :: 0 <= i < |r| ==> Class(r[i].status) == k
    ensures forall a :: a in r ==> a in s
  {
    if s == [] then []
    else if Class(s[0].status) == k then [s[0]] + Keep(s[1..], k)
    else Keep(s[1..], k)
  }

  /** The reference order: all PENDING alerts, then all ASSIGNED, then all
      RESOLVED, each group in the order it had before. */
  function ByRank(s: seq<Alert>): seq<Alert>
  {
    Keep(s, 0) + Keep(s, 1) + Keep(s, 2)
  }

  /** Exchanges the adjacent elements at `j - 1` and `j`. */
  function Swapped(s: seq<Alert>, j: nat): seq<Alert>
    requires 0 < j < |s|
  {
    s[..j - 1] + [s[j], s[j - 1]] + s[j + 1..]
  }

  /** `Keep` of a sequence with a given first alert. */
  lemma KeepCons(x: Alert, t: seq<Alert>, k: nat)
    ensures Keep([x] + t, k) == if Class(x.status) == k then [x] + Keep(t, k) else Keep(t, k)
  {
    var s := [x] + t;
    assert s[0] == x && s[1..] == t;
  }

  lemma {:induction false} KeepAppend(s: seq<Alert>, t: seq<Alert>, k: nat)
    ensures Keep(s + t, k) == Keep(s, k) + Keep(t, k)
  {
    if s == [] {
      assert s + t == t;
    } else {
      assert (s + t)[1..] == s[1..] + t;
      KeepAppend(s[1..], t, k);
    }
  }

  /** Keeping a class of a sequence whose alerts are all of that class keeps everything. */
  lemma {:induction false} KeepAll(s: seq<Alert>, k: nat)
    requires forall i :: 0 <= i < |s| ==> Class(s[i].status) == k
    ensures Keep(s, k) == s
  {
    if s != [] {
      KeepAll(s[1..], k);
    }
  }

  /** Keeping a class no alert of the sequence has keeps nothing. */
  lemma {:induction false} KeepNone(s: seq<Alert>, k: nat)
    requires forall i :: 0 <= i < |s| ==> Class(s[i].status) != k
    ensures Keep(s, k) == []
  {
    if s != [] {
      KeepNone(s[1..], k);
    }
  }

  /** Two alerts of different classes commute under `Keep`. */
  lemma KeepPairCommutes(x: Alert, y: Alert, k: nat)
    requires Class(x.status) != Class(y.status)
    ensures Keep([x, y], k) == Keep([y, x], k)
  {
    assert [x, y][1..] == [y] && [y, x][1..] == [x];
    assert [x][1..] == [] && [y][1..] == [];
  }

  /** Exchanging two neighbours of different classes leaves the subsequence
      of class `k` as it was. */
  lemma SwapKeepsClass(s: seq<Alert>, j: nat, k: nat)
    requires 0 < j < |s|
    requires Class(s[j - 1].status) != Class(s[j].status)
    ensures Keep(Swapped(s, j), k) == Keep(s, k)
  {
    var pre, x, y, post := s[..j - 1], s[j - 1], s[j], s[j + 1..];
    assert s == pre + [x, y] + post;
    assert Swapped(s, j) == pre + [y, x] + post;
    KeepAppend(pre + [x, y], post, k);
    KeepAppend(pre, [x, y], k);
    KeepAppend(pre + [y, x], post, k);
    KeepAppend(pre, [y, x], k);
    KeepPairCommutes(x, y, k);
  }

  /** Exchanging two neighbours of different classes changes no class's
      subsequence: this is what makes the insertion sort below stable. */
  lemma SwapKeeps(s: seq<Alert>, j: nat)
    requires 0 < j < |s|
    requires Class(s[j - 1].status) != Class(s[j].status)
    ensures forall k :: Keep(Swapped(s, j), k) == Keep(s, k)
  {
    forall k: nat
      ensures Keep(Swapped(s, j), k) == Keep(s, k)
    {
      SwapKeepsClass(s, j, k);
    }
  }

  /** Every alert of a sequence is in exactly one class. */
  lemma {:induction false} KeepMultiset(s: seq<Alert>)
    ensures multiset(s) == multiset(Keep(s, 0)) + multiset(Keep(s, 1)) + multiset(Keep(s, 2)) + multiset(Keep(s, 3))
  {
    if s != [] {
      var x, t := s[0], s[1..];
      KeepMultiset(t);
      assert s == [x] + t;
      KeepCons(x, t, 0);
      KeepCons(x, t, 1);
      KeepCons(x, t, 2);
      KeepCons(x, t, 3);
      assert multiset(s) == multiset{x} + multiset(t);
    }
  }

  /** All statuses are known exactly when no alert falls in the unknown class. */
  lemma AllKnownKeep(s: seq<Alert>)
    ensures AllKnown(s) <==> Keep(s, 3) == []
  {
    if AllKnown(s) {
      KeepNone(s, 3);
    } else {
      var i :| 0 <= i < |s| && !s[i].status.Known();
      assert s[i] in s;
      assert s == s[..i] + s[i..];
      assert s[i..] == [s[i]] + s[i + 1..];
      KeepAppend(s[..i], s[i..], 3);
      KeepAppend([s[i]], s[i + 1..], 3);
    }
  }

  /** The reference order is a permutation of its input, provided every status
      is known (an unknown status has no place in the three groups). */
  lemma ByRankPermutation(s: seq<Alert>)
    requires AllKnown(s)
    ensures multiset(ByRank(s)) == multiset(s)
  {
    KeepMultiset(s);
    AllKnownKeep(s);
  }

  /** The reference order is non-decreasing in rank. */
  lemma ByRankSorted(s: seq<Alert>)
    ensures Sorted(ByRank(s))
  {
    var r := ByRank(s);
    var n0, n1 := |Keep(s, 0)|, |Keep(s, 1)|;
    assert forall i :: 0 <= i < |r| ==>
      Class(r[i].status) == (if i < n0 then 0 else if i < n0 + n1 then 1 else 2);
  }

  /** The reference order is stable: within each rank the alerts keep the
      relative order they had. */
  lemma ByRankStable(s: seq<Alert>)
    requires AllKnown(s)
    ensures forall k :: Keep(ByRank(s), k) == Keep(s, k)
  {
    AllKnownKeep(s);
    forall k: nat
      ensures Keep(ByRank(s), k) == Keep(s, k)
    {
      if k > 2 {
        KeepNone(s, k);
      }
      KeepAppend(Keep(s, 0) + Keep(s, 1), Keep(s, 2), k);
      KeepAppend(Keep(s, 0), Keep(s, 1), k);
      forall c: nat | c <= 2
        ensures Keep(Keep(s, c), k) == if c == k then Keep(s, c) else []
      {
        if c == k {
          KeepAll(Keep(s, c), k);
        } else {
          KeepNone(Keep(s, c), k);
        }
      }
    }
  }

  /** Putting in front an alert whose class is no greater than any behind it
      puts it in front of the reference order too. */
  lemma ByRankCons(x: Alert, t: seq<Alert>)
    requires x.status.Known()
    requires forall i :: 0 <= i < |t| ==> Class(x.status) <= Class(t[i].status)
    ensures ByRank([x] + t) == [x] + ByRank(t)
  {
    var c := Rank(x.status);
    if c == 0 {
      assert Keep([x] + t, 0) == [x] + Keep(t, 0) by { KeepCons(x, t, 0); }
      assert Keep([x] + t, 1) == Keep(t, 1) by { KeepCons(x, t, 1); }
      assert Keep([x] + t, 2) == Keep(t, 2) by { KeepCons(x, t, 2); }
    } else if c == 1 {
      assert Keep([x] + t, 0) == [] by { KeepCons(x, t, 0); KeepNone(t, 0); }
      assert Keep([x] + t, 1) == [x] + Keep(t, 1) by { KeepCons(x, t, 1); }
      assert Keep([x] + t, 2) == Keep(t, 2) by { KeepCons(x, t, 2); }
      assert ByRank(t) == Keep(t, 1) + Keep(t, 2) by { KeepNone(t, 0); }
    } else {
      assert Keep([x] + t, 0) == [] by { KeepCons(x, t, 0); KeepNone(t, 0); }
      assert Keep([x] + t, 1) == [] by { KeepCons(x, t, 1); KeepNone(t, 1); }
      assert Keep([x] + t, 2) == [x] + Keep(t, 2) by { KeepCons(x, t, 2); }
      assert ByRank(t) == Keep(t, 2) by { KeepNone(t, 0); KeepNone(t, 1); }
    }
  }

  /** A sorted sequence of known statuses is its own reference order. */
  lemma {:induction false} SortedIsByRank(s: seq<Alert>)
    requires AllKnown(s) && Sorted(s)
    ensures s == ByRank(s)
  {
    if s != [] {
      var t := s[1..];
      assert forall i :: 0 <= i < |t| ==> t[i] == s[i + 1];
      SortedIsByRank(t);
      ByRankCons(s[0], t);
      assert s == [s[0]] + t;
    }
  }

  /** The display order is unique: any sorted rearrangement that keeps each
      rank's relative order is the reference order. */
  lemma StableSortIsByRank(r: seq<Alert>, s: seq<Alert>)
    requires AllKnown(r) && Sorted(r)
    requires forall k :: Keep(r, k) == Keep(s, k)
    ensures r == ByRank(s)
  {
    SortedIsByRank(r);
  }

  /** The worked example: [A: RESOLVED, B: PENDING, C: PENDING, D: ASSIGNED]
      is listed as [B, C, D, A]. */
  lemma ByRankExample(a: Alert, b: Alert, c: Alert, d: Alert)
    requires a.status == Resolved && b.status == Pending
    requires c.status == Pending && d.status == Assigned
    ensures ByRank([a, b, c, d]) == [b, c, d, a]
  {
    var s := [a, b, c, d];
    assert s[1..] == [b, c, d] && [b, c, d][1..] == [c, d] && [c, d][1..] == [d] && [d][1..] == [];
    assert Keep([d], 0) == [] && Keep([d], 1) == [d] && Keep([d], 2) == [];
    assert Keep([c, d], 0) == [c] && Keep([c, d], 1) == [d] && Keep([c, d], 2) == [];
    assert Keep([b, c, d], 0) == [b, c] && Keep([b, c, d], 1) == [d] && Keep([b, c, d], 2) == [];
    assert Keep(s, 0) == [b, c] && Keep(s, 1) == [d] && Keep(s, 2) == [a];
  }

  /** Class order holds between every two positions of `[lo, hi)`. */
  predicate SortedOn(s: seq<Alert>, lo: int, hi: int)
    requires 0 <= lo <= hi <= |s|
  {
    forall p, q :: lo <= p < q < hi ==> Class(s[p].status) <= Class(s[q].status)
  }

  /** Everything before `j` is at most everything in `(j, i]`. */
  predicate Below(s: seq<Alert>, j: int, i: int)
    requires 0 <= j <= i < |s|
  {
    forall p, q :: 0 <= p < j < q <= i ==> Class(s[p].status) <= Class(s[q].status)
  }

  /** The state of the insertion of element `i` while it sits at `j`. */
  predicate Sinking(s: seq<Alert>, j: int, i: int)
    requires 0 <= j <= i < |s|
  {
    SortedOn(s, 0, j) && SortedOn(s, j, i + 1) && Below(s, j, i)
  }

  /** Moving the inserted element one place left keeps the insertion state. */
  lemma SinkStep(s: seq<Alert>, j: int, i: int)
    requires 0 < j <= i < |s|
    requires Sinking(s, j, i)
    requires Class(s[j - 1].status) > Class(s[j].status)
    ensures Sinking(Swapped(s, j), j - 1, i)
  {
    var t := Swapped(s, j);
    assert forall p :: 0 <= p < |s| && p != j - 1 && p != j ==> t[p] == s[p];
    assert t[j - 1] == s[j] && t[j] == s[j - 1];
    assert SortedOn(t, 0, j - 1);
    assert SortedOn(t, j - 1, i + 1);
    assert Below(t, j - 1, i);
  }

  /** Once the inserted element has stopped, the first `i + 1` are in order. */
  lemma SinkDone(s: seq<Alert>, j: int, i: int)
    requires 0 <= j <= i < |s|
    requires Sinking(s, j, i)
    requires j == 0 || Class(s[j - 1].status) <= Class(s[j].status)
    ensures SortedOn(s, 0, i + 1)
  {
  }

  /** Sorts the array in place by the comparator, as the dashboard's render
      does with its own state array. The ECMAScript sort is stable; when a
      status the table lacks is present the comparator is not consistent and
      only a permutation is promised. This is a stable insertion sort. */
  method SortByRank(a: array<Alert>)
    modifies a
    ensures multiset(a[..]) == multiset(old(a[..]))
    ensures AllKnown(old(a[..])) ==> a[..] == ByRank(old(a[..]))
  {
    ghost var known := AllKnown(a[..]);
    var i := 0;
    while i < a.Length
      invariant 0 <= i <= a.Length
      invariant forall k :: Keep(a[..], k) == Keep(old(a[..]), k)
      invariant known ==> AllKnown(a[..]) && SortedOn(a[..], 0, i)
    {
      var j := i;
      while j > 0 && Compare(a[j - 1].status, a[j].status) > 0
        invariant 0 <= j <= i
        invariant forall k :: Keep(a[..], k) == Keep(old(a[..]), k)
        invariant known ==> AllKnown(a[..]) && Sinking(a[..], j, i)
      {
        ghost var before := a[..];
        SwapKeeps(before, j);
        if known {
          SinkStep(before, j, i);
        }
        a[j - 1], a[j] := a[j], a[j - 1];
        assert a[..] == Swapped(before, j);
        if known {
          AllKnownKeep(before);
          AllKnownKeep(a[..]);
        }
        j := j - 1;
      }
      if known {
        SinkDone(a[..], j, i);
      }
      i := i + 1;
    }
    KeepMultiset(a[..]);
    KeepMultiset(old(a[..]));
    if known {
      assert Sorted(a[..]);
      StableSortIsByRank(a[..], old(a[..]));
    }
  }
}

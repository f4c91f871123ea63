/** Minimum churn among all balanced maps: exactly when the canonical shares reach it. */
module Balance {
  import opened Prelude
  import opened Assignment
  import opened AssignmentProofs

  // ----- Counting over a member list -----

  /** How many of the members own more than q buckets of p. */
  function Over(p: seq<Id>, members: seq<Id>, q: nat): (k: nat)
    ensures k <= |members|
  {
    if members == [] then 0
    else Over(p, members[..|members| - 1], q) + (if CountIn(p, |p|, members[|members| - 1]) > q then 1 else 0)
  }

  function Least(a: nat, b: nat): nat { if a < b then a else b }

  /** What the members keep when each may keep q buckets at most. */
  function BaseSum(p: seq<Id>, members: seq<Id>, q: nat): nat {
    if members == [] then 0
    else BaseSum(p, members[..|members| - 1], q) + Least(CountIn(p, |p|, members[|members| - 1]), q)
  }

  /** How many of the members own more than q buckets of both maps. */
  function OverBoth(p: seq<Id>, z: seq<Id>, members: seq<Id>, q: nat): nat {
    if members == [] then 0
    else
      var x := members[|members| - 1];
      OverBoth(p, z, members[..|members| - 1], q) + (if CountIn(p, |p|, x) > q && CountIn(z, |z|, x) > q then 1 else 0)
  }

  lemma {:induction false} OverBothBound(p: seq<Id>, z: seq<Id>, members: seq<Id>, q: nat)
    ensures OverBoth(p, z, members, q) <= Over(p, members, q)
    ensures OverBoth(p, z, members, q) <= Over(z, members, q)
  {
    if members != [] { OverBothBound(p, z, members[..|members| - 1], q); }
  }

  lemma {:induction false} OverAppend(p: seq<Id>, a: seq<Id>, b: seq<Id>, q: nat)
    ensures Over(p, a + b, q) == Over(p, a, q) + Over(p, b, q)
  {
    if b == [] {
      assert a + b == a;
    } else {
      assert (a + b)[..|a + b| - 1] == a + b[..|b| - 1];
      OverAppend(p, a, b[..|b| - 1], q);
    }
  }

  lemma {:induction false} BaseAppend(p: seq<Id>, a: seq<Id>, b: seq<Id>, q: nat)
    ensures BaseSum(p, a + b, q) == BaseSum(p, a, q) + BaseSum(p, b, q)
  {
    if b == [] {
      assert a + b == a;
    } else {
      assert (a + b)[..|a + b| - 1] == a + b[..|b| - 1];
      BaseAppend(p, a, b[..|b| - 1], q);
    }
  }

  /** With the canonical shares the first n % m members may keep one bucket more than the others. */
  lemma {:induction false} RetainableSplit(p: seq<Id>, members: seq<Id>, i: nat)
    requires |members| > 0 && i <= |members|
    ensures var q, r := |p| / |members|, |p| % |members|;
            RetainableSum(p, members, i) == BaseSum(p, members[..i], q) + Over(p, members[..Least(i, r)], q)
  {
    if i > 0 {
      RetainableSplit(p, members, i - 1);
      ShareClosed(|p|, |members|, i - 1);
      assert members[..i][..i - 1] == members[..i - 1];
      var r := |p| % |members|;
      if i <= r { assert members[..Least(i, r)] == members[..i] && members[..Least(i - 1, r)] == members[..i - 1]; }
    }
  }

  // ----- Balanced maps -----

  /** A complete map for the members that is balanced within one. */
  ghost predicate BalancedMap(z: seq<Id>, members: seq<Id>) {
    OwnedBy(z, members) && WithinOne(z, members)
  }

  lemma {:induction false} AgreeWithItself(z: seq<Id>, x: Id, n: nat)
    requires n <= |z|
    ensures Agree(z, z, x, n) == CountIn(z, n, x) && Changed(z, z, n) == 0
  {
    if n > 0 { AgreeWithItself(z, x, n - 1); }
  }

  /** In a map whose counts are all low or low + 1, the members that have one more make up the rest. */
  lemma {:induction false} CountsSplit(z: seq<Id>, members: seq<Id>, i: nat, low: nat)
    requires i <= |members|
    requires forall j :: 0 <= j < i ==> low <= CountIn(z, |z|, members[j]) <= low + 1
    ensures AgreeSum(z, z, members, i, |z|) == i * low + Over(z, members[..i], low)
  {
    if i > 0 {
      CountsSplit(z, members, i - 1, low);
      AgreeWithItself(z, members[i - 1], |z|);
      assert members[..i][..i - 1] == members[..i - 1];
      assert i * low == (i - 1) * low + low;
    }
  }

  /** Some member has the fewest buckets. */
  lemma {:induction false} FewestBuckets(z: seq<Id>, members: seq<Id>) returns (k: nat)
    requires members != []
    ensures k < |members|
    ensures forall j :: 0 <= j < |members| ==> CountIn(z, |z|, members[k]) <= CountIn(z, |z|, members[j])
  {
    var n := |members| - 1;
    k := n;
    if n > 0 {
      var other := FewestBuckets(z, members[..n]);
      assert members[..n][other] == members[other];
      if CountIn(z, |z|, members[other]) < CountIn(z, |z|, members[n]) { k := other; }
      forall j | 0 <= j < |members| ensures CountIn(z, |z|, members[k]) <= CountIn(z, |z|, members[j]) {
        if j < n { assert members[..n][j] == members[j]; }
      }
    }
  }

  lemma {:induction false} NotAllOver(z: seq<Id>, members: seq<Id>, k: nat, q: nat)
    requires k < |members| && CountIn(z, |z|, members[k]) <= q
    ensures Over(z, members, q) < |members|
  {
    if k < |members| - 1 { NotAllOver(z, members[..|members| - 1], k, q); }
  }

  lemma DivisionIsUnique(n: nat, m: nat, q: nat, r: nat)
    requires r < m && n == m * q + r
    ensures n / m == q && n % m == r
  {
    var q', r' := n / m, n % m;
    assert n == m * q' + r';
    assert m * (q - q') == r' - r;
    if q > q' { MulMonotone(m, 1, m, q - q'); }
    if q < q' { MulMonotone(m, 1, m, q' - q); }
  }

  /** Every balanced map gives each member the quotient or one more, and as many get one more as the remainder says. */
  lemma BalancedCounts(z: seq<Id>, members: seq<Id>)
    requires Listed(members) && members != [] && BalancedMap(z, members)
    ensures var q, r := |z| / |members|, |z| % |members|;
            && (forall j :: 0 <= j < |members| ==> q <= CountIn(z, |z|, members[j]) <= q + 1)
            && Over(z, members, q) == r
  {
    var k := FewestBuckets(z, members);
    var low := CountIn(z, |z|, members[k]);
    AgreeOrChanged(z, z, members, |z|);
    AgreeWithItself(z, NIL, |z|);
    CountsSplit(z, members, |members|, low);
    assert members[..|members|] == members;
    NotAllOver(z, members, k, low);
    DivisionIsUnique(|z|, |members|, low, Over(z, members, low));
  }

  /** Member by member: what two maps can agree on when the second gives nobody more than q + 1 buckets. */
  lemma {:induction false} AgreeAtMost(p: seq<Id>, z: seq<Id>, members: seq<Id>, i: nat, q: nat)
    requires |p| == |z| && i <= |members|
    requires forall j :: 0 <= j < |members| ==> CountIn(z, |z|, members[j]) <= q + 1
    ensures AgreeSum(p, z, members, i, |p|) <= BaseSum(p, members[..i], q) + OverBoth(p, z, members[..i], q)
  {
    if i > 0 {
      AgreeAtMost(p, z, members, i - 1, q);
      AgreeBound(p, z, members[i - 1], |p|);
      assert members[..i][..i - 1] == members[..i - 1];
    }
  }

  /** No balanced map keeps more than the base plus one bucket for each over-full member, as far as the remainder goes. */
  lemma BalancedChurnBound(p: seq<Id>, z: seq<Id>, members: seq<Id>)
    requires Listed(members) && members != [] && |z| == |p| && BalancedMap(z, members)
    ensures var q, r := |p| / |members|, |p| % |members|;
            Churn(p, z) >= |p| - (BaseSum(p, members, q) + Least(r, Over(p, members, q)))
  {
    var q := |p| / |members|;
    BalancedCounts(z, members);
    AgreeAtMost(p, z, members, |members|, q);
    assert members[..|members|] == members;
    OverBothBound(p, z, members, q);
    AgreeOrChanged(p, z, members, |p|);
  }

  /** The churn of the computed map in the same terms: only over-full members among the first few count. */
  lemma ComputedChurn(p: seq<Id>, members: seq<Id>)
    requires Listed(members) && members != []
    ensures var q, r := |p| / |members|, |p| % |members|;
            Churn(p, Rebalanced(p, members)) == |p| - (BaseSum(p, members, q) + Over(p, members[..r], q))
  {
    ChurnIsClosedForm(p, members);
    RetainableSplit(p, members, |members|);
    assert members[..|members|] == members;
  }

  // ----- Over-full members first -----

  function Heavy(p: seq<Id>, members: seq<Id>, q: nat): seq<Id> {
    if members == [] then []
    else
      var last := members[|members| - 1];
      Heavy(p, members[..|members| - 1], q) + (if CountIn(p, |p|, last) > q then [last] else [])
  }

  function Light(p: seq<Id>, members: seq<Id>, q: nat): seq<Id> {
    if members == [] then []
    else
      var last := members[|members| - 1];
      Light(p, members[..|members| - 1], q) + (if CountIn(p, |p|, last) > q then [] else [last])
  }

  /** The same members with the over-full ones in front. */
  function HeavyFirst(p: seq<Id>, members: seq<Id>, q: nat): seq<Id> { Heavy(p, members, q) + Light(p, members, q) }

  lemma {:induction false} HeavyElements(p: seq<Id>, members: seq<Id>, q: nat, x: Id)
    ensures x in Heavy(p, members, q) <==> x in members && CountIn(p, |p|, x) > q
    ensures x in Light(p, members, q) <==> x in members && CountIn(p, |p|, x) <= q
    ensures |Heavy(p, members, q)| + |Light(p, members, q)| == |members|
  {
    if members != [] {
      HeavyElements(p, members[..|members| - 1], q, x);
      assert members == members[..|members| - 1] + [members[|members| - 1]];
    }
  }

  lemma {:induction false} HeavyListed(p: seq<Id>, members: seq<Id>, q: nat)
    requires Listed(members)
    ensures Listed(Heavy(p, members, q)) && Listed(Light(p, members, q))
  {
    if members != [] {
      var n := |members| - 1;
      var init, last := members[..n], members[n];
      assert members[n] == last && Listed(init);
      HeavyListed(p, init, q);
      HeavyElements(p, init, q, last);
      HeavyElements(p, init, q, NIL);
      assert last !in init;
    }
  }

  lemma HeavyFirstListed(p: seq<Id>, members: seq<Id>, q: nat)
    requires Listed(members)
    ensures var front := HeavyFirst(p, members, q);
            Listed(front) && |front| == |members| && forall x :: x in front <==> x in members
  {
    var h, l := Heavy(p, members, q), Light(p, members, q);
    HeavyListed(p, members, q);
    forall x ensures x in h + l <==> x in members { HeavyElements(p, members, q, x); }
    HeavyElements(p, members, q, NIL);
    forall i, j | 0 <= i < j < |h + l| ensures (h + l)[i] != (h + l)[j] {
      if i < |h| <= j {
        HeavyElements(p, members, q, h[i]);
        assert h[i] in h && l[j - |h|] in l;
      }
    }
  }

  lemma {:induction false} HeavySums(p: seq<Id>, members: seq<Id>, q: nat)
    ensures BaseSum(p, HeavyFirst(p, members, q), q) == BaseSum(p, members, q)
    ensures Over(p, members, q) == |Heavy(p, members, q)|
  {
    BaseAppend(p, Heavy(p, members, q), Light(p, members, q), q);
    if members != [] {
      var n := |members| - 1;
      var init, last := members[..n], members[n];
      HeavySums(p, init, q);
      BaseAppend(p, Heavy(p, init, q), Light(p, init, q), q);
      BaseAppend(p, Heavy(p, init, q), [last], q);
      BaseAppend(p, Light(p, init, q), [last], q);
      assert [last][..0] == [];
      assert Heavy(p, init, q) + [] == Heavy(p, init, q) && Light(p, init, q) + [] == Light(p, init, q);
    }
  }

  lemma {:induction false} AllOver(p: seq<Id>, members: seq<Id>, q: nat)
    requires forall x :: x in members ==> CountIn(p, |p|, x) > q
    ensures Over(p, members, q) == |members|
  {
    if members != [] {
      assert members[|members| - 1] in members;
      AllOver(p, members[..|members| - 1], q);
    }
  }

  lemma {:induction false} NoneOver(p: seq<Id>, members: seq<Id>, q: nat)
    requires forall x :: x in members ==> CountIn(p, |p|, x) <= q
    ensures Over(p, members, q) == 0
  {
    if members != [] {
      assert members[|members| - 1] in members;
      NoneOver(p, members[..|members| - 1], q);
    }
  }

  /** With the over-full members in front, as many of the first r are over-full as there can be. */
  lemma HeavyUpFront(p: seq<Id>, members: seq<Id>, q: nat, r: nat)
    requires r <= |members|
    ensures |HeavyFirst(p, members, q)| == |members|
    ensures Over(p, HeavyFirst(p, members, q)[..r], q) == Least(r, Over(p, members, q))
  {
    var h, l := Heavy(p, members, q), Light(p, members, q);
    HeavyElements(p, members, q, NIL);
    HeavySums(p, members, q);
    if r <= |h| {
      assert (h + l)[..r] == h[..r];
      forall x | x in h[..r] ensures CountIn(p, |p|, x) > q { HeavyElements(p, members, q, x); }
      AllOver(p, h[..r], q);
    } else {
      assert (h + l)[..r] == h + l[..r - |h|];
      OverAppend(p, h, l[..r - |h|], q);
      forall x | x in h ensures CountIn(p, |p|, x) > q { HeavyElements(p, members, q, x); }
      forall x | x in l[..r - |h|] ensures CountIn(p, |p|, x) <= q { HeavyElements(p, members, q, x); }
      AllOver(p, h, q);
      NoneOver(p, l[..r - |h|], q);
    }
  }

  lemma ReorderedBalance(z: seq<Id>, a: seq<Id>, b: seq<Id>)
    requires BalancedMap(z, a) && a != [] && b != [] && forall x :: x in a <==> x in b
    ensures BalancedMap(z, b)
  {
    forall i, j | 0 <= i < |b| && 0 <= j < |b| ensures CountIn(z, |z|, b[i]) <= CountIn(z, |z|, b[j]) + 1 {
      assert b[i] in b && b[j] in b;
      var i' :| 0 <= i' < |a| && a[i'] == b[i];
      var j' :| 0 <= j' < |a| && a[j'] == b[j];
    }
  }

  /** Some balanced map does reach the bound. */
  lemma BalancedBoundReached(p: seq<Id>, members: seq<Id>) returns (z: seq<Id>)
    requires Listed(members) && members != []
    ensures |z| == |p| && BalancedMap(z, members)
    ensures var q, r := |p| / |members|, |p| % |members|;
            Churn(p, z) == |p| - (BaseSum(p, members, q) + Least(r, Over(p, members, q)))
  {
    var q, r := |p| / |members|, |p| % |members|;
    var front := HeavyFirst(p, members, q);
    HeavyFirstListed(p, members, q);
    z := Rebalanced(p, front);
    RebalancedSettles(p, front);
    SettledIsSound(z, front);
    ReorderedBalance(z, front, members);
    ComputedChurn(p, front);
    HeavySums(p, members, q);
    HeavyUpFront(p, members, q, r);
  }

  // ----- The claim -----

  /** No balanced map at all changes fewer owners than the computed one. */
  ghost predicate LeastOfAllBalanced(p: seq<Id>, members: seq<Id>) {
    forall z :: |z| == |p| && BalancedMap(z, members) ==> Churn(p, Rebalanced(p, members)) <= Churn(p, z)
  }

  /** Among the first n % m members, who get one bucket more, there are as many over-full ones as there can be. */
  predicate OverFullComeFirst(p: seq<Id>, members: seq<Id>)
    requires members != []
  {
    var q, r := |p| / |members|, |p| % |members|;
    Over(p, members[..r], q) == Least(r, Over(p, members, q))
  }

  /** The computed map has minimum churn among all balanced maps exactly when the over-full members come first. */
  lemma LeastOfAllBalancedExactly(p: seq<Id>, members: seq<Id>)
    requires Listed(members) && members != []
    ensures LeastOfAllBalanced(p, members) <==> OverFullComeFirst(p, members)
  {
    ComputedChurn(p, members);
    if OverFullComeFirst(p, members) {
      forall z | |z| == |p| && BalancedMap(z, members)
        ensures Churn(p, Rebalanced(p, members)) <= Churn(p, z)
      {
        BalancedChurnBound(p, z, members);
      }
    } else {
      var q, r := |p| / |members|, |p| % |members|;
      var z := BalancedBoundReached(p, members);
      assert members == members[..r] + members[r..];
      OverAppend(p, members[..r], members[r..], q);
    }
  }

  lemma OldMapCounts()
    ensures var p: seq<Id> := [2, 2, 1]; CountIn(p, 3, 2) == 2 && CountIn(p, 3, 1) == 1
  {
  }

  lemma OldMapBalanced()
    ensures var p, members: seq<Id> := [2, 2, 1], [1, 2]; BalancedMap(p, members) && !OverFullComeFirst(p, members)
  {
    hide CountIn;
    var p, members: seq<Id> := [2, 2, 1], [1, 2];
    OldMapCounts();
    assert members[..1] == [1] && members[..1][..0] == [];
    assert Over(p, [1], 1) == 0 && Over(p, members, 1) == 1;
    assert |p| / |members| == 1 && |p| % |members| == 1;
  }

  /** Members 1 and 2 and the old map 221: the old map is balanced already, yet a bucket is moved. */
  lemma BalancedMapCanMove()
    ensures var p, members: seq<Id> := [2, 2, 1], [1, 2];
            BalancedMap(p, members) && Churn(p, Rebalanced(p, members)) > 0 && !LeastOfAllBalanced(p, members)
  {
    hide Rebalanced, Churn, BalancedMap, OverFullComeFirst;
    var p, members: seq<Id> := [2, 2, 1], [1, 2];
    OldMapBalanced();
    LeastOfAllBalancedExactly(p, members);
    var z :| |z| == |p| && BalancedMap(z, members) && Churn(p, z) < Churn(p, Rebalanced(p, members));
  }
}

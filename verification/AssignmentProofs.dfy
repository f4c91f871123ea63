/** What the rebalance guarantees: exact shares, minimum churn, the exact extent of the tie-break claim, and what
    happens when members come and go. */
module AssignmentProofs {
  import opened Prelude
  import opened Assignment

  /** The members an assignment is computed for: distinct and not nil. */
  ghost predicate Listed(members: seq<Id>) {
    Distinct(members) && NIL !in members
  }

  /** A complete map that gives every member exactly its canonical share. */
  ghost predicate HasShares(q: seq<Id>, members: seq<Id>) {
    && |members| > 0
    && (forall b :: 0 <= b < |q| ==> q[b] in members)
    && (forall i :: 0 <= i < |members| ==> CountIn(q, |q|, members[i]) == Share(|q|, |members|, i))
  }

  /** The map a group settles on: canonical shares, or no owner at all when nobody is active. */
  ghost predicate Settled(q: seq<Id>, members: seq<Id>) {
    if members == [] then forall b :: 0 <= b < |q| ==> q[b] == NIL else HasShares(q, members)
  }

  lemma ListedIndex(members: seq<Id>, i: nat)
    requires Listed(members) && i < |members|
    ensures IndexOf(members, members[i]) == i && members[i] != NIL
  {
    IndexOfAt(members, members[i], i);
  }

  // ----- Exact shares -----

  function Clamp(x: int, low: int, high: int): int {
    if x <= low then 0 else if x >= high then high - low else x - low
  }

  /** Bucket b ends up with member i when it is kept by i, or when it is free and its rank falls in i's block. */
  lemma OwnerOfBucket(p: seq<Id>, members: seq<Id>, i: nat, b: nat)
    requires Listed(members) && i < |members| && b < |p|
    ensures NewOwner(p, members, b) == members[i] <==>
            if Keeps(p, members, b) then IndexOf(members, p[b]) == i
            else DeficitSum(p, members, i) <= FreeBefore(p, members, b) < DeficitSum(p, members, i + 1)
  {
    ListedIndex(members, i);
    if !Keeps(p, members, b) {
      FreeBucketSlot(p, members, b);
      var s := Slot(p, members, FreeBefore(p, members, b), 0);
      if s != i { BlocksDisjoint(p, members, s, i); }
    }
  }

  lemma BlocksDisjoint(p: seq<Id>, members: seq<Id>, s: nat, i: nat)
    requires s < |members| && i < |members| && s != i
    ensures DeficitSum(p, members, s + 1) <= DeficitSum(p, members, i) ||
            DeficitSum(p, members, i + 1) <= DeficitSum(p, members, s)
  {
    if s < i { DeficitSumMonotone(p, members, s + 1, i); } else { DeficitSumMonotone(p, members, i + 1, s); }
  }

  /** What member i owns among the first n buckets: what it kept plus its part of the free buckets handed out. */
  lemma {:induction false} OwnedPrefix(p: seq<Id>, members: seq<Id>, i: nat, n: nat)
    requires Listed(members) && i < |members| && n <= |p|
    ensures CountIn(Rebalanced(p, members), n, members[i]) ==
            KeptOf(p, members, i, n) +
            Clamp(FreeBefore(p, members, n), DeficitSum(p, members, i), DeficitSum(p, members, i + 1))
  {
    if n > 0 {
      OwnedPrefix(p, members, i, n - 1);
      OwnerOfBucket(p, members, i, n - 1);
    }
    DeficitSumMonotone(p, members, i, i + 1);
  }

  /** Every member ends with exactly its canonical share and every bucket has a listed owner. */
  lemma RebalancedHasShares(p: seq<Id>, members: seq<Id>)
    requires Listed(members) && |members| > 0
    ensures HasShares(Rebalanced(p, members), members)
  {
    var r := Rebalanced(p, members);
    forall i | 0 <= i < |members| ensures CountIn(r, |r|, members[i]) == Share(|r|, |members|, i) {
      OwnedPrefix(p, members, i, |p|);
      DeficitsMatchFree(p, members);
      DeficitSumMonotone(p, members, i + 1, |members|);
      DeficitStep(p, members, i);
    }
    forall b | 0 <= b < |r| ensures r[b] in members {
      if Keeps(p, members, b) { IndexOfFirst(members, p[b]); } else { FreeBucketSlot(p, members, b); }
    }
  }

  /** Whatever the old map was, the new one is settled for the listed members. */
  lemma RebalancedSettles(p: seq<Id>, members: seq<Id>)
    requires Listed(members)
    ensures Settled(Rebalanced(p, members), members)
  {
    if members == [] { NothingToFill(p, members); } else { RebalancedHasShares(p, members); }
  }

  lemma {:induction false} NothingKept(p: seq<Id>, members: seq<Id>, i: nat, n: nat)
    requires n <= |p| && forall b :: 0 <= b < |p| ==> p[b] == NIL
    ensures KeptOf(p, members, i, n) == 0 && FreeBefore(p, members, n) == n
  {
    if n > 0 { NothingKept(p, members, i, n - 1); }
  }

  lemma {:induction false} NothingKeptAtAll(p: seq<Id>, members: seq<Id>, i: nat)
    requires forall b :: 0 <= b < |p| ==> p[b] == NIL
    ensures KeptSum(p, members, i, |p|) == 0
  {
    if i > 0 {
      NothingKeptAtAll(p, members, i - 1);
      NothingKept(p, members, i - 1, |p|);
    }
  }

  /** A first map is laid out in blocks: member i gets the buckets behind those of the members before it. */
  lemma InitialMapIsInBlocks(count: nat, members: seq<Id>, i: nat, b: nat)
    requires Listed(members) && i < |members| && b < count
    ensures Rebalanced(seq(count, _ => NIL), members)[b] == members[i] <==>
            ShareSum(count, |members|, i) <= b < ShareSum(count, |members|, i + 1)
  {
    var p: seq<Id> := seq(count, _ => NIL);
    NothingKept(p, members, i, b);
    NothingKeptAtAll(p, members, i);
    NothingKeptAtAll(p, members, i + 1);
    OwnerOfBucket(p, members, i, b);
  }

  /** With at least as many buckets as members, nobody is left without a bucket. */
  lemma EveryoneOwnsABucket(q: seq<Id>, members: seq<Id>, i: nat)
    requires HasShares(q, members) && i < |members| <= |q|
    ensures CountIn(q, |q|, members[i]) >= 1
  {
  }

  /** A map in canonical shares passes the structural check. */
  lemma SettledIsSound(q: seq<Id>, members: seq<Id>)
    requires Listed(members) && Settled(q, members)
    ensures OwnedBy(q, members) && WithinOne(q, members)
  {
    forall i, j | 0 <= i < |members| && 0 <= j < |members|
      ensures CountIn(q, |q|, members[i]) <= CountIn(q, |q|, members[j]) + 1
    {
      ShareClosed(|q|, |members|, i);
      ShareClosed(|q|, |members|, j);
    }
  }

  // ----- A settled map stays put -----

  lemma SettledKeepsAll(p: seq<Id>, members: seq<Id>, b: nat)
    requires Listed(members) && HasShares(p, members) && b < |p|
    ensures Keeps(p, members, b)
  {
    IndexOfFirst(members, p[b]);
    var i := IndexOf(members, p[b]);
    CountMonotone(p, b + 1, |p|, p[b]);
    assert CountIn(p, |p|, members[i]) == Share(|p|, |members|, i);
  }

  /** Rebalancing a settled map for the same members moves nothing. */
  lemma SettledIsFixed(p: seq<Id>, members: seq<Id>)
    requires Listed(members) && Settled(p, members)
    ensures Rebalanced(p, members) == p
  {
    forall b | 0 <= b < |p| ensures NewOwner(p, members, b) == p[b] {
      if members == [] { NothingToFill(p, members); } else { SettledKeepsAll(p, members, b); }
    }
  }

  /** The owner vector tells who is active: two member lists settled on one map have the same members. */
  lemma MapDeterminesMembers(q: seq<Id>, some: seq<Id>, others: seq<Id>)
    requires Listed(some) && Listed(others) && Settled(q, some) && Settled(q, others)
    requires 0 < |q| && |some| <= |q| && |others| <= |q|
    ensures forall x :: x in some <==> x in others
  {
    forall x | x in some ensures x in others { OwnerIn(q, some, others, x); }
    forall x | x in others ensures x in some { OwnerIn(q, others, some, x); }
  }

  lemma OwnerIn(q: seq<Id>, some: seq<Id>, others: seq<Id>, x: Id)
    requires Listed(some) && Listed(others) && Settled(q, some) && Settled(q, others)
    requires |some| <= |q| && x in some
    ensures x in others
  {
    IndexOfFirst(some, x);
    EveryoneOwnsABucket(q, some, IndexOf(some, x));
    var b := Occurrence(q, |q|, x);
    assert q[b] != NIL;
  }

  lemma {:induction false} Occurrence(q: seq<Id>, n: nat, x: Id) returns (b: nat)
    requires n <= |q| && CountIn(q, n, x) > 0
    ensures b < n && q[b] == x
  {
    if q[n - 1] == x { b := n - 1; } else { b := Occurrence(q, n - 1, x); }
  }

  // ----- Minimum churn -----

  lemma {:induction false} KeptSumIsRetainable(p: seq<Id>, members: seq<Id>, i: nat)
    requires Listed(members) && i <= |members|
    ensures KeptSum(p, members, i, |p|) == RetainableSum(p, members, i)
  {
    if i > 0 {
      KeptSumIsRetainable(p, members, i - 1);
      ListedIndex(members, i - 1);
      KeptOfIsMinimum(p, members, i - 1, |p|);
    }
  }

  /** A free bucket never returns to the owner it was taken from. */
  lemma FreeBucketMoves(p: seq<Id>, members: seq<Id>, b: nat)
    requires Listed(members) && |members| > 0 && b < |p| && !Keeps(p, members, b)
    ensures NewOwner(p, members, b) != p[b]
  {
    FreeBucketSlot(p, members, b);
    var s := Slot(p, members, FreeBefore(p, members, b), 0);
    ListedIndex(members, s);
    DeficitStep(p, members, s);
    KeptOfIsMinimum(p, members, s, |p|);
    CountMonotone(p, b, |p|, p[b]);
  }

  lemma {:induction false} ChangedIsFree(p: seq<Id>, members: seq<Id>, n: nat)
    requires Listed(members) && |members| > 0 && n <= |p|
    ensures Changed(p, Rebalanced(p, members), n) == FreeBefore(p, members, n)
  {
    if n > 0 {
      ChangedIsFree(p, members, n - 1);
      if !Keeps(p, members, n - 1) { FreeBucketMoves(p, members, n - 1); }
    }
  }

  /** The churn of the computation is the closed form that the oracle derives on its own. */
  lemma ChurnIsClosedForm(p: seq<Id>, members: seq<Id>)
    requires Listed(members) && |members| > 0
    ensures Churn(p, Rebalanced(p, members)) == |p| - RetainableSum(p, members, |members|)
  {
    ChangedIsFree(p, members, |p|);
    KeptOrFree(p, members, |p|);
    KeptSumIsRetainable(p, members, |members|);
  }

  /** How many of the first n buckets two maps both give to x. */
  function Agree(p: seq<Id>, q: seq<Id>, x: Id, n: nat): nat
    requires |p| == |q| && n <= |p|
  {
    if n == 0 then 0 else Agree(p, q, x, n - 1) + (if p[n - 1] == x && q[n - 1] == x then 1 else 0)
  }

  function AgreeSum(p: seq<Id>, q: seq<Id>, members: seq<Id>, i: nat, n: nat): nat
    requires |p| == |q| && n <= |p| && i <= |members|
  {
    if i == 0 then 0 else AgreeSum(p, q, members, i - 1, n) + Agree(p, q, members[i - 1], n)
  }

  lemma {:induction false} AgreeBound(p: seq<Id>, q: seq<Id>, x: Id, n: nat)
    requires |p| == |q| && n <= |p|
    ensures Agree(p, q, x, n) <= CountIn(p, n, x)
    ensures Agree(p, q, x, n) <= CountIn(q, n, x)
    ensures Agree(p, q, x, n) == CountIn(p, n, x) ==> forall b :: 0 <= b < n && p[b] == x ==> q[b] == x
    ensures Agree(p, q, x, n) == CountIn(q, n, x) ==> forall b :: 0 <= b < n && q[b] == x ==> p[b] == x
  {
    if n > 0 { AgreeBound(p, q, x, n - 1); }
  }

  lemma {:induction false} AgreeSumStep(p: seq<Id>, q: seq<Id>, members: seq<Id>, i: nat, n: nat)
    requires Listed(members) && |p| == |q| && n < |p| && i <= |members|
    ensures AgreeSum(p, q, members, i, n + 1) ==
            AgreeSum(p, q, members, i, n) + (if p[n] == q[n] && IndexOf(members, q[n]) < i then 1 else 0)
  {
    IndexOfFirst(members, q[n]);
    if i > 0 {
      AgreeSumStep(p, q, members, i - 1, n);
      ListedIndex(members, i - 1);
    }
  }

  lemma {:induction false} AgreeSumEmpty(p: seq<Id>, q: seq<Id>, members: seq<Id>, i: nat)
    requires |p| == |q| && i <= |members|
    ensures AgreeSum(p, q, members, i, 0) == 0
  {
    if i > 0 { AgreeSumEmpty(p, q, members, i - 1); }
  }

  lemma {:induction false} AgreeOrChanged(p: seq<Id>, q: seq<Id>, members: seq<Id>, n: nat)
    requires Listed(members) && |p| == |q| && n <= |p|
    requires forall b :: 0 <= b < |q| ==> q[b] in members
    ensures AgreeSum(p, q, members, |members|, n) + Changed(p, q, n) == n
  {
    if n == 0 {
      AgreeSumEmpty(p, q, members, |members|);
    } else {
      AgreeOrChanged(p, q, members, n - 1);
      AgreeSumStep(p, q, members, |members|, n - 1);
      IndexOfFirst(members, q[n - 1]);
    }
  }

  /** Member by member nobody can retain more than the closed form, and only full retention reaches it. */
  lemma {:induction false} AgreeSumBound(p: seq<Id>, q: seq<Id>, members: seq<Id>, i: nat)
    requires Listed(members) && |p| == |q| && HasShares(q, members) && i <= |members|
    ensures AgreeSum(p, q, members, i, |p|) <= RetainableSum(p, members, i)
    ensures AgreeSum(p, q, members, i, |p|) == RetainableSum(p, members, i) ==>
              forall j :: 0 <= j < i ==>
                var owned, share := CountIn(p, |p|, members[j]), Share(|p|, |members|, j);
                Agree(p, q, members[j], |p|) == if owned < share then owned else share
  {
    if i > 0 {
      AgreeSumBound(p, q, members, i - 1);
      AgreeBound(p, q, members[i - 1], |p|);
    }
  }

  /** No map with the canonical shares changes fewer owners. */
  lemma ChurnIsMinimal(p: seq<Id>, members: seq<Id>, q: seq<Id>)
    requires Listed(members) && |q| == |p| && HasShares(q, members)
    ensures Churn(p, q) >= Churn(p, Rebalanced(p, members))
  {
    ChurnIsClosedForm(p, members);
    AgreeOrChanged(p, q, members, |p|);
    AgreeSumBound(p, q, members, |members|);
  }

  // ----- The tie-break -----

  /** q precedes r: at the first bucket where they differ, q names a member earlier in canonical order. */
  ghost predicate LexBefore(q: seq<Id>, r: seq<Id>, members: seq<Id>) {
    |q| == |r| &&
    exists b :: 0 <= b < |q| && (forall c :: 0 <= c < b ==> q[c] == r[c]) &&
                IndexOf(members, q[b]) < IndexOf(members, r[b])
  }

  /** A map that gives every member its share and moves no more buckets than necessary. */
  ghost predicate MinimumChurnMap(p: seq<Id>, members: seq<Id>, q: seq<Id>) {
    |q| == |p| && HasShares(q, members) && Churn(p, q) == Churn(p, Rebalanced(p, members))
  }

  /** The documented claim: the computed map precedes every other minimum-churn map. */
  ghost predicate IsLexLeast(p: seq<Id>, members: seq<Id>) {
    forall q :: MinimumChurnMap(p, members, q) && q != Rebalanced(p, members) ==>
      LexBefore(Rebalanced(p, members), q, members)
  }

  /** What the claim needs of the old map and the member list: when a member owned more than its share, every free
      bucket owed to an earlier member lies before the first bucket that member keeps. */
  ghost predicate NoOverQuotaMemberInTheWay(p: seq<Id>, members: seq<Id>) {
    forall b :: 0 <= b < |p| && Keeps(p, members, b) ==>
      var i := IndexOf(members, p[b]);
      CountIn(p, |p|, p[b]) > Share(|p|, |members|, i) && |members| > 0 ==>
        FreeBefore(p, members, b) >= DeficitSum(p, members, i)
  }

  /** If q has x at b where r does not, and no more x than r overall, r has an x later that q lacks. */
  lemma LaterOccurrence(q: seq<Id>, r: seq<Id>, b: nat, x: Id) returns (c: nat)
    requires |q| == |r| && b < |q| && (forall d :: 0 <= d < b ==> q[d] == r[d])
    requires q[b] == x != r[b] && CountIn(q, |q|, x) <= CountIn(r, |r|, x)
    ensures b < c < |q| && r[c] == x != q[c]
  {
    if forall d :: b < d < |q| && r[d] == x ==> q[d] == x {
      MoreOccurrences(q, r, b, x, |q|);
      assert false;
    }
    c :| b < c < |q| && r[c] == x != q[c];
  }

  lemma {:induction false} MoreOccurrences(q: seq<Id>, r: seq<Id>, b: nat, x: Id, n: nat)
    requires |q| == |r| && b < |q| && n <= |q| && (forall d :: 0 <= d < b ==> q[d] == r[d])
    requires q[b] == x != r[b] && (forall d :: b < d < |q| && r[d] == x ==> q[d] == x)
    ensures CountIn(q, n, x) >= CountIn(r, n, x) + (if b < n then 1 else 0)
  {
    if n > 0 { MoreOccurrences(q, r, b, x, n - 1); }
  }

  lemma FirstDifference(q: seq<Id>, r: seq<Id>) returns (b: nat)
    requires |q| == |r| && q != r
    ensures b < |q| && q[b] != r[b] && forall c :: 0 <= c < b ==> q[c] == r[c]
  {
    b := 0;
    while q[b] == r[b]
      invariant b < |q| && forall c :: 0 <= c < b ==> q[c] == r[c]
      decreases |q| - b
    {
      assert b + 1 < |q| || q == r;
      b := b + 1;
    }
  }

  /** Once the deficits of the first j members are served, a later bucket of member j is one it kept. */
  lemma ServedMemberKept(p: seq<Id>, members: seq<Id>, b: nat, j: nat, c: nat)
    requires Listed(members) && j < |members| && b <= c < |p|
    requires FreeBefore(p, members, b) >= DeficitSum(p, members, j + 1)
    requires Rebalanced(p, members)[c] == members[j]
    ensures Keeps(p, members, c) && p[c] == members[j]
  {
    ListedIndex(members, j);
    if !Keeps(p, members, c) {
      FreeMonotone(p, members, b, c);
      FreeBucketSlot(p, members, c);
      var s := Slot(p, members, FreeBefore(p, members, c), 0);
      ListedIndex(members, s);
    }
  }

  /** Among all maps with the shares that keep the same buckets, the computed one comes first. */
  lemma LeastAmongSameRetention(p: seq<Id>, members: seq<Id>, q: seq<Id>)
    requires Listed(members) && |q| == |p| && HasShares(q, members) && q != Rebalanced(p, members)
    requires forall b :: 0 <= b < |p| && Keeps(p, members, b) ==> q[b] == p[b]
    ensures LexBefore(Rebalanced(p, members), q, members)
  {
    var r := Rebalanced(p, members);
    RebalancedHasShares(p, members);
    var b := FirstDifference(q, r);
    IndexOfFirst(members, q[b]);
    var j := IndexOf(members, q[b]);
    assert !Keeps(p, members, b);
    FreeBucketSlot(p, members, b);
    var i := Slot(p, members, FreeBefore(p, members, b), 0);
    ListedIndex(members, i);
    if j < i {
      DeficitSumMonotone(p, members, j + 1, i);
      var c := LaterOccurrence(q, r, b, q[b]);
      ServedMemberKept(p, members, b, j, c);
      assert false;
    }
    assert IndexOf(members, r[b]) < IndexOf(members, q[b]);
  }

  /** A minimum-churn map retains all of what a member within its quota owned, and gives a member at or over its
      quota nothing but its own old buckets. */
  lemma FullRetention(p: seq<Id>, members: seq<Id>, q: seq<Id>, i: nat)
    requires Listed(members) && MinimumChurnMap(p, members, q) && i < |members|
    ensures CountIn(p, |p|, members[i]) <= Share(|p|, |members|, i) ==>
              forall b :: 0 <= b < |p| && p[b] == members[i] ==> q[b] == members[i]
    ensures CountIn(p, |p|, members[i]) >= Share(|p|, |members|, i) ==>
              forall b :: 0 <= b < |p| && q[b] == members[i] ==> p[b] == members[i]
  {
    ChurnIsClosedForm(p, members);
    AgreeOrChanged(p, q, members, |p|);
    AgreeSumBound(p, q, members, |members|);
    AgreeBound(p, q, members[i], |p|);
  }

  lemma ConditionSuffices(p: seq<Id>, members: seq<Id>, q: seq<Id>)
    requires Listed(members) && NoOverQuotaMemberInTheWay(p, members)
    requires MinimumChurnMap(p, members, q) && q != Rebalanced(p, members)
    ensures LexBefore(Rebalanced(p, members), q, members)
  {
    var r := Rebalanced(p, members);
    RebalancedHasShares(p, members);
    var b := FirstDifference(q, r);
    IndexOfFirst(members, q[b]);
    IndexOfFirst(members, r[b]);
    var j, i := IndexOf(members, q[b]), IndexOf(members, r[b]);
    if j < i {
      EarlierDeficitsServed(p, members, q, b, i);
      DeficitSumMonotone(p, members, j + 1, i);
      NoEarlierChoice(p, members, q, b, j);
      assert false;
    }
  }

  /** Where a minimum-churn map first differs, every deficit of an earlier member has been served. */
  lemma EarlierDeficitsServed(p: seq<Id>, members: seq<Id>, q: seq<Id>, b: nat, i: nat)
    requires Listed(members) && NoOverQuotaMemberInTheWay(p, members) && MinimumChurnMap(p, members, q)
    requires b < |p| && i < |members| && q[b] != NewOwner(p, members, b) == members[i]
    ensures FreeBefore(p, members, b) >= DeficitSum(p, members, i)
  {
    ListedIndex(members, i);
    OwnerOfBucket(p, members, i, b);
    if Keeps(p, members, b) { FullRetention(p, members, q, i); }
  }

  lemma NoEarlierChoice(p: seq<Id>, members: seq<Id>, q: seq<Id>, b: nat, j: nat)
    requires Listed(members) && MinimumChurnMap(p, members, q) && b < |p| && j < |members|
    requires forall c :: 0 <= c < b ==> q[c] == Rebalanced(p, members)[c]
    requires FreeBefore(p, members, b) >= DeficitSum(p, members, j + 1)
    ensures q[b] == members[j] ==> Rebalanced(p, members)[b] == q[b]
  {
    var r := Rebalanced(p, members);
    if q[b] == members[j] != r[b] {
      RebalancedHasShares(p, members);
      var c := LaterOccurrence(q, r, b, members[j]);
      ServedMemberKept(p, members, b, j, c);
      FullRetention(p, members, q, j);
      KeptBelowLost(p, members, b, c, j);
      assert false;
    }
  }

  /** A member keeps its lowest buckets: below a kept bucket of it none is lost. */
  lemma KeptBelowLost(p: seq<Id>, members: seq<Id>, b: nat, c: nat, j: nat)
    requires Listed(members) && b <= c < |p| && j < |members| && p[b] == p[c] == members[j] && Keeps(p, members, c)
    ensures Keeps(p, members, b)
  {
    ListedIndex(members, j);
    CountMonotone(p, b, c, members[j]);
  }

  lemma {:induction false} CountUpdate(s: seq<Id>, i: nat, v: Id, n: nat, x: Id)
    requires i < |s| && n <= |s|
    ensures CountIn(s[i := v], n, x) ==
            CountIn(s, n, x) + (if i < n then (if v == x then 1 else 0) - (if s[i] == x then 1 else 0) else 0)
  {
    if n > 0 { CountUpdate(s, i, v, n - 1, x); }
  }

  lemma {:induction false} ChangedUpdate(p: seq<Id>, s: seq<Id>, i: nat, v: Id, n: nat)
    requires i < |s| == |p| && n <= |s|
    ensures Changed(p, s[i := v], n) ==
            Changed(p, s, n) + (if i < n then (if v != p[i] then 1 else 0) - (if s[i] != p[i] then 1 else 0) else 0)
  {
    if n > 0 { ChangedUpdate(p, s, i, v, n - 1); }
  }

  lemma FirstFreeFrom(p: seq<Id>, members: seq<Id>, b: nat) returns (d: nat)
    requires b <= |p| && FreeBefore(p, members, b) < FreeBefore(p, members, |p|)
    ensures b <= d < |p| && !Keeps(p, members, d) && FreeBefore(p, members, d) == FreeBefore(p, members, b)
    ensures forall e :: b <= e < d ==> Keeps(p, members, e)
  {
    d := b;
    while Keeps(p, members, d)
      invariant b <= d < |p| && FreeBefore(p, members, d) == FreeBefore(p, members, b)
      invariant forall e :: b <= e < d ==> Keeps(p, members, e)
      decreases |p| - d
    {
      d := d + 1;
    }
  }

  /** An over-quota member has a bucket that it loses, above every bucket it keeps. */
  lemma LostBucket(p: seq<Id>, members: seq<Id>, b: nat) returns (c: nat)
    requires Listed(members) && b < |p| && Keeps(p, members, b)
    requires CountIn(p, |p|, p[b]) > Share(|p|, |members|, IndexOf(members, p[b]))
    ensures b < c < |p| && p[c] == p[b] && !Keeps(p, members, c)
  {
    var x, n := p[b], |p|;
    var share := Share(|p|, |members|, IndexOf(members, x));
    while p[n - 1] != x || CountIn(p, n - 1, x) < share
      decreases n
      invariant 0 < n <= |p| && CountIn(p, n, x) > share
    {
      n := n - 1;
    }
    c := n - 1;
    if c < b { CountMonotone(p, c, b, x); }
  }

  /** Hands the free bucket d to b, the new owner of the lost bucket c to d, and c back to its old owner. */
  function Rotated(r: seq<Id>, b: nat, d: nat, c: nat, x: Id): seq<Id>
    requires b < d <= c < |r|
  {
    r[b := r[d]][d := r[c]][c := x]
  }

  lemma RotationKeepsShares(r: seq<Id>, b: nat, d: nat, c: nat, members: seq<Id>)
    requires b < d <= c < |r| && HasShares(r, members)
    ensures HasShares(Rotated(r, b, d, c, r[b]), members)
  {
    var q := Rotated(r, b, d, c, r[b]);
    forall i | 0 <= i < |members| ensures CountIn(q, |q|, members[i]) == Share(|q|, |members|, i) {
      CountUpdate(r, b, r[d], |r|, members[i]);
      CountUpdate(r[b := r[d]], d, r[c], |r|, members[i]);
      CountUpdate(r[b := r[d]][d := r[c]], c, r[b], |r|, members[i]);
    }
  }

  lemma RotationKeepsChurn(p: seq<Id>, r: seq<Id>, b: nat, d: nat, c: nat)
    requires |p| == |r| && b < d <= c < |r| && r[b] == p[b] == p[c]
    requires r[d] != p[d] && r[c] != p[c]
    ensures Churn(p, Rotated(r, b, d, c, r[b])) <= Churn(p, r)
  {
    ChangedUpdate(p, r, b, r[d], |r|);
    ChangedUpdate(p, r[b := r[d]], d, r[c], |r|);
    ChangedUpdate(p, r[b := r[d]][d := r[c]], c, r[b], |r|);
  }

  lemma LexAntisymmetric(q: seq<Id>, r: seq<Id>, members: seq<Id>)
    requires LexBefore(q, r, members)
    ensures !LexBefore(r, q, members) && q != r
  {
  }

  /** When the condition fails at bucket b, rotating three owners gives an earlier map with the same churn. */
  lemma ConditionNeeded(p: seq<Id>, members: seq<Id>, b: nat) returns (q: seq<Id>)
    requires Listed(members) && |members| > 0 && b < |p| && Keeps(p, members, b)
    requires CountIn(p, |p|, p[b]) > Share(|p|, |members|, IndexOf(members, p[b]))
    requires FreeBefore(p, members, b) < DeficitSum(p, members, IndexOf(members, p[b]))
    ensures MinimumChurnMap(p, members, q) && LexBefore(q, Rebalanced(p, members), members)
  {
    var r := Rebalanced(p, members);
    var d, j := EarlierFree(p, members, b);
    var c := LostBucket(p, members, b);
    if c < d { assert false; }
    FreeBucketMoves(p, members, d);
    FreeBucketMoves(p, members, c);
    q := Rotated(r, b, d, c, r[b]);
    RebalancedHasShares(p, members);
    RotationKeepsShares(r, b, d, c, members);
    RotationKeepsChurn(p, r, b, d, c);
    ChurnIsMinimal(p, members, q);
    assert forall e :: 0 <= e < b ==> q[e] == r[e];
    assert q[b] == members[j];
  }

  /** The first free bucket after b goes to a member before the owner of b. */
  lemma EarlierFree(p: seq<Id>, members: seq<Id>, b: nat) returns (d: nat, j: nat)
    requires Listed(members) && |members| > 0 && b < |p| && Keeps(p, members, b)
    requires FreeBefore(p, members, b) < DeficitSum(p, members, IndexOf(members, p[b]))
    ensures b < d < |p| && !Keeps(p, members, d)
    ensures forall e :: b <= e < d ==> Keeps(p, members, e)
    ensures j < IndexOf(members, p[b]) && NewOwner(p, members, d) == members[j] && IndexOf(members, members[j]) == j
  {
    var i := IndexOf(members, p[b]);
    DeficitsMatchFree(p, members);
    DeficitSumMonotone(p, members, i, |members|);
    d := FirstFreeFrom(p, members, b);
    FreeBucketSlot(p, members, d);
    j := Slot(p, members, FreeBefore(p, members, d), 0);
    ListedIndex(members, j);
    if i <= j { DeficitSumMonotone(p, members, i, j); }
  }

  /** The tie-break claim holds exactly when no over-quota member stands in the way. */
  lemma LexLeastExactly(p: seq<Id>, members: seq<Id>)
    requires Listed(members) && |members| > 0
    ensures IsLexLeast(p, members) <==> NoOverQuotaMemberInTheWay(p, members)
  {
    if NoOverQuotaMemberInTheWay(p, members) {
      forall q | MinimumChurnMap(p, members, q) && q != Rebalanced(p, members)
        ensures LexBefore(Rebalanced(p, members), q, members)
      {
        ConditionSuffices(p, members, q);
      }
    } else {
      var b :| 0 <= b < |p| && Keeps(p, members, b) &&
        CountIn(p, |p|, p[b]) > Share(|p|, |members|, IndexOf(members, p[b])) &&
        FreeBefore(p, members, b) < DeficitSum(p, members, IndexOf(members, p[b]));
      var q := ConditionNeeded(p, members, b);
      LexAntisymmetric(q, Rebalanced(p, members), members);
    }
  }

  /** In particular the claim holds whenever no surviving member owned more than its share. */
  lemma LexLeastWithinQuota(p: seq<Id>, members: seq<Id>)
    requires Listed(members) && |members| > 0
    requires forall i :: 0 <= i < |members| ==> CountIn(p, |p|, members[i]) <= Share(|p|, |members|, i)
    ensures IsLexLeast(p, members)
  {
    LexLeastExactly(p, members);
  }

  /** The claim fails for members 1 before 2 and the old map 2222: 2211 is computed, 1122 has the same churn. */
  lemma LexLeastCanFail()
    ensures !IsLexLeast([2, 2, 2, 2], [1, 2])
  {
    var p: seq<Id>, members: seq<Id> := [2, 2, 2, 2], [1, 2];
    assert IndexOf(members, 2) == 1 by { IndexOfAt(members, 2, 1); }
    assert CountIn(p, 1, 2) == 1 && CountIn(p, 2, 2) == 2 && CountIn(p, 3, 2) == 3 && CountIn(p, 4, 2) == 4;
    assert Keeps(p, members, 0) && FreeBefore(p, members, 0) == 0;
    assert KeptOf(p, members, 0, 4) == 0 by { KeptOfIsMinimum(p, members, 0, 4); NoOnes(p, 4); ListedIndex(members, 0); }
    assert DeficitSum(p, members, 1) == 2;
    LexLeastExactly(p, members);
  }

  lemma {:induction false} NoOnes(p: seq<Id>, n: nat)
    requires n <= |p| && forall b :: 0 <= b < |p| ==> p[b] == 2
    ensures CountIn(p, n, 1) == 0
  {
    if n > 0 { NoOnes(p, n - 1); }
  }

  // ----- Members leave and join -----

  /** The listed members that are also in `stay`, in the same order. */
  function Restrict(members: seq<Id>, stay: set<Id>): (r: seq<Id>)
    ensures |r| <= |members|
  {
    if members == [] then []
    else (if members[0] in stay then [members[0]] else []) + Restrict(members[1..], stay)
  }

  lemma {:induction false} RestrictMembers(members: seq<Id>, stay: set<Id>)
    ensures forall x :: x in Restrict(members, stay) <==> x in members && x in stay
  {
    if members != [] {
      RestrictMembers(members[1..], stay);
      assert members == [members[0]] + members[1..];
    }
  }

  lemma {:induction false} RestrictListed(members: seq<Id>, stay: set<Id>)
    requires Listed(members)
    ensures Listed(Restrict(members, stay))
  {
    RestrictMembers(members, stay);
    if members != [] {
      RestrictListed(members[1..], stay);
      RestrictMembers(members[1..], stay);
    }
  }

  /** Leaving members out only moves the others forward. */
  lemma {:induction false} RestrictIndex(members: seq<Id>, stay: set<Id>, x: Id)
    requires x in stay
    ensures IndexOf(Restrict(members, stay), x) <= IndexOf(members, x)
  {
    if members != [] && members[0] != x {
      RestrictIndex(members[1..], stay, x);
      var rest := Restrict(members[1..], stay);
      if members[0] in stay { assert Restrict(members, stay)[1..] == rest; } else { assert [] + rest == rest; }
    }
  }

  lemma RestrictFacts(members: seq<Id>, stay: set<Id>, x: Id)
    requires Listed(members)
    ensures Listed(Restrict(members, stay))
    ensures x in Restrict(members, stay) <==> x in members && x in stay
    ensures x in stay ==> IndexOf(Restrict(members, stay), x) <= IndexOf(members, x)
  {
    RestrictListed(members, stay);
    RestrictMembers(members, stay);
    if x in stay { RestrictIndex(members, stay, x); }
  }

  /** Removing any set of members from a settled map moves exactly the buckets of the removed members. */
  lemma RemovalMovesOnlyOrphans(p: seq<Id>, members: seq<Id>, stay: set<Id>, b: nat)
    requires Listed(members) && Settled(p, members) && b < |p| && members != []
    ensures Rebalanced(p, Restrict(members, stay))[b] != p[b] <==> p[b] !in stay
  {
    var rest := Restrict(members, stay);
    RestrictFacts(members, stay, p[b]);
    IndexOfFirst(members, p[b]);
    var i := IndexOf(members, p[b]);
    if p[b] in stay {
      IndexOfFirst(rest, p[b]);
      ShareMonotone(|p|, |rest|, IndexOf(rest, p[b]), |members|, i);
      CountMonotone(p, b + 1, |p|, p[b]);
      assert CountIn(p, |p|, members[i]) == Share(|p|, |members|, i);
      assert Keeps(p, rest, b);
    } else {
      RebalancedSettles(p, rest);
      if rest != [] { RestrictMembers(members, stay); }
    }
  }

  /** Adding any set of members to a settled map moves buckets only to the added members. */
  lemma AdditionMovesOnlyToNewcomers(p: seq<Id>, members: seq<Id>, before: set<Id>, b: nat)
    requires Listed(members) && Settled(p, Restrict(members, before)) && b < |p| && members != []
    requires Rebalanced(p, members)[b] != p[b]
    ensures Rebalanced(p, members)[b] in members && Rebalanced(p, members)[b] !in before
  {
    var rest := Restrict(members, before);
    assert !Keeps(p, members, b);
    FreeBucketSlot(p, members, b);
    var s := Slot(p, members, FreeBefore(p, members, b), 0);
    ListedIndex(members, s);
    RestrictFacts(members, before, members[s]);
    if members[s] in before {
      IndexOfFirst(rest, members[s]);
      var i := IndexOf(rest, members[s]);
      ShareMonotone(|p|, |rest|, i, |members|, s);
      assert CountIn(p, |p|, rest[i]) == Share(|p|, |rest|, i);
      KeptOfIsMinimum(p, members, s, |p|);
      DeficitStep(p, members, s);
      assert false;
    }
  }

  // ----- The move list -----

  ghost predicate InRange(moves: seq<BucketMove>, size: nat) {
    forall k :: 0 <= k < |moves| ==> moves[k].bucket < size
  }

  /** Applies moves one after the other. */
  ghost function Replay(p: seq<Id>, moves: seq<BucketMove>): (r: seq<Id>)
    requires InRange(moves, |p|)
    ensures |r| == |p|
  {
    if moves == [] then p
    else
      var k := |moves| - 1;
      Replay(p, moves[..k])[moves[k].bucket := moves[k].to]
  }

  /** The move list names only changed buckets, with their owners, in ascending order. */
  lemma {:induction false} MovesAreChanges(p: seq<Id>, r: seq<Id>, members: seq<Id>, n: nat)
    requires |p| == |r| && n <= |p|
    ensures var m := MovesUpTo(p, r, members, n);
            && |m| == Changed(p, r, n)
            && (forall k :: 0 <= k < |m| ==> m[k].bucket < n)
            && (forall k :: 0 <= k < |m| ==> p[m[k].bucket] != r[m[k].bucket])
            && (forall k :: 0 <= k < |m| ==> m[k].from == p[m[k].bucket] && m[k].to == r[m[k].bucket])
            && (forall k :: 0 <= k < |m| ==> m[k].reason == ReasonFor(p[m[k].bucket], members))
            && (forall j, k :: 0 <= j < k < |m| ==> m[j].bucket < m[k].bucket)
  {
    if n > 0 { MovesAreChanges(p, r, members, n - 1); }
  }

  /** Every changed bucket has its move. */
  lemma {:induction false} MovesAreComplete(p: seq<Id>, r: seq<Id>, members: seq<Id>, n: nat, b: nat)
    requires |p| == |r| && b < n <= |p| && p[b] != r[b]
    ensures BucketMove(b, p[b], r[b], ReasonFor(p[b], members)) in MovesUpTo(p, r, members, n)
  {
    if b < n - 1 { MovesAreComplete(p, r, members, n - 1, b); }
  }

  lemma SpliceStep(p: seq<Id>, r: seq<Id>, n: nat)
    requires 0 < n <= |p| == |r|
    ensures (r[..n - 1] + p[n - 1..])[n - 1 := r[n - 1]] == r[..n] + p[n..]
  {
  }

  lemma ReplayLast(p: seq<Id>, rest: seq<BucketMove>, last: BucketMove)
    requires last.bucket < |p| && InRange(rest, |p|)
    ensures InRange(rest + [last], |p|)
    ensures Replay(p, rest + [last]) == Replay(p, rest)[last.bucket := last.to]
  {
    assert (rest + [last])[..|rest|] == rest;
  }

  lemma MovesInRange(p: seq<Id>, r: seq<Id>, members: seq<Id>, n: nat)
    requires |p| == |r| && n <= |p|
    ensures InRange(MovesUpTo(p, r, members, n), |p|)
  {
    MovesAreChanges(p, r, members, n);
  }

  /** Replaying the moves turns the old map into the new one. */
  lemma {:induction false} MovesReplay(p: seq<Id>, r: seq<Id>, members: seq<Id>, n: nat)
    requires |p| == |r| && n <= |p|
    ensures InRange(MovesUpTo(p, r, members, n), |p|)
    ensures Replay(p, MovesUpTo(p, r, members, n)) == r[..n] + p[n..]
  {
    MovesInRange(p, r, members, n);
    if n == 0 {
      assert r[..0] + p[0..] == p;
    } else {
      MovesReplay(p, r, members, n - 1);
      SpliceStep(p, r, n);
      if p[n - 1] == r[n - 1] {
        assert (r[..n - 1] + p[n - 1..])[n - 1] == p[n - 1];
      } else {
        var last := BucketMove(n - 1, p[n - 1], r[n - 1], ReasonFor(p[n - 1], members));
        ReplayLast(p, MovesUpTo(p, r, members, n - 1), last);
      }
    }
  }
}

/** The rebalance algorithm: canonical shares, the retention and fill passes, the move list.

    The specification is a closed form over the previous owner vector p (already cut or padded to the bucket count):
    bucket b keeps its owner exactly when that owner still has room for it, and the k-th bucket that is not kept goes
    to the member whose block of the running deficit sum holds k. */
module Assignment {
  import opened Prelude

  datatype MoveReason = INITIAL_ASSIGNMENT | OWNER_REMOVED | OWNER_OVER_QUOTA

  datatype BucketMove = BucketMove(bucket: nat, from: Id, to: Id, reason: MoveReason)

  datatype AssignmentDefect =
    | NO_DEFECT | COUNT_MISMATCH | DUPLICATE_MEMBER_INPUT | UNKNOWN_OWNER | UNASSIGNED_BUCKET | UNBALANCED

  // ----- Canonical shares -----

  /** The share of member i when `buckets` buckets are dealt to `members` members, one each per round. */
  function Share(buckets: nat, members: nat, i: nat): nat
    requires members > 0
  {
    if buckets < members then (if i < buckets then 1 else 0) else 1 + Share(buckets - members, members, i)
  }

  /** Dealing in rounds is the program's division: everyone gets the quotient, the first few one more. */
  lemma {:induction false} ShareClosed(buckets: nat, members: nat, i: nat)
    requires members > 0
    ensures Share(buckets, members, i) == buckets / members + (if i < buckets % members then 1 else 0)
  {
    if buckets >= members {
      ShareClosed(buckets - members, members, i);
      OneRound(buckets, members);
    }
  }

  lemma OneRound(buckets: nat, members: nat)
    requires 0 < members <= buckets
    ensures buckets / members == (buckets - members) / members + 1
    ensures buckets % members == (buckets - members) % members
  {
    var q, r := buckets / members, buckets % members;
    var q', r' := (buckets - members) / members, (buckets - members) % members;
    assert buckets == members * q + r && buckets - members == members * q' + r';
    assert members * (q - q' - 1) == r' - r;
    if q - q' - 1 >= 1 { MulMonotone(members, 1, members, q - q' - 1); }
    if q - q' - 1 <= -1 { MulMonotone(members, 1, members, q' + 1 - q); }
  }

  /** What the first i members own together. */
  function ShareSum(buckets: nat, members: nat, i: nat): nat
    requires members > 0
  {
    if i == 0 then 0 else ShareSum(buckets, members, i - 1) + Share(buckets, members, i - 1)
  }

  lemma {:induction false} ShareSumClosed(buckets: nat, members: nat, i: nat)
    requires members > 0 && i <= members
    ensures ShareSum(buckets, members, i) ==
            i * (buckets / members) + (if i < buckets % members then i else buckets % members)
  {
    if i > 0 {
      ShareSumClosed(buckets, members, i - 1);
      ShareClosed(buckets, members, i - 1);
      assert i * (buckets / members) == (i - 1) * (buckets / members) + buckets / members;
    }
  }

  /** The canonical shares use up every bucket and no more. */
  lemma SharesCoverAllBuckets(buckets: nat, members: nat)
    requires members > 0
    ensures ShareSum(buckets, members, members) == buckets
  {
    ShareSumClosed(buckets, members, members);
  }

  lemma {:induction false} ShareGrows(few: nat, many: nat, members: nat, i: nat)
    requires few <= many && members > 0
    ensures Share(few, members, i) <= Share(many, members, i)
    decreases many
  {
    if few >= members { ShareGrows(few - members, many - members, members, i); }
  }

  /** Fewer members, or an earlier position, never means a smaller share. */
  lemma {:induction false} ShareMonotone(buckets: nat, few: nat, i: nat, many: nat, j: nat)
    requires 0 < few <= many && i <= j
    ensures Share(buckets, few, i) >= Share(buckets, many, j)
  {
    if buckets >= many {
      ShareGrows(buckets - many, buckets - few, few, i);
      ShareMonotone(buckets - many, few, i, many, j);
    }
  }

  lemma MulMonotone(a: nat, b: nat, c: nat, d: nat)
    requires a <= c && b <= d
    ensures a * b <= c * d
  {
    assert c * d - a * b == (c - a) * d + a * (d - b);
  }

  method BalancedBucketCounts(buckets: nat, members: nat) returns (counts: seq<nat>)
    ensures |counts| == members
    ensures forall i :: 0 <= i < members ==> counts[i] == Share(buckets, members, i)
  {
    counts := [];
    if members == 0 { return; }
    var base, extra := buckets / members, buckets % members;
    for index := 0 to members
      invariant |counts| == index
      invariant forall i :: 0 <= i < index ==> counts[i] == Share(buckets, members, i)
    {
      ShareClosed(buckets, members, index);
      counts := counts + [base + (if index < extra then 1 else 0)];
    }
  }

  // ----- The two passes, in closed form -----

  /** The previous owner vector cut or padded with nil to `count` buckets. */
  function Padded(previous: seq<Id>, count: nat): (p: seq<Id>)
    ensures |p| == count
    ensures |previous| == count ==> p == previous
  {
    seq(count, b requires 0 <= b < count => if b < |previous| then previous[b] else NIL)
  }

  /** Retention: bucket b stays with its owner when fewer than that owner's share of lower buckets were its own. */
  predicate Keeps(p: seq<Id>, members: seq<Id>, b: nat)
    requires b < |p|
  {
    var i := IndexOf(members, p[b]);
    p[b] != NIL && i < |members| && CountIn(p, b, p[b]) < Share(|p|, |members|, i)
  }

  /** How many of the first n buckets stay with the member at position i. */
  function KeptOf(p: seq<Id>, members: seq<Id>, i: nat, n: nat): nat
    requires n <= |p|
  {
    if n == 0 then 0
    else KeptOf(p, members, i, n - 1) +
         (if Keeps(p, members, n - 1) && IndexOf(members, p[n - 1]) == i then 1 else 0)
  }

  /** How many of the first n buckets stay with one of the first i members. */
  function KeptSum(p: seq<Id>, members: seq<Id>, i: nat, n: nat): nat
    requires n <= |p|
  {
    if i == 0 then 0 else KeptSum(p, members, i - 1, n) + KeptOf(p, members, i - 1, n)
  }

  /** How many of the first n buckets are up for reassignment. */
  function FreeBefore(p: seq<Id>, members: seq<Id>, n: nat): nat
    requires n <= |p|
  {
    if n == 0 then 0 else FreeBefore(p, members, n - 1) + (if Keeps(p, members, n - 1) then 0 else 1)
  }

  /** How many buckets the first i members together still lack after retention. */
  function DeficitSum(p: seq<Id>, members: seq<Id>, i: nat): int
    requires |members| > 0
  {
    ShareSum(|p|, |members|, i) - KeptSum(p, members, i, |p|)
  }

  /** The first position at or after i whose running deficit exceeds k: the member served by the k-th free bucket. */
  function Slot(p: seq<Id>, members: seq<Id>, k: nat, i: nat): (r: nat)
    requires i <= |members|
    ensures i <= r <= |members|
    decreases |members| - i
  {
    if i == |members| || k < DeficitSum(p, members, i + 1) then i else Slot(p, members, k, i + 1)
  }

  function NewOwner(p: seq<Id>, members: seq<Id>, b: nat): Id
    requires b < |p|
  {
    if Keeps(p, members, b) then p[b]
    else
      var i := Slot(p, members, FreeBefore(p, members, b), 0);
      if i < |members| then members[i] else NIL
  }

  /** The new owner vector. */
  function Rebalanced(p: seq<Id>, members: seq<Id>): (r: seq<Id>)
    ensures |r| == |p|
  {
    seq(|p|, b requires 0 <= b < |p| => NewOwner(p, members, b))
  }

  // ----- Moves -----

  /** Why the owner of a bucket changed. */
  function ReasonFor(from: Id, members: seq<Id>): MoveReason {
    if from == NIL then INITIAL_ASSIGNMENT
    else if from !in members then OWNER_REMOVED
    else OWNER_OVER_QUOTA
  }

  /** The moves among the first n buckets, in ascending bucket order. */
  function MovesUpTo(p: seq<Id>, r: seq<Id>, members: seq<Id>, n: nat): seq<BucketMove>
    requires n <= |p| && n <= |r|
  {
    if n == 0 then []
    else
      var rest := MovesUpTo(p, r, members, n - 1);
      if p[n - 1] == r[n - 1] then rest
      else rest + [BucketMove(n - 1, p[n - 1], r[n - 1], ReasonFor(p[n - 1], members))]
  }

  function Moves(p: seq<Id>, r: seq<Id>, members: seq<Id>): seq<BucketMove>
    requires |p| == |r|
  {
    MovesUpTo(p, r, members, |p|)
  }

  /** How many of the first n buckets change owner. */
  function Changed(p: seq<Id>, r: seq<Id>, n: nat): nat
    requires n <= |p| && n <= |r|
  {
    if n == 0 then 0 else Changed(p, r, n - 1) + (if p[n - 1] == r[n - 1] then 0 else 1)
  }

  /** How many of the first n buckets keep an owner they already had. */
  function Retained(p: seq<Id>, r: seq<Id>, n: nat): nat
    requires n <= |p| && n <= |r|
  {
    if n == 0 then 0 else Retained(p, r, n - 1) + (if p[n - 1] == r[n - 1] && r[n - 1] != NIL then 1 else 0)
  }

  function Churn(p: seq<Id>, r: seq<Id>): nat
    requires |p| == |r|
  {
    Changed(p, r, |p|)
  }

  // ----- Bookkeeping of the passes -----

  lemma {:induction false} KeptOfIsMinimum(p: seq<Id>, members: seq<Id>, i: nat, n: nat)
    requires n <= |p| && i < |members|
    ensures KeptOf(p, members, i, n) <= Share(|p|, |members|, i)
    ensures members[i] != NIL && IndexOf(members, members[i]) == i ==>
              var owned, share := CountIn(p, n, members[i]), Share(|p|, |members|, i);
              KeptOf(p, members, i, n) == if owned < share then owned else share
    ensures members[i] == NIL || IndexOf(members, members[i]) != i ==> KeptOf(p, members, i, n) == 0
  {
    if n > 0 { KeptOfIsMinimum(p, members, i, n - 1); }
  }

  lemma {:induction false} KeptSumStep(p: seq<Id>, members: seq<Id>, i: nat, n: nat)
    requires n < |p| && i <= |members|
    ensures KeptSum(p, members, i, n + 1) ==
            KeptSum(p, members, i, n) + (if Keeps(p, members, n) && IndexOf(members, p[n]) < i then 1 else 0)
  {
    if i > 0 { KeptSumStep(p, members, i - 1, n); }
  }

  lemma {:induction false} KeptSumEmpty(p: seq<Id>, members: seq<Id>, i: nat)
    ensures KeptSum(p, members, i, 0) == 0
  {
    if i > 0 { KeptSumEmpty(p, members, i - 1); }
  }

  /** Every bucket is either kept by exactly one member or free. */
  lemma {:induction false} KeptOrFree(p: seq<Id>, members: seq<Id>, n: nat)
    requires n <= |p|
    ensures KeptSum(p, members, |members|, n) + FreeBefore(p, members, n) == n
  {
    if n == 0 {
      KeptSumEmpty(p, members, |members|);
    } else {
      KeptOrFree(p, members, n - 1);
      KeptSumStep(p, members, |members|, n - 1);
    }
  }

  lemma {:induction false} DeficitSumMonotone(p: seq<Id>, members: seq<Id>, i: nat, j: nat)
    requires i <= j <= |members| && |members| > 0
    ensures 0 <= DeficitSum(p, members, i) <= DeficitSum(p, members, j)
    decreases j
  {
    if 0 < j {
      KeptOfIsMinimum(p, members, j - 1, |p|);
      DeficitSumMonotone(p, members, if i < j then i else j - 1, j - 1);
    }
  }

  /** The deficits add up to exactly the number of free buckets, so the fill cursor never runs off the end. */
  lemma DeficitsMatchFree(p: seq<Id>, members: seq<Id>)
    requires |members| > 0
    ensures DeficitSum(p, members, |members|) == FreeBefore(p, members, |p|)
  {
    SharesCoverAllBuckets(|p|, |members|);
    KeptOrFree(p, members, |p|);
  }

  lemma {:induction false} SlotAt(p: seq<Id>, members: seq<Id>, k: nat, i: nat, from: nat)
    requires from <= i < |members|
    requires DeficitSum(p, members, i) <= k < DeficitSum(p, members, i + 1)
    ensures Slot(p, members, k, from) == i
    decreases i - from
  {
    if from < i {
      DeficitSumMonotone(p, members, from + 1, i);
      SlotAt(p, members, k, i, from + 1);
    }
  }

  lemma {:induction false} SlotBounds(p: seq<Id>, members: seq<Id>, k: nat, from: nat)
    requires from < |members|
    requires DeficitSum(p, members, from) <= k < DeficitSum(p, members, |members|)
    ensures var i := Slot(p, members, k, from);
            i < |members| && DeficitSum(p, members, i) <= k < DeficitSum(p, members, i + 1)
    decreases |members| - from
  {
    if k >= DeficitSum(p, members, from + 1) {
      SlotBounds(p, members, k, from + 1);
    }
  }

  lemma {:induction false} FreeMonotone(p: seq<Id>, members: seq<Id>, a: nat, b: nat)
    requires a <= b <= |p|
    ensures FreeBefore(p, members, a) <= FreeBefore(p, members, b)
    decreases b
  {
    if a < b { FreeMonotone(p, members, a, b - 1); }
  }

  lemma FreeRank(p: seq<Id>, members: seq<Id>, b: nat)
    requires |members| > 0 && b < |p| && !Keeps(p, members, b)
    ensures DeficitSum(p, members, 0) == 0 <= FreeBefore(p, members, b) < DeficitSum(p, members, |members|)
  {
    DeficitsMatchFree(p, members);
    FreeMonotone(p, members, b + 1, |p|);
  }

  /** A free bucket has a slot: the member at that position, whose deficit block holds the bucket's rank. */
  lemma FreeBucketSlot(p: seq<Id>, members: seq<Id>, b: nat)
    requires |members| > 0 && b < |p| && !Keeps(p, members, b)
    ensures var i := Slot(p, members, FreeBefore(p, members, b), 0);
            i < |members| && NewOwner(p, members, b) == members[i] &&
            DeficitSum(p, members, i) <= FreeBefore(p, members, b) < DeficitSum(p, members, i + 1)
  {
    FreeRank(p, members, b);
    SlotBounds(p, members, FreeBefore(p, members, b), 0);
  }

  // ----- The program's loops -----

  method FindMember(members: seq<Id>, member: Id) returns (index: nat)
    ensures index == IndexOf(members, member)
  {
    index := 0;
    while index < |members|
      invariant index <= |members|
      invariant forall j :: 0 <= j < index ==> members[j] != member
    {
      if members[index] == member {
        IndexOfAt(members, member, index);
        return;
      }
      index := index + 1;
    }
    IndexOfAt(members, member, index);
  }

  /** A table of the retention decisions, with the decisions themselves left folded. */
  ghost predicate Table(p: seq<Id>, members: seq<Id>, stays: seq<bool>) {
    |stays| == |p| && forall b {:trigger Keeps(p, members, b)} :: 0 <= b < |p| ==> stays[b] == Keeps(p, members, b)
  }

  /** The owners to reach, again with their definition left folded. */
  ghost predicate Goal(p: seq<Id>, members: seq<Id>, stays: seq<bool>, goal: seq<Id>) {
    && |stays| == |goal| == |p|
    && (forall b {:trigger NewOwner(p, members, b)} :: 0 <= b < |p| ==> goal[b] == NewOwner(p, members, b))
    && (forall b :: 0 <= b < |p| && stays[b] ==> goal[b] == p[b])
  }

  lemma TableExists(p: seq<Id>, members: seq<Id>) returns (stays: seq<bool>)
    ensures Table(p, members, stays)
  {
    stays := seq(|p|, b requires 0 <= b < |p| => Keeps(p, members, b));
  }

  lemma KeepsWhenRoom(p: seq<Id>, members: seq<Id>, b: nat, index: nat)
    requires b < |p| && p[b] != NIL && index == IndexOf(members, p[b]) < |members|
    ensures Keeps(p, members, b) <==> KeptOf(p, members, index, b) < Share(|p|, |members|, index)
  {
    KeptOfIsMinimum(p, members, index, b);
  }

  /** The retention pass: which buckets stay, how many each member keeps, and why the others were released. */
  method RetentionPass(previous: seq<Id>, members: seq<Id>, count: nat, target: seq<nat>,
                       owners: array<Id>, kept: array<nat>, release: array<MoveReason>, ghost stays: seq<bool>)
    requires owners.Length == release.Length == count && kept.Length == |members| == |target|
    requires forall i :: 0 <= i < |members| ==> target[i] == Share(count, |members|, i) && kept[i] == 0
    requires forall b :: 0 <= b < count ==> owners[b] == NIL && release[b] == INITIAL_ASSIGNMENT
    requires Table(Padded(previous, count), members, stays)
    modifies owners, kept, release
    ensures var p := Padded(previous, count);
            && (forall b :: 0 <= b < count ==> owners[b] == if stays[b] then p[b] else NIL)
            && (forall i :: 0 <= i < |members| ==> kept[i] == KeptOf(p, members, i, count))
            && (forall b :: 0 <= b < count && p[b] != NIL && !stays[b] ==> release[b] == ReasonFor(p[b], members))
  {
    ghost var p := Padded(previous, count);
    var bucket := 0;
    while bucket < count && bucket < |previous|
      invariant bucket <= count
      invariant forall b :: 0 <= b < bucket ==> owners[b] == if stays[b] then p[b] else NIL
      invariant forall b :: bucket <= b < count ==> owners[b] == NIL && release[b] == INITIAL_ASSIGNMENT
      invariant forall i :: 0 <= i < |members| ==> kept[i] == KeptOf(p, members, i, bucket)
      invariant forall b :: 0 <= b < bucket && p[b] != NIL && !stays[b] ==> release[b] == ReasonFor(p[b], members)
    {
      RetainOne(p, members, bucket, previous[bucket], target, owners, kept, release, stays);
      bucket := bucket + 1;
    }
    if bucket < count {
      NothingKeptBeyond(p, members, bucket);
      forall i | 0 <= i < |members| ensures kept[i] == KeptOf(p, members, i, count) {
        KeptOfFlat(p, members, i, bucket, count);
      }
    }
  }

  /** Decides one bucket: keep it with its owner, or note why it is released. */
  method RetainOne(ghost p: seq<Id>, members: seq<Id>, bucket: nat, owner: Id, target: seq<nat>,
                   owners: array<Id>, kept: array<nat>, release: array<MoveReason>, ghost stays: seq<bool>)
    requires owners.Length == release.Length == |p| && kept.Length == |members| == |target|
    requires bucket < |p| && p[bucket] == owner && Table(p, members, stays)
    requires forall i :: 0 <= i < |members| ==>
               target[i] == Share(|p|, |members|, i) && kept[i] == KeptOf(p, members, i, bucket)
    requires owners[bucket] == NIL && release[bucket] == INITIAL_ASSIGNMENT
    modifies owners, kept, release
    ensures owners[bucket] == if stays[bucket] then owner else NIL
    ensures owner != NIL && !stays[bucket] ==> release[bucket] == ReasonFor(owner, members)
    ensures forall i :: 0 <= i < |members| ==> kept[i] == KeptOf(p, members, i, bucket + 1)
    ensures forall b :: 0 <= b < |p| && b != bucket ==> owners[b] == old(owners[b]) && release[b] == old(release[b])
  {
    assert stays[bucket] == Keeps(p, members, bucket);
    if owner != NIL {
      var index := FindMember(members, owner);
      IndexOfFirst(members, owner);
      if index == |members| {
        release[bucket] := OWNER_REMOVED;
      } else {
        KeepsWhenRoom(p, members, bucket, index);
        if kept[index] < target[index] {
          owners[bucket] := owner;
          kept[index] := kept[index] + 1;
        } else {
          release[bucket] := OWNER_OVER_QUOTA;
        }
      }
    }
  }

  lemma NothingKeptBeyond(p: seq<Id>, members: seq<Id>, from: nat)
    requires from <= |p| && forall b :: from <= b < |p| ==> p[b] == NIL
    ensures forall b :: from <= b < |p| ==> !Keeps(p, members, b)
  {
  }

  lemma {:induction false} KeptOfFlat(p: seq<Id>, members: seq<Id>, i: nat, from: nat, end: nat)
    requires from <= end <= |p| && forall b :: from <= b < |p| ==> !Keeps(p, members, b)
    ensures KeptOf(p, members, i, end) == KeptOf(p, members, i, from)
    decreases end
  {
    if from < end { KeptOfFlat(p, members, i, from, end - 1); }
  }

  /** Every bucket below the cursor has its final owner; above it only the kept buckets have one. */
  ghost predicate Filling(p: seq<Id>, members: seq<Id>, stays: seq<bool>, goal: seq<Id>, owners: seq<Id>, cursor: nat,
                          given: int)
  {
    && |stays| == |goal| == |owners| == |p| && cursor <= |p|
    && FreeBefore(p, members, cursor) == given
    && (forall b :: 0 <= b < cursor ==> owners[b] == goal[b])
    && (forall b :: cursor <= b < |p| ==> owners[b] == if stays[b] then p[b] else NIL)
  }

  /** The fill pass: free buckets in ascending order go to members in canonical order until no deficit is left. */
  method FillPass(ghost p: seq<Id>, members: seq<Id>, target: seq<nat>, owners: array<Id>, kept: array<nat>,
                  ghost stays: seq<bool>)
    requires owners.Length == |p| && kept.Length == |members| == |target|
    requires forall i :: 0 <= i < |members| ==> target[i] == Share(|p|, |members|, i)
    requires forall i :: 0 <= i < |members| ==> kept[i] == KeptOf(p, members, i, |p|)
    requires Table(p, members, stays)
    requires forall b :: 0 <= b < |p| ==> owners[b] == if stays[b] then p[b] else NIL
    modifies owners
    ensures owners[..] == Rebalanced(p, members)
  {
    ghost var goal := GoalExists(p, members, stays);
    var cursor: nat := 0;
    ghost var given := 0;
    for index := 0 to |members|
      invariant Filling(p, members, stays, goal, owners[..], cursor, given)
      invariant |members| > 0 ==> given == DeficitSum(p, members, index)
    {
      DeficitStep(p, members, index);
      var deficit := target[index] - kept[index];
      cursor := ServeMember(p, members, index, deficit, cursor, owners, stays, goal);
      given := given + deficit;
    }
    GoalReached(p, members, stays, goal, owners[..], cursor, given);
  }

  lemma GoalReached(p: seq<Id>, members: seq<Id>, stays: seq<bool>, goal: seq<Id>, owners: seq<Id>, cursor: nat,
                    given: int)
    requires Table(p, members, stays) && Goal(p, members, stays, goal)
    requires Filling(p, members, stays, goal, owners, cursor, given)
    requires |members| > 0 ==> given == DeficitSum(p, members, |members|)
    ensures owners == goal
  {
    if |members| > 0 {
      DeficitsMatchFree(p, members);
      NoFreeLeft(p, members, cursor);
    } else {
      NothingToFill(p, members);
    }
    forall b | cursor <= b < |p| ensures owners[b] == goal[b] {
      assert Keeps(p, members, b) || NewOwner(p, members, b) == NIL;
    }
  }

  lemma GoalExists(p: seq<Id>, members: seq<Id>, stays: seq<bool>) returns (goal: seq<Id>)
    requires Table(p, members, stays)
    ensures goal == Rebalanced(p, members) && Goal(p, members, stays, goal)
  {
    goal := Rebalanced(p, members);
  }

  /** Hands `need` free buckets, lowest first, to the member at `index`. */
  method ServeMember(ghost p: seq<Id>, members: seq<Id>, index: nat, need: nat, start: nat, owners: array<Id>,
                     ghost stays: seq<bool>, ghost goal: seq<Id>) returns (cursor: nat)
    requires owners.Length == |p| && index < |members|
    requires Table(p, members, stays) && Goal(p, members, stays, goal)
    requires Filling(p, members, stays, goal, owners[..], start, DeficitSum(p, members, index))
    requires DeficitSum(p, members, index) + need == DeficitSum(p, members, index + 1)
    modifies owners
    ensures Filling(p, members, stays, goal, owners[..], cursor, DeficitSum(p, members, index) + need)
  {
    cursor := start;
    var deficit: nat := need;
    ghost var given := DeficitSum(p, members, index);
    while deficit > 0
      invariant Filling(p, members, stays, goal, owners[..], cursor, given)
      invariant DeficitSum(p, members, index) <= given && given + deficit == DeficitSum(p, members, index + 1)
    {
      while cursor < owners.Length && owners[cursor] != NIL
        invariant Filling(p, members, stays, goal, owners[..], cursor, given)
      {
        SkipKept(p, members, stays, goal, owners[..], cursor, given);
        cursor := cursor + 1;
      }
      CursorInRange(p, members, index, cursor);
      TakeFree(p, members, stays, goal, owners[..], cursor, given, index);
      owners[cursor] := members[index];
      deficit := deficit - 1;
      given := given + 1;
      cursor := cursor + 1;
    }
  }

  lemma SkipKept(p: seq<Id>, members: seq<Id>, stays: seq<bool>, goal: seq<Id>, owners: seq<Id>, cursor: nat, given: int)
    requires Table(p, members, stays) && Goal(p, members, stays, goal)
    requires Filling(p, members, stays, goal, owners, cursor, given) && cursor < |p| && owners[cursor] != NIL
    ensures Filling(p, members, stays, goal, owners, cursor + 1, given)
  {
  }

  lemma TakeFree(p: seq<Id>, members: seq<Id>, stays: seq<bool>, goal: seq<Id>, owners: seq<Id>, cursor: nat, given: int,
                 index: nat)
    requires Table(p, members, stays) && Goal(p, members, stays, goal) && index < |members|
    requires Filling(p, members, stays, goal, owners, cursor, given) && cursor < |p| && owners[cursor] == NIL
    requires DeficitSum(p, members, index) <= given < DeficitSum(p, members, index + 1)
    ensures Filling(p, members, stays, goal, owners[cursor := members[index]], cursor + 1, given + 1)
  {
    FreeOwner(p, members, cursor, index);
  }

  lemma DeficitStep(p: seq<Id>, members: seq<Id>, i: nat)
    requires i < |members|
    ensures KeptOf(p, members, i, |p|) <= Share(|p|, |members|, i)
    ensures DeficitSum(p, members, i + 1) ==
            DeficitSum(p, members, i) + Share(|p|, |members|, i) - KeptOf(p, members, i, |p|)
  {
    KeptOfIsMinimum(p, members, i, |p|);
  }

  lemma FreeOwner(p: seq<Id>, members: seq<Id>, b: nat, i: nat)
    requires b < |p| && i < |members| && !Keeps(p, members, b)
    requires DeficitSum(p, members, i) <= FreeBefore(p, members, b) < DeficitSum(p, members, i + 1)
    ensures NewOwner(p, members, b) == members[i]
  {
    SlotAt(p, members, FreeBefore(p, members, b), i, 0);
  }

  lemma NothingToFill(p: seq<Id>, members: seq<Id>)
    requires members == []
    ensures forall b :: 0 <= b < |p| ==> !Keeps(p, members, b) && NewOwner(p, members, b) == NIL
  {
  }

  /** While some deficit is left there is still a free bucket at or after the cursor. */
  lemma CursorInRange(p: seq<Id>, members: seq<Id>, index: nat, cursor: nat)
    requires index < |members| && cursor <= |p|
    requires FreeBefore(p, members, cursor) < DeficitSum(p, members, index + 1)
    ensures cursor < |p|
  {
    DeficitsMatchFree(p, members);
    DeficitSumMonotone(p, members, index + 1, |members|);
  }

  lemma {:induction false} NoFreeLeft(p: seq<Id>, members: seq<Id>, cursor: nat)
    requires cursor <= |p| && FreeBefore(p, members, cursor) == FreeBefore(p, members, |p|)
    ensures forall b :: cursor <= b < |p| ==> Keeps(p, members, b)
  {
    forall b | cursor <= b < |p| ensures Keeps(p, members, b) {
      FreeMonotone(p, members, cursor, b);
      FreeMonotone(p, members, b + 1, |p|);
    }
  }

  /** The move list: one entry per bucket whose owner changed, in ascending order. */
  method MovePass(previous: seq<Id>, members: seq<Id>, owners: seq<Id>, release: array<MoveReason>,
                  ghost stays: seq<bool>)
    returns (moves: seq<BucketMove>, retained: nat)
    requires release.Length == |owners|
    requires var p := Padded(previous, |owners|);
             && Table(p, members, stays) && owners == Rebalanced(p, members)
             && forall b :: 0 <= b < |p| && p[b] != NIL && !stays[b] ==> release[b] == ReasonFor(p[b], members)
    ensures var p := Padded(previous, |owners|);
            moves == Moves(p, owners, members) && retained == Retained(p, owners, |owners|)
  {
    ghost var p := Padded(previous, |owners|);
    moves, retained := [], 0;
    for bucket := 0 to |owners|
      invariant moves == MovesUpTo(p, owners, members, bucket)
      invariant retained == Retained(p, owners, bucket)
    {
      var from := if bucket < |previous| then previous[bucket] else NIL;
      assert from == p[bucket];
      var owner := owners[bucket];
      if from == owner {
        if owner != NIL { retained := retained + 1; }
      } else {
        assert from != NIL ==> !Keeps(p, members, bucket);
        var reason := if from == NIL then INITIAL_ASSIGNMENT else release[bucket];
        moves := moves + [BucketMove(bucket, from, owner, reason)];
      }
    }
  }

  /** The whole computation. Nothing is asked of the member list or of the length of the previous map. */
  method ComputeRebalance(previous: seq<Id>, members: seq<Id>, count: nat)
    returns (owners: seq<Id>, moves: seq<BucketMove>, retained: nat)
    ensures owners == Rebalanced(Padded(previous, count), members)
    ensures moves == Moves(Padded(previous, count), owners, members)
    ensures retained == Retained(Padded(previous, count), owners, count)
  {
    var target := BalancedBucketCounts(count, |members|);
    var owner := new Id[count](_ => NIL);
    var kept := new nat[|members|](_ => 0);
    var release := new MoveReason[count](_ => INITIAL_ASSIGNMENT);
    ghost var p := Padded(previous, count);
    ghost var stays := TableExists(p, members);
    RetentionPass(previous, members, count, target, owner, kept, release, stays);
    FillPass(p, members, target, owner, kept, stays);
    owners := owner[..];
    moves, retained := MovePass(previous, members, owners, release, stays);
  }

  /** The first map of a group: everything is free. */
  method ComputeInitialAssignment(members: seq<Id>, count: nat)
    returns (owners: seq<Id>, moves: seq<BucketMove>)
    ensures owners == Rebalanced(seq(count, _ => NIL), members)
    ensures moves == Moves(seq(count, _ => NIL), owners, members)
  {
    var retained;
    owners, moves, retained := ComputeRebalance(seq(count, _ => NIL), members, count);
  }

  method OwnedBucketCount(owners: seq<Id>, member: Id) returns (total: nat)
    ensures total == CountIn(owners, |owners|, member)
  {
    total := 0;
    for b := 0 to |owners|
      invariant total == CountIn(owners, b, member)
    {
      if owners[b] == member { total := total + 1; }
    }
  }

  // ----- The independent oracle and the structural check -----

  /** What the first i members of a map of `count` buckets can keep at most: the smaller of what each owned and its
      share. */
  function Retainable(p: seq<Id>, count: nat, members: seq<Id>, i: nat): nat
    requires i <= |members|
  {
    if i == 0 then 0
    else
      var owned, share := CountIn(p, |p|, members[i - 1]), Share(count, |members|, i - 1);
      Retainable(p, count, members, i - 1) + (if owned < share then owned else share)
  }

  /** The same for a sized map. */
  function RetainableSum(p: seq<Id>, members: seq<Id>, i: nat): nat
    requires i <= |members|
  {
    Retainable(p, |p|, members, i)
  }

  lemma {:induction false} RetainableWithinShares(p: seq<Id>, count: nat, members: seq<Id>, i: nat)
    requires i <= |members| && members != []
    ensures Retainable(p, count, members, i) <= ShareSum(count, |members|, i)
  {
    if i > 0 { RetainableWithinShares(p, count, members, i - 1); }
  }

  /** The oracle reads the bucket count from its own field, whatever the length of the owner vector; what can be retained
      never exceeds that count, so the unsigned difference does not wrap. */
  method MinimumPossibleChurn(p: seq<Id>, count: nat, members: seq<Id>) returns (churn: nat)
    ensures churn == count - Retainable(p, count, members, |members|)
  {
    var target := BalancedBucketCounts(count, |members|);
    var retained := 0;
    for index := 0 to |members|
      invariant retained == Retainable(p, count, members, index)
    {
      var share := OwnedBucketCount(p, members[index]);
      retained := retained + (if share < target[index] then share else target[index]);
    }
    if members != [] {
      RetainableWithinShares(p, count, members, |members|);
      SharesCoverAllBuckets(count, |members|);
    }
    churn := count - retained;
  }

  /** Any two listed members own the same number of buckets, give or take one. */
  ghost predicate WithinOne(owners: seq<Id>, members: seq<Id>) {
    forall i, j :: 0 <= i < |members| && 0 <= j < |members| ==>
      CountIn(owners, |owners|, members[i]) <= CountIn(owners, |owners|, members[j]) + 1
  }

  /** Every owner is listed, or, when nobody is listed, there is no owner. */
  ghost predicate OwnedBy(owners: seq<Id>, members: seq<Id>) {
    forall b :: 0 <= b < |owners| ==>
      if members == [] then owners[b] == NIL else owners[b] != NIL && owners[b] in members
  }

  /** Bucket b is the first whose owner is missing or not listed. */
  ghost predicate FirstOffence(owners: seq<Id>, members: seq<Id>, b: int) {
    && 0 <= b < |owners| && OwnedBy(owners[..b], members)
    && if members == [] then owners[b] != NIL else owners[b] == NIL || owners[b] !in members
  }

  lemma FirstOffenceUnique(owners: seq<Id>, members: seq<Id>, b: int)
    requires FirstOffence(owners, members, b)
    ensures !OwnedBy(owners, members)
    ensures forall c :: FirstOffence(owners, members, c) ==> c == b
  {
  }

  lemma NoOffence(owners: seq<Id>, members: seq<Id>)
    requires OwnedBy(owners, members)
    ensures forall b :: !FirstOffence(owners, members, b)
  {
  }

  /** A map passes exactly when it is sized, names distinct members, is owned by them and is balanced. When it
      is sized and its members are distinct, the first offending bucket decides between a missing and an unknown owner. */
  method CheckAssignment(owners: seq<Id>, count: nat, members: seq<Id>) returns (defect: AssignmentDefect)
    ensures defect == NO_DEFECT <==>
            |owners| == count && Distinct(members) && OwnedBy(owners, members) && WithinOne(owners, members)
    ensures defect == COUNT_MISMATCH <==> |owners| != count
    ensures defect == DUPLICATE_MEMBER_INPUT <==> |owners| == count && !Distinct(members)
    ensures defect == UNBALANCED <==>
            |owners| == count && Distinct(members) && OwnedBy(owners, members) && !WithinOne(owners, members)
    ensures defect == UNKNOWN_OWNER <==>
            |owners| == count && Distinct(members) &&
            exists b :: FirstOffence(owners, members, b) && owners[b] != NIL
    ensures defect == UNASSIGNED_BUCKET <==>
            |owners| == count && Distinct(members) &&
            exists b :: FirstOffence(owners, members, b) && owners[b] == NIL
  {
    if |owners| != count { return COUNT_MISMATCH; }
    for left := 0 to |members|
      invariant forall i, j :: 0 <= i < left && i < j < |members| ==> members[i] != members[j]
    {
      for right := left + 1 to |members|
        invariant forall j :: left < j < right ==> members[left] != members[j]
      {
        if members[left] == members[right] { return DUPLICATE_MEMBER_INPUT; }
      }
    }
    for b := 0 to |owners|
      invariant OwnedBy(owners[..b], members)
    {
      if owners[b] == NIL {
        if members != [] {
          FirstOffenceUnique(owners, members, b);
          return UNASSIGNED_BUCKET;
        }
      } else {
        var index := FindMember(members, owners[b]);
        IndexOfFirst(members, owners[b]);
        if index == |members| {
          FirstOffenceUnique(owners, members, b);
          return UNKNOWN_OWNER;
        }
      }
    }
    assert owners[..|owners|] == owners;
    NoOffence(owners, members);
    if members == [] { return NO_DEFECT; }
    defect := CheckBalance(owners, members);
  }

  method CheckBalance(owners: seq<Id>, members: seq<Id>) returns (defect: AssignmentDefect)
    requires members != []
    ensures defect == if WithinOne(owners, members) then NO_DEFECT else UNBALANCED
  {
    var minimum, maximum := |owners|, 0;
    ghost var low, high := 0, 0;
    for i := 0 to |members|
      invariant forall j :: 0 <= j < i ==> minimum <= CountIn(owners, |owners|, members[j]) <= maximum
      invariant i > 0 ==> low < i && high < i && minimum == CountIn(owners, |owners|, members[low]) &&
                          maximum == CountIn(owners, |owners|, members[high])
      invariant i == 0 ==> minimum == |owners| && maximum == 0
    {
      var share := OwnedBucketCount(owners, members[i]);
      if share < minimum || i == 0 { low := i; }
      if share > maximum || i == 0 { high := i; }
      minimum := if share < minimum then share else minimum;
      maximum := if share > maximum then share else maximum;
    }
    return if maximum - minimum > 1 then UNBALANCED else NO_DEFECT;
  }
}

/** The moves between two snapshots of a group, and why they are the moves a refresh records. */
module Diff {
  import opened Prelude
  import opened Assignment
  import opened AssignmentProofs
  import opened Lifecycle
  import opened Records
  import opened Groups
  import opened GroupProofs

  /** What the difference needs of a snapshot: the map and the active members. */
  datatype Snapshot = Snapshot(owners: seq<Id>, active: seq<Id>)

  function SnapshotOf(g: Group): Snapshot { Snapshot(g.owners, ActiveIds(g.members)) }

  function Common(before: Snapshot, after: Snapshot): (n: nat)
    ensures n <= |before.owners| && n <= |after.owners|
  {
    if |before.owners| < |after.owners| then |before.owners| else |after.owners|
  }

  /** The moves between two snapshots, bucket by bucket, with their reasons read off the later one. */
  method DiffMoves(before: Snapshot, after: Snapshot) returns (moves: seq<BucketMove>)
    ensures moves == MovesUpTo(before.owners, after.owners, after.active, Common(before, after))
  {
    moves := [];
    for bucket := 0 to Common(before, after)
      invariant moves == MovesUpTo(before.owners, after.owners, after.active, bucket)
    {
      var from, owner := before.owners[bucket], after.owners[bucket];
      if from != owner {
        var reason;
        if from == NIL {
          reason := INITIAL_ASSIGNMENT;
        } else {
          var index := FindMember(after.active, from);
          IndexOfFirst(after.active, from);
          reason := if index == |after.active| then OWNER_REMOVED else OWNER_OVER_QUOTA;
        }
        moves := moves + [BucketMove(bucket, from, owner, reason)];
      }
    }
  }

  lemma {:induction false} NoMovesNoChange(p: seq<Id>, members: seq<Id>, n: nat)
    requires n <= |p|
    ensures MovesUpTo(p, p, members, n) == []
  {
    if n > 0 { NoMovesNoChange(p, members, n - 1); }
  }

  /** The record a refresh leaves when it changed the map: the generations around the change and the moves themselves. */
  ghost predicate Recorded(before: Group, after: Group, c: Context, moves: seq<BucketMove>) {
    && after.lastRebalance.Some?
    && after.lastRebalance.value ==
       RebalanceRecord(if before.plan.Some? then Some(before.plan.value.id) else None, c.reason,
                       before.membershipGen, after.membershipGen, before.assignmentGen, after.assignmentGen,
                       moves, |moves|, after.owners)
  }

  lemma ReassignRecords(before: Group, g: Group, c: Context)
    requires |g.owners| == g.bucketCount && g.plan == before.plan
    ensures var r, moves := Reassign(before, g, c),
                            Moves(g.owners, Reassign(before, g, c).owners, ActiveIds(g.members));
            && r.members == g.members
            && (if r.owners == g.owners then moves == [] && r.lastRebalance == g.lastRebalance
                else moves != [] && Recorded(before, r.(membershipGen := g.membershipGen), c, moves) &&
                     r.membershipGen == g.membershipGen)
  {
    var r := Reassign(before, g, c);
    assert Padded(g.owners, g.bucketCount) == g.owners;
    var owners := Rebalanced(g.owners, ActiveIds(g.members));
    if owners == g.owners {
      NoMovesNoChange(g.owners, ActiveIds(g.members), |g.owners|);
    } else {
      var b := FirstDifference(g.owners, owners);
      MovesAreComplete(g.owners, owners, ActiveIds(g.members), |g.owners|, b);
    }
  }

  /** Whenever a refresh changes the map, the moves it records are exactly those of the two snapshots around it, reasons
      included, with the generations before and after; when the map stays, there are none and the record stays. */
  lemma RefreshRecordsTheDiff(g: Group, c: Context, maxHistory: nat)
    requires |g.owners| == g.bucketCount && c.recompute
    ensures var f := Refresh(g, c, maxHistory).group;
            var moves := Moves(g.owners, f.owners, ActiveIds(f.members));
            && |f.owners| == |g.owners| && Common(SnapshotOf(g), SnapshotOf(f)) == |g.owners|
            && (if f.owners == g.owners then moves == [] && f.lastRebalance == g.lastRebalance
                else moves != [] && Recorded(g, f, c, moves))
  {
    hide ActiveIds, Rebalanced, MovesUpTo, DeclaredIds, ApplyGroupEvent, InputsOf;
    var derived := DeriveMembers(Bind(g, c));
    assert derived.owners == g.owners && derived.plan == g.plan && derived.bucketCount == g.bucketCount;
    ReassignRecords(g, derived, c);
  }

  /** A move list that turns p into r, naming each changed bucket once, in ascending order. */
  ghost predicate Transforms(moves: seq<BucketMove>, p: seq<Id>, r: seq<Id>) {
    && |r| == |p| && InRange(moves, |p|) && Replay(p, moves) == r
    && (forall i, j :: 0 <= i < j < |moves| ==> moves[i].bucket < moves[j].bucket)
    && |moves| == Churn(p, r)
  }

  lemma MovesTransform(p: seq<Id>, r: seq<Id>, members: seq<Id>)
    requires |r| == |p|
    ensures Transforms(Moves(p, r, members), p, r)
  {
    MovesReplay(p, r, members, |p|);
    MovesAreChanges(p, r, members, |p|);
    assert r[..|p|] + p[|p|..] == r;
  }

  /** So the recorded moves turn the old map into the new one, and each changed bucket occurs in them exactly once, in
      ascending order. */
  lemma RecordedMovesReplay(g: Group, c: Context, maxHistory: nat)
    requires |g.owners| == g.bucketCount && c.recompute && Refresh(g, c, maxHistory).group.owners != g.owners
    ensures var f := Refresh(g, c, maxHistory).group;
            f.lastRebalance.Some? && Transforms(f.lastRebalance.value.moves, g.owners, f.owners)
  {
    hide Refresh, Transforms, Moves;
    RefreshRecordsTheDiff(g, c, maxHistory);
    var f := Refresh(g, c, maxHistory).group;
    MovesTransform(g.owners, f.owners, ActiveIds(f.members));
  }
}

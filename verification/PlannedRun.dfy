/** Concrete runs with a plan: it is committed when the group was bound to its planner and refused when it was not, and
    while it waits with a newcomer the state cannot be read back. */
module PlannedRun {
  import opened Prelude
  import opened Assignment
  import opened AssignmentProofs
  import opened Lifecycle
  import opened Records
  import opened Sorting
  import opened AssignmentPairs
  import opened StoreCodec
  import opened Groups
  import opened GroupProofs
  import opened TargetProofs
  import opened Governor
  import opened Invariants
  import opened Plans
  import opened Runs
  import opened PlanRuns
  import opened Attempts
  import opened Diff
  import opened Durable
  import opened DurableSteps
  import opened DurableRuns
  import opened ExampleRuns

  const TARGET := [SPEC, NEWCOMER]

  function PlanRequest(a: Authority): Request { PlanRebalance(a, GROUP_ID, TARGET) }

  // ----- The plan request passes -----

  lemma TargetShape()
    ensures CheckSpecShape(TARGET, 0).None? && Listed(SpecIds(TARGET))
  {
    assert SpecIds(TARGET[1..]) == [22] && SpecIds(TARGET[2..]) == [];
    assert CheckSpecShape(TARGET, 2).None?;
    assert CheckSpecShape(TARGET, 1).None?;
    ShapedSpecsListed(TARGET);
  }

  lemma OnlyMember(g: Group)
    requires AsCreated(g)
    ensures DeclaredIn(g.members, 21) && Locate(g.members, 21) == 0 && !DeclaredIn(g.members, 22)
  {
    var ids := MemberIds(g.members);
    assert ids == [21] && ids[1..] == [];
    assert IndexOf(ids[1..], 22) == 0;
  }

  lemma TargetsPass(g: Group)
    requires AsCreated(g)
    ensures CheckTargets(PATHS, g, TARGET, 0).None?
  {
    hide Locate, DeclaredIn;
    OnlyMember(g);
    assert CheckTargets(PATHS, g, TARGET, 2).None?;
    assert ValidateFor(PATHS, g, NEWCOMER).None? && !PathMoved(g, NEWCOMER);
    assert CheckTargets(PATHS, g, TARGET, 1).None?;
    assert ValidateFor(PATHS, g, SPEC).None? && !PathMoved(g, SPEC);
  }

  lemma FewChanges(g: Group)
    requires AsCreated(g)
    ensures TargetChanges(g, TARGET) <= 2
  {
    hide Locate, DeclaredIn, SpecDiffers;
    OnlyMember(g);
    assert TARGET[..1] == [SPEC] && TARGET[..1][..0] == [];
    assert SpecChanges(g, TARGET[..1]) <= 1;
    assert g.members[..0] == [];
    assert SpecChanges(g, TARGET) <= 2;
    assert SpecIds(TARGET)[0] == 21;
    assert Departures(g.members, TARGET) == 0;
  }

  lemma RequestPasses(s: State, g: Group)
    requires AsCreated(g) && s.limits == LIMITS
    ensures CheckPlanRequest(s, g, TARGET, PATHS).None?
  {
    hide CheckSpecShape, CheckTargets, TargetChanges, AsCreated;
    TargetShape();
    TargetsPass(g);
    FewChanges(g);
    BucketsOf(g);
  }

  lemma BucketsOf(g: Group)
    requires AsCreated(g)
    ensures g.bucketCount == 2 && g.id == GROUP_ID && g.plan.None? && g.successor == NIL
    ensures LifecycleAllows(g.lifecycle, PLAN_REBALANCE)
  {
  }

  /** A refresh never reports more moves than there are buckets. */
  lemma ChurnWithin(t: Group, c: Context, limits: Limits)
    requires |t.owners| == t.bucketCount && c.recompute
    requires RefreshedFrom(t, c, limits, Refresh(t, c, limits.maxHistory).group)
    ensures ChurnOf(t, Refresh(t, c, limits.maxHistory).group) <= t.bucketCount
  {
    RefreshRecordsTheDiff(t, c, limits.maxHistory);
    hide Refresh, Loose, Derived, Advances, Moves;
    var f := Refresh(t, c, limits.maxHistory).group;
    MovesBounded(t.owners, f.owners, ActiveIds(f.members));
  }

  /** The planner may speak for the group, under an attempt that is new. */
  ghost predicate MayPlan(s: State, a: Authority) {
    && a == AuthorityOf(a.publisher, a.boot, 31) && a.publisher != NIL && a.boot != NIL
    && s.limits == LIMITS && s.epoch == 1 && s.fenced == {} && s.attempts.Keys == {30} && s.order == [30]
    && a.publisher in s.publishers && s.publishers[a.publisher].boot == a.boot
    && s.publishers[a.publisher].capabilities == 3
    && s.groups.Keys == {GROUP_ID} && AsCreated(s.groups[GROUP_ID])
  }

  lemma PlanPreamble(s: State, a: Authority)
    requires MayPlan(s, a)
    ensures Preamble(s, PlanRequest(a), PLAN_REBALANCE).None?
  {
    assert a.attempt !in s.attempts;
    assert Authorize(s, a, MUTATE_GROUP, GROUP_ID).None?;
  }

  lemma TrialChurn(s: State, a: Authority, g: Group)
    requires Loose(g, s.limits) && AsCreated(g) && s.limits == LIMITS
    ensures var f := Refresh(Retargeted(g, TARGET), TargetContext(s, a, g, TARGET), s.limits.maxHistory);
            f.ok && ChurnOf(g, f.group) <= s.limits.maxRebalanceMoves
  {
    hide Refresh, RefreshedFrom, ApplyTarget, AddedCount, Loose, FinishedFrom;
    TargetShape();
    TrialOk(s, a, g, TARGET);
    TargetContextAllowed(s, a, g, TARGET);
    ChurnWithin(Retargeted(g, TARGET), TargetContext(s, a, g, TARGET), s.limits);
  }

  /** The group as the plan request leaves it. */
  ghost predicate AsPlanned(g: Group) {
    && g.id == GROUP_ID && g.key == KEY && g.members == [FreshEntry(SPEC)] && g.plan.Some?
    && g.plan.value.targetMembers == SortBy(SpecKey, TARGET) && g.plan.value.fromAssignment == g.assignmentGen
    && g.owners == [21, 21] && g.lifecycle.Rebalancing? && PlanOk(g)
  }

  lemma PlannedGroup(g: Group, p: Plan, c: Context, f: Group, bound: bool)
    requires AsCreated(g) && RefreshedFrom(g.(plan := Some(p)), c, LIMITS, f) && PlanMade(g, f, bound)
    requires p.targetMembers == SortBy(SpecKey, TARGET)
    ensures AsPlanned(f) && Evicted(f, LIMITS) == f
  {
    hide SortBy, DeclaredIds, ActiveIds, Rebalanced, Settled, EntriesOk, Derived, Advances, PlanOk;
    OnlyEntry();
  }

  lemma PlanAccepted(s: State, a: Authority)
    requires Inv(s) && MayPlan(s, a)
    ensures Planning(s, PlanRequest(a), PATHS).outcome == REBALANCE_PLANNED
    ensures var g := s.groups[GROUP_ID];
            var trial := Refresh(Retargeted(g, TARGET), TargetContext(s, a, g, TARGET), s.limits.maxHistory).group;
            Planning(s, PlanRequest(a), PATHS) ==
            Finish(s, g.(plan := Some(PlanFor(s, PlanRequest(a), g, trial))),
                   ContextFor(s, a, ChangeReason.REVALIDATION, PLAN_REBALANCE), PlanRequest(a), REBALANCE_PLANNED)
  {
    hide Preamble, Finish, Refresh, Loose, GroupOk, Inv, CheckPlanRequest, TargetContext, Retargeted, AsCreated, PlanFor,
         StepOk, ContextFor, ChurnOf, LifecycleAllows, PayloadOf;
    var r, g := PlanRequest(a), s.groups[GROUP_ID];
    PlanPreamble(s, a);
    Ready(s, r, PLAN_REBALANCE);
    BucketsOf(g);
    RequestPasses(s, g);
    TrialChurn(s, a, g);
    PlanningFinish(s, r, PATHS, g);
  }

  lemma PlanLeaves(s: State, a: Authority)
    requires Inv(s) && MayPlan(s, a)
    ensures var s' := Planning(s, PlanRequest(a), PATHS).state;
            s'.groups.Keys == {GROUP_ID} && AsPlanned(s'.groups[GROUP_ID])
  {
    hide Preamble, Finish, Refresh, Loose, GroupOk, Inv, TargetContext, Retargeted, AsCreated, AsPlanned, StepOk,
         LifecycleAllows, PayloadOf, RefreshedFrom, PlanMade, Planning, EntriesOk, Derived;
    var r, g := PlanRequest(a), s.groups[GROUP_ID];
    var trial := Refresh(Retargeted(g, TARGET), TargetContext(s, a, g, TARGET), s.limits.maxHistory).group;
    var p := PlanFor(s, r, g, trial);
    var c := ContextFor(s, a, ChangeReason.REVALIDATION, PLAN_REBALANCE);
    PlanPreamble(s, a);
    Ready(s, r, PLAN_REBALANCE);
    BucketsOf(g);
    RequestPasses(s, g);
    PlanAccepted(s, a);
    TargetShape();
    FreshPlanOk(s, r, g);
    AdvancesReflexive(g);
    FinishOk(s, g, g.(plan := Some(p)), c, r, REBALANCE_PLANNED);
    RefreshFacts(g.(plan := Some(p)), c, s.limits);
    var f := Refresh(g.(plan := Some(p)), c, s.limits.maxHistory).group;
    RefreshedIsDerived(g.(plan := Some(p)), c, s.limits, f);
    EventTarget(g.lifecycle, PLAN_REBALANCE, InputsOf(f));
    PlanRefreshMoves(g, p, c, s.limits, f);
    PlannedGroup(g, p, c, f, g.boundEpoch == c.epoch && g.publisher == c.publisher && g.boot == c.boot);
  }

  lemma RemembersSecond(s: State, r: Request, a: Answer)
    requires AttemptEffect(s, r, a) && CarriedOut(a.outcome) && s.limits == LIMITS
    requires s.attempts.Keys == {30} && s.order == [30] && r.authority.attempt == 31
    ensures SameAuthority(s, a.state) && a.state.attempts.Keys == {30, 31}
  {
    hide PayloadOf;
    var entry := AttemptEntry(PayloadOf(r), a.outcome, r.group);
    assert DropOldest(s.attempts[31 := entry], [30, 31], 4) == (s.attempts[31 := entry], [30, 31]);
  }

  lemma PlanServed(s: State, a: Authority)
    requires Inv(s) && MayPlan(s, a)
    ensures var answer := Serve(s, PlanRequest(a), PATHS);
            && answer == Planning(s, PlanRequest(a), PATHS) && answer.outcome == REBALANCE_PLANNED
            && SameAuthority(s, answer.state) && answer.state.attempts.Keys == {30, 31}
            && answer.state.groups.Keys == {GROUP_ID} && AsPlanned(answer.state.groups[GROUP_ID])
  {
    hide Inv, Planning, AsPlanned, Serve, AsCreated, AttemptEffect;
    PlanAccepted(s, a);
    PlanLeaves(s, a);
    ServeIsPlanning(s, PlanRequest(a), PATHS);
    ServeAttempt(s, PlanRequest(a), PATHS);
    RemembersSecond(s, PlanRequest(a), Serve(s, PlanRequest(a), PATHS));
  }

  /** The state after the plan request. */
  lemma Planned(s: State, a: Authority) returns (s': State)
    requires Inv(s) && MayPlan(s, a)
    ensures s' == Next(s, OnRequest(PlanRequest(a), PATHS)).state
    ensures PlannedBy(s, OnRequest(PlanRequest(a), PATHS)) == Some(GROUP_ID)
    ensures SameAuthority(s, s') && s'.attempts.Keys == {30, 31}
    ensures s'.groups.Keys == {GROUP_ID} && AsPlanned(s'.groups[GROUP_ID])
  {
    hide Inv, Planning, AsPlanned, Serve, MayPlan;
    PlanServed(s, a);
    s' := Serve(s, PlanRequest(a), PATHS).state;
  }

  // ----- What follows -----

  lemma {:induction false} SecondShare()
    ensures Share(2, 2, 1) == 1
  {
    ShareClosed(2, 2, 1);
  }

  lemma Counted<T>(q: seq<T>, n: nat, x: T) returns (b: nat)
    requires n <= |q| && CountIn(q, n, x) > 0
    ensures b < n && q[b] == x
  {
    if q[n - 1] == x { b := n - 1; } else { b := Counted(q, n - 1, x); }
  }

  lemma TargetEnabled()
    ensures EnabledIds(SortBy(SpecKey, TARGET)) == [21, 22] && Listed([21, 22])
  {
    assert TARGET[..1] == [SPEC] && TARGET[..1][..0] == [];
    assert SortBy(SpecKey, TARGET[..1][..0]) == [];
    assert SortBy(SpecKey, TARGET[..1]) == [SPEC];
    assert SortBy(SpecKey, TARGET) == [SPEC, NEWCOMER];
    assert EnabledIds([SPEC][..0]) == [];
    assert [SPEC, NEWCOMER][..1] == [SPEC];
  }

  /** The plan gives the newcomer a bucket, and the group has no record of it yet. */
  lemma NewcomerUnknown(g: Group)
    requires AsPlanned(g)
    ensures !PlanKnown(g)
  {
    hide SortBy, TargetOk, EntriesOk, Rebalanced;
    TargetEnabled();
    var p := g.plan.value;
    assert p.assignment == Rebalanced([21, 21], [21, 22]);
    RebalancedHasShares([21, 21], [21, 22]);
    SecondShare();
    assert [21, 22][1] == 22;
    var b := Counted(p.assignment, 2, 22);
    KnownMembers(g.members, 22);
    assert MemberIds(g.members) == [21];
  }

  lemma NotAllReadable(s: State)
    requires GROUP_ID in s.groups && AsPlanned(s.groups[GROUP_ID])
    ensures !AllReadable(s)
  {
    hide PlanKnown, Priced, AsPlanned;
    NewcomerUnknown(s.groups[GROUP_ID]);
  }

  lemma CommitPreamble(s: State, a: Authority, plan: PlanId)
    requires a == AuthorityOf(a.publisher, a.boot, 32) && a.publisher != NIL && a.boot != NIL
    requires s.epoch == 1 && s.fenced == {} && s.attempts.Keys == {30, 31}
    requires a.publisher in s.publishers && s.publishers[a.publisher].boot == a.boot
    requires s.publishers[a.publisher].capabilities == 3
    requires s.groups.Keys == {GROUP_ID} && AsPlanned(s.groups[GROUP_ID])
    ensures Preamble(s, CommitRebalance(a, GROUP_ID, plan), COMMIT_REBALANCE).None?
  {
    assert a.attempt !in s.attempts;
    assert Authorize(s, a, MUTATE_GROUP, GROUP_ID).None?;
  }

  lemma HasThePlan(s: State) returns (plan: PlanId)
    requires GROUP_ID in s.groups && AsPlanned(s.groups[GROUP_ID])
    ensures s.groups[GROUP_ID].plan.Some? && plan == s.groups[GROUP_ID].plan.value.id
  {
    plan := s.groups[GROUP_ID].plan.value.id;
  }

  /** A run goes on with a plan request and the commit of that plan, both signed by the same publisher. */
  lemma PlanAndCommit(run: Run, s: State, publisher: Id, boot: Id) returns (longer: Run)
    requires IsRun(run) && |run.states| == |run.events| + 1 && run.states[|run.events|] == s && Inv(s)
    requires MayPlan(s, AuthorityOf(publisher, boot, 31))
    ensures IsRun(longer) && |longer.events| == |run.events| + 2 && longer.states[|run.events|] == s
    ensures MakesPlan(longer, |run.events|, GROUP_ID) && !AllReadable(longer.states[|run.events| + 1])
    ensures var k := |run.events| + 1;
            && GROUP_ID in longer.states[k].groups && longer.states[k].groups[GROUP_ID].plan.Some?
            && AsksToCommit(longer, k, GROUP_ID, longer.states[k].groups[GROUP_ID].plan.value.id)
            && (Commits(longer, k, GROUP_ID) <==> BoundTo(s.groups[GROUP_ID], 1, AuthorityOf(publisher, boot, 31)))
  {
    hide Next, Inv, IsRun, AsPlanned, AsCreated, AllReadable, Preamble, PlannedBy, Commits, BoundTo;
    var n := |run.events|;
    var request := PlanRequest(AuthorityOf(publisher, boot, 31));
    var s1 := Planned(s, request.authority);
    var run1 := Extended(run, OnRequest(request, PATHS), s1);
    ExtendedRun(run, OnRequest(request, PATHS), s);
    NotAllReadable(s1);
    var plan := HasThePlan(s1);
    var commit := CommitRebalance(AuthorityOf(publisher, boot, 32), GROUP_ID, plan);
    CommitPreamble(s1, commit.authority, plan);
    longer := Extended(run1, OnRequest(commit, PATHS), Next(s1, OnRequest(commit, PATHS)).state);
    ExtendedRun(run1, OnRequest(commit, PATHS), s1);
    CommitRightAfter(longer, n, GROUP_ID);
  }

  const OTHER: Id := 6
  const OTHER_BOOT: Id := 7
  const OTHER_REGISTRATION := Registration(OTHER, OTHER_BOOT, FABRIC(FABRIC_ID), 3, 7)

  lemma CreatorMayPlan(s: State)
    requires s.groups.Keys == {GROUP_ID} && AsCreated(s.groups[GROUP_ID]) && SameAuthority(REGISTERED_STATE, s)
    requires s.attempts.Keys == {30} && s.order == [30]
    ensures MayPlan(s, AuthorityOf(PUBLISHER, BOOT, 31))
    ensures BoundTo(s.groups[GROUP_ID], 1, AuthorityOf(PUBLISHER, BOOT, 31))
  {
  }

  /** The publisher that created the group plans and commits: the commit is applied. While the plan waits with its
      newcomer, the state cannot be read back. */
  lemma BoundPlanCommits() returns (run: Run)
    ensures IsRun(run) && |run.events| == 4 && MakesPlan(run, 2, GROUP_ID) && !AllReadable(run.states[3])
    ensures Commits(run, 3, GROUP_ID)
  {
    hide IsRun, Inv, AsCreated, MayPlan, BoundTo, MakesPlan, Commits, AllReadable, AsksToCommit;
    var run2, s := CreatedRun();
    CreatorMayPlan(s);
    run := PlanAndCommit(run2, s, PUBLISHER, BOOT);
  }

  lemma OtherRegisters(s: State) returns (s': State)
    requires s.groups.Keys == {GROUP_ID} && AsCreated(s.groups[GROUP_ID]) && SameAuthority(REGISTERED_STATE, s)
    requires s.attempts.Keys == {30} && s.order == [30]
    ensures s' == Next(s, OnRegister(1, OTHER_REGISTRATION)).state
    ensures MayPlan(s', AuthorityOf(OTHER, OTHER_BOOT, 31))
    ensures !BoundTo(s'.groups[GROUP_ID], 1, AuthorityOf(OTHER, OTHER_BOOT, 31))
  {
    s' := s.(publishers := s.publishers[OTHER := OTHER_REGISTRATION]);
    assert |s.publishers| == 1;
  }

  /** Another registered publisher plans and asks to commit: the plan is accepted, the commit gets past the common checks
      and is refused. */
  lemma UnboundPlanRefused() returns (run: Run)
    ensures IsRun(run) && |run.events| == 5 && MakesPlan(run, 3, GROUP_ID)
    ensures GROUP_ID in run.states[4].groups && run.states[4].groups[GROUP_ID].plan.Some?
    ensures AsksToCommit(run, 4, GROUP_ID, run.states[4].groups[GROUP_ID].plan.value.id) && !Commits(run, 4, GROUP_ID)
  {
    hide IsRun, Inv, AsCreated, MayPlan, BoundTo, MakesPlan, Commits, AllReadable, AsksToCommit, Next;
    var run2, s := CreatedRun();
    var s' := OtherRegisters(s);
    var run3 := Extended(run2, OnRegister(1, OTHER_REGISTRATION), s');
    ExtendedRun(run2, OnRegister(1, OTHER_REGISTRATION), s);
    StateOfRun(run3, s');
    run := PlanAndCommit(run3, s', OTHER, OTHER_BOOT);
  }
}

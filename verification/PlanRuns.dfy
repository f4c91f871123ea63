/** Plans over whole runs: an accepted commit is always the commit of a plan whose group kept its active members. */
module PlanRuns {
  import opened Prelude
  import opened Assignment
  import opened AssignmentProofs
  import opened Lifecycle
  import opened Records
  import opened Groups
  import opened GroupProofs
  import opened Governor
  import opened Invariants
  import opened Plans
  import opened Runs
  import opened Endings
  import opened Links

  /** Event i is an accepted plan request for group id. */
  ghost predicate MakesPlan(run: Run, i: nat, id: Id)
    requires i < |run.events| < |run.states|
  {
    run.events[i].Live? && PlannedBy(run.states[i], run.events[i].step) == Some(id)
  }

  /** Event k is an applied commit for group id. */
  ghost predicate Commits(run: Run, k: nat, id: Id)
    requires k < |run.events| < |run.states|
  {
    && run.events[k].Live? && run.events[k].step.OnRequest?
    && var step := run.events[k].step;
       step.request.CommitRebalance? && step.request.group == id && Next(run.states[k], step).outcome == REBALANCED
  }

  /** What an accepted plan request does: the group waits with a plan bound to the generations it had, and nothing else
      moves but its authority binding. */
  ghost predicate PlanMade(g: Group, g': Group, bound: bool) {
    && g.plan.None? && g'.plan.Some? && g'.plan.value.fromMembership == g.membershipGen
    && g'.plan.value.fromAssignment == g.assignmentGen && g'.plan.value.fromAuthority == g.authorityGen
    && g'.assignmentGen == g.assignmentGen && g'.owners == g.owners && ActiveIds(g'.members) == ActiveIds(g.members)
    && g'.membershipGen == g.membershipGen && g'.lifecycle.Rebalancing?
    && g'.authorityGen == g.authorityGen + (if bound then 0 else 1)
  }

  /** The authority of a request is the one a group is bound to. */
  predicate BoundTo(g: Group, epoch: nat, a: Authority) {
    g.boundEpoch == epoch && g.publisher == a.publisher && g.boot == a.boot
  }

  lemma ServingIsFixed(g: Group, limits: Limits)
    requires GroupOk(g, limits) && LifecycleAllows(g.lifecycle, PLAN_REBALANCE)
    ensures MapEntries(DeriveEntry, g.members) == g.members && Rebalanced(g.owners, ActiveIds(g.members)) == g.owners
  {
    hide PlanOk;
    ActiveListed(g.members);
    SettledIsFixed(g.owners, ActiveIds(g.members));
  }

  lemma PlanRefreshMoves(g: Group, p: Plan, c: Context, limits: Limits, f: Group)
    requires GroupOk(g, limits) && LifecycleAllows(g.lifecycle, PLAN_REBALANCE) && c.recompute && c.bind
    requires RefreshedFrom(g.(plan := Some(p)), c, limits, f)
    requires p.fromMembership == g.membershipGen && p.fromAssignment == g.assignmentGen
    requires p.fromAuthority == g.authorityGen && g.plan.None? && f.lifecycle.Rebalancing?
    ensures PlanMade(g, f, g.boundEpoch == c.epoch && g.publisher == c.publisher && g.boot == c.boot)
  {
    ServingIsFixed(g, limits);
    hide GroupOk, Loose, Derived, Advances, Rebalanced, LifecycleAllows, Settled;
  }

  lemma MadeEvicted(g: Group, f: Group, limits: Limits, bound: bool)
    requires PlanMade(g, f, bound) && EntriesOk(f.members) && Derived(f.members)
    requires |DeclaredIds(f.members)| <= limits.maxMembersPerGroup
    ensures PlanMade(g, Evicted(f, limits), bound)
  {
    EvictFacts(f.members, limits.maxMembersPerGroup);
  }

  lemma PlanningEffect(s: State, r: Request, up: Upstream)
    requires Inv(s) && r.PlanRebalance? && Planning(s, r, up).outcome == REBALANCE_PLANNED
    ensures r.group in s.groups && r.group in Planning(s, r, up).state.groups
    ensures var g, g' := s.groups[r.group], Planning(s, r, up).state.groups[r.group];
            PlanMade(g, g', BoundTo(g, s.epoch, r.authority))
  {
    hide Preamble, Finish, Refresh, LifecycleAllows, GroupOk, Loose, Inv, CheckPlanRequest, TargetContext, Retargeted,
         PlanMade, ChurnOf, EntriesOk, Derived, StepOk, RefreshedFrom;
    if Preamble(s, r, PLAN_REBALANCE).Some? {
      RefusalIsNotAccepted(s, r, PLAN_REBALANCE);
    } else {
      Ready(s, r, PLAN_REBALANCE);
      var g := s.groups[r.group];
      CheckNotPlanned(s, g, r.members, up);
      PlanningFinish(s, r, up, g);
      PlanRequestShape(s, g, r.members, up);
      ShapedSpecsListed(r.members);
      FreshPlanOk(s, r, g);
      var trial := Refresh(Retargeted(g, r.members), TargetContext(s, r.authority, g, r.members),
                           s.limits.maxHistory).group;
      PlanFinishMoves(s, r, up, g, trial);
    }
  }

  lemma PlanRequestShape(s: State, g: Group, specs: seq<MemberSpec>, up: Upstream)
    requires CheckPlanRequest(s, g, specs, up).None?
    ensures CheckSpecShape(specs, 0).None? && |specs| <= g.bucketCount && |specs| <= s.limits.maxMembersPerGroup
  {
  }

  lemma CheckNotPlanned(s: State, g: Group, specs: seq<MemberSpec>, up: Upstream)
    ensures var o := CheckPlanRequest(s, g, specs, up); o.Some? ==> o.value != REBALANCE_PLANNED
  {
    ShapeNotPlanned(specs, 0);
    TargetsNotPlanned(up, g, specs, 0);
  }

  lemma {:induction false} ShapeNotPlanned(specs: seq<MemberSpec>, i: nat)
    requires i <= |specs|
    ensures CheckSpecShape(specs, i) != Some(REBALANCE_PLANNED)
    decreases |specs| - i
  {
    if i < |specs| { ShapeNotPlanned(specs, i + 1); }
  }

  lemma {:induction false} TargetsNotPlanned(up: Upstream, g: Group, specs: seq<MemberSpec>, i: nat)
    requires i <= |specs|
    ensures CheckTargets(up, g, specs, i) != Some(REBALANCE_PLANNED)
    decreases |specs| - i
  {
    if i < |specs| { TargetsNotPlanned(up, g, specs, i + 1); }
  }

  lemma PlanFinishMoves(s: State, r: Request, up: Upstream, g: Group, trial: Group)
    requires Inv(s) && r.PlanRebalance? && g.id in s.groups && s.groups[g.id] == g && g.id == r.group
    requires GroupOk(g, s.limits) && LifecycleAllows(g.lifecycle, PLAN_REBALANCE) && g.successor == NIL
    requires |DeclaredIds(g.members)| <= s.limits.maxMembersPerGroup
    requires g.plan.None? && Loose(g.(plan := Some(PlanFor(s, r, g, trial))), s.limits)
    ensures var c := ContextFor(s, r.authority, ChangeReason.REVALIDATION, PLAN_REBALANCE);
            var s' := Finish(s, g.(plan := Some(PlanFor(s, r, g, trial))), c, r, REBALANCE_PLANNED).state;
            g.id in s'.groups && PlanMade(g, s'.groups[g.id], BoundTo(g, s.epoch, r.authority))
  {
    hide Finish, Refresh, LifecycleAllows, GroupOk, Loose, Inv, PlanMade, EntriesOk, Derived, StepOk, RefreshedFrom;
    var c := ContextFor(s, r.authority, ChangeReason.REVALIDATION, PLAN_REBALANCE);
    var p := PlanFor(s, r, g, trial);
    FinishOk(s, g, g.(plan := Some(p)), c, r, REBALANCE_PLANNED);
    RefreshFacts(g.(plan := Some(p)), c, s.limits);
    var f := Refresh(g.(plan := Some(p)), c, s.limits.maxHistory).group;
    RefreshedIsDerived(g.(plan := Some(p)), c, s.limits, f);
    EventTarget(g.lifecycle, PLAN_REBALANCE, InputsOf(f));
    PlanRefreshMoves(g, p, c, s.limits, f);
    MadeEvicted(g, f, s.limits, BoundTo(g, s.epoch, r.authority));
  }

  /** An accepted plan is current, so that its commit would go through, exactly when the group was bound to the planner
      already: otherwise the plan request itself moves the authority generation past the one the plan remembers. */
  lemma PlannedIsCurrentIffBound(s: State, r: Request, up: Upstream)
    requires Inv(s) && r.PlanRebalance? && Planning(s, r, up).outcome == REBALANCE_PLANNED
    ensures r.group in s.groups && r.group in Planning(s, r, up).state.groups
    ensures var g, g' := s.groups[r.group], Planning(s, r, up).state.groups[r.group];
            g'.plan.Some? && (CheckPlanCurrent(g').None? <==> BoundTo(g, s.epoch, r.authority))
  {
    hide Planning, Inv, ActiveIds;
    PlanningEffect(s, r, up);
  }

  // ----- From the commit back to its plan -----

  lemma NewGroupsHaveNoPlan(s: State, step: Step, id: Id)
    requires Inv(s) && id !in s.groups && id in Next(s, step).state.groups
    ensures Next(s, step).state.groups[id].plan.None?
  {
    hide Inv, Serve, Notify, Fence, Register, SetEpoch, EndEffect;
    if step.OnRequest? {
      if IsEndRequest(step.request) {
        EndRequestEffect(s, step.request, step.up);
        EndEffectKeys(s, step.request, Serve(s, step.request, step.up));
      } else {
        NothingFromNothing(s, step.request, step.up);
      }
    } else {
      EmptyStaysEmpty(s, step);
    }
  }

  lemma EndEffectKeys(s: State, r: Request, a: Answer)
    requires EndEffect(s, r, a)
    ensures a.state.groups.Keys == s.groups.Keys
  {
  }

  lemma ReloadDropsPlans(blank: State, saved: State, id: Id)
    requires Blank(blank) && Inv(saved) && saved.limits == blank.limits
    requires id in Load(blank, Save(saved)).state.groups
    ensures Load(blank, Save(saved)).state.groups[id].plan.None?
  {
    hide RecoveredGroup, GroupOk;
    RecoveredGroupOk(saved.groups[id], saved.epoch, blank.limits);
  }

  lemma StepFollows(s: State, step: Step, id: Id)
    requires Inv(s) && id in s.groups
    ensures id in Next(s, step).state.groups && Advances(s.groups[id], Next(s, step).state.groups[id])
    ensures PlannedBy(s, step) != Some(id) && Next(s, step).state.groups[id].plan.Some? ==>
              Next(s, step).state.groups[id].plan == s.groups[id].plan
  {
    hide Inv, Next, Advances;
    NextOk(s, step);
  }

  /** Between the plan at i and state k, the group exists, keeps that plan and is not restarted. */
  ghost predicate PlanPending(run: Run, i: nat, k: nat, id: Id)
    requires i < k < |run.states| == |run.events| + 1
  {
    && (forall j :: i < j < k ==> run.events[j].Live?)
    && id in run.states[k].groups
    && (forall j :: i < j <= k ==>
          id in run.states[j].groups && run.states[j].groups[id].plan == run.states[k].groups[id].plan)
  }

  /** Whenever a group has a plan, some accepted plan request made it and nothing replaced it since. */
  lemma {:induction false} PlanOrigin(run: Run, k: nat, id: Id) returns (i: nat)
    requires IsRun(run) && k < |run.states| && id in run.states[k].groups && run.states[k].groups[id].plan.Some?
    ensures i < k && MakesPlan(run, i, id) && PlanPending(run, i, k, id)
    decreases k
  {
    hide Inv, Next, Load, Advances;
    assert k > 0;
    RunInv(run, k - 1);
    assert Leads(run, k - 1);
    match run.events[k - 1]
    case Reload(j) =>
      RunInv(run, j);
      BlankInv(run.states[0]);
      ReloadDropsPlans(run.states[0], run.states[j], id);
    case Live(step) =>
      if MakesPlan(run, k - 1, id) {
        i := k - 1;
      } else {
        if id !in run.states[k - 1].groups {
          NewGroupsHaveNoPlan(run.states[k - 1], step, id);
          assert false;
        }
        StepFollows(run.states[k - 1], step, id);
        i := PlanOrigin(run, k - 1, id);
      }
  }

  lemma {:induction false} AdvancesOver(run: Run, a: nat, b: nat, id: Id)
    requires IsRun(run) && a <= b < |run.states| && NoReload(run, a, b) && id in run.states[a].groups
    ensures id in run.states[b].groups && Advances(run.states[a].groups[id], run.states[b].groups[id])
    decreases b
  {
    hide Inv, Next, Load, Advances;
    if a == b {
      AdvancesReflexive(run.states[a].groups[id]);
    } else {
      AdvancesOver(run, a, b - 1, id);
      RunInv(run, b - 1);
      assert Leads(run, b - 1) && run.events[b - 1].Live?;
      StepFollows(run.states[b - 1], run.events[b - 1].step, id);
      AdvancesTransitive(run.states[a].groups[id], run.states[b - 1].groups[id], run.states[b].groups[id]);
    }
  }

  /** The same active members, in whatever order. */
  ghost predicate SameMembers(a: seq<Id>, b: seq<Id>) {
    forall x :: x in a <==> x in b
  }

  /** An applied commit was let through by every check. */
  lemma CommittedPasses(s: State, r: Request)
    requires Inv(s) && r.CommitRebalance? && Commit(s, r).outcome == REBALANCED
    ensures CommitPasses(s, r) && !IsClosed(s.groups[r.group].lifecycle)
  {
    hide Finish, Inv, IsClosed, LifecycleAllows;
    if Preamble(s, r, COMMIT_REBALANCE).Some? {
      RefusalIsNotAccepted(s, r, COMMIT_REBALANCE);
    } else if IsClosed(s.groups[r.group].lifecycle) {
      ClosedRefuses(s, r, COMMIT_REBALANCE);
    }
  }

  lemma MakesPlanEffect(run: Run, i: nat, id: Id)
    requires IsRun(run) && i < |run.events| && MakesPlan(run, i, id)
    ensures id in run.states[i].groups && id in run.states[i + 1].groups
    ensures var step := run.events[i].step;
            PlanMade(run.states[i].groups[id], run.states[i + 1].groups[id],
                     BoundTo(run.states[i].groups[id], run.states[i].epoch, step.request.authority))
  {
    hide Inv, Planning, PlanMade, Load;
    RunInv(run, i);
    assert Leads(run, i);
    var step := run.events[i].step;
    ServeIsPlanning(run.states[i], step.request, step.up);
    PlanningEffect(run.states[i], step.request, step.up);
  }

  /** A pending plan in an open group means its map is settled for its active members. */
  lemma PendingIsSettled(g: Group, limits: Limits)
    requires GroupOk(g, limits) && g.plan.Some? && !IsClosed(g.lifecycle)
    ensures Settled(g.owners, ActiveIds(g.members)) && Listed(ActiveIds(g.members))
    ensures 0 < |g.owners| && |ActiveIds(g.members)| <= |g.owners|
  {
    hide PlanOk, Settled, EntriesOk;
    ActiveListed(g.members);
    ActiveNotMoreThanDeclared(g.members);
  }

  /** While a plan whose assignment generation is still current is pending, the active members are those it was made
      for, at every moment. */
  lemma SteadyAt(run: Run, i: nat, j: nat, k: nat, id: Id)
    requires IsRun(run) && i < j <= k < |run.states| && PlanPending(run, i, k, id)
    requires run.states[k].groups[id].plan.Some? && !IsClosed(run.states[k].groups[id].lifecycle)
    requires id in run.states[i + 1].groups &&
             run.states[k].groups[id].assignmentGen == run.states[i + 1].groups[id].assignmentGen
    ensures id in run.states[j].groups
    ensures run.states[j].groups[id].owners == run.states[i + 1].groups[id].owners
    ensures SameMembers(ActiveIds(run.states[j].groups[id].members), ActiveIds(run.states[i + 1].groups[id].members))
  {
    hide Next, Load, Inv, GroupOk, IsClosed, Settled, Leads;
    var limits := run.states[0].limits;
    AdvancesOver(run, i + 1, j, id);
    AdvancesOver(run, j, k, id);
    forall n | i < n <= k ensures !IsClosed(run.states[n].groups[id].lifecycle) {
      if IsClosed(run.states[n].groups[id].lifecycle) { ClosedAt(run, n, k, id); }
    }
    GroupOfRun(run, i + 1, id);
    GroupOfRun(run, j, id);
    var g, g' := run.states[i + 1].groups[id], run.states[j].groups[id];
    PendingIsSettled(g, limits);
    PendingIsSettled(g', limits);
    MapDeterminesMembers(g.owners, ActiveIds(g'.members), ActiveIds(g.members));
  }

  lemma ClosedAt(run: Run, n: nat, k: nat, id: Id)
    requires IsRun(run) && n <= k < |run.states| && NoReload(run, n, k)
    requires id in run.states[n].groups && IsClosed(run.states[n].groups[id].lifecycle)
    ensures id in run.states[k].groups && IsClosed(run.states[k].groups[id].lifecycle)
  {
    hide IsRun;
    ClosedForGood(run, n, k, id);
  }

  lemma ServeIsCommit(s: State, r: Request, up: Upstream)
    requires r.CommitRebalance?
    ensures Serve(s, r, up) == Commit(s, r)
  {
    hide Commit;
  }

  lemma PassedPlan(s: State, r: Request)
    requires r.CommitRebalance? && CommitPasses(s, r)
    ensures r.group in s.groups
    ensures var g := s.groups[r.group];
            && g.plan.Some? && g.plan.value.fromMembership == g.membershipGen
            && g.plan.value.fromAssignment == g.assignmentGen && g.plan.value.fromAuthority == g.authorityGen
  {
    hide Preamble;
  }

  lemma MadeGeneration(run: Run, i: nat, k: nat, id: Id, bound: bool)
    requires i < k < |run.states| == |run.events| + 1 && PlanPending(run, i, k, id)
    requires id in run.states[i].groups && id in run.states[i + 1].groups
    requires PlanMade(run.states[i].groups[id], run.states[i + 1].groups[id], bound)
    requires run.states[k].groups[id].plan.Some?
    requires run.states[k].groups[id].plan.value.fromAssignment == run.states[k].groups[id].assignmentGen
    ensures run.states[k].groups[id].assignmentGen == run.states[i + 1].groups[id].assignmentGen
    ensures ActiveIds(run.states[i + 1].groups[id].members) == ActiveIds(run.states[i].groups[id].members)
  {
    assert i < i + 1 <= k;
    assert run.states[i + 1].groups[id].plan == run.states[k].groups[id].plan;
  }

  /** From state i to state k the group had the same active members, at every moment. */
  ghost predicate SteadyMembers(run: Run, i: nat, k: nat, id: Id)
    requires i <= k < |run.states|
  {
    && id in run.states[i].groups
    && forall j :: i <= j <= k ==>
         id in run.states[j].groups &&
         SameMembers(ActiveIds(run.states[j].groups[id].members), ActiveIds(run.states[i].groups[id].members))
  }

  /** The group had a plan at state k, and at state k + 1 it is exactly where that plan wanted it. */
  ghost predicate PlanExecuted(run: Run, k: nat, id: Id)
    requires k + 1 < |run.states|
  {
    && id in run.states[k].groups && run.states[k].groups[id].plan.Some? && id in run.states[k + 1].groups
    && LandedOn(run.states[k + 1].groups[id], run.states[k].groups[id].plan.value)
  }

  /** Whenever a commit is applied, its plan was made by an accepted plan request, and from that request to the commit
      the group never had any other active members, not even for a moment; the commit lands exactly on the plan. So when
      the active members change in between, even if they change back, the commit is never applied. */
  lemma CommitMeansSteadyMembers(run: Run, k: nat, id: Id) returns (i: nat)
    requires IsRun(run) && k < |run.events| && Commits(run, k, id)
    ensures i < k && MakesPlan(run, i, id) && PlanPending(run, i, k, id)
    ensures SteadyMembers(run, i, k, id) && PlanExecuted(run, k, id)
  {
    hide Inv, Commit, Load, CheckPlanCurrent, CommitPasses, PlanMade, LandedOn, Planning, Serve, IsClosed;
    RunInv(run, k);
    assert Leads(run, k);
    var r := run.events[k].step.request;
    ServeIsCommit(run.states[k], r, run.events[k].step.up);
    CommittedPasses(run.states[k], r);
    CommitLandsOnPlan(run.states[k], r);
    PassedPlan(run.states[k], r);
    i := PlanOrigin(run, k, id);
    MakesPlanEffect(run, i, id);
    MadeGeneration(run, i, k, id,
                   BoundTo(run.states[i].groups[id], run.states[i].epoch, run.events[i].step.request.authority));
    forall j | i <= j <= k
      ensures id in run.states[j].groups
      ensures SameMembers(ActiveIds(run.states[j].groups[id].members), ActiveIds(run.states[i].groups[id].members))
    {
      if j > i { SteadyAt(run, i, j, k, id); }
    }
  }

  /** A plan made by a publisher the group was not bound to can never be committed: the binding that the plan request
      itself brings about moves the authority generation past the one the plan remembers. */
  lemma UnboundPlanNeverCommits(run: Run, i: nat, k: nat, id: Id)
    requires IsRun(run) && i < k < |run.events| && MakesPlan(run, i, id) && id in run.states[i].groups
    requires !BoundTo(run.states[i].groups[id], run.states[i].epoch, run.events[i].step.request.authority)
    requires forall j :: i < j < k ==> !MakesPlan(run, j, id)
    ensures !Commits(run, k, id)
  {
    hide Inv, Next, Load, CommitPasses, LandedOn, IsClosed, SameMembers, PlannedBy, Leads;
    if Commits(run, k, id) {
      var made := CommitMeansSteadyMembers(run, k, id);
      MakesPlanEffect(run, i, id);
      assert made <= i;
      CommittedAuthority(run, k, id);
      AdvancesOver(run, i + 1, k, id);
    }
  }

  lemma CommittedAuthority(run: Run, k: nat, id: Id)
    requires IsRun(run) && k < |run.events| && Commits(run, k, id)
    ensures id in run.states[k].groups && run.states[k].groups[id].plan.Some?
    ensures run.states[k].groups[id].plan.value.fromAuthority == run.states[k].groups[id].authorityGen
  {
    hide Inv, Commit, Load, CommitPasses, IsClosed, Serve;
    RunInv(run, k);
    var r := run.events[k].step.request;
    ServeIsCommit(run.states[k], r, run.events[k].step.up);
    CommittedPasses(run.states[k], r);
    PassedPlan(run.states[k], r);
  }

  // ----- When a commit is applied -----

  /** A commit that the common checks let through is applied exactly when it names the pending plan and that plan is
      current. */
  lemma AppliedExactly(s: State, r: Request)
    requires Inv(s) && r.CommitRebalance? && Preamble(s, r, COMMIT_REBALANCE).None?
    ensures r.group in s.groups
    ensures var g := s.groups[r.group];
            Commit(s, r).outcome == REBALANCED <==> CheckPlan(g, r.plan).None? && CheckPlanCurrent(g).None?
  {
    hide Preamble, Commit, Inv, LandedOn, IsClosed, CheckPlanCurrent;
    PreambleFinds(s, r, COMMIT_REBALANCE);
    if CommitPasses(s, r) { CommitLandsOnPlan(s, r); }
    if Commit(s, r).outcome == REBALANCED { CommittedPasses(s, r); }
  }

  lemma PreambleFinds(s: State, r: Request, event: GroupEvent)
    requires Preamble(s, r, event).None?
    ensures r.group in s.groups
  {
  }

  /** Event k asks to commit plan p of group id, and the common checks let it through. */
  ghost predicate AsksToCommit(run: Run, k: nat, id: Id, p: PlanId)
    requires k < |run.events| < |run.states|
  {
    && run.events[k].Live? && run.events[k].step.OnRequest?
    && var r := run.events[k].step.request;
       r.CommitRebalance? && r.group == id && r.plan == p && Preamble(run.states[k], r, COMMIT_REBALANCE).None?
  }

  /** All three generations of the group stand where they stood. */
  predicate SameGenerations(g: Group, g': Group) {
    g'.membershipGen == g.membershipGen && g'.assignmentGen == g.assignmentGen && g'.authorityGen == g.authorityGen
  }

  lemma MadeIsCurrent(g0: Group, g1: Group, g: Group, bound: bool)
    requires PlanMade(g0, g1, bound) && g.plan == g1.plan && Advances(g1, g)
    ensures CheckPlanCurrent(g).None? <==> bound && SameGenerations(g1, g)
  {
    hide ActiveIds;
  }

  /** A commit of a pending plan is applied if and only if the group was bound to the planner when the plan was made and
      none of its generations moved since. */
  lemma CommitsExactly(run: Run, i: nat, k: nat, id: Id)
    requires IsRun(run) && i < k < |run.events| && MakesPlan(run, i, id) && PlanPending(run, i, k, id)
    requires run.states[k].groups[id].plan.Some? && AsksToCommit(run, k, id, run.states[k].groups[id].plan.value.id)
    ensures id in run.states[i].groups && id in run.states[i + 1].groups
    ensures Commits(run, k, id) <==>
            && BoundTo(run.states[i].groups[id], run.states[i].epoch, run.events[i].step.request.authority)
            && SameGenerations(run.states[i + 1].groups[id], run.states[k].groups[id])
  {
    hide Inv, Next, Load, CheckPlanCurrent, PlanMade, Advances, Preamble, BoundTo;
    MakesPlanEffect(run, i, id);
    AdvancesOver(run, i + 1, k, id);
    assert i < i + 1 <= k;
    var g0, g1, g := run.states[i].groups[id], run.states[i + 1].groups[id], run.states[k].groups[id];
    assert g1.plan == g.plan;
    MadeIsCurrent(g0, g1, g, BoundTo(g0, run.states[i].epoch, run.events[i].step.request.authority));
    CommitAt(run, k, id);
  }

  lemma CommitAt(run: Run, k: nat, id: Id)
    requires IsRun(run) && k < |run.events| && id in run.states[k].groups && run.states[k].groups[id].plan.Some?
    requires AsksToCommit(run, k, id, run.states[k].groups[id].plan.value.id)
    ensures Commits(run, k, id) <==> CheckPlanCurrent(run.states[k].groups[id]).None?
  {
    hide Inv, Serve, Load, CheckPlanCurrent, Preamble, Commit;
    RunInv(run, k);
    var r := run.events[k].step.request;
    ServeIsCommit(run.states[k], r, run.events[k].step.up);
    AppliedExactly(run.states[k], r);
  }

  /** A commit right after the plan request is applied if and only if the group was bound to the planner. */
  lemma CommitRightAfter(run: Run, i: nat, id: Id)
    requires IsRun(run) && i + 1 < |run.events| && MakesPlan(run, i, id)
    requires id in run.states[i + 1].groups && run.states[i + 1].groups[id].plan.Some?
    requires AsksToCommit(run, i + 1, id, run.states[i + 1].groups[id].plan.value.id)
    ensures id in run.states[i].groups
    ensures Commits(run, i + 1, id) <==>
            BoundTo(run.states[i].groups[id], run.states[i].epoch, run.events[i].step.request.authority)
  {
    hide IsRun, Next, MakesPlan, AsksToCommit, Commits, BoundTo;
    CommitsExactly(run, i, i + 1, id);
  }
}

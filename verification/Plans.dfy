/** What a plan promises: a commit that passes its generation checks lands exactly where the plan said. */
module Plans {
  import opened Prelude
  import opened Assignment
  import opened AssignmentProofs
  import opened Lifecycle
  import opened Records
  import opened Sorting
  import opened Groups
  import opened GroupProofs
  import opened TargetProofs
  import opened Governor
  import opened Invariants

  /** A target set in canonical order is left alone by sorting. */
  lemma SortedFixed(specs: seq<MemberSpec>)
    requires TargetOk(specs)
    ensures SortBy(SpecKey, specs) == specs
  {
    SpecKeysDistinct(specs);
    SortAscending(SpecKey, specs);
    forall x ensures x in SortBy(SpecKey, specs) <==> x in specs { SortElements(SpecKey, specs, x); }
    AscendingUnique(SpecKey, SortBy(SpecKey, specs), specs);
  }

  /** A commit gets past all its checks. */
  predicate CommitPasses(s: State, r: Request)
    requires r.CommitRebalance?
  {
    && Preamble(s, r, COMMIT_REBALANCE).None? && r.group in s.groups
    && CheckPlan(s.groups[r.group], r.plan).None? && CheckPlanCurrent(s.groups[r.group]).None?
  }

  /** The group is exactly where plan p wanted it. */
  ghost predicate LandedOn(g: Group, p: Plan) {
    && g.owners == p.assignment && g.membershipGen == p.targetMembership
    && DeclaredIds(g.members) == p.targetDigest == SpecIds(p.targetMembers)
    && ActiveIds(g.members) == EnabledIds(p.targetMembers)
    && g.plan.None?
  }

  /** Retargeting to the planned set yields the planned declared and active members. */
  lemma PlannedMembers(ms: seq<MemberEntry>, target: seq<MemberSpec>)
    requires EntriesOk(ms) && TargetOk(target)
    ensures var r := MapEntries(DeriveEntry, ApplyTarget(ms, target));
            DeclaredIds(r) == SpecIds(target) && ActiveIds(r) == EnabledIds(target)
  {
    hide ApplyTarget, SortBy;
    SortedFixed(target);
    TargetFacts(ms, target);
    DeriveIdempotent(ApplyTarget(ms, target));
  }

  /** The refresh of a commit whose plan is current lands on the plan. */
  lemma CommitRefreshLands(g: Group, c: Context, limits: Limits, f: Group)
    requires Loose(g, limits) && g.plan.Some? && CheckPlanCurrent(g).None? && c.recompute
    requires RefreshedFrom(Retargeted(g.(plan := None), g.plan.value.targetMembers), c, limits, f)
    ensures LandedOn(f, g.plan.value)
  {
    hide ApplyTarget, Rebalanced, Settled, Advances, EntriesOk, EnabledIds, SortBy;
    PlannedMembers(g.members, g.plan.value.targetMembers);
    var t := Retargeted(g.(plan := None), g.plan.value.targetMembers);
    assert f.members == MapEntries(DeriveEntry, ApplyTarget(g.members, g.plan.value.targetMembers));
    assert f.owners == Rebalanced(g.owners, ActiveIds(f.members));
    assert f.declaredDigest == DeclaredIds(f.members);
  }

  lemma LandedEvicted(f: Group, p: Plan, limits: Limits)
    requires LandedOn(f, p) && EntriesOk(f.members) && Derived(f.members)
    requires |DeclaredIds(f.members)| <= limits.maxMembersPerGroup
    ensures LandedOn(Evicted(f, limits), p)
  {
    EvictFacts(f.members, limits.maxMembersPerGroup);
  }

  lemma RefreshedIsDerived(g: Group, c: Context, limits: Limits, f: Group)
    requires RefreshedFrom(g, c, limits, f)
    ensures EntriesOk(f.members) && Derived(f.members) && DeclaredIds(f.members) == DeclaredIds(g.members)
  {
  }

  /** A commit that passes the three generation checks is applied, and the group then owns its buckets, declares its
      members and counts its membership exactly as planned. */
  lemma CommitLandsOnPlan(s: State, r: Request)
    requires Inv(s) && r.CommitRebalance? && CommitPasses(s, r)
    ensures var a, p := Commit(s, r), s.groups[r.group].plan.value;
            a.outcome == REBALANCED && r.group in a.state.groups && LandedOn(a.state.groups[r.group], p)
  {
    hide Preamble, Finish, Refresh, LifecycleAllows, StepOk, GroupOk, Loose, Inv, Retargeted, LandedOn, RefreshedFrom,
         EntriesOk, Derived, CheckPlan;
    Ready(s, r, COMMIT_REBALANCE);
    var g := s.groups[r.group];
    HasPlan(g, r.plan);
    var t := Retargeted(g.(plan := None), g.plan.value.targetMembers);
    var c := ContextFor(s, r.authority, ChangeReason.REBALANCE_COMMIT, COMMIT_REBALANCE);
    CommitReady(g, s.limits);
    RetargetedKeeps(g.(plan := None), g.plan.value.targetMembers);
    RefreshFacts(t, c, s.limits);
    FinishOk(s, g, t, c, r, REBALANCED);
    var f := Refresh(t, c, s.limits.maxHistory).group;
    RefreshedIsDerived(t, c, s.limits, f);
    CommitRefreshLands(g, c, s.limits, f);
    LandedEvicted(f, g.plan.value, s.limits);
    LandedOwners(Evicted(f, s.limits), g.plan.value);
    PlanDigests(g, s.limits);
  }

  lemma HasPlan(g: Group, plan: PlanId)
    requires CheckPlan(g, plan).None?
    ensures g.plan.Some? && g.plan.value.id == plan
  {
  }

  lemma LandedOwners(g: Group, p: Plan)
    requires LandedOn(g, p)
    ensures g.owners == p.assignment
  {
  }

  lemma PlanDigests(g: Group, limits: Limits)
    requires Loose(g, limits) && g.plan.Some?
    ensures g.plan.value.assignmentDigest == g.plan.value.assignment
  {
  }

  lemma RetargetedKeeps(g: Group, specs: seq<MemberSpec>)
    ensures var t := Retargeted(g, specs);
            t.id == g.id && t.plan == g.plan && t.lifecycle == g.lifecycle && t.successor == g.successor
  {
  }

  /** The branch that reports an internal error is dead. */
  lemma CommitNeverInternal(s: State, r: Request)
    requires Inv(s) && r.CommitRebalance?
    ensures Commit(s, r).outcome != INTERNAL_ERROR
  {
    hide Finish, Inv, LandedOn;
    if CommitPasses(s, r) { CommitLandsOnPlan(s, r); }
  }
}

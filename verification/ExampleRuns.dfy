/** The common beginning of the concrete runs: a publisher registers with an empty governor and creates a group with one
    member and two buckets. */
module ExampleRuns {
  import opened Prelude
  import opened Assignment
  import opened AssignmentProofs
  import opened Lifecycle
  import opened Records
  import opened Sorting
  import opened Groups
  import opened GroupProofs
  import opened TargetProofs
  import opened Governor
  import opened Invariants
  import opened Runs

  const LIMITS := Limits(4, 4, 16, 8, 8, 4, 4, 4, 4)
  const EMPTY_STATE := State(LIMITS, 1, map[], map[], {}, map[], [], map[])
  const FABRIC_ID: Id := 10
  const COST_CLASS: Id := 13
  const GROUP_ID: Id := 5
  const PUBLISHER: Id := 1
  const BOOT: Id := 2
  const REGISTRATION := Registration(PUBLISHER, BOOT, FABRIC(FABRIC_ID), 3, 7)
  const REGISTERED_STATE := EMPTY_STATE.(publishers := map[PUBLISHER := REGISTRATION])
  const KEY := GroupKey(FABRIC_ID, 11, 12, COST_CLASS)
  const OLD_BINDING := CostBinding(14, 1, 15, 1)
  const SPEC := MemberSpec(21, 20, 1, 1, CostClaim(COST_CLASS, OLD_BINDING, PathCost(5, 0), 18), 19, true)
  const NEWCOMER := MemberSpec(22, 23, 1, 1, CostClaim(COST_CLASS, OLD_BINDING, PathCost(5, 0), 18), 19, true)
  const CREATION := CreateGroup(AuthorityOf(PUBLISHER, BOOT, 30), GROUP_ID, KEY, DIRECT_PATH_SET, NIL, 0,
                                CostSemantics(COST_CLASS, OLD_BINDING), 16, 2, 1, [SPEC], 17)
  const PATHS := Upstream(map[20 := Observation(1, true), 23 := Observation(1, true)], map[], {})

  function AuthorityOf(publisher: Id, boot: Id, attempt: Id): Authority {
    Authority(1, publisher, boot, FABRIC(FABRIC_ID), attempt, None, None, None)
  }

  /** The group serves with its one member, which owns both buckets. */
  ghost predicate AsCreated(g: Group) {
    && g.id == GROUP_ID && g.key == KEY && g.source == DIRECT_PATH_SET && g.lifecycle == Active
    && g.currentness == CURRENT && g.semantics == CostSemantics(COST_CLASS, OLD_BINDING)
    && g.canonicalCost == PathCost(5, 0) && g.bucketCount == 2 && g.minActive == 1 && g.multipathSet == NIL
    && g.members == [FreshEntry(SPEC)] && g.owners == [21, 21] && g.declaredDigest == [21] && g.plan.None?
    && g.successor == NIL && g.publisher == PUBLISHER && g.boot == BOOT && g.boundEpoch == 1
  }

  lemma RegistersFirst()
    ensures Next(EMPTY_STATE, OnRegister(1, REGISTRATION)).state == REGISTERED_STATE
  {
  }

  lemma OneSpec()
    ensures CheckNewMembers(PATHS, CREATION, 0).None? && EnabledCount(CREATION.members) == 1
    ensures Listed(SpecIds(CREATION.members))
  {
    assert CREATION.members == [SPEC];
    assert SpecIds(CREATION.members) == [21];
    assert CheckNewMembers(PATHS, CREATION, 1).None?;
    assert CREATION.members[..0] == [];
  }

  lemma CreationPasses()
    ensures Authorize(REGISTERED_STATE, CREATION.authority, MUTATE_GROUP, GROUP_ID).None?
    ensures HandleAttempt(REGISTERED_STATE, CREATION.authority, PayloadOf(CREATION)).None?
    ensures CheckCreation(REGISTERED_STATE, CREATION).None?
  {
    assert Total(REGISTERED_STATE.groups) == 0;
  }

  lemma CreationLimits()
    ensures CREATION.CreateGroup? && |CREATION.members| == 1 && CREATION.group == GROUP_ID
    ensures 0 < |CREATION.members| <= CREATION.bucketCount && |CREATION.members| <= LIMITS.maxMembersPerGroup
    ensures 0 < CREATION.bucketCount <= LIMITS.maxBuckets && 0 < CREATION.minActive <= LIMITS.maxMembersPerGroup
    ensures LIMITS.Coherent()
  {
  }

  lemma OnlyEntry()
    ensures SortBy(EntryKey, FreshEntries([SPEC])) == [FreshEntry(SPEC)]
    ensures MapEntries(DeriveEntry, [FreshEntry(SPEC)]) == [FreshEntry(SPEC)]
    ensures ActiveIds([FreshEntry(SPEC)]) == [21] && DeclaredIds([FreshEntry(SPEC)]) == [21]
  {
    var raw := FreshEntries([SPEC]);
    assert raw == [FreshEntry(SPEC)] && raw[..0] == [];
    assert ActiveIds(raw[..0]) == [] && DeclaredIds(raw[..0]) == [];
  }

  lemma OwnsBoth(q: seq<Id>)
    requires |q| == 2 && HasShares(q, [21])
    ensures q == [21, 21]
  {
    assert q[0] in [21] && q[1] in [21];
  }

  /** The group a creation starts from, as far as its refresh keeps it. */
  ghost predicate AsNew(g: Group) {
    && g.id == GROUP_ID && g.key == KEY && g.source == DIRECT_PATH_SET && g.lifecycle == Declared
    && g.currentness == CURRENT && g.semantics == CostSemantics(COST_CLASS, OLD_BINDING)
    && g.canonicalCost == PathCost(5, 0) && g.bucketCount == 2 && g.minActive == 1 && g.multipathSet == NIL
    && g.members == [FreshEntry(SPEC)] && g.plan.None? && g.successor == NIL
    && g.publisher == PUBLISHER && g.boot == BOOT && g.boundEpoch == 1
  }

  lemma NewGroupIs()
    ensures CREATION.CreateGroup? && AsNew(NewGroup(REGISTERED_STATE, CREATION))
  {
    hide SortBy;
    OnlyEntry();
  }

  lemma RefreshedAsCreated(g: Group, c: Context, f: Group)
    requires AsNew(g) && RefreshedFrom(g, c, LIMITS, f) && c.recompute
    requires Some(f.lifecycle) == ApplyGroupEvent(g.lifecycle, GroupEvent.ADD_MEMBER, InputsOf(f))
    requires f.publisher == PUBLISHER && f.boot == BOOT && f.boundEpoch == 1
    ensures AsCreated(f)
  {
    hide DeclaredIds, ActiveIds, Rebalanced, HasShares, PlanOk, EntriesOk, Derived;
    OnlyEntry();
    OwnsBoth(f.owners);
  }

  lemma CreatedGroup()
    ensures CREATION.CreateGroup?
    ensures var f := Refresh(NewGroup(REGISTERED_STATE, CREATION),
                             ContextFor(REGISTERED_STATE, CREATION.authority, ChangeReason.CREATE,
                                        GroupEvent.ADD_MEMBER), LIMITS.maxHistory);
            f.ok && AsCreated(f.group) && f.group.id == GROUP_ID
  {
    hide Refresh, Loose, DeclaredIds, SortBy, GroupOk, CheckNewMembers, ActiveIds, Rebalanced, HasShares, RefreshedFrom,
         FinishedFrom, NewGroup;
    var c := ContextFor(REGISTERED_STATE, CREATION.authority, ChangeReason.CREATE, GroupEvent.ADD_MEMBER);
    OneSpec();
    CreationLimits();
    NewGroupIs();
    NewGroupLoose(REGISTERED_STATE, CREATION);
    var g := NewGroup(REGISTERED_STATE, CREATION);
    RefreshFacts(g, c, LIMITS);
    RefreshBinding(g, c, LIMITS.maxHistory);
    RefreshedAsCreated(g, c, Refresh(g, c, LIMITS.maxHistory).group);
  }

  lemma Created() returns (s: State)
    ensures s == Next(REGISTERED_STATE, OnRequest(CREATION, PATHS)).state
    ensures s.groups.Keys == {GROUP_ID} && AsCreated(s.groups[GROUP_ID])
    ensures SameAuthority(REGISTERED_STATE, s) && s.attempts.Keys == {30} && s.order == [30]
  {
    hide Refresh, CheckCreation, CheckNewMembers, EnabledCount, Authorize, HandleAttempt, NewGroup, AsCreated, ContextFor,
         PayloadOf;
    OneSpec();
    CreationLimits();
    CreationPasses();
    CreatedGroup();
    ServesCreation(REGISTERED_STATE);
    s := Create(REGISTERED_STATE, CREATION, PATHS).state;
  }

  lemma ServesCreation(s: State)
    ensures Next(s, OnRequest(CREATION, PATHS)).state == Create(s, CREATION, PATHS).state
  {
    hide Create;
  }

  // ----- Runs, step by step -----

  /** A run goes on with any step. */
  function Extended(run: Run, step: Step, s: State): Run {
    Run(run.states + [s], run.events + [Live(step)])
  }

  lemma ExtendedRun(run: Run, step: Step, last: State)
    requires IsRun(run) && run.states[|run.events|] == last
    ensures IsRun(Extended(run, step, Next(last, step).state))
  {
    hide Next, Load, Blank;
    var longer := Extended(run, step, Next(last, step).state);
    forall i | 0 <= i < |longer.events| ensures Leads(longer, i) {
      if i < |run.events| {
        assert Leads(run, i);
        assert longer.events[i] == run.events[i] && longer.states[i + 1] == run.states[i + 1];
      }
    }
  }

  lemma EmptyRun()
    ensures IsRun(Run([EMPTY_STATE], []))
  {
  }

  lemma StateOfRun(run: Run, s: State)
    requires IsRun(run) && run.states[|run.events|] == s
    ensures Inv(s)
  {
    hide Inv;
    RunInv(run, |run.events|);
  }

  /** A registration and a creation. */
  lemma CreatedRun() returns (run: Run, s: State)
    ensures IsRun(run) && |run.events| == 2 && |run.states| == 3 && run.states[2] == s && Inv(s)
    ensures s.groups.Keys == {GROUP_ID} && AsCreated(s.groups[GROUP_ID])
    ensures SameAuthority(REGISTERED_STATE, s) && s.attempts.Keys == {30} && s.order == [30]
  {
    hide Next, AsCreated, Inv, IsRun;
    EmptyRun();
    RegistersFirst();
    var run1 := Extended(Run([EMPTY_STATE], []), OnRegister(1, REGISTRATION), REGISTERED_STATE);
    ExtendedRun(Run([EMPTY_STATE], []), OnRegister(1, REGISTRATION), EMPTY_STATE);
    s := Created();
    run := Extended(run1, OnRequest(CREATION, PATHS), s);
    ExtendedRun(run1, OnRequest(CREATION, PATHS), REGISTERED_STATE);
    StateOfRun(run, s);
  }
}

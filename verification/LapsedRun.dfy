/** A concrete run in which a group loses its map although nothing about its member changed: its publisher is fenced and
    comes back with a new boot, and a path notice arrives before the revalidation. */
module LapsedRun {
  import opened Prelude
  import opened Assignment
  import opened Lifecycle
  import opened Records
  import opened Groups
  import opened GroupProofs
  import opened Governor
  import opened Invariants
  import opened Runs
  import opened Recovery
  import opened Disturbance
  import opened ExampleRuns

  const NEW_BOOT: Id := 3
  const NEW_REGISTRATION := REGISTRATION.(boot := NEW_BOOT)
  const NOTICE := PathNotice(1, PUBLISHER, NEW_BOOT, 20)

  /** The group has its map and its member, whose proofs are gone. */
  ghost predicate AsLapsed(g: Group) {
    && g.id == GROUP_ID && g.key == KEY && !IsClosed(g.lifecycle) && g.bucketCount == 2 && g.owners == [21, 21]
    && |g.members| == 1 && g.members[0].record.declared && g.members[0].record.path == 20
    && g.members[0].record.pathAuthority == 1 && AllUnproven(g.members)
  }

  lemma FencedIsLapsed(g: Group)
    requires GroupOk(g, LIMITS) && AsCreated(g)
    ensures AsLapsed(FencedGroup(g, PUBLISHER, BOOT, 1, LIMITS.maxHistory))
  {
    var lapsed := g.(currentness := g.currentness.(fenced := true, revalidation := true), plan := None,
                     members := MapEntries(Unproven, g.members));
    var c := LapseContext(g, EPOCH_INVALIDATION, PUBLISHER, BOOT, 1);
    OkIsLoose(g, LIMITS);
    LapsesProveNothing(g, PUBLISHER, BOOT, 1, LIMITS.maxHistory);
    hide GroupOk, Refresh, ApplyGroupEvent, LifecycleAllows, DeriveLifecycle;
    LedgerKeepsLoose(g, lapsed, LIMITS);
    InvalidationDerives(g.lifecycle, c.event, InputsOf(Refresh(lapsed, c, LIMITS.maxHistory).group));
    DeriveStaysOpen(InputsOf(Refresh(lapsed, c, LIMITS.maxHistory).group));
    hide Loose, AllUnproven;
    RefreshFacts(lapsed, c, LIMITS);
  }

  lemma Fenced(s: State) returns (s': State)
    requires Inv(s) && s.groups.Keys == {GROUP_ID} && AsCreated(s.groups[GROUP_ID]) && SameAuthority(REGISTERED_STATE, s)
    ensures s' == Next(s, OnFence(PUBLISHER, BOOT)).state && s'.groups.Keys == {GROUP_ID}
    ensures AsLapsed(s'.groups[GROUP_ID]) && s'.publishers == map[] && s'.fenced == {BOOT} && s'.epoch == 1
    ensures s'.limits == LIMITS
  {
    hide FencedGroup, Inv, AsLapsed, GroupOk;
    InOrder(s);
    FencedIsLapsed(s.groups[GROUP_ID]);
    s' := Next(s, OnFence(PUBLISHER, BOOT)).state;
  }

  lemma InOrder(s: State)
    requires Inv(s) && GROUP_ID in s.groups
    ensures GroupOk(s.groups[GROUP_ID], s.limits)
  {
    hide GroupOk;
  }

  lemma Returned(s: State) returns (s': State)
    requires s.publishers == map[] && s.fenced == {BOOT} && s.epoch == 1 && s.limits == LIMITS
    ensures s' == Next(s, OnRegister(1, NEW_REGISTRATION)).state
    ensures s' == s.(publishers := map[PUBLISHER := NEW_REGISTRATION])
  {
    s' := s.(publishers := map[PUBLISHER := NEW_REGISTRATION]);
  }

  lemma NoticeDisturbs(s: State)
    requires s.groups.Keys == {GROUP_ID} && AsLapsed(s.groups[GROUP_ID]) && s.fenced == {BOOT} && s.epoch == 1
    requires s.publishers == map[PUBLISHER := NEW_REGISTRATION]
    ensures Disturbs(s, OnNotice(NOTICE, PATHS), GROUP_ID)
  {
    hide AllUnproven, IsClosed;
    var g := s.groups[GROUP_ID];
    assert DeclaresPath(g, 20);
    assert AuthorizeUpstream(s, 1, PUBLISHER, NEW_BOOT).None?;
    assert OnPath(g.members[0], 20) && PathProven(PATHS, g.members[0]) && !g.members[0].pathCurrent by {
      OnlyUnproven(g.members);
    }
    assert News(PATHS, NOTICE, g);
  }

  lemma OnlyUnproven(ms: seq<MemberEntry>)
    requires |ms| == 1 && AllUnproven(ms)
    ensures !ms[0].pathCurrent
  {
  }

  lemma MapIsLost(s: State)
    requires Inv(s) && s.limits == LIMITS && s.groups.Keys == {GROUP_ID} && AsLapsed(s.groups[GROUP_ID])
    requires Disturbs(s, OnNotice(NOTICE, PATHS), GROUP_ID)
    ensures var s' := Next(s, OnNotice(NOTICE, PATHS)).state;
            GROUP_ID in s'.groups && s'.groups[GROUP_ID].owners == [NIL, NIL]
  {
    hide NoticeGroup, Concerns, AllUnproven, Inv, AuthorizeUpstream, GroupOk;
    InOrder(s);
    NoticeAfterLapse(s, PATHS, NOTICE, s.groups[GROUP_ID]);
    assert NoOwners(2) == [NIL, NIL];
  }

  /** Five ordinary steps: registration, creation, fence, registration with a new boot, and a notice that confirms the
      path of the only member. After the fence the group still has its map; the notice empties it. */
  lemma MapLostBeforeRevalidation() returns (run: Run)
    ensures IsRun(run) && |run.events| == 5 && forall i :: 2 <= i <= 5 ==> GROUP_ID in run.states[i].groups
    ensures run.states[2].groups[GROUP_ID].lifecycle.Active?
    ensures SameMap(run.states[2].groups[GROUP_ID], run.states[4].groups[GROUP_ID])
    ensures run.states[4].groups[GROUP_ID].owners == [21, 21] && AllUnproven(run.states[3].groups[GROUP_ID].members)
    ensures Disturbed(run, 3, 5, GROUP_ID) && run.states[5].groups[GROUP_ID].owners == [NIL, NIL]
  {
    hide Next, AsCreated, AsLapsed, Inv, IsRun, Disturbs, SameMap, AllUnproven;
    var run2, s2 := CreatedRun();
    var s3 := Fenced(s2);
    var run3 := Extended(run2, OnFence(PUBLISHER, BOOT), s3);
    ExtendedRun(run2, OnFence(PUBLISHER, BOOT), s2);
    var s4 := Returned(s3);
    var run4 := Extended(run3, OnRegister(1, NEW_REGISTRATION), s4);
    ExtendedRun(run3, OnRegister(1, NEW_REGISTRATION), s3);
    StateOfRun(run4, s4);
    NoticeDisturbs(s4);
    MapIsLost(s4);
    var s5 := Next(s4, OnNotice(NOTICE, PATHS)).state;
    run := Extended(run4, OnNotice(NOTICE, PATHS), s5);
    ExtendedRun(run4, OnNotice(NOTICE, PATHS), s4);
    LapsedFacts(s2.groups[GROUP_ID], s3.groups[GROUP_ID]);
    LapsedFacts(s2.groups[GROUP_ID], s4.groups[GROUP_ID]);
    FirstLapses(run);
    assert !Disturbed(run, 3, 3, GROUP_ID);
    assert Disturbed(run, 3, 5, GROUP_ID);
  }

  lemma LapsedFacts(created: Group, g: Group)
    requires AsCreated(created) && AsLapsed(g)
    ensures created.lifecycle.Active? && g.owners == [21, 21] && AllUnproven(g.members)
  {
  }

  lemma FirstLapses(run: Run)
    requires IsRun(run) && |run.events| == 5 && |run.states| == 6 && run.events[2] == Live(OnFence(PUBLISHER, BOOT))
    requires run.events[3] == Live(OnRegister(1, NEW_REGISTRATION)) && GROUP_ID in run.states[2].groups
    ensures GROUP_ID in run.states[4].groups
    ensures SameMap(run.states[2].groups[GROUP_ID], run.states[4].groups[GROUP_ID])
  {
    hide IsRun, SameMap;
    LapsesKeepTheMap(run, 2, 4, GROUP_ID);
  }
}

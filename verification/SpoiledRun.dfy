/** A concrete run that ends in a state its own reader refuses: a revalidation names a new cost policy with a claim that
    lacks its cost model, is refused, and leaves the incomplete terms behind. */
module SpoiledRun {
  import opened Prelude
  import opened Assignment
  import opened Lifecycle
  import opened Records
  import opened Groups
  import opened GroupProofs
  import opened Governor
  import opened Invariants
  import opened Runs
  import opened Durable
  import opened DurableSteps
  import opened DurableRuns
  import opened ExampleRuns

  const NEW_POLICY := CostNotice(1, PUBLISHER, BOOT, COST_CLASS, 2)

  /** The claim of the new policy has no cost model. */
  const BROKEN_CLAIM := CostClaim(COST_CLASS, CostBinding(NIL, 1, 15, 2), PathCost(5, 0), 18)
  const REVALIDATION_REQUEST := Revalidate(AuthorityOf(PUBLISHER, BOOT, 31), GROUP_ID,
                                           [MemberRevalidation(21, 0, Some(BROKEN_CLAIM))], None)

  /** The group is open, has its one member, and is bound to the old cost policy. */
  ghost predicate InPlace(g: Group) {
    && g.id == GROUP_ID && g.key == KEY && g.semantics == CostSemantics(COST_CLASS, OLD_BINDING)
    && !IsClosed(g.lifecycle) && |DeclaredIds(g.members)| == 1
  }

  lemma CreatedInPlace(g: Group)
    requires AsCreated(g)
    ensures InPlace(g)
  {
    hide DeclaredIds;
    OnlyEntry();
  }

  /** A refresh under an event that ends nothing leaves the group in place. */
  lemma RefreshedInPlace(g: Group, c: Context, limits: Limits)
    requires Loose(g, limits) && LifecycleAllows(g.lifecycle, c.event) && !EndsGroup(c.event) && !c.event.WITHDRAW?
    requires InPlace(g)
    ensures InPlace(Refresh(g, c, limits.maxHistory).group)
  {
    RefreshFacts(g, c, limits);
    EventTarget(g.lifecycle, c.event, InputsOf(Refresh(g, c, limits.maxHistory).group));
    hide Loose, Refresh, ApplyGroupEvent, LifecycleAllows, Advances;
  }

  lemma Noticed(s: State) returns (s': State)
    requires Inv(s) && s.groups.Keys == {GROUP_ID} && InPlace(s.groups[GROUP_ID]) && s.limits == LIMITS
    requires s.epoch == 1 && s.publishers == map[PUBLISHER := REGISTRATION] && s.fenced == {}
    ensures s' == Notify(s, NEW_POLICY, PATHS).state && s'.groups.Keys == {GROUP_ID} && InPlace(s'.groups[GROUP_ID])
    ensures COST_CLASS in s'.costPolicy && s'.costPolicy[COST_CLASS] == 2 && s'.attempts == s.attempts
    ensures s'.epoch == s.epoch && s'.publishers == s.publishers && s'.fenced == s.fenced && s'.limits == s.limits
  {
    GroupInOrder(s);
    NoticedInPlace(s, s.groups[GROUP_ID]);
    NoticeAdmitted(s);
    hide NoticeGroup, Inv, InPlace, AuthorizeUpstream;
    s' := Notify(s, NEW_POLICY, PATHS).state;
  }

  lemma NoticeAdmitted(s: State)
    requires s.epoch == 1 && s.publishers == map[PUBLISHER := REGISTRATION] && s.fenced == {}
    ensures AuthorizeUpstream(s, 1, PUBLISHER, BOOT).None?
  {
  }

  lemma GroupInOrder(s: State)
    requires Inv(s) && GROUP_ID in s.groups
    ensures GroupOk(s.groups[GROUP_ID], s.limits)
  {
    hide GroupOk;
  }

  lemma NoticedInPlace(s: State, g: Group)
    requires GroupOk(g, s.limits) && InPlace(g)
    ensures InPlace(NoticeGroup(s, PATHS, NEW_POLICY, g).group)
  {
    hide GroupOk, Loose, Refresh, LifecycleAllows, DeclaredIds, IsClosed;
    OkIsLoose(g, s.limits);
    OpenAcceptsInvalidation(g.lifecycle, INVALIDATE_COST);
    var ms := MapEntries(CostStale, g.members);
    FlagsKeepLoose(g, ms, s.limits);
    SameDeclared(g.members, ms);
    var flagged := g.(members := ms, currentness := g.currentness.(staleCost := true));
    LooseIgnoresBits(g.(members := ms), flagged, s.limits);
    RefreshedInPlace(flagged, NoticeContext(COST_INVALIDATION, INVALIDATE_COST, PUBLISHER, BOOT, s.epoch), s.limits);
  }

  lemma LooseIgnoresBits(g: Group, g': Group, limits: Limits)
    requires Loose(g, limits) && g' == g.(currentness := g'.currentness)
    ensures Loose(g', limits)
  {
  }

  lemma OneClaim()
    ensures Claims(REVALIDATION_REQUEST.updates) == [BROKEN_CLAIM] && !RepeatsMember(REVALIDATION_REQUEST.updates)
  {
    assert REVALIDATION_REQUEST.updates[..0] == [];
  }

  lemma SpoilsTheGroup(s: State)
    requires s.groups.Keys == {GROUP_ID} && InPlace(s.groups[GROUP_ID]) && s.limits == LIMITS && s.attempts.Keys == {30}
    requires s.epoch == 1 && s.publishers == map[PUBLISHER := REGISTRATION] && s.fenced == {}
    requires COST_CLASS in s.costPolicy && s.costPolicy[COST_CLASS] == 2
    ensures Spoils(s, REVALIDATION_REQUEST)
  {
    var g := s.groups[GROUP_ID];
    OneClaim();
    OpenAcceptsInvalidation(g.lifecycle, GroupEvent.REVALIDATE);
    hide IsClosed, LifecycleAllows, Claims, RepeatsMember, DeclaredIds;
    assert 31 !in s.attempts;
    assert Preamble(s, REVALIDATION_REQUEST, GroupEvent.REVALIDATE).None?;
  }

  /** Four ordinary steps from an empty governor to a state that cannot be loaded again. */
  lemma SpoiledRunExists() returns (run: Run)
    ensures IsRun(run) && |run.events| == 4 && SpoilsAt(run, 3) && !AllReadable(run.states[4])
  {
    hide Next, Notify, AsCreated, InPlace, Inv, IsRun, SpoilingStep, AllReadable, Spoils;
    var run2, s2 := CreatedRun();
    CreatedInPlace(s2.groups[GROUP_ID]);
    var s3 := Noticed(s2);
    NoticesPolicy(s2);
    var run3 := Extended(run2, OnNotice(NEW_POLICY, PATHS), s3);
    ExtendedRun(run2, OnNotice(NEW_POLICY, PATHS), s2);
    SpoilsTheGroup(s3);
    var s4 := Next(s3, OnRequest(REVALIDATION_REQUEST, PATHS)).state;
    run := Extended(run3, OnRequest(REVALIDATION_REQUEST, PATHS), s4);
    ExtendedRun(run3, OnRequest(REVALIDATION_REQUEST, PATHS), s3);
    SpoiledUnreadable(run3, s3);
    SpoilsNow(run, s3);
  }

  lemma NoticesPolicy(s: State)
    ensures Next(s, OnNotice(NEW_POLICY, PATHS)) == Notify(s, NEW_POLICY, PATHS)
  {
    hide Notify;
  }

  lemma SpoilsNow(run: Run, s: State)
    requires |run.events| == 4 && |run.states| == 5 && run.states[3] == s && Spoils(s, REVALIDATION_REQUEST)
    requires run.events[3] == Live(OnRequest(REVALIDATION_REQUEST, PATHS))
    ensures SpoilsAt(run, 3)
  {
    hide Spoils;
  }

  lemma SpoiledUnreadable(run: Run, s: State)
    requires |run.states| == |run.events| + 1 && IsRun(run) && run.states[|run.events|] == s
    requires Spoils(s, REVALIDATION_REQUEST)
    ensures !AllReadable(Next(s, OnRequest(REVALIDATION_REQUEST, PATHS)).state)
  {
    hide IsRun, Serve, Revalidation, Complete, LastingBut, Savable, Priced;
    RunSavable(run, |run.events|);
    assert Adopts(s, REVALIDATION_REQUEST) && !Complete(REVALIDATION_REQUEST);
    hide Adopts;
    RevalidationTerms(s, REVALIDATION_REQUEST, PATHS);
    ServesRevalidation(s);
    KeysKept(s, Revalidation(s, REVALIDATION_REQUEST, PATHS).state, GROUP_ID);
  }

  lemma ServesRevalidation(s: State)
    ensures Next(s, OnRequest(REVALIDATION_REQUEST, PATHS)).state == Revalidation(s, REVALIDATION_REQUEST, PATHS).state
  {
    hide Revalidation;
  }

  lemma KeysKept(s: State, s': State, id: Id)
    requires LastingBut(s, s', id)
    ensures s'.groups.Keys == s.groups.Keys
  {
  }
}

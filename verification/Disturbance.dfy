/** Notices between a lapse and the revalidation: exactly which ones empty the map that the lapse had kept. */
module Disturbance {
  import opened Prelude
  import opened Assignment
  import opened AssignmentProofs
  import opened Lifecycle
  import opened Records
  import opened Groups
  import opened GroupProofs
  import opened Governor
  import opened Invariants
  import opened Runs
  import opened Endings
  import opened PlanRuns
  import opened Recovery

  // ----- Which notices refresh a group -----

  /** The path authority vouches for the path of the entry as it is recorded. */
  predicate PathProven(up: Upstream, e: MemberEntry) {
    && e.record.path in up.paths && up.paths[e.record.path].authorized
    && up.paths[e.record.path].generation == e.record.pathAuthority
  }

  predicate OnPath(e: MemberEntry, path: Id) { e.record.declared && e.record.path == path }

  /** What is known of the path of an entry after a notice about `path`. */
  predicate KnownPath(up: Upstream, path: Id, e: MemberEntry) {
    if OnPath(e, path) then PathProven(up, e) else e.pathCurrent
  }

  /** A notice tells the group something new: the proof of some member changes, or the recorded cause of staleness is
      not the one that the observation yields. */
  ghost predicate News(up: Upstream, n: Notice, g: Group) {
    match n
    case PathNotice(_, _, _, path) =>
      || (exists i :: 0 <= i < |g.members| && OnPath(g.members[i], path) &&
                      PathProven(up, g.members[i]) != g.members[i].pathCurrent)
      || g.currentness.stalePath !=
         exists i :: 0 <= i < |g.members| && g.members[i].record.declared && !KnownPath(up, path, g.members[i])
    case MultipathNotice(_, _, _, _) =>
      g.source.MULTIPATH_FABRIC? && g.currentness.staleMultipath != MultipathIsStale(up, g)
    case CostNotice(_, _, _, _, generation) =>
      g.currentness.staleCost != (g.semantics.binding.policyGeneration != generation)
  }

  /** A notice that depends on the group, comes from a registered publisher whose scope covers it, finds it open and
      tells it something new. */
  ghost predicate Concerns(s: State, up: Upstream, n: Notice, g: Group) {
    && DependsOn(g, n) && n.publisher in s.publishers && s.publishers[n.publisher].scope.Covers(g.key, g.id)
    && !IsClosed(g.lifecycle) && News(up, n, g)
  }

  /** A path notice refreshes a group exactly when it tells it something new. */
  lemma PathNews(up: Upstream, n: Notice, g: Group, c: Context, maxHistory: nat)
    requires n.PathNotice?
    ensures NoticePath(up, n.path, g, c, maxHistory).affected <==> News(up, n, g)
  {
    hide Refresh;
    var ms := MapEntries(e => NoticePathEntry(up, n.path, e), g.members);
    forall i | 0 <= i < |ms|
      ensures ms[i].pathCurrent == KnownPath(up, n.path, g.members[i])
      ensures ms[i].record.declared == g.members[i].record.declared
    {
      assert ms[i] == NoticePathEntry(up, n.path, g.members[i]);
    }
    if exists i :: 0 <= i < |ms| && ms[i].pathCurrent != g.members[i].pathCurrent {
      var i :| 0 <= i < |ms| && ms[i].pathCurrent != g.members[i].pathCurrent;
      assert OnPath(g.members[i], n.path);
    }
  }

  /** The groups a notice refreshes are exactly those it concerns. */
  lemma AffectedExactly(s: State, up: Upstream, n: Notice, g: Group)
    ensures NoticeGroup(s, up, n, g).affected <==> Concerns(s, up, n, g)
  {
    hide Refresh, MultipathIsStale, DependsOn, NoticePath;
    match n
    case PathNotice(_, p, b, path) =>
      PathNews(up, n, g, NoticeContext(PATH_INVALIDATION, INVALIDATE_PATH, p, b, s.epoch), s.limits.maxHistory);
    case MultipathNotice(_, _, _, _) =>
    case CostNotice(_, _, _, _, _) =>
  }

  /** A notice that does not concern a group leaves its map, its places and its proofs as they were. */
  lemma UnconcernedKeeps(s: State, up: Upstream, n: Notice, g: Group)
    requires !Concerns(s, up, n, g)
    ensures var g' := NoticeGroup(s, up, n, g).group;
            SameMap(g, g') && (AllUnproven(g.members) ==> AllUnproven(g'.members))
  {
    hide Refresh, MultipathIsStale, DependsOn, Concerns;
    AffectedExactly(s, up, n, g);
  }

  // ----- A refresh without proofs empties the map -----

  /** A notice speaks of one kind of proof only, so it makes nobody active who had no proof at all. */
  ghost predicate MissesProof(ms: seq<MemberEntry>) {
    forall i :: 0 <= i < |ms| ==> !ms[i].UpstreamCurrent()
  }

  lemma NobodyWithoutProof(ms: seq<MemberEntry>)
    requires MissesProof(ms)
    ensures ActiveIds(MapEntries(DeriveEntry, ms)) == []
  {
    NobodyActive(MapEntries(DeriveEntry, ms));
  }

  /** A recomputing refresh of an open group that nobody can be active in empties its map. */
  lemma RefreshEmptiesMap(g: Group, g': Group, c: Context, limits: Limits)
    requires GroupOk(g, limits) && !IsClosed(g.lifecycle) && SamePlaces(g.members, g'.members) && MissesProof(g'.members)
    requires forall i :: 0 <= i < |g.members| ==> g'.members[i].record.declared == g.members[i].record.declared
    requires g' == g.(members := g'.members, currentness := g'.currentness)
    requires IsInvalidation(c.event) && c.recompute
    ensures Refresh(g', c, limits.maxHistory).group.owners == NoOwners(g.bucketCount)
  {
    OkIsLoose(g, limits);
    OpenAcceptsInvalidation(g.lifecycle, c.event);
    hide GroupOk, Refresh, LifecycleAllows, ApplyGroupEvent;
    LedgerKeepsLoose(g, g', limits);
    RefreshFacts(g', c, limits);
    NobodyWithoutProof(g'.members);
    hide Loose;
  }

  function NoOwners(count: nat): seq<Id> { seq(count, _ => NIL) }

  /** A notice that concerns a group without any proofs empties its map. */
  lemma ConcernedLosesTheMap(s: State, up: Upstream, n: Notice, g: Group)
    requires GroupOk(g, s.limits) && AllUnproven(g.members) && NoticeGroup(s, up, n, g).affected
    ensures NoticeGroup(s, up, n, g).group.owners == NoOwners(g.bucketCount)
  {
    hide GroupOk, Refresh, AnyPathStale, MultipathIsStale, DependsOn;
    match n
    case PathNotice(_, p, b, path) =>
      var ms := MapEntries(e => NoticePathEntry(up, path, e), g.members);
      RefreshEmptiesMap(g, g.(members := ms, currentness := g.currentness.(stalePath := AnyPathStale(ms))),
                        NoticeContext(PATH_INVALIDATION, INVALIDATE_PATH, p, b, s.epoch), s.limits);
    case MultipathNotice(_, p, b, _) =>
      var stale := MultipathIsStale(up, g);
      var ms := if stale then MapEntries(MultipathStale, g.members) else MapEntries(MultipathProven, g.members);
      RefreshEmptiesMap(g, g.(members := ms, currentness := g.currentness.(staleMultipath := stale)),
                        NoticeContext(MULTIPATH_INVALIDATION, INVALIDATE_MULTIPATH, p, b, s.epoch), s.limits);
    case CostNotice(_, p, b, _, generation) =>
      var stale := g.semantics.binding.policyGeneration != generation;
      var ms := if stale then MapEntries(CostStale, g.members) else MapEntries(CostProven, g.members);
      RefreshEmptiesMap(g, g.(members := ms, currentness := g.currentness.(staleCost := stale)),
                        NoticeContext(COST_INVALIDATION, INVALIDATE_COST, p, b, s.epoch), s.limits);
  }

  /** Before it is revalidated, a group whose proofs have lapsed keeps its map over a notice if and only if the notice
      does not concern it, or there is no map to lose. */
  lemma NoticeAfterLapse(s: State, up: Upstream, n: Notice, g: Group)
    requires GroupOk(g, s.limits) && AllUnproven(g.members)
    ensures NoticeGroup(s, up, n, g).group.owners == g.owners <==>
            !Concerns(s, up, n, g) || g.owners == NoOwners(g.bucketCount)
    ensures Concerns(s, up, n, g) ==> NoticeGroup(s, up, n, g).group.owners == NoOwners(g.bucketCount)
  {
    hide GroupOk, NoticeGroup, Concerns, AllUnproven;
    AffectedExactly(s, up, n, g);
    if Concerns(s, up, n, g) { ConcernedLosesTheMap(s, up, n, g); } else { UnconcernedKeeps(s, up, n, g); }
  }

  // ----- Runs -----

  /** Event j leaves group id to itself: an epoch advance, a fence, a registration, a notice, a request for another group,
      or a restart from a state no older than state i. */
  predicate Bystanding(run: Run, i: nat, j: nat, id: Id)
    requires j < |run.events|
  {
    match run.events[j]
    case Live(step) => step.OnRequest? ==> step.request.group != id
    case Reload(saved) => i <= saved
  }

  /** A notice that gets past the checks of its sender and concerns group id. */
  ghost predicate Disturbs(s: State, step: Step, id: Id) {
    && step.OnNotice? && NoticeSubject(step.notice) != NIL && id in s.groups
    && AuthorizeUpstream(s, step.notice.epoch, step.notice.publisher, step.notice.boot).None?
    && Concerns(s, step.up, step.notice, s.groups[id])
  }

  /** Somewhere on the way from state i to state k a notice disturbed group id; a restart goes on from the state it was
      saved in, whatever happened after that. */
  ghost predicate Disturbed(run: Run, i: nat, k: nat, id: Id)
    requires k < |run.states| == |run.events| + 1
    decreases k
  {
    k > i &&
    match run.events[k - 1]
    case Reload(j) => j < k && Disturbed(run, i, j, id)
    case Live(step) => Disturbed(run, i, k - 1, id) || Disturbs(run.states[k - 1], step, id)
  }

  /** Same map, and still nothing proven. */
  ghost predicate StillLapsed(g: Group, g': Group) {
    SameMap(g, g') && AllUnproven(g'.members)
  }

  lemma StillTransitive(a: Group, b: Group, c: Group)
    requires StillLapsed(a, b) && StillLapsed(b, c)
    ensures StillLapsed(a, c)
  {
    SameMapTransitive(a, b, c);
  }

  lemma StillReflexive(g: Group)
    requires AllUnproven(g.members)
    ensures StillLapsed(g, g)
  {
    SameMapReflexive(g);
  }

  lemma LapseStays(g: Group, publisher: Id, boot: Id, epoch: nat, maxHistory: nat)
    requires AllUnproven(g.members)
    ensures StillLapsed(g, FencedGroup(g, publisher, boot, epoch, maxHistory))
    ensures StillLapsed(g, EpochGroup(g, epoch, maxHistory))
    ensures StillLapsed(g, RecoveredGroup(g, epoch, maxHistory))
  {
    hide FencedGroup, EpochGroup, RecoveredGroup, SameMap, AllUnproven;
    LapsedKeepMap(g, publisher, boot, epoch, maxHistory);
    LapsesProveNothing(g, publisher, boot, epoch, maxHistory);
  }

  lemma FenceStays(s: State, publisher: Id, boot: Id, id: Id)
    requires id in s.groups && AllUnproven(s.groups[id].members)
    ensures var s' := Fence(s, publisher, boot).state; id in s'.groups && StillLapsed(s.groups[id], s'.groups[id])
  {
    hide FencedGroup, StillLapsed, AllUnproven;
    StillReflexive(s.groups[id]);
    LapseStays(s.groups[id], publisher, boot, s.epoch, s.limits.maxHistory);
  }

  lemma SetEpochStays(s: State, epoch: nat, id: Id)
    requires id in s.groups && AllUnproven(s.groups[id].members)
    ensures var s' := SetEpoch(s, epoch).state; id in s'.groups && StillLapsed(s.groups[id], s'.groups[id])
  {
    hide EpochGroup, StillLapsed, AllUnproven;
    StillReflexive(s.groups[id]);
    LapseStays(s.groups[id], NIL, NIL, epoch, s.limits.maxHistory);
  }

  lemma NotifyStays(s: State, n: Notice, up: Upstream, id: Id)
    requires id in s.groups && AllUnproven(s.groups[id].members) && !Disturbs(s, OnNotice(n, up), id)
    ensures var s' := Notify(s, n, up).state; id in s'.groups && StillLapsed(s.groups[id], s'.groups[id])
  {
    hide NoticeGroup, AllUnproven, Concerns, AuthorizeUpstream, SameMap;
    StillReflexive(s.groups[id]);
    if AuthorizeUpstream(s, n.epoch, n.publisher, n.boot).None? && NoticeSubject(n) != NIL {
      UnconcernedKeeps(s, up, n, s.groups[id]);
    }
  }

  /** A request for another group changes at most the predecessor a group names. */
  lemma OthersRequest(s: State, r: Request, up: Upstream, id: Id)
    requires Inv(s) && id in s.groups && r.group != id
    ensures var s' := Serve(s, r, up).state;
            id in s'.groups && s'.groups[id] == s.groups[id].(predecessor := s'.groups[id].predecessor)
  {
    hide Inv, Serve, IsClosed, Descended;
    if IsEndRequest(r) {
      EndRequestEffect(s, r, up);
    } else {
      OrdinaryKeepsClosed(s, r, up, id);
    }
  }

  lemma RequestStays(s: State, r: Request, up: Upstream, id: Id)
    requires Inv(s) && id in s.groups && AllUnproven(s.groups[id].members) && r.group != id
    ensures var s' := Serve(s, r, up).state; id in s'.groups && StillLapsed(s.groups[id], s'.groups[id])
  {
    hide Serve, Inv, AllUnproven;
    OthersRequest(s, r, up, id);
  }

  lemma RegisterStays(s: State, epoch: nat, reg: Registration, id: Id)
    requires id in s.groups && AllUnproven(s.groups[id].members)
    ensures var s' := Register(s, epoch, reg).state; id in s'.groups && StillLapsed(s.groups[id], s'.groups[id])
  {
    hide StillLapsed, AllUnproven;
    StillReflexive(s.groups[id]);
  }

  lemma StepStays(s: State, step: Step, id: Id)
    requires Inv(s) && id in s.groups && AllUnproven(s.groups[id].members) && !Disturbs(s, step, id)
    requires step.OnRequest? ==> step.request.group != id
    ensures var s' := Next(s, step).state; id in s'.groups && StillLapsed(s.groups[id], s'.groups[id])
  {
    hide Inv, Serve, Notify, Register, Fence, SetEpoch, StillLapsed, AllUnproven, Disturbs;
    match step
    case OnRequest(r, up) => RequestStays(s, r, up, id);
    case OnNotice(n, up) => NotifyStays(s, n, up, id);
    case OnRegister(e, reg) => RegisterStays(s, e, reg, id);
    case OnFence(p, b) => FenceStays(s, p, b, id);
    case OnEpoch(e) => SetEpochStays(s, e, id);
  }

  lemma ReloadStays(blank: State, saved: State, id: Id)
    requires Blank(blank) && blank.epoch <= saved.epoch && id in saved.groups && AllUnproven(saved.groups[id].members)
    ensures var s' := Load(blank, Save(saved)).state; id in s'.groups && StillLapsed(saved.groups[id], s'.groups[id])
  {
    hide RecoveredGroup, StillLapsed, AllUnproven;
    LapseStays(saved.groups[id], NIL, NIL, saved.epoch, blank.limits.maxHistory);
  }

  /** As long as no notice disturbs it, a lapsed group keeps its map and proves nothing. */
  lemma {:induction false} UndisturbedStays(run: Run, i: nat, k: nat, id: Id)
    requires IsRun(run) && i <= k < |run.states| && id in run.states[i].groups
    requires AllUnproven(run.states[i].groups[id].members)
    requires forall j :: i <= j < k ==> Bystanding(run, i, j, id)
    requires !Disturbed(run, i, k, id)
    ensures id in run.states[k].groups && StillLapsed(run.states[i].groups[id], run.states[k].groups[id])
    decreases k
  {
    hide Next, Load, Inv, AllUnproven, Disturbs, SameMap;
    if i == k {
      StillReflexive(run.states[i].groups[id]);
    } else {
      assert Leads(run, k - 1) && Bystanding(run, i, k - 1, id);
      match run.events[k - 1]
      case Live(step) =>
        UndisturbedStays(run, i, k - 1, id);
        RunInv(run, k - 1);
        StepStays(run.states[k - 1], step, id);
        StillTransitive(run.states[i].groups[id], run.states[k - 1].groups[id], run.states[k].groups[id]);
      case Reload(j) =>
        UndisturbedStays(run, i, j, id);
        NeverBelowFirstEpoch(run, j);
        ReloadStays(run.states[0], run.states[j], id);
        StillTransitive(run.states[i].groups[id], run.states[j].groups[id], run.states[k].groups[id]);
    }
  }

  /** The group was mapped anew: its assignment generation is past the one it had. */
  ghost predicate Remapped(g: Group, g': Group) {
    g.assignmentGen < g'.assignmentGen
  }

  lemma NoticeRemaps(s: State, n: Notice, up: Upstream, id: Id)
    requires Inv(s) && id in s.groups && AllUnproven(s.groups[id].members) && Disturbs(s, OnNotice(n, up), id)
    requires s.groups[id].owners != NoOwners(s.groups[id].bucketCount)
    ensures var s' := Notify(s, n, up).state; id in s'.groups && Remapped(s.groups[id], s'.groups[id])
  {
    hide NoticeGroup, AllUnproven, Concerns, AuthorizeUpstream, GroupOk;
    var g := s.groups[id];
    NoticeAfterLapse(s, up, n, g);
    NoticeGroupOk(s, up, n, g);
  }

  lemma ReloadAdvances(blank: State, saved: State, id: Id)
    requires Blank(blank) && Inv(saved) && saved.limits == blank.limits && blank.epoch <= saved.epoch
    requires id in saved.groups
    ensures var s' := Load(blank, Save(saved)).state;
            id in s'.groups && saved.groups[id].assignmentGen <= s'.groups[id].assignmentGen
  {
    hide RecoveredGroup, GroupOk;
    RecoveredGroupOk(saved.groups[id], saved.epoch, blank.limits);
  }

  lemma KeptOwners(g: Group, g': Group)
    requires StillLapsed(g, g')
    ensures g'.owners == g.owners && g'.bucketCount == g.bucketCount && g'.assignmentGen == g.assignmentGen
    ensures AllUnproven(g'.members)
  {
  }

  lemma StepAdvances(s: State, step: Step, id: Id)
    requires Inv(s) && id in s.groups
    ensures id in Next(s, step).state.groups
    ensures s.groups[id].assignmentGen <= Next(s, step).state.groups[id].assignmentGen
  {
    hide Next, Inv;
    StepFollows(s, step, id);
  }

  /** A disturbed group is mapped anew, for good. */
  lemma {:induction false} DisturbedRemaps(run: Run, i: nat, k: nat, id: Id)
    requires IsRun(run) && i <= k < |run.states| && id in run.states[i].groups
    requires AllUnproven(run.states[i].groups[id].members)
    requires run.states[i].groups[id].owners != NoOwners(run.states[i].groups[id].bucketCount)
    requires forall j :: i <= j < k ==> Bystanding(run, i, j, id)
    requires Disturbed(run, i, k, id)
    ensures id in run.states[k].groups && Remapped(run.states[i].groups[id], run.states[k].groups[id])
    decreases k
  {
    hide Next, Load, Inv, AllUnproven, StillLapsed, NoOwners;
    assert Leads(run, k - 1) && Bystanding(run, i, k - 1, id);
    match run.events[k - 1]
    case Live(step) =>
      RunInv(run, k - 1);
      if Disturbed(run, i, k - 1, id) {
        DisturbedRemaps(run, i, k - 1, id);
        StepAdvances(run.states[k - 1], step, id);
      } else {
        UndisturbedStays(run, i, k - 1, id);
        KeptOwners(run.states[i].groups[id], run.states[k - 1].groups[id]);
        NoticeRemapsNext(run.states[k - 1], step, id);
      }
    case Reload(j) =>
      DisturbedRemaps(run, i, j, id);
      RunInv(run, j);
      NeverBelowFirstEpoch(run, j);
      ReloadAdvances(run.states[0], run.states[j], id);
  }

  lemma NoticeRemapsNext(s: State, step: Step, id: Id)
    requires Inv(s) && id in s.groups && AllUnproven(s.groups[id].members) && Disturbs(s, step, id)
    requires s.groups[id].owners != NoOwners(s.groups[id].bucketCount)
    ensures id in Next(s, step).state.groups && Remapped(s.groups[id], Next(s, step).state.groups[id])
  {
    hide Notify, Inv, AllUnproven, Concerns, AuthorizeUpstream, NoOwners;
    NoticeRemaps(s, step.notice, step.up, id);
  }

  /** From the moment nothing about its members is proven any more, through any notices, lapses, restarts and requests
      for other groups, a group keeps its map and its assignment generation if and only if no notice disturbed it. */
  lemma KeptIffUndisturbed(run: Run, i: nat, k: nat, id: Id)
    requires IsRun(run) && i <= k < |run.states| && id in run.states[i].groups
    requires AllUnproven(run.states[i].groups[id].members)
    requires run.states[i].groups[id].owners != NoOwners(run.states[i].groups[id].bucketCount)
    requires forall j :: i <= j < k ==> Bystanding(run, i, j, id)
    ensures id in run.states[k].groups
    ensures SameMap(run.states[i].groups[id], run.states[k].groups[id]) <==> !Disturbed(run, i, k, id)
  {
    hide Next, Load, Inv, AllUnproven, NoOwners, Leads, Bystanding;
    if Disturbed(run, i, k, id) { DisturbedRemaps(run, i, k, id); } else { UndisturbedStays(run, i, k, id); }
  }

  /** A serving group owns buckets, so it has a map to lose. */
  lemma ServingOwns(g: Group, limits: Limits)
    requires GroupOk(g, limits) && (g.lifecycle.Active? || g.lifecycle.Degraded?)
    ensures g.owners != NoOwners(g.bucketCount)
  {
    hide EntriesOk, PlanOk, Derived, OwnersKnown, Settled;
    ActiveListed(g.members);
    SettledIsSound(g.owners, ActiveIds(g.members));
    assert NoOwners(g.bucketCount)[0] == NIL;
  }

  /** A serving group loses its proofs by lapses, is left to itself from then on, and is revalidated with the same
      members active again: it keeps its map and its assignment generation if and only if no notice disturbed it between
      the lapse and the revalidation. */
  lemma RevalidationRestoresExactly(run: Run, i: nat, l: nat, k: nat, id: Id, r: Request, up: Upstream)
    requires IsRun(run) && i <= l <= k < |run.events| && id in run.states[i].groups && id in run.states[l].groups
    requires run.states[i].groups[id].lifecycle.Active? || run.states[i].groups[id].lifecycle.Degraded?
    requires forall j :: i <= j < l ==> Lapse(run, i, j)
    requires AllUnproven(run.states[l].groups[id].members)
    requires forall j :: l <= j < k ==> Bystanding(run, l, j, id)
    requires RevalidatedAt(run, i, k, id, r, up)
    ensures id in run.states[k + 1].groups
    ensures SameOwners(run.states[i].groups[id], run.states[k + 1].groups[id]) <==> !Disturbed(run, l, k, id)
  {
    hide Next, Load, Inv, GroupOk, AllUnproven, NoOwners, Leads, Bystanding, Lapse, SameMap, RevalidatedAt, SameOwners;
    LapsesKeepTheMap(run, i, l, id);
    GroupOfRun(run, i, id);
    ServingOwns(run.states[i].groups[id], run.states[0].limits);
    SameMapOwners(run.states[i].groups[id], run.states[l].groups[id]);
    KeptIffUndisturbed(run, l, k, id);
    if Disturbed(run, l, k, id) {
      DisturbedRemaps(run, l, k, id);
      RevalidatedAdvances(run, i, k, id, r, up);
    } else {
      SameMapTransitive(run.states[i].groups[id], run.states[l].groups[id], run.states[k].groups[id]);
      RevalidatedKept(run, i, k, id, r, up);
    }
  }

  ghost predicate SameOwners(g: Group, g': Group) {
    g'.owners == g.owners && g'.assignmentGen == g.assignmentGen
  }

  /** Event k revalidates the group, and the members active afterwards are those that were active in state i. */
  ghost predicate RevalidatedAt(run: Run, i: nat, k: nat, id: Id, r: Request, up: Upstream)
    requires i <= k < |run.events| && |run.states| == |run.events| + 1 && id in run.states[i].groups
  {
    && run.events[k] == Live(OnRequest(r, up)) && r.Revalidate? && r.group == id
    && Next(run.states[k], OnRequest(r, up)).outcome == REVALIDATED
    && id in run.states[k + 1].groups
    && SameMembers(ActiveIds(run.states[k + 1].groups[id].members), ActiveIds(run.states[i].groups[id].members))
  }

  lemma SameMapOwners(g: Group, g': Group)
    requires SameMap(g, g')
    ensures g'.owners == g.owners && g'.bucketCount == g.bucketCount && g'.assignmentGen == g.assignmentGen
  {
  }

  lemma RevalidatedAdvances(run: Run, i: nat, k: nat, id: Id, r: Request, up: Upstream)
    requires IsRun(run) && i <= k < |run.events| && id in run.states[i].groups && id in run.states[k].groups
    requires run.states[i].groups[id].assignmentGen < run.states[k].groups[id].assignmentGen
    requires RevalidatedAt(run, i, k, id, r, up)
    ensures id in run.states[k + 1].groups && !SameOwners(run.states[i].groups[id], run.states[k + 1].groups[id])
  {
    hide Next, Load, Inv;
    RunInv(run, k);
    assert Leads(run, k);
    StepAdvances(run.states[k], OnRequest(r, up), id);
  }

  lemma RevalidatedKept(run: Run, i: nat, k: nat, id: Id, r: Request, up: Upstream)
    requires IsRun(run) && i <= k < |run.events| && id in run.states[i].groups && id in run.states[k].groups
    requires run.states[i].groups[id].lifecycle.Active? || run.states[i].groups[id].lifecycle.Degraded?
    requires SameMap(run.states[i].groups[id], run.states[k].groups[id]) && RevalidatedAt(run, i, k, id, r, up)
    ensures id in run.states[k + 1].groups && SameOwners(run.states[i].groups[id], run.states[k + 1].groups[id])
  {
    hide Serve, Load, Inv, SameMap, GroupOk, Settled, SameMembers;
    RunInv(run, k);
    assert Leads(run, k);
    ServeIsRevalidation(run.states[k], r, up);
    RevalidationEffect(run.states[k], r, up);
    GroupOfRun(run, i, id);
    ServingGroupIsSettled(run.states[i].groups[id], run.states[0].limits);
    RevalidatedSame(run.states[i].groups[id], run.states[k].groups[id], run.states[k + 1].groups[id]);
  }
}

/** What an upstream notice does to a group it concerns: which proofs it gives and takes, and what becomes of the members
    and of the map. */
module NoticeEffects {
  import opened Prelude
  import opened Assignment
  import opened AssignmentProofs
  import opened Lifecycle
  import opened Records
  import opened Groups
  import opened GroupProofs
  import opened Governor
  import opened Invariants
  import opened Standing
  import opened Disturbance
  import opened Admission
  import opened Lapses

  /** What stays whatever the notice: who is recorded how, the plan, the binding and the counted declared set; the states
      follow the flags, the map follows the active members. */
  ghost predicate Followed(g: Group, g': Group) {
    && SameRecords(g.members, g'.members) && StatesTold(g'.members) && InService(g'.lifecycle) && Stands(g')
    && g'.owners == Rebalanced(g.owners, ActiveIds(g'.members))
    && g'.assignmentGen == g.assignmentGen + (if g'.owners == g.owners then 0 else 1)
    && g'.plan == g.plan && g'.membershipGen == g.membershipGen && g'.authorityGen == g.authorityGen
    && g'.publisher == g.publisher && g'.boot == g.boot && g'.boundEpoch == g.boundEpoch
  }

  /** The flags after the notice, entry by entry. */
  ghost predicate SameFlagsAs(ms: seq<MemberEntry>, ms': seq<MemberEntry>) {
    && |ms'| == |ms|
    && forall i :: 0 <= i < |ms| ==>
         && ms'[i].pathCurrent == ms[i].pathCurrent && ms'[i].pathAuthorized == ms[i].pathAuthorized
         && ms'[i].multipathCurrent == ms[i].multipathCurrent && ms'[i].costCurrent == ms[i].costCurrent
  }

  lemma HeardFollows(g: Group, t: Group, c: Context, limits: Limits)
    requires GroupOk(g, limits) && !IsClosed(g.lifecycle) && t == g.(members := t.members, currentness := t.currentness)
    requires SameRecords(g.members, t.members) && IsInvalidation(c.event) && c.recompute && !c.bind
    ensures var f := Refresh(t, c, limits.maxHistory).group;
            Followed(g, f) && SameFlagsAs(t.members, f.members) && f.currentness == t.currentness
  {
    hide Refresh, GroupOk, Loose, RefreshedFrom, Followed, IsClosed, ApplyGroupEvent, LifecycleAllows;
    var f := Refresh(t, c, limits.maxHistory).group;
    HeardRefresh(g, t, c, limits);
    SameDigest(g, t, limits);
    OpenIsInService(f.lifecycle);
    OpenStands(f, limits);
    TheMembers(f, limits);
    FollowedFrom(g, t, c, limits, f);
  }

  lemma TheMembers(f: Group, limits: Limits)
    requires GroupOk(f, limits)
    ensures StatesTold(f.members)
  {
    DerivedTold(f.members);
  }

  lemma HeardRefresh(g: Group, t: Group, c: Context, limits: Limits)
    requires GroupOk(g, limits) && !IsClosed(g.lifecycle) && t == g.(members := t.members, currentness := t.currentness)
    requires SameRecords(g.members, t.members) && IsInvalidation(c.event) && c.recompute && !c.bind
    ensures var f := Refresh(t, c, limits.maxHistory).group;
            && RefreshedFrom(t, c, limits, f) && GroupOk(f, limits) && !IsClosed(f.lifecycle)
            && f.publisher == t.publisher && f.boot == t.boot && f.boundEpoch == t.boundEpoch
            && f.authorityGen == t.authorityGen
  {
    OkIsLoose(g, limits);
    assert SamePlaces(g.members, t.members);
    hide GroupOk, Refresh, LifecycleAllows, ApplyGroupEvent, RefreshedFrom, DeriveLifecycle, IsClosed, Loose, Advances,
         EntriesOk;
    InvalidatedOk(g, t, c, limits);
    LedgerKeepsLoose(g, t, limits);
    OpenAcceptsInvalidation(g.lifecycle, c.event);
    RefreshFacts(t, c, limits);
    RefreshBinding(t, c, limits.maxHistory);
    UnboundRefreshAuthority(t, c, limits.maxHistory);
    var f := Refresh(t, c, limits.maxHistory).group;
    InvalidationDerives(g.lifecycle, c.event, InputsOf(f));
    DeriveStaysOpen(InputsOf(f));
  }

  lemma FollowedFrom(g: Group, t: Group, c: Context, limits: Limits, f: Group)
    requires t == g.(members := t.members, currentness := t.currentness) && SameRecords(g.members, t.members)
    requires RefreshedFrom(t, c, limits, f) && c.recompute && DeclaredIds(t.members) == g.declaredDigest
    requires f.publisher == t.publisher && f.boot == t.boot && f.boundEpoch == t.boundEpoch
    requires f.authorityGen == t.authorityGen && StatesTold(f.members) && InService(f.lifecycle) && Stands(f)
    ensures Followed(g, f) && SameFlagsAs(t.members, f.members) && f.currentness == t.currentness
  {
    hide Loose, Derived, Advances, Rebalanced, StatesTold, Stands, InService, Settled;
  }

  lemma SameDigest(g: Group, t: Group, limits: Limits)
    requires GroupOk(g, limits) && SameRecords(g.members, t.members)
    ensures DeclaredIds(t.members) == g.declaredDigest
  {
    SameDeclared(g.members, t.members);
  }

  /** Nobody is active without a proof of some kind, and then nobody owns a bucket. */
  lemma NobodyOwns(g: Group, g': Group)
    requires Followed(g, g') && |g.owners| == g.bucketCount
    requires forall i :: 0 <= i < |g'.members| && g'.members[i].record.declared ==>
               !(g'.members[i].pathCurrent && g'.members[i].multipathCurrent && g'.members[i].costCurrent)
    ensures ActiveIds(g'.members) == [] && g'.owners == NoOwners(g.bucketCount)
  {
    forall i | 0 <= i < |g'.members| ensures !g'.members[i].record.IsActive() {}
    NobodyActive(g'.members);
    RebalancedSettles(g.owners, []);
  }

  // ----- Cost -----

  /** After a cost notice: under another policy no declared member has a current cost, nobody is active and the map is
      empty; under the policy of the group every member has; the cause is noted accordingly. */
  ghost predicate CostHeard(g: Group, g': Group, generation: U64) {
    var stale := g.semantics.binding.policyGeneration != generation;
    && Followed(g, g') && g'.currentness == g.currentness.(staleCost := stale)
    && (forall i :: 0 <= i < |g.members| ==>
          var e, e' := g.members[i], g'.members[i];
          && e'.pathCurrent == e.pathCurrent && e'.multipathCurrent == e.multipathCurrent
          && e'.costCurrent == (if stale then !e.record.declared && e.costCurrent else true))
    && (stale ==> ActiveIds(g'.members) == [] && g'.owners == NoOwners(g.bucketCount))
  }

  lemma CostNoticeHeard(s: State, up: Upstream, n: Notice, g: Group)
    requires GroupOk(g, s.limits) && n.CostNotice? && Concerns(s, up, n, g)
    ensures CostHeard(g, NoticeGroup(s, up, n, g).group, n.generation)
  {
    hide GroupOk, Refresh, DependsOn, IsClosed, Stands, StatesTold, InService, Rebalanced;
    var stale := g.semantics.binding.policyGeneration != n.generation;
    var ms := if stale then MapEntries(CostStale, g.members) else MapEntries(CostProven, g.members);
    var t := g.(members := ms, currentness := g.currentness.(staleCost := stale));
    HeardFollows(g, t, NoticeContext(COST_INVALIDATION, INVALIDATE_COST, n.publisher, n.boot, s.epoch), s.limits);
    OwnersSized(g, s.limits);
    if stale { NobodyOwns(g, NoticeGroup(s, up, n, g).group); }
  }

  lemma OwnersSized(g: Group, limits: Limits)
    requires GroupOk(g, limits)
    ensures |g.owners| == g.bucketCount
  {
  }

  // ----- Multipath -----

  /** The set of the group is not current in the recorded generation, or lacks the path of some declared member. */
  ghost predicate SetLost(up: Upstream, g: Group) {
    || g.multipathSet !in up.sets || up.sets[g.multipathSet] != g.multipathGen
    || exists i :: 0 <= i < |g.members| && g.members[i].record.declared &&
                   (g.multipathSet, g.multipathGen, g.members[i].record.path) !in up.contains
  }

  /** After a multipath notice: when the set is lost for some declared member, none of them has its proof, nobody is active
      and the map is empty; otherwise every member has it; the cause is noted accordingly. */
  ghost predicate SetHeard(up: Upstream, g: Group, g': Group) {
    && Followed(g, g') && g'.currentness == g.currentness.(staleMultipath := SetLost(up, g))
    && (forall i :: 0 <= i < |g.members| ==>
          var e, e' := g.members[i], g'.members[i];
          && e'.pathCurrent == e.pathCurrent && e'.costCurrent == e.costCurrent
          && e'.multipathCurrent == (if SetLost(up, g) then !e.record.declared && e.multipathCurrent else true))
    && (SetLost(up, g) ==> ActiveIds(g'.members) == [] && g'.owners == NoOwners(g.bucketCount))
  }

  lemma LostExactly(up: Upstream, g: Group)
    ensures MultipathIsStale(up, g) <==> SetLost(up, g)
  {
  }

  lemma MultipathNoticeHeard(s: State, up: Upstream, n: Notice, g: Group)
    requires GroupOk(g, s.limits) && n.MultipathNotice? && Concerns(s, up, n, g)
    ensures SetHeard(up, g, NoticeGroup(s, up, n, g).group)
  {
    hide GroupOk, Refresh, DependsOn, IsClosed, Stands, StatesTold, InService, MultipathIsStale, SetLost;
    LostExactly(up, g);
    var stale := MultipathIsStale(up, g);
    var ms := if stale then MapEntries(MultipathStale, g.members) else MapEntries(MultipathProven, g.members);
    var t := g.(members := ms, currentness := g.currentness.(staleMultipath := stale));
    HeardFollows(g, t, NoticeContext(MULTIPATH_INVALIDATION, INVALIDATE_MULTIPATH, n.publisher, n.boot, s.epoch), s.limits);
    OwnersSized(g, s.limits);
    if stale { NobodyOwns(g, NoticeGroup(s, up, n, g).group); }
  }

  // ----- Path -----

  /** After a path notice: declared members on the path have the proof exactly when the path authority gives it, the others
      what they had; the cause is noted exactly when some declared member lacks its proof. */
  ghost predicate PathHeard(up: Upstream, path: Id, g: Group, g': Group) {
    && Followed(g, g')
    && (forall i :: 0 <= i < |g.members| ==>
          var e, e' := g.members[i], g'.members[i];
          && e'.multipathCurrent == e.multipathCurrent && e'.costCurrent == e.costCurrent
          && (if e.record.declared && e.record.path == path
              then (e'.pathCurrent <==> PathProven(up, e)) &&
                   (e'.pathAuthorized <==> path in up.paths && up.paths[path].authorized)
              else e'.pathCurrent == e.pathCurrent && e'.pathAuthorized == e.pathAuthorized))
    && g'.currentness == g.currentness.(stalePath := g'.currentness.stalePath)
    && (g'.currentness.stalePath <==>
        exists i :: 0 <= i < |g'.members| && g'.members[i].record.declared && !g'.members[i].pathCurrent)
  }

  lemma PathNoticeHeard(s: State, up: Upstream, n: Notice, g: Group)
    requires GroupOk(g, s.limits) && n.PathNotice? && Concerns(s, up, n, g)
    ensures PathHeard(up, n.path, g, NoticeGroup(s, up, n, g).group)
  {
    hide GroupOk, Refresh, IsClosed, Concerns, Followed, AnyPathStale, MapEntries;
    var ms := MapEntries(e => NoticePathEntry(up, n.path, e), g.members);
    var t := g.(members := ms, currentness := g.currentness.(stalePath := AnyPathStale(ms)));
    var c := NoticeContext(PATH_INVALIDATION, INVALIDATE_PATH, n.publisher, n.boot, s.epoch);
    PathRefreshed(s, up, n, g, ms, t, c);
    EntriesHeard(up, n.path, g.members);
    OpenWhenConcerned(s, up, n, g);
    HeardFollows(g, t, c, s.limits);
    var f := NoticeGroup(s, up, n, g).group;
    FollowedRecords(g, f);
    SameStale(g.members, ms, f.members);
  }

  lemma FollowedRecords(g: Group, g': Group)
    requires Followed(g, g')
    ensures SameRecords(g.members, g'.members)
  {
  }

  lemma OpenWhenConcerned(s: State, up: Upstream, n: Notice, g: Group)
    requires Concerns(s, up, n, g)
    ensures !IsClosed(g.lifecycle)
  {
  }

  lemma PathRefreshed(s: State, up: Upstream, n: Notice, g: Group, ms: seq<MemberEntry>, t: Group, c: Context)
    requires n.PathNotice? && Concerns(s, up, n, g) && ms == MapEntries(e => NoticePathEntry(up, n.path, e), g.members)
    requires t == g.(members := ms, currentness := g.currentness.(stalePath := AnyPathStale(ms)))
    requires c == NoticeContext(PATH_INVALIDATION, INVALIDATE_PATH, n.publisher, n.boot, s.epoch)
    ensures NoticeGroup(s, up, n, g).group == Refresh(t, c, s.limits.maxHistory).group
  {
    hide Refresh, DependsOn, IsClosed, Concerns;
    AffectedExactly(s, up, n, g);
  }

  lemma EntriesHeard(up: Upstream, path: Id, ms: seq<MemberEntry>)
    ensures var ms' := MapEntries(e => NoticePathEntry(up, path, e), ms);
            && SameRecords(ms, ms')
            && forall i :: 0 <= i < |ms| ==>
                 var e, e' := ms[i], ms'[i];
                 && e'.multipathCurrent == e.multipathCurrent && e'.costCurrent == e.costCurrent
                 && (if e.record.declared && e.record.path == path
                     then (e'.pathCurrent <==> PathProven(up, e)) &&
                          (e'.pathAuthorized <==> path in up.paths && up.paths[path].authorized)
                     else e'.pathCurrent == e.pathCurrent && e'.pathAuthorized == e.pathAuthorized)
  {
  }

  lemma SameStale(before: seq<MemberEntry>, ms: seq<MemberEntry>, ms': seq<MemberEntry>)
    requires SameFlagsAs(ms, ms') && SameRecords(before, ms) && SameRecords(before, ms')
    ensures AnyPathStale(ms) <==> exists i :: 0 <= i < |ms'| && ms'[i].record.declared && !ms'[i].pathCurrent
  {
  }

  // ----- Over the state -----

  /** What one notice leaves of one group. */
  ghost predicate Heard(s: State, up: Upstream, n: Notice, g: Group, g': Group) {
    if !Concerns(s, up, n, g) then
      && g' == g.(members := g'.members) && SameRecords(g.members, g'.members) && |g'.members| == |g.members|
      && forall i :: 0 <= i < |g.members| ==> g'.members[i] == g.members[i].(pathAuthorized := g'.members[i].pathAuthorized)
    else
      match n
      case PathNotice(_, _, _, path) => PathHeard(up, path, g, g')
      case MultipathNotice(_, _, _, _) => SetHeard(up, g, g')
      case CostNotice(_, _, _, _, generation) => CostHeard(g, g', generation)
  }

  lemma UnconcernedHears(s: State, up: Upstream, n: Notice, g: Group)
    requires !Concerns(s, up, n, g)
    ensures Heard(s, up, n, g, NoticeGroup(s, up, n, g).group)
  {
    hide Refresh, MultipathIsStale, DependsOn, Concerns, PathHeard, SetHeard, CostHeard;
    AffectedExactly(s, up, n, g);
    if NoticeGroup(s, up, n, g).group != g { QuietPath(s, up, n, g); }
  }

  lemma QuietPath(s: State, up: Upstream, n: Notice, g: Group)
    requires !NoticeGroup(s, up, n, g).affected
    ensures var g' := NoticeGroup(s, up, n, g).group;
            && (g' == g || (n.PathNotice? && |g'.members| == |g.members| &&
                            g' == g.(members := g'.members) &&
                            forall i :: 0 <= i < |g.members| ==>
                              g'.members[i] == g.members[i].(pathAuthorized := g'.members[i].pathAuthorized)))
  {
    hide Refresh, MultipathIsStale, DependsOn, IsClosed;
  }

  /** An admitted notice from a publisher in good standing is heard by every group: those it concerns gain and lose exactly
      the proofs it speaks of, with the members, the map and the lifecycle that follow; the others keep everything but the
      remark whether a path is authorized. A cost notice is also remembered as the policy of its class. */
  lemma NoticeIsHeard(s: State, n: Notice, up: Upstream, id: Id)
    requires Inv(s) && id in s.groups
    requires AuthorizeUpstream(s, n.epoch, n.publisher, n.boot).None? && NoticeSubject(n) != NIL
    ensures var s' := Notify(s, n, up).state;
            && s'.groups.Keys == s.groups.Keys && Heard(s, up, n, s.groups[id], s'.groups[id])
            && s'.costPolicy == (if n.CostNotice? then s.costPolicy[n.costClass := n.generation] else s.costPolicy)
            && s'.epoch == s.epoch && s'.publishers == s.publishers && s'.fenced == s.fenced
  {
    hide NoticeGroup, AuthorizeUpstream, GroupOk, Concerns, PathHeard, SetHeard, CostHeard;
    var g := s.groups[id];
    if Concerns(s, up, n, g) {
      match n
      case PathNotice(_, _, _, _) => PathNoticeHeard(s, up, n, g);
      case MultipathNotice(_, _, _, _) => MultipathNoticeHeard(s, up, n, g);
      case CostNotice(_, _, _, _, _) => CostNoticeHeard(s, up, n, g);
    } else {
      UnconcernedHears(s, up, n, g);
    }
  }

  /** An admitted notice reports a rebalance exactly when it concerns some group. */
  lemma NoticeAnswer(s: State, n: Notice, up: Upstream)
    requires AuthorizeUpstream(s, n.epoch, n.publisher, n.boot).None? && NoticeSubject(n) != NIL
    ensures Notify(s, n, up).outcome ==
            if exists id :: id in s.groups && Concerns(s, up, n, s.groups[id]) then REBALANCED else NO_CHANGE
  {
    hide NoticeGroup, AuthorizeUpstream, Concerns;
    forall id | id in s.groups
      ensures NoticeGroup(s, up, n, s.groups[id]).affected <==> Concerns(s, up, n, s.groups[id])
    {
      AffectedExactly(s, up, n, s.groups[id]);
    }
  }
}

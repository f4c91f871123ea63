/** The governor as the program has it: one object whose methods update its maps, its reverse indexes and its counters in
    place. Every method is proved against the step function of module Governor, and keeps the indexes exact. */
module EcmpGovernorClass {
  import opened Prelude
  import opened Assignment
  import opened AssignmentProofs
  import opened Lifecycle
  import opened Records
  import opened Sorting
  import opened Groups
  import opened GroupProofs
  import opened TargetProofs
  import opened Governor
  import opened Invariants
  import opened Endings
  import opened GroupMethods
  import opened Indexes

  /** What a change of one group must leave alone, because no index follows it: identity, key and multipath set. */
  predicate SameIdentity(g: Group, g': Group) {
    g'.id == g.id && g'.key == g.key && g'.multipathSet == g.multipathSet
  }

  lemma RefreshKeepsIdentity(g: Group, c: Context, maxHistory: nat)
    ensures SameIdentity(g, Refresh(g, c, maxHistory).group)
  {
    SettleKeepsIdentity(g, c);
    hide Settle, ApplyGroupEvent, InputsOf;
  }

  lemma SettleKeepsIdentity(g: Group, c: Context)
    ensures SameIdentity(g, Settle(g, c))
  {
    hide Padded, Rebalanced, Moves, ActiveIds, DeclaredIds, MapEntries;
  }

  /** A refresh goes through exactly when its event is legal. */
  lemma RefreshGoesThrough(g: Group, c: Context, maxHistory: nat)
    ensures Refresh(g, c, maxHistory).ok <==> LifecycleAllows(g.lifecycle, c.event)
  {
    SettleKeepsLifecycle(g, c);
    hide Settle, LifecycleAllows, InputsOf;
  }

  lemma SettleKeepsLifecycle(g: Group, c: Context)
    ensures Settle(g, c).lifecycle == g.lifecycle
  {
    hide Padded, Rebalanced, Moves, ActiveIds, DeclaredIds, MapEntries;
  }

  lemma StepKeepsInv(s: State, a: Answer, planned: Option<Id>)
    requires StepOk(s, a.state, planned)
    ensures Inv(a.state)
  {
  }

  /** The parts of exactness that the moves rely on, and that the counter covers what a group declares. */
  lemma IsExact(t: Tables, groups: map<Id, Group>, id: Id)
    requires Exact(t, groups)
    ensures Scans(t.paths, groups, DeclaresPath) && Scans(t.sets, groups, OnMultipath)
    ensures Scans(t.classes, groups, OnCostClass) && Scans(t.publishers, groups, OnAuthority)
    ensures PathsListed(t.listedPaths, groups) && PublishersListed(t.listedPublisher, groups)
    ensures id in groups ==> |DeclaredIds(groups[id].members)| <= t.total
  {
    hide Scans, PathsListed, PublishersListed, DeclaredIds, Total;
    if id in groups { TotalWithout(groups, id); }
  }

  lemma EntriesListed(ms: seq<MemberEntry>)
    requires EntriesOk(ms)
    ensures Listed(MemberIds(ms))
  {
  }

  lemma PlanningKeepsInv(s: State, r: Request, up: Upstream)
    requires Inv(s) && r.PlanRebalance?
    ensures Inv(Planning(s, r, up).state)
  {
    hide Inv, Planning, StepOk;
    PlanningOk(s, r, up);
    StepKeepsInv(s, Planning(s, r, up), Some(r.group));
  }

  lemma PlanListed(g: Group, limits: Limits)
    requires Loose(g, limits) && g.plan.Some?
    ensures Listed(SpecIds(g.plan.value.targetMembers))
  {
  }

  lemma TweakedIsQuiet(g: Group, g': Group)
    requires Tweaked(g, g')
    ensures Quiet(g, g') && g'.lifecycle == g.lifecycle
  {
  }

  lemma RestoredIdentity(up: Upstream, g: Group, generation: Option<U64>)
    ensures var g' := Restored(up, WithMultipath(g, generation));
            SameIdentity(g, g') && g'.lifecycle == g.lifecycle
  {
  }

  /** A refresh that does not bind authority moves no index entry. */
  lemma RefreshIsQuiet(g: Group, c: Context, maxHistory: nat)
    requires !c.bind
    ensures Quiet(g, Refresh(g, c, maxHistory).group)
  {
    SettleIsQuiet(g, c);
    hide Settle, ApplyGroupEvent, InputsOf;
  }

  lemma SettleIsQuiet(g: Group, c: Context)
    requires !c.bind
    ensures Quiet(g, Settle(g, c))
  {
    hide Padded, Rebalanced, Moves, ActiveIds, DeclaredIds;
  }

  lemma QuietTransitive(a: Group, b: Group, c: Group)
    requires Quiet(a, b) && Quiet(b, c)
    ensures Quiet(a, c)
  {
  }

  /** An exact table leads to exactly the groups that a notice is about. */
  lemma LeadsExactly(t: Tables, groups: map<Id, Group>, n: Notice)
    requires Exact(t, groups)
    ensures var index := match n case PathNotice(_, _, _, _) => t.paths case MultipathNotice(_, _, _, _) => t.sets
                                 case CostNotice(_, _, _, _, _) => t.classes;
            forall id :: Lists(index, NoticeSubject(n), id) <==> id in groups && DependsOn(groups[id], n)
  {
    hide KeysFirst, PathsListed, PublishersListed, Total, Lists, DeclaresPath;
    match n
    case PathNotice(_, _, _, path) =>
      forall id ensures Lists(t.paths, path, id) <==> id in groups && DependsOn(groups[id], n) {
        assert Lists(t.paths, path, id) <==> id in groups && DeclaresPath(groups[id], path);
      }
    case MultipathNotice(_, _, _, mset) =>
      forall id ensures Lists(t.sets, mset, id) <==> id in groups && DependsOn(groups[id], n) {
        assert Lists(t.sets, mset, id) <==> id in groups && OnMultipath(groups[id], mset);
      }
    case CostNotice(_, _, _, costClass, _) =>
      forall id ensures Lists(t.classes, costClass, id) <==> id in groups && DependsOn(groups[id], n) {
        assert Lists(t.classes, costClass, id) <==> id in groups && OnCostClass(groups[id], costClass);
      }
  }

  // ----- Notices, group by group -----

  /** Of the dependent groups, those in `heard` have heard the notice; all other groups are as in s. */
  ghost predicate HeardBy(s: State, up: Upstream, n: Notice, groups: map<Id, Group>, dependents: set<Id>, heard: set<Id>,
                          affected: bool)
  {
    && groups.Keys == s.groups.Keys && heard <= dependents <= s.groups.Keys
    && (forall id :: id in groups ==>
          groups[id] == if id in heard then NoticeGroup(s, up, n, s.groups[id]).group else s.groups[id])
    && (affected <==> exists id :: id in heard && NoticeGroup(s, up, n, s.groups[id]).affected)
  }

  lemma NobodyHeard(s: State, up: Upstream, n: Notice, dependents: set<Id>)
    requires dependents <= s.groups.Keys
    ensures HeardBy(s, up, n, s.groups, dependents, {}, false)
  {
  }

  lemma StillToHear(s: State, up: Upstream, n: Notice, groups: map<Id, Group>, dependents: set<Id>, heard: set<Id>,
                    affected: bool, id: Id)
    requires HeardBy(s, up, n, groups, dependents, heard, affected) && id in dependents - heard
    ensures id in groups && id in s.groups && groups[id] == s.groups[id]
  {
    hide NoticeGroup;
  }

  lemma OneMoreHeard(s: State, up: Upstream, n: Notice, groups: map<Id, Group>, dependents: set<Id>, heard: set<Id>,
                     affected: bool, id: Id)
    requires HeardBy(s, up, n, groups, dependents, heard, affected) && id in dependents - heard
    ensures var noticed := NoticeGroup(s, up, n, s.groups[id]);
            HeardBy(s, up, n, groups[id := noticed.group], dependents, heard + {id}, affected || noticed.affected)
  {
    hide NoticeGroup;
  }

  lemma Unconcerned(s: State, up: Upstream, n: Notice, g: Group)
    requires !DependsOn(g, n)
    ensures NoticeGroup(s, up, n, g) == Noticed(g, false)
  {
  }

  lemma AllHeard(s: State, up: Upstream, n: Notice, groups: map<Id, Group>, dependents: set<Id>, affected: bool)
    requires HeardBy(s, up, n, groups, dependents, dependents, affected)
    requires forall id :: id in dependents <==> id in s.groups && DependsOn(s.groups[id], n)
    ensures groups == map id | id in s.groups :: NoticeGroup(s, up, n, s.groups[id]).group
    ensures affected <==> exists id :: id in s.groups && NoticeGroup(s, up, n, s.groups[id]).affected
  {
    hide NoticeGroup, DependsOn;
    forall id | id in s.groups && id !in dependents
      ensures NoticeGroup(s, up, n, s.groups[id]) == Noticed(s.groups[id], false)
    {
      Unconcerned(s, up, n, s.groups[id]);
    }
  }

  // ----- Sweeps over the groups -----

  /** The groups in `done` have been changed by f; all others are as before. */
  ghost predicate SweptBy(before: map<Id, Group>, groups: map<Id, Group>, done: set<Id>, f: Group -> Group) {
    && groups.Keys == before.Keys && done <= before.Keys
    && forall id :: id in groups ==> groups[id] == if id in done then f(before[id]) else before[id]
  }

  lemma NothingSwept(before: map<Id, Group>, f: Group -> Group)
    ensures SweptBy(before, before, {}, f)
  {
  }

  lemma OneMoreSwept(before: map<Id, Group>, groups: map<Id, Group>, done: set<Id>, f: Group -> Group, id: Id)
    requires SweptBy(before, groups, done, f) && id in before && id !in done
    ensures id in groups && groups[id] == before[id] && SweptBy(before, groups[id := f(before[id])], done + {id}, f)
  {
  }

  lemma AllSwept(before: map<Id, Group>, groups: map<Id, Group>, done: set<Id>, f: Group -> Group)
    requires SweptBy(before, groups, done, f) && forall id :: id in before && id !in done ==> f(before[id]) == before[id]
    ensures groups == map id | id in before :: f(before[id])
  {
  }

  /** What a fence does to one group. */
  function FencedOr(publisher: Id, boot: Id, epoch: nat, maxHistory: nat): Group -> Group {
    (g: Group) =>
      if g.publisher == publisher && g.boot == boot && !IsClosed(g.lifecycle)
      then FencedGroup(g, publisher, boot, epoch, maxHistory) else g
  }

  function EpochOf(epoch: nat, maxHistory: nat): Group -> Group {
    (g: Group) => EpochGroup(g, epoch, maxHistory)
  }

  lemma FenceIsQuiet(g: Group, publisher: Id, boot: Id, epoch: nat, maxHistory: nat)
    ensures Quiet(g, FencedOr(publisher, boot, epoch, maxHistory)(g))
  {
    hide Refresh, IsClosed;
    var lapsed := g.(currentness := g.currentness.(fenced := true, revalidation := true), plan := None,
                     members := MapEntries(Unproven, g.members));
    var c := LapseContext(g, EPOCH_INVALIDATION, publisher, boot, epoch);
    RefreshIsQuiet(lapsed, c, maxHistory);
    QuietTransitive(g, lapsed, Refresh(lapsed, c, maxHistory).group);
  }

  lemma EpochIsQuiet(g: Group, epoch: nat, maxHistory: nat)
    ensures Quiet(g, EpochOf(epoch, maxHistory)(g))
  {
    hide Refresh, IsClosed;
    var lapsed := g.(authorityGen := g.authorityGen + 1, plan := None, members := MapEntries(Unproven, g.members),
                     currentness := g.currentness.(staleEpoch := true, revalidation := true));
    var c := LapseContext(g, EPOCH_INVALIDATION, g.publisher, g.boot, epoch);
    RefreshIsQuiet(lapsed, c, maxHistory);
    QuietTransitive(g, lapsed, Refresh(lapsed, c, maxHistory).group);
  }

  lemma RecoveredIdentity(g: Group, epoch: nat, maxHistory: nat)
    ensures SameIdentity(g, RecoveredGroup(g, epoch, maxHistory))
  {
    hide Refresh;
    var members := MapEntries(Unproven, g.members);
    var lapsed := g.(members := members, currentness := g.currentness.(staleEpoch := true, revalidation := true),
                     plan := None, authorityGen := g.authorityGen + 1, declaredDigest := DeclaredIds(members));
    RefreshKeepsIdentity(lapsed, LapseContext(g, RECOVERY, g.publisher, g.boot, epoch), maxHistory);
  }

  lemma OwnedExactly(t: Tables, groups: map<Id, Group>, publisher: Id)
    requires Exact(t, groups) && publisher != NIL
    ensures var owned := if publisher in t.publishers then t.publishers[publisher] else {};
            forall id :: id in owned <==> id in groups && groups[id].publisher == publisher
  {
    hide KeysFirst, PathsListed, PublishersListed, Total, DeclaresPath;
    var owned := if publisher in t.publishers then t.publishers[publisher] else {};
    forall id ensures id in owned <==> id in groups && groups[id].publisher == publisher {
      assert Lists(t.publishers, publisher, id) <==> id in groups && OnAuthority(groups[id], publisher);
    }
  }

  lemma NothingScanned(rel: (Group, Id) -> bool)
    ensures Scans(map[], map[], rel)
  {
  }

  lemma NothingCounted()
    ensures Total(map[]) == 0
  {
  }

  lemma ScansHasNoEmptySets(index: map<Id, set<Id>>, groups: map<Id, Group>, rel: (Group, Id) -> bool)
    requires Scans(index, groups, rel)
    ensures NoEmptySets(index)
  {
  }

  lemma CountedExactly(t: Tables, groups: map<Id, Group>)
    requires Exact(t, groups)
    ensures t.total == Total(groups)
  {
  }

  lemma EmptyExact(t: Tables)
    requires t == Indexes.Tables(map[], map[], map[], map[], map[], map[], map[], 0)
    ensures Exact(t, map[])
  {
  }

  /** The groups recovered so far are those in `done`. */
  ghost predicate RecoveredBy(image: Image, groups: map<Id, Group>, done: set<Id>, maxHistory: nat) {
    && done <= image.groups.Keys && groups.Keys == done
    && forall id :: id in groups ==> groups[id] == RecoveredGroup(image.groups[id], image.epoch, maxHistory)
  }

  lemma NobodyRecovered(image: Image, maxHistory: nat)
    ensures RecoveredBy(image, map[], {}, maxHistory)
  {
  }

  lemma OneMoreRecovered(image: Image, groups: map<Id, Group>, done: set<Id>, maxHistory: nat, id: Id)
    requires RecoveredBy(image, groups, done, maxHistory) && id in image.groups.Keys - done && Named(image.groups)
    ensures var g := RecoveredGroup(image.groups[id], image.epoch, maxHistory);
            RecoveredBy(image, groups[id := g], done + {id}, maxHistory) && id !in groups && image.groups[id].id == id
  {
    hide RecoveredGroup;
  }

  lemma AllRecovered(image: Image, groups: map<Id, Group>, maxHistory: nat)
    requires RecoveredBy(image, groups, image.groups.Keys, maxHistory)
    ensures groups == RecoveredGroups(image, maxHistory)
  {
    hide RecoveredGroup;
  }

  /** Groups are recovered in ascending order, so a key that is listed already belongs to a group of lower identity. */
  lemma KeyListedLower(t: Tables, groups: map<Id, Group>, key: GroupKey, id: Id)
    requires Exact(t, groups) && forall x :: x in groups ==> x < id
    ensures key in t.keys ==> t.keys[key] < id
  {
    hide PathsListed, PublishersListed, Total, Scans;
    if key in t.keys { assert Owns(t.keys, key, t.keys[key]); }
  }

  lemma ListedIsExact(index: map<GroupKey, Id>, groups: map<Id, Group>)
    requires KeysFirst(index, groups)
    ensures KeysExact(index, groups) <==> forall id :: id in groups ==> Owns(index, groups[id].key, id)
  {
    if KeysExact(index, groups) {
      forall id | id in groups ensures Owns(index, groups[id].key, id) { assert HasKey(groups, id, groups[id].key); }
    }
  }

  class EcmpGovernor {
    const limits: Limits
    var epoch: nat
    var groups: map<Id, Group>
    var keyIndex: map<GroupKey, Id>
    var pathIndex: map<Id, set<Id>>
    var multipathIndex: map<Id, set<Id>>
    var costClassIndex: map<Id, set<Id>>
    var authorityIndex: map<Id, set<Id>>
    /** For every group, the paths and the publisher it is currently indexed under. */
    var indexedPaths: map<Id, seq<Id>>
    var indexedAuthority: map<Id, Id>
    var publishers: map<Id, Registration>
    var fenced: set<Id>
    var attempts: map<Id, AttemptEntry>
    var order: seq<Id>
    var costPolicy: map<Id, U64>
    var totalMembers: nat

    function View(): State
      reads this
    {
      State(limits, epoch, groups, publishers, fenced, attempts, order, costPolicy)
    }

    function Tables(): Tables
      reads `keyIndex, `pathIndex, `multipathIndex, `costClassIndex, `authorityIndex, `indexedPaths, `indexedAuthority,
            `totalMembers
    {
      Indexes.Tables(keyIndex, pathIndex, multipathIndex, costClassIndex, authorityIndex, indexedPaths, indexedAuthority,
                     totalMembers)
    }

    /** Every index is what a full scan of the groups would build, and the counter is the sum of declared members. */
    ghost predicate Indexed()
      reads `groups, `keyIndex, `pathIndex, `multipathIndex, `costClassIndex, `authorityIndex, `indexedPaths,
            `indexedAuthority, `totalMembers
    {
      Exact(Tables(), groups)
    }

    ghost predicate Valid()
      reads this
    {
      Inv(View()) && Indexed()
    }

    constructor (limits: Limits, epoch: nat)
      requires limits.Coherent()
      ensures Valid() && View() == State(limits, epoch, map[], map[], {}, map[], [], map[])
    {
      this.limits, this.epoch := limits, epoch;
      groups, keyIndex, pathIndex, multipathIndex, costClassIndex, authorityIndex := map[], map[], map[], map[], map[], map[];
      indexedPaths, indexedAuthority := map[], map[];
      publishers, fenced, attempts, order, costPolicy, totalMembers := map[], {}, map[], [], map[], 0;
    }

    // ----- Stores and indexes -----

    /** Stores a changed group and moves its entries in the path, multipath and authority indexes. */
    method StoreIndexed(g: Group)
      requires Indexed() && g.id in groups && SameIdentity(groups[g.id], g)
      modifies `groups, `pathIndex, `multipathIndex, `authorityIndex, `indexedPaths, `indexedAuthority, `totalMembers
      ensures Indexed() && groups == old(groups)[g.id := g]
    {
      hide Exact, DeclaresPath, Scans, DeclaredIds;
      ghost var tables, all := Tables(), groups;
      IsExact(tables, all, g.id);
      var byPath, paths := MovePaths(g);
      var bySet := MoveMultipath(g);
      var byPublisher := MoveAuthority(g);
      totalMembers := totalMembers + |DeclaredIds(g.members)| - |DeclaredIds(groups[g.id].members)|;
      pathIndex, multipathIndex, authorityIndex := byPath, bySet, byPublisher;
      indexedPaths, indexedAuthority := indexedPaths[g.id := paths], indexedAuthority[g.id := g.publisher];
      groups := groups[g.id := g];
      StoredExact(tables, all, g, Tables(), paths);
    }

    method MovePaths(g: Group) returns (index: map<Id, set<Id>>, paths: seq<Id>)
      requires Scans(pathIndex, groups, DeclaresPath) && PathsListed(indexedPaths, groups)
      ensures Scans(index, groups[g.id := g], DeclaresPath) && forall p :: p in paths <==> DeclaresPath(g, p)
    {
      hide DeclaresPath, Moved;
      paths := DeclaredPaths(g);
      var listed := if g.id in groups then indexedPaths[g.id] else [];
      index := Reindex(pathIndex, listed, paths, g.id);
      MovedIsExact(pathIndex, groups, DeclaresPath, g, listed, paths, index);
    }

    method MoveMultipath(g: Group) returns (index: map<Id, set<Id>>)
      requires Scans(multipathIndex, groups, OnMultipath)
      requires g.id in groups ==> groups[g.id].multipathSet == g.multipathSet
      ensures Scans(index, groups[g.id := g], OnMultipath)
    {
      hide Moved;
      var sets := if g.multipathSet != NIL then [g.multipathSet] else [];
      index := Reindex(multipathIndex, sets, sets, g.id);
      MovedIsExact(multipathIndex, groups, OnMultipath, g, sets, sets, index);
    }

    method MoveAuthority(g: Group) returns (index: map<Id, set<Id>>)
      requires Scans(authorityIndex, groups, OnAuthority) && PublishersListed(indexedAuthority, groups)
      ensures Scans(index, groups[g.id := g], OnAuthority)
    {
      hide Moved;
      var listed := if g.id in groups && indexedAuthority[g.id] != NIL then [indexedAuthority[g.id]] else [];
      var binding := if g.publisher != NIL then [g.publisher] else [];
      index := Reindex(authorityIndex, listed, binding, g.id);
      MovedIsExact(authorityIndex, groups, OnAuthority, g, listed, binding, index);
    }

    method ListCostClass(g: Group) returns (index: map<Id, set<Id>>)
      requires Scans(costClassIndex, groups, OnCostClass) && g.id !in groups
      ensures Scans(index, groups[g.id := g], OnCostClass)
    {
      hide Moved;
      var classes := if g.key.costClass != NIL then [g.key.costClass] else [];
      index := Reindex(costClassIndex, [], classes, g.id);
      MovedIsExact(costClassIndex, groups, OnCostClass, g, [], classes, index);
    }

    /** Stores a new group and lists it in every index. */
    method StoreNew(g: Group)
      requires Indexed() && g.id !in groups && (g.key in keyIndex ==> keyIndex[g.key] < g.id)
      modifies `groups, `pathIndex, `multipathIndex, `authorityIndex, `costClassIndex, `keyIndex, `indexedPaths,
               `indexedAuthority, `totalMembers
      ensures Indexed() && groups == old(groups)[g.id := g]
    {
      hide Exact, DeclaresPath, Scans, DeclaredIds, PathsListed, PublishersListed, OnMultipath, OnCostClass, OnAuthority,
           Emplaced;
      ghost var tables, all := Tables(), groups;
      IsExact(tables, all, g.id);
      var byPath, paths := MovePaths(g);
      var bySet := MoveMultipath(g);
      var byPublisher := MoveAuthority(g);
      var byClass := ListCostClass(g);
      totalMembers := totalMembers + |DeclaredIds(g.members)|;
      pathIndex, multipathIndex, authorityIndex, costClassIndex := byPath, bySet, byPublisher, byClass;
      indexedPaths, indexedAuthority := indexedPaths[g.id := paths], indexedAuthority[g.id := g.publisher];
      keyIndex := Emplaced(keyIndex, g);
      groups := groups[g.id := g];
      AddedExact(tables, all, g, Tables(), paths);
    }

    /** Stores a change that no index follows. */
    method StoreQuietly(g: Group)
      requires Indexed() && g.id in groups && Quiet(groups[g.id], g)
      modifies `groups
      ensures Indexed() && groups == old(groups)[g.id := g]
    {
      hide Exact, Quiet;
      QuietExact(Tables(), groups, g);
      groups := groups[g.id := g];
    }

    // ----- Attempts -----

    method RememberAttempt(attempt: Id, entry: AttemptEntry)
      modifies `attempts, `order
      ensures View() == Governor.RememberAttempt(old(View()), attempt, entry)
    {
      if attempt in attempts {
        attempts := attempts[attempt := entry];
        return;
      }
      attempts, order := attempts[attempt := entry], order + [attempt];
      ghost var all := DropOldest(attempts, order, limits.maxAttemptsRemembered);
      while |order| > limits.maxAttemptsRemembered
        invariant DropOldest(attempts, order, limits.maxAttemptsRemembered) == all
      {
        attempts, order := attempts - {order[0]}, order[1..];
      }
    }

    // ----- Finishing a mutation -----

    /** Refreshes a changed group, counts its members, evicts, indexes and remembers the attempt. */
    method FinishGroupMutation(g: Group, c: Context, r: Request, success: Outcome) returns (outcome: Outcome)
      requires Indexed() && g.id in groups && SameIdentity(groups[g.id], g) && LifecycleAllows(g.lifecycle, c.event)
      modifies this
      ensures Indexed() && Answer(View(), outcome) == Finish(old(View()), g, c, r, success)
    {
      hide Refresh, Indexed, Remember, LifecycleAllows, PayloadOf;
      RefreshGoesThrough(g, c, limits.maxHistory);
      RefreshKeepsIdentity(g, c, limits.maxHistory);
      var refreshed, ok := RefreshGroup(g, c, limits.maxHistory);
      var members := EvictWithdrawn(refreshed.members, limits.maxMembersPerGroup);
      StoreIndexed(refreshed.(members := members));
      assert View() == Stored(old(View()), refreshed.(members := members));
      Remembering(r.authority.attempt, AttemptEntry(PayloadOf(r), success, g.id));
      outcome := success;
    }

    /** Remembering an attempt concerns no index. */
    method Remembering(attempt: Id, entry: AttemptEntry)
      requires Indexed()
      modifies `attempts, `order
      ensures Indexed() && View() == Governor.RememberAttempt(old(View()), attempt, entry)
    {
      RememberAttempt(attempt, entry);
    }

    // ----- Single members -----

    method AddMember(r: Request, up: Upstream) returns (outcome: Outcome)
      requires Valid() && r.AddMember?
      modifies this
      ensures Valid() && Answer(View(), outcome) == Add(old(View()), r, up)
    {
      hide Preamble, Finish, Inv, ValidateFor, LifecycleAllows, Total, StepOk, GroupOk, Loose, EntriesOk;
      ghost var s := View();
      AddOk(s, r, up);
      StepKeepsInv(s, Add(s, r, up), None);
      var stop := Preamble(View(), r, GroupEvent.ADD_MEMBER);
      if stop.Some? { return stop.value; }
      Ready(s, r, GroupEvent.ADD_MEMBER);
      var g := groups[r.group];
      var i := FindEntry(g.members, r.spec.member);
      if i < |g.members| && g.members[i].record.declared { return DUPLICATE_MEMBER; }
      var declared := |DeclaredIds(g.members)|;
      if declared + 1 > limits.maxMembersPerGroup || declared + 1 > g.bucketCount { return RESOURCE_LIMIT; }
      if totalMembers + 1 > limits.maxTotalMembers { return RESOURCE_LIMIT; }
      var invalid := ValidateFor(up, g, r.spec);
      if invalid.Some? { return invalid.value; }
      var members := if i < |g.members| then g.members[i := FreshEntry(r.spec)] else g.members + [FreshEntry(r.spec)];
      outcome := FinishGroupMutation(
        g.(members := SortBy(EntryKey, members)),
        ContextFor(View(), r.authority, ChangeReason.ADD_MEMBER, GroupEvent.ADD_MEMBER), r, MEMBER_ADDED);
    }

    method RemoveMember(r: Request) returns (outcome: Outcome)
      requires Valid() && r.RemoveMember?
      modifies this
      ensures Valid() && Answer(View(), outcome) == Remove(old(View()), r)
    {
      hide Preamble, Finish, Inv, LifecycleAllows, Exact, StepOk, GroupOk, Loose, EntriesOk;
      ghost var s := View();
      RemoveOk(s, r);
      StepKeepsInv(s, Remove(s, r), None);
      var stop := Preamble(View(), r, GroupEvent.REMOVE_MEMBER);
      if stop.Some? { return stop.value; }
      Ready(s, r, GroupEvent.REMOVE_MEMBER);
      var g := groups[r.group];
      var i := FindEntry(g.members, r.member);
      if i == |g.members| || !g.members[i].record.declared { return UNKNOWN_MEMBER; }
      var e := g.members[i];
      e := e.(record := e.record.(declared := false, enabled := true), pathCurrent := true, multipathCurrent := true,
              costCurrent := true);
      outcome := FinishGroupMutation(
        g.(members := g.members[i := e]),
        ContextFor(View(), r.authority, ChangeReason.REMOVE_MEMBER, GroupEvent.REMOVE_MEMBER), r, MEMBER_REMOVED);
    }

    method SetMemberEnabled(r: Request, up: Upstream) returns (outcome: Outcome)
      requires Valid() && r.SetEnabled?
      modifies this
      ensures Valid() && Answer(View(), outcome) == Enable(old(View()), r, up)
    {
      hide Preamble, Finish, Inv, LifecycleAllows, Exact, StepOk, GroupOk, Loose, EntriesOk, ValidateFor, Remember;
      ghost var s := View();
      EnableOk(s, r, up);
      StepKeepsInv(s, Enable(s, r, up), None);
      var event := if r.enabled then GroupEvent.ENABLE_MEMBER else GroupEvent.DISABLE_MEMBER;
      var reason := if r.enabled then ChangeReason.ENABLE_MEMBER else ChangeReason.DISABLE_MEMBER;
      var stop := Preamble(View(), r, event);
      if stop.Some? { return stop.value; }
      Ready(s, r, event);
      var g := groups[r.group];
      var i := FindEntry(g.members, r.member);
      if i == |g.members| || !g.members[i].record.declared { return UNKNOWN_MEMBER; }
      if g.members[i].record.enabled == r.enabled {
        Remembering(r.authority.attempt, AttemptEntry(PayloadOf(r), NO_CHANGE, g.id));
        return NO_CHANGE;
      }
      var e := g.members[i];
      if r.enabled {
        if g.currentness.staleCost { return STALE_COST_GENERATION; }
        var invalid := ValidateFor(up, g, SpecOf(e.record));
        if invalid.Some? { return invalid.value; }
        e := e.(pathCurrent := true, pathAuthorized := true, multipathCurrent := true, costCurrent := true);
      }
      e := e.(record := e.record.(enabled := r.enabled));
      outcome := FinishGroupMutation(g.(members := g.members[i := e]), ContextFor(View(), r.authority, reason, event), r,
                                     if r.enabled then MEMBER_ENABLED else MEMBER_DISABLED);
    }

    // ----- Creation -----

    method CreateGroup(r: Request, up: Upstream) returns (outcome: Outcome)
      requires Valid() && r.CreateGroup?
      modifies this
      ensures Valid() && Answer(View(), outcome) == Create(old(View()), r, up)
    {
      hide Inv, Exact, StepOk, Refresh, CheckNewMembers, Remember, Authorize, HandleAttempt, PayloadOf, KeyTaken, Total;
      ghost var s := View();
      CreateOk(s, r, up);
      StepKeepsInv(s, Create(s, r, up), None);
      var denied := Authorize(View(), r.authority, MUTATE_GROUP, r.group);
      if denied.Some? { return denied.value; }
      var known := HandleAttempt(View(), r.authority, PayloadOf(r));
      if known.Some? { return known.value; }
      var refused := CheckRequest(r);
      if refused.Some? { return refused.value; }
      var invalid := CheckMembers(up, r);
      if invalid.Some? { return invalid.value; }
      var eligible := CountEnabled(r.members);
      if eligible < r.minActive { return INSUFFICIENT_MEMBERS; }
      var c := ContextFor(View(), r.authority, ChangeReason.CREATE, GroupEvent.ADD_MEMBER);
      var g, ok := RefreshGroup(NewGroup(View(), r), c, limits.maxHistory);
      RefreshKeepsIdentity(NewGroup(View(), r), c, limits.maxHistory);
      if !ok { return LIFECYCLE_VIOLATION; }
      outcome := InstallNew(g, r);
    }

    method InstallNew(g: Group, r: Request) returns (outcome: Outcome)
      requires Indexed() && g.id !in groups && g.key !in keyIndex
      modifies this
      ensures Indexed() && outcome == CREATED
      ensures View() == Governor.RememberAttempt(Stored(old(View()), g), r.authority.attempt,
                                                 AttemptEntry(PayloadOf(r), CREATED, r.group))
    {
      hide Exact, Remember, PayloadOf;
      StoreNew(g);
      assert View() == Stored(old(View()), g);
      Remembering(r.authority.attempt, AttemptEntry(PayloadOf(r), CREATED, r.group));
      outcome := CREATED;
    }

    /** The shape, limit and duplicate checks of a creation, against the counter and the key index. */
    method CheckRequest(r: Request) returns (refused: Option<Outcome>)
      requires Indexed() && r.CreateGroup?
      ensures refused == CheckCreation(View(), r)
      ensures refused.None? ==> r.group !in groups && r.key !in keyIndex && |r.members| > 0
    {
      hide Scans, PathsListed, PublishersListed, Total;
      KeyTakenIndexed(keyIndex, groups, r.key);
      if r.group == NIL || !r.key.WellFormed() { return Some(MALFORMED_REQUEST); }
      if !r.authority.scope.Covers(r.key, r.group) { return Some(UNAUTHORIZED); }
      if !r.semantics.WellFormed() || r.semantics.costClass != r.key.costClass { return Some(MALFORMED_REQUEST); }
      if r.hashDomain == NIL || r.provenance == NIL { return Some(MALFORMED_REQUEST); }
      if r.source.MULTIPATH_FABRIC? && r.multipathSet == NIL { return Some(MALFORMED_REQUEST); }
      if r.minActive == 0 || r.bucketCount == 0 { return Some(MALFORMED_REQUEST); }
      if r.bucketCount > limits.maxBuckets || r.minActive > limits.maxMembersPerGroup { return Some(RESOURCE_LIMIT); }
      if |r.members| > limits.maxMembersPerGroup || |r.members| > r.bucketCount { return Some(RESOURCE_LIMIT); }
      if |r.members| < r.minActive { return Some(INSUFFICIENT_MEMBERS); }
      if |groups| >= limits.maxGroups { return Some(RESOURCE_LIMIT); }
      if totalMembers + |r.members| > limits.maxTotalMembers { return Some(RESOURCE_LIMIT); }
      if r.group in groups || r.key in keyIndex { return Some(DUPLICATE_GROUP); }
      return None;
    }

    // ----- Member sets -----

    /** The group as it would be with the declared set replaced; the group itself is not touched. */
    method TryTarget(g: Group, specs: seq<MemberSpec>, a: Authority) returns (trial: Group, ok: bool)
      requires EntriesOk(g.members) && CheckSpecShape(specs, 0).None?
      ensures Refreshed(trial, ok) ==
              Refresh(Retargeted(g, specs), TargetContext(View(), a, g, specs), limits.maxHistory)
      ensures SameIdentity(g, trial)
    {
      hide Refresh, EntriesOk, ApplyTarget, AddedCount, CheckSpecShape;
      EntriesListed(g.members);
      ShapedSpecsListed(specs);
      var members, added := ApplyTargetSet(g.members, specs);
      var c := if added > 0 then ContextFor(View(), a, ChangeReason.ADD_MEMBER, GroupEvent.ADD_MEMBER)
               else ContextFor(View(), a, ChangeReason.REMOVE_MEMBER, GroupEvent.REMOVE_MEMBER);
      trial, ok := RefreshGroup(g.(members := members), c, limits.maxHistory);
      RefreshKeepsIdentity(g.(members := members), c, limits.maxHistory);
    }

    method ApplyMembershipSet(r: Request, up: Upstream) returns (outcome: Outcome)
      requires Valid() && r.ApplySet?
      modifies this
      ensures Valid() && Answer(View(), outcome) == Apply(old(View()), r, up)
    {
      hide Preamble, Refresh, Inv, LifecycleAllows, Exact, StepOk, GroupOk, Loose, Remember, CheckSetRequest, CheckSpecShape,
           DeclaredIds, TargetContext, Retargeted, PayloadOf, EntriesOk;
      ghost var s := View();
      ApplyOk(s, r, up);
      StepKeepsInv(s, Apply(s, r, up), None);
      var stop := Preamble(View(), r, GroupEvent.ADD_MEMBER);
      if stop.Some? { return stop.value; }
      Ready(s, r, GroupEvent.ADD_MEMBER);
      var g := groups[r.group];
      var refused := CheckSet(g, r.members, up);
      if refused.Some? { return refused.value; }
      var trial, ok := TryTarget(g, r.members, r.authority);
      if !ok { return LIFECYCLE_VIOLATION; }
      var changed := trial.assignmentGen != g.assignmentGen;
      var churn := if changed && trial.lastRebalance.Some? then trial.lastRebalance.value.churn else 0;
      if churn > limits.maxRebalanceMoves { return RESOURCE_LIMIT; }
      outcome := if changed then REBALANCED else NO_CHANGE;
      InstallTrial(trial, r, outcome);
    }

    /** Puts a trial in the place of its group. */
    method InstallTrial(trial: Group, r: Request, outcome: Outcome)
      requires Indexed() && trial.id in groups && SameIdentity(groups[trial.id], trial)
      modifies this
      ensures Indexed()
      ensures var done := trial.(members := Evict(trial.members, limits.maxMembersPerGroup));
              View() == Governor.RememberAttempt(Stored(old(View()), done), r.authority.attempt,
                                                 AttemptEntry(PayloadOf(r), outcome, trial.id))
    {
      hide Exact, Remember, PayloadOf, Evict;
      var members := EvictWithdrawn(trial.members, limits.maxMembersPerGroup);
      StoreIndexed(trial.(members := members));
      assert View() == Stored(old(View()), trial.(members := members));
      Remembering(r.authority.attempt, AttemptEntry(PayloadOf(r), outcome, trial.id));
    }

    method CheckSet(g: Group, specs: seq<MemberSpec>, up: Upstream) returns (refused: Option<Outcome>)
      ensures refused == CheckSetRequest(View(), g, specs, up)
      ensures refused.None? ==> CheckSpecShape(specs, 0).None?
    {
      hide CheckSpecShape, ValidateAll, TargetChanges, AnyPathMoved;
      refused := CheckShape(specs);
      if refused.Some? { return; }
      if |specs| > limits.maxMembersPerGroup || |specs| > g.bucketCount { return Some(RESOURCE_LIMIT); }
      var moved := FindMovedPath(g, specs);
      if moved { return Some(MALFORMED_REQUEST); }
      var changes := CountTargetChanges(g, specs);
      if changes > limits.maxBatchSize { return Some(RESOURCE_LIMIT); }
      refused := ValidateSpecs(up, g, specs);
    }

    // ----- Revalidation -----

    method RevalidateGroup(r: Request, up: Upstream) returns (outcome: Outcome)
      requires Valid() && r.Revalidate?
      modifies this
      ensures Valid() && Answer(View(), outcome) == Revalidation(old(View()), r, up)
    {
      hide Preamble, Finish, Inv, LifecycleAllows, Exact, StepOk, GroupOk, Loose, EntriesOk, ApplyUpdates, Restored,
           AdoptionNeeded, CheckAdoption, Adopt, Claims, RepeatsMember, CheckMultipathUpdate, Tweaked;
      ghost var s := View();
      RevalidationOk(s, r, up);
      StepKeepsInv(s, Revalidation(s, r, up), None);
      var stop := Preamble(View(), r, GroupEvent.REVALIDATE);
      if stop.Some? { return stop.value; }
      Ready(s, r, GroupEvent.REVALIDATE);
      var g := groups[r.group];
      if |r.updates| > limits.maxBatchSize { return RESOURCE_LIMIT; }
      var repeats := FindRepeated(r.updates);
      if repeats { return MALFORMED_REQUEST; }
      var claims := CollectClaims(r.updates);
      var adopted, unfit := AdoptPolicy(g, claims);
      if unfit.Some? { return unfit.value; }
      var updated, refused := Reprove(up, adopted, r.updates);
      UpdatedTweaks(s, r, up);
      TweakedIsQuiet(g, updated);
      if refused.Some? {
        StoreQuietly(updated);
        return refused.value;
      }
      var stale := CheckMultipathUpdate(up, updated, r.newMultipathGen);
      if stale.Some? {
        StoreQuietly(updated);
        return stale.value;
      }
      var restored := RestoreGroup(up, WithMultipath(updated, r.newMultipathGen));
      RestoredIdentity(up, updated, r.newMultipathGen);
      outcome := FinishGroupMutation(
        restored, ContextFor(View(), r.authority, ChangeReason.REVALIDATION, GroupEvent.REVALIDATE), r, REVALIDATED);
    }

    /** Takes over a new cost policy when the claims name one and it is fit to be taken over. */
    method AdoptPolicy(g: Group, claims: seq<CostClaim>) returns (adopted: Group, unfit: Option<Outcome>)
      ensures unfit == if AdoptionNeeded(g, claims) then CheckAdoption(View(), g, claims) else None
      ensures unfit.None? ==> adopted == if AdoptionNeeded(g, claims) then Adopt(g, claims[0]) else g
    {
      adopted := g;
      var needed := false;
      for i := 0 to |claims|
        invariant needed <==> (exists k :: 0 <= k < i &&
                                 claims[k].binding.policyGeneration != g.semantics.binding.policyGeneration)
      {
        if claims[i].binding.policyGeneration != g.semantics.binding.policyGeneration { needed := true; }
      }
      if !needed { return adopted, None; }
      unfit := CheckAdoption(View(), g, claims);
      if unfit.None? {
        adopted := adopted.(semantics := adopted.semantics.(binding := claims[0].binding), canonicalCost := claims[0].cost);
        adopted := adopted.(currentness := adopted.currentness.(staleCost := false));
      }
    }

    method RestoreGroup(up: Upstream, g: Group) returns (r: Group)
      ensures r == Restored(up, g)
    {
      hide Reobserve;
      r := g.(currentness := g.currentness.(staleEpoch := false, fenced := false, revalidation := false,
                                            staleCost := false));
      var ms := r.members;
      for i := 0 to |ms|
        invariant |ms| == |g.members|
        invariant forall k :: 0 <= k < i ==> ms[k] == CostProven(g.members[k])
        invariant forall k :: i <= k < |ms| ==> ms[k] == g.members[k]
      {
        ms := ms[i := ms[i].(costCurrent := true)];
      }
      assert ms == MapEntries(CostProven, g.members);
      r := ReobserveGroup(up, r.(members := ms));
    }

    // ----- Plans -----

    method PlanGroup(r: Request, up: Upstream) returns (outcome: Outcome)
      requires Valid() && r.PlanRebalance?
      modifies this
      ensures Valid() && Answer(View(), outcome) == Planning(old(View()), r, up)
    {
      hide Preamble, Finish, Refresh, Inv, LifecycleAllows, Exact, StepOk, GroupOk, Loose, EntriesOk, CheckSpecShape,
           CheckPlanRequest, TargetContext, Retargeted, PlanFor, ContextFor, DeclaredIds;
      ghost var s := View();
      PlanningKeepsInv(s, r, up);
      var stop := Preamble(View(), r, PLAN_REBALANCE);
      if stop.Some? { return stop.value; }
      Ready(s, r, PLAN_REBALANCE);
      var g := groups[r.group];
      if g.plan.Some? { return LIFECYCLE_VIOLATION; }
      var refused := CheckPlanned(g, r.members, up);
      if refused.Some? { return refused.value; }
      var trial, ok := TryTarget(g, r.members, r.authority);
      if !ok { return LIFECYCLE_VIOLATION; }
      var churn := if trial.lastRebalance.Some? then trial.lastRebalance.value.churn else 0;
      if trial.assignmentGen != g.assignmentGen && churn > limits.maxRebalanceMoves { return RESOURCE_LIMIT; }
      outcome := InstallPlan(r, g, trial);
    }

    /** Gives a group the plan its trial foresees. */
    method InstallPlan(r: Request, g: Group, trial: Group) returns (outcome: Outcome)
      requires Indexed() && r.PlanRebalance? && g.id in groups && groups[g.id] == g
      requires LifecycleAllows(g.lifecycle, PLAN_REBALANCE)
      modifies this
      ensures Indexed()
      ensures Answer(View(), outcome) ==
              Finish(old(View()), g.(plan := Some(PlanFor(old(View()), r, g, trial))),
                     ContextFor(old(View()), r.authority, ChangeReason.REVALIDATION, PLAN_REBALANCE), r,
                     REBALANCE_PLANNED)
    {
      hide Finish, LifecycleAllows, Exact, PlanFor;
      outcome := FinishGroupMutation(g.(plan := Some(PlanFor(View(), r, g, trial))),
                                     ContextFor(View(), r.authority, ChangeReason.REVALIDATION, PLAN_REBALANCE), r,
                                     REBALANCE_PLANNED);
    }

    method CheckPlanned(g: Group, specs: seq<MemberSpec>, up: Upstream) returns (refused: Option<Outcome>)
      ensures refused == CheckPlanRequest(View(), g, specs, up)
      ensures refused.None? ==> CheckSpecShape(specs, 0).None?
    {
      hide CheckSpecShape, CheckTargets, TargetChanges;
      refused := CheckShape(specs);
      if refused.Some? { return; }
      if |specs| > limits.maxMembersPerGroup || |specs| > g.bucketCount { return Some(RESOURCE_LIMIT); }
      refused := ValidateTargets(up, g, specs);
      if refused.Some? { return; }
      var changes := CountTargetChanges(g, specs);
      if changes > limits.maxBatchSize { return Some(RESOURCE_LIMIT); }
    }

    method CommitPlan(r: Request) returns (outcome: Outcome)
      requires Valid() && r.CommitRebalance?
      modifies this
      ensures Valid() && Answer(View(), outcome) == Commit(old(View()), r)
    {
      hide Preamble, Finish, Inv, LifecycleAllows, Exact, StepOk, GroupOk, Loose, EntriesOk, ApplyTarget, AddedCount;
      ghost var s := View();
      CommitOk(s, r);
      StepKeepsInv(s, Commit(s, r), None);
      var stop := Preamble(View(), r, COMMIT_REBALANCE);
      if stop.Some? { return stop.value; }
      Ready(s, r, COMMIT_REBALANCE);
      var g := groups[r.group];
      if g.plan.None? || g.plan.value.id != r.plan { return NO_PENDING_PLAN; }
      var p := g.plan.value;
      if p.fromMembership != g.membershipGen || p.fromAssignment != g.assignmentGen || p.fromAuthority != g.authorityGen {
        return STALE_PLAN;
      }
      EntriesListed(g.members);
      PlanListed(g, limits);
      var members, added := ApplyTargetSet(g.members, p.targetMembers);
      outcome := FinishGroupMutation(
        g.(plan := None, members := members),
        ContextFor(View(), r.authority, ChangeReason.REBALANCE_COMMIT, COMMIT_REBALANCE), r, REBALANCED);
      if outcome.Accepted() && g.id in groups && groups[g.id].owners != p.assignmentDigest { return INTERNAL_ERROR; }
    }

    method AbortPlan(r: Request) returns (outcome: Outcome)
      requires Valid() && r.AbortRebalance?
      modifies this
      ensures Valid() && Answer(View(), outcome) == Abort(old(View()), r)
    {
      hide Preamble, Finish, Inv, LifecycleAllows, Exact, StepOk, GroupOk, Loose, EntriesOk;
      ghost var s := View();
      AbortOk(s, r);
      StepKeepsInv(s, Abort(s, r), None);
      var stop := Preamble(View(), r, ABORT_REBALANCE);
      if stop.Some? { return stop.value; }
      Ready(s, r, ABORT_REBALANCE);
      var g := groups[r.group];
      if g.plan.None? || g.plan.value.id != r.plan { return NO_PENDING_PLAN; }
      outcome := FinishGroupMutation(
        g.(plan := None), ContextFor(View(), r.authority, ChangeReason.PLAN_ABORTED, ABORT_REBALANCE), r,
        REBALANCE_ABORTED);
    }

    // ----- Administrative ends -----

    /** Sets the declared and enabled flags of every entry. */
    method Flag(ms: seq<MemberEntry>, declared: Option<bool>, enabled: bool) returns (r: seq<MemberEntry>)
      ensures |r| == |ms|
      ensures forall i :: 0 <= i < |ms| ==>
                r[i] == ms[i].(record := ms[i].record.(
                  declared := if declared.Some? then declared.value else ms[i].record.declared, enabled := enabled))
    {
      r := ms;
      for i := 0 to |ms|
        invariant |r| == |ms| && forall k :: i <= k < |ms| ==> r[k] == ms[k]
        invariant forall k :: 0 <= k < i ==>
                    r[k] == ms[k].(record := ms[k].record.(
                      declared := if declared.Some? then declared.value else ms[k].record.declared, enabled := enabled))
      {
        if declared.Some? { r := r[i := r[i].(record := r[i].record.(declared := declared.value))]; }
        r := r[i := r[i].(record := r[i].record.(enabled := enabled))];
      }
    }

    method WithdrawGroup(r: Request) returns (outcome: Outcome)
      requires Valid() && r.WithdrawGroup?
      modifies this
      ensures Valid() && Answer(View(), outcome) == Withdraw(old(View()), r)
    {
      hide Preamble, Finish, Inv, LifecycleAllows, Exact, StepOk, GroupOk, Loose, EntriesOk;
      ghost var s := View();
      WithdrawOk(s, r);
      StepKeepsInv(s, Withdraw(s, r), None);
      var completing := r.group in groups && groups[r.group].lifecycle.Withdrawing?;
      var event := if completing then COMPLETE_WITHDRAW else WITHDRAW;
      var stop := Preamble(View(), r, event);
      if stop.Some? { return stop.value; }
      Ready(s, r, event);
      var g := groups[r.group];
      if completing {
        var members := Flag(g.members, Some(false), true);
        assert members == MapEntries(Undeclared, g.members);
        g := g.(members := members, currentness := g.currentness.(retired := true));
      }
      outcome := FinishGroupMutation(g, ContextFor(View(), r.authority, ADMIN_WITHDRAW, event), r, WITHDRAWN_OK);
    }

    method RevokeGroup(r: Request) returns (outcome: Outcome)
      requires Valid() && r.RevokeGroup?
      modifies this
      ensures Valid() && Answer(View(), outcome) == Revoke(old(View()), r)
    {
      hide Preamble, Finish, Inv, LifecycleAllows, Exact, StepOk, GroupOk, Loose, EntriesOk;
      ghost var s := View();
      RevokeOk(s, r);
      StepKeepsInv(s, Revoke(s, r), None);
      var stop := Preamble(View(), r, REVOKE);
      if stop.Some? { return stop.value; }
      Ready(s, r, REVOKE);
      var g := groups[r.group];
      var members := Flag(g.members, None, false);
      assert members == MapEntries(Disabled, g.members);
      g := g.(members := members, currentness := g.currentness.(retired := true));
      outcome := FinishGroupMutation(g, ContextFor(View(), r.authority, ADMIN_REVOKE, REVOKE), r, REVOKED_OK);
    }

    method RetireGroup(r: Request) returns (outcome: Outcome)
      requires Valid() && r.RetireGroup?
      modifies this
      ensures Valid() && Answer(View(), outcome) == Retire(old(View()), r)
    {
      hide Preamble, Finish, Inv, LifecycleAllows, Exact, StepOk, GroupOk, Loose, EntriesOk;
      ghost var s := View();
      RetireOk(s, r);
      StepKeepsInv(s, Retire(s, r), None);
      var stop := Preamble(View(), r, RETIRE);
      if stop.Some? { return stop.value; }
      Ready(s, r, RETIRE);
      var g := groups[r.group];
      var members := Flag(g.members, Some(false), false);
      assert members == MapEntries(RetiredEntry, g.members);
      g := g.(members := members, plan := None, currentness := g.currentness.(retired := true));
      outcome := FinishGroupMutation(g, ContextFor(View(), r.authority, ADMIN_WITHDRAW, RETIRE), r, RETIRED_OK);
    }

    method SupersedeGroup(r: Request) returns (outcome: Outcome)
      requires Valid() && r.SupersedeGroup?
      modifies this
      ensures Valid() && Answer(View(), outcome) == Supersede(old(View()), r)
    {
      hide Preamble, Finish, Inv, LifecycleAllows, Exact, StepOk, GroupOk, Loose, EntriesOk, IsClosed;
      ghost var s := View();
      SupersedeOk(s, r);
      StepKeepsInv(s, Supersede(s, r), None);
      var stop := Preamble(View(), r, SUPERSEDE);
      if stop.Some? { return stop.value; }
      Ready(s, r, SUPERSEDE);
      var g := groups[r.group];
      if r.successor == NIL || r.successor == g.id { return MALFORMED_REQUEST; }
      if r.successor !in groups { return UNKNOWN_GROUP; }
      if IsClosed(groups[r.successor].lifecycle) { return LifecycleOutcome(groups[r.successor].lifecycle); }
      IdsMatch(s, r.successor);
      StoreQuietly(groups[r.successor].(predecessor := g.id));
      var members := Flag(g.members, None, false);
      assert members == MapEntries(Disabled, g.members);
      g := g.(members := members, plan := None, successor := r.successor,
              currentness := g.currentness.(retired := true));
      outcome := FinishGroupMutation(g, ContextFor(View(), r.authority, SUPERSESSION, SUPERSEDE), r, SUPERSEDED_OK);
    }

    // ----- Upstream notices -----

    method NotifyPathChange(n: Notice, up: Upstream) returns (outcome: Outcome)
      requires Valid() && n.PathNotice?
      modifies this
      ensures Valid() && Answer(View(), outcome) == Notify(old(View()), n, up)
    {
      LeadsExactly(Tables(), groups, n);
      outcome := HearNotice(n, up, pathIndex);
    }

    method NotifyMultipathChange(n: Notice, up: Upstream) returns (outcome: Outcome)
      requires Valid() && n.MultipathNotice?
      modifies this
      ensures Valid() && Answer(View(), outcome) == Notify(old(View()), n, up)
    {
      LeadsExactly(Tables(), groups, n);
      outcome := HearNotice(n, up, multipathIndex);
    }

    method NotifyCostChange(n: Notice, up: Upstream) returns (outcome: Outcome)
      requires Valid() && n.CostNotice?
      modifies this
      ensures Valid() && Answer(View(), outcome) == Notify(old(View()), n, up)
    {
      LeadsExactly(Tables(), groups, n);
      outcome := HearNotice(n, up, costClassIndex);
    }

    /** The index that leads to the groups a notice is about. */
    ghost predicate Leads(index: map<Id, set<Id>>, n: Notice)
      reads this
    {
      forall id :: Lists(index, NoticeSubject(n), id) <==> id in groups && DependsOn(groups[id], n)
    }

    /** What the three notices have in common: authority, subject, the index, and then the groups one after the other. */
    method HearNotice(n: Notice, up: Upstream, index: map<Id, set<Id>>) returns (outcome: Outcome)
      requires Valid() && Leads(index, n)
      modifies this
      ensures Valid() && Answer(View(), outcome) == Notify(old(View()), n, up)
    {
      hide Inv, Exact, StepOk, AuthorizeUpstream, NoticeGroup, DependsOn;
      ghost var s := View();
      NotifyOk(s, n, up);
      StepKeepsInv(s, Notify(s, n, up), None);
      var denied := AuthorizeUpstream(View(), n.epoch, n.publisher, n.boot);
      if denied.Some? { return denied.value; }
      if NoticeSubject(n) == NIL { return MALFORMED_REQUEST; }
      if n.CostNotice? { costPolicy := costPolicy[n.costClass := n.generation]; }
      var dependents := if NoticeSubject(n) in index then index[NoticeSubject(n)] else {};
      forall id ensures id in dependents <==> id in groups && DependsOn(groups[id], n) {
        assert id in dependents <==> Lists(index, NoticeSubject(n), id);
      }
      var affected := HearAll(s, n, up, dependents);
      outcome := if affected then REBALANCED else NO_CHANGE;
    }

    /** Lets every dependent group hear the notice. */
    method HearAll(ghost s: State, n: Notice, up: Upstream, dependents: set<Id>) returns (affected: bool)
      requires Indexed() && groups == s.groups && limits == s.limits && epoch == s.epoch && publishers == s.publishers
      requires forall id :: id in dependents <==> id in groups && DependsOn(groups[id], n)
      modifies this
      ensures Indexed()
      ensures View() == old(View()).(groups := map id | id in s.groups :: NoticeGroup(s, up, n, s.groups[id]).group)
      ensures affected <==> exists id :: id in s.groups && NoticeGroup(s, up, n, s.groups[id]).affected
    {
      hide Exact, NoticeGroup, DependsOn, HeardBy;
      var todo := dependents;
      affected := false;
      assert HeardBy(s, up, n, groups, dependents, {}, false) by { NobodyHeard(s, up, n, dependents); }
      ghost var heard: set<Id> := {};
      while todo != {}
        invariant Indexed() && todo == dependents - heard && heard <= dependents
        invariant View() == old(View()).(groups := groups)
        invariant HeardBy(s, up, n, groups, dependents, heard, affected)
      {
        var id :| id in todo;
        StillToHear(s, up, n, groups, dependents, heard, affected, id);
        ghost var before, was := groups, affected;
        todo := todo - {id};
        var hit := HearOne(s, id, n, up);
        affected := affected || hit;
        OneMoreHeard(s, up, n, before, dependents, heard, was, id);
        heard := heard + {id};
      }
      assert heard == dependents;
      AllHeard(s, up, n, groups, dependents, affected);
    }

    method HearOne(ghost s: State, id: Id, n: Notice, up: Upstream) returns (hit: bool)
      requires Indexed() && id in groups && id in s.groups && groups[id] == s.groups[id] && DependsOn(groups[id], n)
      requires limits == s.limits && epoch == s.epoch && publishers == s.publishers
      modifies this
      ensures Indexed() && View() == old(View()).(groups := groups)
      ensures groups == old(groups)[id := NoticeGroup(s, up, n, s.groups[id]).group]
      ensures hit == NoticeGroup(s, up, n, s.groups[id]).affected
    {
      hide Exact, Refresh, NoticePath, NoticeMultipath, NoticeCost, IsClosed, DependsOn;
      var g := groups[id];
      NamedExactly(Tables(), groups, id);
      assert groups[id := g] == groups;
      if n.publisher !in publishers || !publishers[n.publisher].scope.Covers(g.key, g.id) { return false; }
      if IsClosed(g.lifecycle) { return false; }
      var noticed;
      match n {
        case PathNotice(_, p, b, path) =>
          var c := NoticeContext(PATH_INVALIDATION, INVALIDATE_PATH, p, b, epoch);
          noticed := HearPath(up, path, g, c, limits.maxHistory);
          PathIsQuiet(up, path, g, c, limits.maxHistory);
          if noticed.affected { StoreIndexed(noticed.group); } else { StoreQuietly(noticed.group); }
        case MultipathNotice(_, p, b, _) =>
          if g.source.DIRECT_PATH_SET? { return false; }
          var c := NoticeContext(MULTIPATH_INVALIDATION, INVALIDATE_MULTIPATH, p, b, epoch);
          noticed := HearMultipath(up, g, c, limits.maxHistory);
          MultipathIsQuiet(up, g, c, limits.maxHistory);
          StoreQuietly(noticed.group);
        case CostNotice(_, p, b, _, generation) =>
          var c := NoticeContext(COST_INVALIDATION, INVALIDATE_COST, p, b, epoch);
          noticed := HearCost(generation, g, c, limits.maxHistory);
          CostIsQuiet(generation, g, c, limits.maxHistory);
          StoreQuietly(noticed.group);
      }
      hit := noticed.affected;
    }

    lemma PathIsQuiet(up: Upstream, path: Id, g: Group, c: Context, maxHistory: nat)
      requires !c.bind
      ensures Quiet(g, NoticePath(up, path, g, c, maxHistory).group)
    {
      hide Refresh, AnyPathStale;
      var ms := MapEntries(e => NoticePathEntry(up, path, e), g.members);
      var observed := g.(members := ms, currentness := g.currentness.(stalePath := AnyPathStale(ms)));
      RefreshIsQuiet(observed, c, maxHistory);
      QuietTransitive(g, observed, Refresh(observed, c, maxHistory).group);
    }

    lemma MultipathIsQuiet(up: Upstream, g: Group, c: Context, maxHistory: nat)
      requires !c.bind
      ensures Quiet(g, NoticeMultipath(up, g, c, maxHistory).group)
    {
      hide Refresh, MultipathIsStale;
      var stale := MultipathIsStale(up, g);
      var ms := if stale then MapEntries(MultipathStale, g.members) else MapEntries(MultipathProven, g.members);
      var flagged := g.(members := ms, currentness := g.currentness.(staleMultipath := stale));
      RefreshIsQuiet(flagged, c, maxHistory);
      QuietTransitive(g, flagged, Refresh(flagged, c, maxHistory).group);
    }

    lemma CostIsQuiet(generation: U64, g: Group, c: Context, maxHistory: nat)
      requires !c.bind
      ensures Quiet(g, NoticeCost(generation, g, c, maxHistory).group)
    {
      hide Refresh;
      var stale := g.semantics.binding.policyGeneration != generation;
      var ms := if stale then MapEntries(CostStale, g.members) else MapEntries(CostProven, g.members);
      var flagged := g.(members := ms, currentness := g.currentness.(staleCost := stale));
      RefreshIsQuiet(flagged, c, maxHistory);
      QuietTransitive(g, flagged, Refresh(flagged, c, maxHistory).group);
    }

    lemma NamedExactly(t: Tables, groups: map<Id, Group>, id: Id)
      requires Exact(t, groups) && id in groups
      ensures groups[id].id == id
    {
    }

    // ----- Publishers and epochs -----

    method RegisterPublisher(at: nat, reg: Registration) returns (outcome: Outcome)
      requires Valid()
      modifies this
      ensures Valid() && Answer(View(), outcome) == Register(old(View()), at, reg)
    {
      hide Exact, Inv, StepOk;
      ghost var s := View();
      RegisterOk(s, at, reg);
      StepKeepsInv(s, Register(s, at, reg), None);
      if reg.publisher == NIL || reg.boot == NIL { return MALFORMED_REQUEST; }
      if at != epoch { return STALE_EPOCH; }
      if reg.scope.DENY_ALL? || reg.capabilities == 0 { return UNAUTHORIZED; }
      if reg.boot in fenced { return STALE_WORKER; }
      if reg.publisher in publishers {
        if publishers[reg.publisher].boot != reg.boot {
          if |fenced| >= limits.maxPublishers { return RESOURCE_LIMIT; }
          fenced := fenced + {publishers[reg.publisher].boot};
        }
      } else if |publishers| >= limits.maxPublishers {
        return RESOURCE_LIMIT;
      }
      publishers := publishers[reg.publisher := reg];
      outcome := REGISTERED;
    }

    method FencePublisher(publisher: Id, boot: Id) returns (outcome: Outcome)
      requires Valid()
      modifies this
      ensures Valid() && Answer(View(), outcome) == Fence(old(View()), publisher, boot)
    {
      hide Exact, Inv, StepOk, Fence, FencedOr;
      ghost var s := View();
      FenceOk(s, publisher, boot);
      StepKeepsInv(s, Fence(s, publisher, boot), None);
      FenceAnswer(s, publisher, boot);
      if publisher == NIL || boot == NIL { return MALFORMED_REQUEST; }
      if publisher !in publishers || publishers[publisher].boot != boot { return FENCED; }
      publishers := publishers - {publisher};
      if |fenced| < limits.maxPublishers { fenced := fenced + {boot}; }
      var owned := if publisher in authorityIndex then authorityIndex[publisher] else {};
      OwnedExactly(Tables(), groups, publisher);
      FenceGroups(publisher, boot, owned);
      outcome := FENCED;
    }

    lemma FenceAnswer(s: State, publisher: Id, boot: Id)
      ensures var f := FencedOr(publisher, boot, s.epoch, s.limits.maxHistory);
              Fence(s, publisher, boot) ==
              if publisher == NIL || boot == NIL then Answer(s, MALFORMED_REQUEST)
              else if publisher !in s.publishers || s.publishers[publisher].boot != boot then Answer(s, FENCED)
              else Answer(s.(publishers := s.publishers - {publisher},
                             groups := map id | id in s.groups :: f(s.groups[id]),
                             fenced := if |s.fenced| < s.limits.maxPublishers then s.fenced + {boot} else s.fenced),
                          FENCED)
    {
      hide FencedGroup, IsClosed;
    }

    method FenceGroups(publisher: Id, boot: Id, owned: set<Id>)
      requires Indexed() && publisher != NIL
      requires forall id :: id in owned <==> id in groups && groups[id].publisher == publisher
      modifies this
      ensures Indexed()
      ensures var f := FencedOr(publisher, boot, epoch, limits.maxHistory);
              View() == old(View()).(groups := map id | id in old(groups) :: f(old(groups)[id]))
    {
      hide Exact, SweptBy, FencedOr;
      ghost var f, done: set<Id> := FencedOr(publisher, boot, epoch, limits.maxHistory), {};
      var todo := owned;
      NothingSwept(groups, f);
      while todo != {}
        invariant Indexed() && todo == owned - done && done <= owned && View() == old(View()).(groups := groups)
        invariant SweptBy(old(groups), groups, done, f)
      {
        var id :| id in todo;
        todo := todo - {id};
        OneMoreSwept(old(groups), groups, done, f, id);
        done := done + {id};
        FenceOne(publisher, boot, id);
      }
      assert done == owned;
      forall id | id in old(groups) && id !in done ensures f(old(groups)[id]) == old(groups)[id] {
        NotFenced(old(groups)[id], publisher, boot, epoch, limits.maxHistory);
      }
      AllSwept(old(groups), groups, done, f);
    }

    lemma NotFenced(g: Group, publisher: Id, boot: Id, epoch: nat, maxHistory: nat)
      requires g.publisher != publisher
      ensures FencedOr(publisher, boot, epoch, maxHistory)(g) == g
    {
    }

    method FenceOne(publisher: Id, boot: Id, id: Id)
      requires Indexed() && id in groups && groups[id].publisher == publisher
      modifies this
      ensures Indexed() && View() == old(View()).(groups := groups)
      ensures groups == old(groups)[id := FencedOr(publisher, boot, epoch, limits.maxHistory)(old(groups)[id])]
    {
      hide Exact, Refresh, IsClosed;
      var g := groups[id];
      NamedExactly(Tables(), groups, id);
      assert groups[id := g] == groups;
      FenceIsQuiet(g, publisher, boot, epoch, limits.maxHistory);
      if g.boot != boot || IsClosed(g.lifecycle) { return; }
      var members := ClearProofs(g.members);
      var lapsed := g.(currentness := g.currentness.(fenced := true, revalidation := true), plan := None,
                       members := members);
      var refreshed, ok := RefreshGroup(lapsed, LapseContext(g, EPOCH_INVALIDATION, publisher, boot, epoch),
                                        limits.maxHistory);
      StoreQuietly(refreshed);
    }

    method AdvanceEpoch(next: nat) returns (outcome: Outcome)
      requires Valid()
      modifies this
      ensures Valid() && Answer(View(), outcome) == SetEpoch(old(View()), next)
    {
      hide Exact, Inv, StepOk, EpochGroup, SweptBy;
      ghost var s := View();
      SetEpochOk(s, next);
      StepKeepsInv(s, SetEpoch(s, next), None);
      if next <= epoch { return STALE_EPOCH; }
      epoch := next;
      publishers, fenced := map[], {};
      LapseAll();
      outcome := NO_CHANGE;
    }

    method LapseAll()
      requires Indexed()
      modifies this
      ensures Indexed()
      ensures View() ==
              old(View()).(groups := map id | id in old(groups) :: EpochGroup(old(groups)[id], epoch, limits.maxHistory))
    {
      hide Exact, SweptBy, EpochGroup;
      ghost var f, done: set<Id> := EpochOf(epoch, limits.maxHistory), {};
      var todo := groups.Keys;
      NothingSwept(groups, f);
      while todo != {}
        invariant Indexed() && todo == old(groups).Keys - done && done <= old(groups).Keys
        invariant View() == old(View()).(groups := groups)
        invariant SweptBy(old(groups), groups, done, f)
      {
        var id :| id in todo;
        todo := todo - {id};
        OneMoreSwept(old(groups), groups, done, f, id);
        done := done + {id};
        LapseOne(id);
      }
      assert done == old(groups).Keys;
      AllSwept(old(groups), groups, done, f);
    }

    method LapseOne(id: Id)
      requires Indexed() && id in groups
      modifies this
      ensures Indexed() && View() == old(View()).(groups := groups)
      ensures groups == old(groups)[id := EpochOf(epoch, limits.maxHistory)(old(groups)[id])]
    {
      hide Exact, Refresh, IsClosed;
      var g := groups[id];
      NamedExactly(Tables(), groups, id);
      assert groups[id := g] == groups;
      EpochIsQuiet(g, epoch, limits.maxHistory);
      if IsClosed(g.lifecycle) || (g.boundEpoch != 0 && g.boundEpoch == epoch) { return; }
      var members := ClearProofs(g.members);
      var lapsed := g.(authorityGen := g.authorityGen + 1, plan := None, members := members,
                       currentness := g.currentness.(staleEpoch := true, revalidation := true));
      var refreshed, ok := RefreshGroup(lapsed, LapseContext(g, EPOCH_INVALIDATION, g.publisher, g.boot, epoch),
                                        limits.maxHistory);
      StoreQuietly(refreshed);
    }

    // ----- Restart -----

    /** Loads a decoded store image: every group is recovered conservatively and listed in fresh indexes, whatever the
        image holds; an image of groups in order, as every saved one is, leaves the governor in order. */
    method LoadImage(image: Image) returns (outcome: Outcome)
      requires Valid() && Named(image.groups)
      modifies this
      ensures Indexed() && Answer(View(), outcome) == Load(old(View()), image)
      ensures outcome != CREATED || GroupsOk(image.groups, limits) ==> Valid()
    {
      hide Exact, Inv, RecoveredGroups, GroupsOk, Named;
      ghost var s := View();
      if groups != map[] { return MALFORMED_REQUEST; }
      if image.epoch < epoch { return STALE_EPOCH; }
      TakeImage(image);
      outcome := CREATED;
      if GroupsOk(image.groups, limits) { LoadKeepsInv(s, image); }
    }

    /** What is saved are the groups as they are, in order; no two of them share a key exactly when the key index lists
        every group. */
    method SaveImage() returns (image: Image)
      requires Valid()
      ensures image == Save(View()) && GroupsOk(image.groups, limits) && Named(image.groups)
      ensures KeysUnique(image.groups) <==> KeysExact(keyIndex, groups)
    {
      hide GroupOk, Scans, PathsListed, PublishersListed, Total;
      KeysExactIffUnique(keyIndex, groups);
      image := Image(epoch, groups);
    }

    method TakeImage(image: Image)
      requires Named(image.groups)
      modifies this
      ensures Indexed() && epoch == image.epoch && groups == RecoveredGroups(image, limits.maxHistory)
      ensures publishers == map[] && fenced == {} && attempts == map[] && order == [] && costPolicy == old(costPolicy)
    {
      hide *;
      ClearTables();
      RecoverAll(image);
      epoch := image.epoch;
      publishers, fenced, attempts, order := map[], {}, map[], [];
    }

    /** Empties the groups and every table. */
    method ClearTables()
      modifies `groups, `keyIndex, `pathIndex, `multipathIndex, `costClassIndex, `authorityIndex, `indexedPaths,
               `indexedAuthority, `totalMembers
      ensures Indexed() && groups == map[]
    {
      hide Exact;
      groups, pathIndex, multipathIndex, costClassIndex, authorityIndex, keyIndex := map[], map[], map[], map[], map[], map[];
      indexedPaths, indexedAuthority, totalMembers := map[], map[], 0;
      EmptyExact(Tables());
    }

    method RecoverAll(image: Image)
      requires Indexed() && groups == map[] && Named(image.groups)
      modifies `groups, `pathIndex, `multipathIndex, `authorityIndex, `costClassIndex, `keyIndex, `indexedPaths,
               `indexedAuthority, `totalMembers
      ensures Indexed()
      ensures groups == RecoveredGroups(image, limits.maxHistory)
    {
      hide Exact, RecoveredBy, Named;
      ghost var done: set<Id> := {};
      var todo := image.groups.Keys;
      NobodyRecovered(image, limits.maxHistory);
      while todo != {}
        invariant Indexed() && todo == image.groups.Keys - done && done <= image.groups.Keys
        invariant RecoveredBy(image, groups, done, limits.maxHistory)
        invariant forall x, y :: x in done && y in todo ==> x < y
      {
        var id := LeastOf(todo);
        todo := todo - {id};
        OneMoreRecovered(image, groups, done, limits.maxHistory, id);
        RecoverAndStore(image, done, id);
        done := done + {id};
      }
      assert done == image.groups.Keys;
      AllRecovered(image, groups, limits.maxHistory);
    }

    /** The tables of the program list identities in ascending order. */
    method LeastOf(ids: set<Id>) returns (least: Id)
      requires ids != {}
      ensures least in ids && forall x :: x in ids ==> least <= x
    {
      least :| least in ids;
      var todo := ids - {least};
      while todo != {}
        invariant todo <= ids && least in ids && forall x :: x in ids && x !in todo ==> least <= x
      {
        var id :| id in todo;
        todo := todo - {id};
        least := if id < least then id else least;
      }
    }

    method RecoverAndStore(image: Image, ghost done: set<Id>, id: Id)
      requires Indexed() && RecoveredBy(image, groups, done, limits.maxHistory)
      requires id in image.groups.Keys - done && id !in groups && image.groups[id].id == id
      requires forall x :: x in done ==> x < id
      modifies `groups, `pathIndex, `multipathIndex, `authorityIndex, `costClassIndex, `keyIndex, `indexedPaths,
               `indexedAuthority, `totalMembers
      ensures Indexed() && groups == old(groups)[id := RecoveredGroup(image.groups[id], image.epoch, limits.maxHistory)]
    {
      hide Exact;
      var g := RecoverOne(image, id);
      KeyListedLower(Tables(), groups, g.key, id);
      StoreNew(g);
    }

    lemma LoadKeepsInv(s: State, image: Image)
      requires Inv(s) && GroupsOk(image.groups, s.limits)
      ensures Inv(Load(s, image).state)
    {
      hide RecoveredGroup, GroupOk;
      LoadOk(s, image);
    }

    method RecoverOne(image: Image, id: Id) returns (g: Group)
      requires id in image.groups
      ensures g == RecoveredGroup(image.groups[id], image.epoch, limits.maxHistory) && SameIdentity(image.groups[id], g)
    {
      hide Refresh;
      g := image.groups[id];
      var members := ClearProofs(g.members);
      var declared := DeclaredMembersOf(members);
      RecoveredIdentity(g, image.epoch, limits.maxHistory);
      var lapsed := g.(members := members, currentness := g.currentness.(staleEpoch := true, revalidation := true),
                       plan := None, authorityGen := g.authorityGen + 1, declaredDigest := declared);
      var refreshed, ok := RefreshGroup(lapsed, LapseContext(g, RECOVERY, g.publisher, g.boot, image.epoch),
                                        limits.maxHistory);
      g := refreshed;
    }

    // ----- The executable consistency check -----

    /** Rebuilds one index from the groups alone. */
    method RebuildPaths() returns (expected: map<Id, set<Id>>, declared: nat)
      requires Indexed()
      ensures Scans(expected, groups, DeclaresPath) && declared == Total(groups)
    {
      hide Exact, Scans, Moved, DeclaresPath, Total, DeclaredIds;
      expected, declared := map[], 0;
      ghost var seen: map<Id, Group> := map[];
      var todo := groups.Keys;
      NothingScanned(DeclaresPath);
      NothingCounted();
      while todo != {}
        invariant todo <= groups.Keys && seen == groups - todo
        invariant Scans(expected, seen, DeclaresPath) && declared == Total(seen)
      {
        var id :| id in todo;
        var g := groups[id];
        NamedExactly(Tables(), groups, id);
        var paths := DeclaredPaths(g);
        ScansHasNoEmptySets(expected, seen, DeclaresPath);
        var r := Reindex(expected, [], paths, id);
        MovedIsExact(expected, seen, DeclaresPath, g, [], paths, r);
        TotalStored(seen, g);
        expected, declared := r, declared + |DeclaredIds(g.members)|;
        seen := seen[id := g];
        todo := todo - {id};
        assert seen == groups - todo;
      }
      assert seen == groups;
    }

    /** The keys an index files a group under. */
    function FiledUnder(k: Id): seq<Id> { if k == NIL then [] else [k] }

    method RebuildOthers() returns (sets: map<Id, set<Id>>, classes: map<Id, set<Id>>, owners: map<Id, set<Id>>)
      requires Indexed()
      ensures Scans(sets, groups, OnMultipath) && Scans(classes, groups, OnCostClass) && Scans(owners, groups, OnAuthority)
    {
      hide Exact, Scans, Moved;
      sets, classes, owners := map[], map[], map[];
      ghost var seen: map<Id, Group> := map[];
      var todo := groups.Keys;
      NothingScanned(OnMultipath);
      NothingScanned(OnCostClass);
      NothingScanned(OnAuthority);
      while todo != {}
        invariant todo <= groups.Keys && seen == groups - todo
        invariant Scans(sets, seen, OnMultipath) && Scans(classes, seen, OnCostClass) && Scans(owners, seen, OnAuthority)
      {
        var id :| id in todo;
        var g := groups[id];
        NamedExactly(Tables(), groups, id);
        sets := FileGroup(sets, seen, OnMultipath, g, FiledUnder(g.multipathSet));
        classes := FileGroup(classes, seen, OnCostClass, g, FiledUnder(g.key.costClass));
        owners := FileGroup(owners, seen, OnAuthority, g, FiledUnder(g.publisher));
        seen := seen[id := g];
        todo := todo - {id};
        assert seen == groups - todo;
      }
      assert seen == groups;
    }

    static method FileGroup(index: map<Id, set<Id>>, ghost seen: map<Id, Group>, ghost rel: (Group, Id) -> bool, g: Group,
                            keys: seq<Id>)
      returns (r: map<Id, set<Id>>)
      requires Scans(index, seen, rel) && g.id !in seen && forall k :: k in keys <==> rel(g, k)
      ensures Scans(r, seen[g.id := g], rel)
    {
      hide Moved;
      r := Reindex(index, [], keys, g.id);
      MovedIsExact(index, seen, rel, g, [], keys, r);
    }

    /** The key index is as large as the groups are many, and lists every group under its key. */
    method CheckKeys() returns (ok: bool)
      requires Indexed()
      ensures ok <==> KeysUnique(groups)
    {
      hide Scans, PathsListed, PublishersListed, Total, KeysUnique, KeysFirst, KeysExact;
      KeysExactIffUnique(keyIndex, groups);
      if KeysExact(keyIndex, groups) { KeysCounted(keyIndex, groups); }
      var listed := true;
      var todo := groups.Keys;
      while todo != {}
        invariant todo <= groups.Keys
        invariant listed <==> forall id :: id in groups && id !in todo ==> Owns(keyIndex, groups[id].key, id)
      {
        var id :| id in todo;
        todo := todo - {id};
        listed := listed && groups[id].key in keyIndex && keyIndex[groups[id].key] == id;
      }
      ListedIsExact(keyIndex, groups);
      ok := listed && |keyIndex| == |groups|;
    }

    /** Comparing every index and the counter with what the groups alone give finds no difference but this: two groups
        that share a key, which no run produces. */
    method CheckTables() returns (ok: bool)
      requires Valid()
      ensures ok <==> KeysUnique(groups)
    {
      hide Exact, Scans, Total, Inv, KeysUnique;
      IsExact(Tables(), groups, NIL);
      CountedExactly(Tables(), groups);
      var paths, declared := RebuildPaths();
      var sets, classes, owners := RebuildOthers();
      ScansUnique(paths, pathIndex, groups, DeclaresPath);
      ScansUnique(sets, multipathIndex, groups, OnMultipath);
      ScansUnique(classes, costClassIndex, groups, OnCostClass);
      ScansUnique(owners, authorityIndex, groups, OnAuthority);
      var keys := CheckKeys();
      ok := keys && declared == totalMembers && paths == pathIndex && sets == multipathIndex && classes == costClassIndex &&
            owners == authorityIndex;
    }
  }
}

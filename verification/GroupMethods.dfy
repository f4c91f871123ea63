/** The program's loops over one group: refresh, eviction, target sets and observation, each proved against the function
    that specifies it. */
module GroupMethods {
  import opened Prelude
  import opened Assignment
  import opened AssignmentProofs
  import opened Lifecycle
  import opened Records
  import opened Sorting
  import opened Groups
  import opened GroupProofs
  import opened Governor

  method ActiveMembers(ms: seq<MemberEntry>) returns (ids: seq<Id>)
    ensures ids == ActiveIds(ms)
  {
    ids := [];
    for i := 0 to |ms|
      invariant ids == ActiveIds(ms[..i])
    {
      assert ms[..i + 1][..i] == ms[..i];
      if ms[i].record.IsActive() { ids := ids + [ms[i].record.member]; }
    }
    assert ms[..|ms|] == ms;
  }

  method DeclaredMembersOf(ms: seq<MemberEntry>) returns (ids: seq<Id>)
    ensures ids == DeclaredIds(ms)
  {
    ids := [];
    for i := 0 to |ms|
      invariant ids == DeclaredIds(ms[..i])
    {
      assert ms[..i + 1][..i] == ms[..i];
      if ms[i].record.declared { ids := ids + [ms[i].record.member]; }
    }
    assert ms[..|ms|] == ms;
  }

  /** The position of a member's entry, or the number of entries. */
  method FindEntry(ms: seq<MemberEntry>, member: Id) returns (i: nat)
    ensures i == Locate(ms, member)
  {
    i := 0;
    while i < |ms| && ms[i].record.member != member
      invariant i <= |ms| && forall j :: 0 <= j < i ==> ms[j].record.member != member
    {
      i := i + 1;
    }
    IndexOfAt(MemberIds(ms), member, i);
  }

  method DeriveStates(ms: seq<MemberEntry>) returns (r: seq<MemberEntry>)
    ensures r == MapEntries(DeriveEntry, ms)
  {
    r := ms;
    for i := 0 to |ms|
      invariant |r| == |ms|
      invariant forall j :: 0 <= j < i ==> r[j] == DeriveEntry(ms[j])
      invariant forall j :: i <= j < |ms| ==> r[j] == ms[j]
    {
      var e := r[i];
      r := r[i := e.(record := e.record.(state :=
                     DeriveMemberState(e.record.declared, e.record.enabled, e.UpstreamCurrent())))];
    }
  }

  /** Pushes one history entry and drops the oldest ones over the bound. */
  method PushHistory(history: seq<HistoryEntry>, entry: HistoryEntry, max: nat) returns (r: seq<HistoryEntry>)
    ensures r == Trim(history + [entry], max)
  {
    r := history + [entry];
    ghost var all := r;
    while |r| > max
      invariant |r| <= |all| && r == all[|all| - |r|..] && (|r| == |all| || |r| >= max)
    {
      r := r[1..];
    }
  }

  /** Recomputes everything that follows from the member flags, step by step on the group's fields. */
  method RefreshGroup(g: Group, c: Context, maxHistory: nat) returns (r: Group, ok: bool)
    ensures Refreshed(r, ok) == Refresh(g, c, maxHistory)
  {
    hide Rebalanced, ActiveIds, DeclaredIds, MovesUpTo, DeriveLifecycle, LifecycleAllows;
    r := BindAuthority(g, c);
    var members := DeriveStates(r.members);
    r := r.(members := members);
    var declared := DeclaredMembersOf(r.members);
    if declared != r.declaredDigest {
      r := r.(membershipGen := r.membershipGen + 1, declaredDigest := declared);
    }
    assert r == DeriveMembers(Bind(g, c));
    var active := ActiveMembers(r.members);
    if c.recompute { r := RecomputeMap(g, r, c, active); }
    assert r == Settle(g, c);
    var inputs := LifecycleInputs(|declared|, |active|, r.minActive, r.plan.Some?, r.currentness.AuthorityCurrent());
    assert inputs == InputsOf(r) by { RecomputeKeepsMembers(g, c); }
    var target := ApplyGroupEvent(r.lifecycle, c.event, inputs);
    if target.None? { return r, false; }
    r := Record(g, r.(lifecycle := target.value), c, maxHistory);
    ok := true;
  }

  lemma RecomputeKeepsMembers(g: Group, c: Context)
    ensures Settle(g, c).members == DeriveMembers(Bind(g, c)).members
  {
  }

  method BindAuthority(g: Group, c: Context) returns (r: Group)
    ensures r == Bind(g, c)
  {
    r := g;
    if c.bind {
      var sameEpoch := r.boundEpoch == c.epoch;
      var samePublisher := r.publisher == c.publisher && r.boot == c.boot;
      if !sameEpoch || !samePublisher {
        r := r.(authorityGen := r.authorityGen + 1, boundEpoch := c.epoch, publisher := c.publisher, boot := c.boot);
      }
    }
  }

  method RecomputeMap(before: Group, g: Group, c: Context, active: seq<Id>) returns (r: Group)
    requires active == ActiveIds(g.members)
    ensures r == Reassign(before, g, c)
  {
    r := g;
    var owners, moves, retained := ComputeRebalance(r.owners, active, r.bucketCount);
    if owners != r.owners { r := r.(assignmentGen := r.assignmentGen + 1, owners := owners); }
    if moves != [] {
      var plan := if r.plan.Some? then Some(r.plan.value.id) else None;
      r := r.(lastRebalance := Some(RebalanceRecord(plan, c.reason, before.membershipGen, r.membershipGen,
                                                    before.assignmentGen, r.assignmentGen, moves, |moves|, owners)));
    }
  }

  method Record(before: Group, g: Group, c: Context, maxHistory: nat) returns (r: Group)
    ensures r == Chronicle(before, g, c, maxHistory)
  {
    r := g;
    var changed := r.membershipGen != before.membershipGen || r.assignmentGen != before.assignmentGen ||
                   r.authorityGen != before.authorityGen || r.lifecycle != before.lifecycle ||
                   r.currentness != before.currentness;
    if changed {
      var moved := r.lastRebalance.Some? && r.assignmentGen != before.assignmentGen;
      var entry := HistoryEntry(
        r.membershipGen, r.assignmentGen, r.authorityGen, c.reason, c.publisher, c.epoch,
        if moved then r.lastRebalance.value.churn else 0, if moved then |r.lastRebalance.value.moves| else 0,
        if r.plan.Some? then Some(r.plan.value.id) else None, RecordsOf(r.members), r.owners);
      var history := PushHistory(r.history, entry, maxHistory);
      r := r.(history := history);
    }
  }

  /** Drops the first undeclared entry, again and again, until the list fits or none is left. */
  method EvictWithdrawn(ms: seq<MemberEntry>, max: nat) returns (r: seq<MemberEntry>)
    ensures r == Evict(ms, max)
  {
    r := ms;
    var evicted := true;
    while |r| > max && evicted
      invariant Evict(r, max) == Evict(ms, max)
      invariant !evicted ==> r == Evict(ms, max)
      decreases |r|, evicted
    {
      var i := 0;
      while i < |r| && r[i].record.declared
        invariant i <= |r| && forall j :: 0 <= j < i ==> r[j].record.declared
      {
        i := i + 1;
      }
      FirstUndeclaredAt(r, i);
      if i < |r| { r := r[..i] + r[i + 1..]; } else { evicted := false; }
    }
  }

  lemma FirstUndeclaredAt(ms: seq<MemberEntry>, i: nat)
    requires i <= |ms| && (forall j :: 0 <= j < i ==> ms[j].record.declared)
    requires i < |ms| ==> !ms[i].record.declared
    ensures FirstUndeclared(ms) == i
  {
  }

  // ----- Target sets -----

  /** What an entry has become after the first pass and the first j specs. */
  function Halfway(e: MemberEntry, specs: seq<MemberSpec>, j: nat): MemberEntry {
    var k := IndexOf(SpecIds(specs), e.record.member);
    if k < |specs| && k < j then FreshEntry(specs[k])
    else if k == |specs| && e.record.declared then Undeclared(e) else e
  }

  function HalfwayAll(ms: seq<MemberEntry>, specs: seq<MemberSpec>, j: nat): (r: seq<MemberEntry>)
    ensures |r| == |ms|
  {
    seq(|ms|, i requires 0 <= i < |ms| => Halfway(ms[i], specs, j))
  }

  /** Undeclares the members that the target leaves out. */
  method WithdrawMissing(ms: seq<MemberEntry>, specs: seq<MemberSpec>) returns (r: seq<MemberEntry>)
    ensures r == HalfwayAll(ms, specs, 0)
  {
    r := ms;
    for i := 0 to |ms|
      invariant |r| == |ms|
      invariant forall n :: 0 <= n < i ==> r[n] == Halfway(ms[n], specs, 0)
      invariant forall n :: i <= n < |ms| ==> r[n] == ms[n]
    {
      if r[i].record.declared {
        var k := 0;
        while k < |specs| && specs[k].member != r[i].record.member
          invariant k <= |specs| && forall n :: 0 <= n < k ==> specs[n].member != r[i].record.member
        {
          k := k + 1;
        }
        IndexOfAt(SpecIds(specs), r[i].record.member, k);
        if k == |specs| { r := r[i := r[i].(record := r[i].record.(declared := false, enabled := true))]; }
      }
    }
  }

  lemma HalfwayMembers(ms: seq<MemberEntry>, specs: seq<MemberSpec>, j: nat)
    ensures MemberIds(HalfwayAll(ms, specs, j)) == MemberIds(ms)
  {
    forall i | 0 <= i < |ms| ensures Halfway(ms[i], specs, j).record.member == ms[i].record.member {
      IndexOfFirst(SpecIds(specs), ms[i].record.member);
    }
  }

  lemma {:induction false} NewcomersAreSpecs(ms: seq<MemberEntry>, specs: seq<MemberSpec>)
    ensures forall i :: 0 <= i < |Newcomers(ms, specs)| ==> Newcomers(ms, specs)[i].record.member in SpecIds(specs)
  {
    if specs != [] {
      var init := specs[..|specs| - 1];
      NewcomersAreSpecs(ms, init);
      forall x | x in SpecIds(init) ensures x in SpecIds(specs) {
        var k :| 0 <= k < |init| && SpecIds(init)[k] == x;
        assert SpecIds(specs)[k] == x;
      }
      assert SpecIds(specs)[|specs| - 1] == specs[|specs| - 1].member;
    }
  }

  /** Where the program finds the entry of the next spec: where it was, or nowhere, and then not among the newcomers. */
  lemma FoundInPlace(ms: seq<MemberEntry>, specs: seq<MemberSpec>, j: nat)
    requires Listed(SpecIds(specs)) && j < |specs|
    ensures var now := HalfwayAll(ms, specs, j) + Newcomers(ms, specs[..j]);
            var i := Locate(ms, specs[j].member);
            Locate(now, specs[j].member) == if i < |ms| then i else |now|
  {
    var x := specs[j].member;
    var kept, news := HalfwayAll(ms, specs, j), Newcomers(ms, specs[..j]);
    HalfwayMembers(ms, specs, j);
    IndexOfFirst(MemberIds(ms), x);
    NewcomersAreSpecs(ms, specs[..j]);
    assert x !in SpecIds(specs[..j]) by {
      forall k | 0 <= k < j ensures SpecIds(specs[..j])[k] != x { assert SpecIds(specs)[k] != SpecIds(specs)[j]; }
    }
    forall n | |ms| <= n < |ms| + |news| ensures MemberIds(kept + news)[n] != x {
      assert news[n - |ms|].record.member in SpecIds(specs[..j]);
    }
    forall k | 0 <= k < |ms| ensures MemberIds(kept + news)[k] == MemberIds(ms)[k] {
      assert MemberIds(kept)[k] == MemberIds(ms)[k];
    }
    var i := Locate(ms, x);
    IndexOfAt(MemberIds(kept + news), x, if i < |ms| then i else |kept + news|);
  }

  /** One more spec turns the list one step further. */
  lemma HalfwayStep(ms: seq<MemberEntry>, specs: seq<MemberSpec>, j: nat)
    requires Listed(SpecIds(specs)) && Listed(MemberIds(ms)) && j < |specs|
    ensures var i := Locate(ms, specs[j].member);
            HalfwayAll(ms, specs, j + 1) ==
            if i < |ms| then HalfwayAll(ms, specs, j)[i := FreshEntry(specs[j])] else HalfwayAll(ms, specs, j)
  {
    var i := Locate(ms, specs[j].member);
    IndexOfFirst(MemberIds(ms), specs[j].member);
    forall n | 0 <= n < |ms|
      ensures Halfway(ms[n], specs, j + 1) == if n == i then FreshEntry(specs[j]) else Halfway(ms[n], specs, j)
    {
      var k := IndexOf(SpecIds(specs), ms[n].record.member);
      IndexOfFirst(SpecIds(specs), ms[n].record.member);
      if n == i { ListedIndex(SpecIds(specs), j); }
      if k == j { ListedIndex(MemberIds(ms), n); }
    }
  }

  /** Replaces the declared set: withdraws the missing, renews the present, appends the new, sorts. */
  method ApplyTargetSet(ms: seq<MemberEntry>, specs: seq<MemberSpec>) returns (r: seq<MemberEntry>, added: nat)
    requires Listed(MemberIds(ms)) && Listed(SpecIds(specs))
    ensures r == ApplyTarget(ms, specs) && added == AddedCount(ms, specs)
  {
    r := WithdrawMissing(ms, specs);
    added := 0;
    for j := 0 to |specs|
      invariant r == HalfwayAll(ms, specs, j) + Newcomers(ms, specs[..j])
      invariant added == AddedCount(ms, specs[..j])
    {
      FoundInPlace(ms, specs, j);
      HalfwayStep(ms, specs, j);
      assert specs[..j + 1][..j] == specs[..j];
      var i := FindEntry(r, specs[j].member);
      var found := i < |r|;
      WasDeclared(ms, specs, j);
      if !found || !r[i].record.declared { added := added + 1; }
      r := if found then r[i := FreshEntry(specs[j])] else r + [FreshEntry(specs[j])];
    }
    assert specs[..|specs|] == specs;
    AllTheWay(ms, specs);
    r := SortBy(EntryKey, r);
  }

  /** A spec's entry is still as declared as it was when its turn comes. */
  lemma WasDeclared(ms: seq<MemberEntry>, specs: seq<MemberSpec>, j: nat)
    requires Listed(SpecIds(specs)) && j < |specs|
    ensures var i := Locate(ms, specs[j].member);
            i < |ms| ==> HalfwayAll(ms, specs, j)[i].record.declared == ms[i].record.declared
  {
    ListedIndex(SpecIds(specs), j);
  }

  lemma AllTheWay(ms: seq<MemberEntry>, specs: seq<MemberSpec>)
    ensures HalfwayAll(ms, specs, |specs|) == RetargetAll(ms, specs)
  {
  }

  // ----- Checks of member sets -----

  /** The first spec that is malformed or that a later one repeats. */
  method CheckShape(specs: seq<MemberSpec>) returns (o: Option<Outcome>)
    ensures o == CheckSpecShape(specs, 0)
  {
    var left := 0;
    while left < |specs|
      invariant left <= |specs| && CheckSpecShape(specs, left) == CheckSpecShape(specs, 0)
    {
      if !specs[left].WellFormed() { return Some(MALFORMED_REQUEST); }
      ghost var rest := SpecIds(specs[left + 1..]);
      for right := left + 1 to |specs|
        invariant forall k :: left < k < right ==> specs[k].member != specs[left].member
      {
        if specs[left].member == specs[right].member {
          assert rest[right - left - 1] == specs[left].member;
          return Some(DUPLICATE_MEMBER);
        }
      }
      assert specs[left].member !in rest by {
        forall n | 0 <= n < |rest| ensures rest[n] != specs[left].member {
          assert rest[n] == specs[left + 1 + n].member;
        }
      }
      left := left + 1;
    }
    return None;
  }

  /** How many changes of the declared set the specs ask for. */
  method CountTargetChanges(g: Group, specs: seq<MemberSpec>) returns (changes: nat)
    ensures changes == TargetChanges(g, specs)
  {
    changes := 0;
    for j := 0 to |specs|
      invariant changes == SpecChanges(g, specs[..j])
    {
      assert specs[..j + 1][..j] == specs[..j];
      var i := FindEntry(g.members, specs[j].member);
      if i == |g.members| || !g.members[i].record.declared || SpecDiffers(g.members[i].record, specs[j]) {
        changes := changes + 1;
      }
    }
    assert specs[..|specs|] == specs;
    for i := 0 to |g.members|
      invariant changes == SpecChanges(g, specs) + Departures(g.members[..i], specs)
    {
      assert g.members[..i + 1][..i] == g.members[..i];
      if g.members[i].record.declared {
        var present := false;
        for k := 0 to |specs|
          invariant present <==> g.members[i].record.member in SpecIds(specs)[..k]
        {
          if specs[k].member == g.members[i].record.member { present := true; }
          assert SpecIds(specs)[..k + 1] == SpecIds(specs)[..k] + [specs[k].member];
        }
        assert SpecIds(specs)[..|specs|] == SpecIds(specs);
        if !present { changes := changes + 1; }
      }
    }
    assert g.members[..|g.members|] == g.members;
  }

  method ValidateSpecs(up: Upstream, g: Group, specs: seq<MemberSpec>) returns (o: Option<Outcome>)
    ensures o == ValidateAll(up, g, specs, 0)
  {
    hide ValidateFor;
    var i := 0;
    while i < |specs|
      invariant i <= |specs| && ValidateAll(up, g, specs, i) == ValidateAll(up, g, specs, 0)
    {
      var invalid := ValidateFor(up, g, specs[i]);
      if invalid.Some? { return invalid; }
      i := i + 1;
    }
    return None;
  }

  method ValidateTargets(up: Upstream, g: Group, specs: seq<MemberSpec>) returns (o: Option<Outcome>)
    ensures o == CheckTargets(up, g, specs, 0)
  {
    hide ValidateFor;
    var j := 0;
    while j < |specs|
      invariant j <= |specs| && CheckTargets(up, g, specs, j) == CheckTargets(up, g, specs, 0)
    {
      var i := FindEntry(g.members, specs[j].member);
      if i < |g.members| && g.members[i].record.declared && g.members[i].record.path != specs[j].path {
        return Some(MALFORMED_REQUEST);
      }
      var invalid := ValidateFor(up, g, specs[j]);
      if invalid.Some? { return invalid; }
      j := j + 1;
    }
    return None;
  }

  method FindMovedPath(g: Group, specs: seq<MemberSpec>) returns (moved: bool)
    ensures moved <==> AnyPathMoved(g, specs)
  {
    moved := false;
    for j := 0 to |specs|
      invariant moved <==> exists k :: 0 <= k < j && PathMoved(g, specs[k])
    {
      var i := FindEntry(g.members, specs[j].member);
      if i < |g.members| && g.members[i].record.declared && g.members[i].record.path != specs[j].path { moved := true; }
      assert moved <==> (exists k :: 0 <= k < j && PathMoved(g, specs[k])) || PathMoved(g, specs[j]);
    }
  }

  /** The checks of a new group's members, one spec after the other. */
  method CheckMembers(up: Upstream, r: Request) returns (o: Option<Outcome>)
    requires r.CreateGroup?
    ensures o == CheckNewMembers(up, r, 0)
  {
    hide ValidateSpec;
    var i := 0;
    while i < |r.members|
      invariant i <= |r.members| && CheckNewMembers(up, r, i) == CheckNewMembers(up, r, 0)
    {
      var j := 0;
      while j < i && r.members[j].member != r.members[i].member
        invariant j <= i && forall k :: 0 <= k < j ==> r.members[k].member != r.members[i].member
      {
        j := j + 1;
      }
      IndexOfAt(SpecIds(r.members), r.members[i].member, j);
      if j < i { return Some(DUPLICATE_MEMBER); }
      var invalid := ValidateSpec(up, r.members[i], r.semantics, r.members[0].cost.cost, r.source, r.multipathSet,
                                  r.multipathGen);
      if invalid.Some? { return invalid; }
      i := i + 1;
    }
    return None;
  }

  method CountEnabled(specs: seq<MemberSpec>) returns (n: nat)
    ensures n == EnabledCount(specs)
  {
    n := 0;
    for i := 0 to |specs|
      invariant n == EnabledCount(specs[..i])
    {
      assert specs[..i + 1][..i] == specs[..i];
      if specs[i].enabled { n := n + 1; }
    }
    assert specs[..|specs|] == specs;
  }

  // ----- Revalidation -----

  method FindRepeated(updates: seq<MemberRevalidation>) returns (repeats: bool)
    ensures repeats <==> RepeatsMember(updates)
  {
    for left := 0 to |updates|
      invariant forall i, j :: 0 <= i < left && i < j < |updates| ==> updates[i].member != updates[j].member
    {
      for right := left + 1 to |updates|
        invariant forall j :: left < j < right ==> updates[left].member != updates[j].member
      {
        if updates[left].member == updates[right].member { return true; }
      }
    }
    return false;
  }

  /** Applies the updates in order until one is refused; what was applied before stays. */
  method Reprove(up: Upstream, g: Group, updates: seq<MemberRevalidation>) returns (r: Group, refused: Option<Outcome>)
    ensures (r, refused) == ApplyUpdates(up, g, updates, 0)
  {
    hide ValidateFor;
    r := g;
    var i := 0;
    while i < |updates|
      invariant i <= |updates| && ApplyUpdates(up, r, updates, i) == ApplyUpdates(up, g, updates, 0)
    {
      var k := FindEntry(r.members, updates[i].member);
      if k == |r.members| || !r.members[k].record.declared { return r, Some(UNKNOWN_MEMBER); }
      var spec := UpdatedSpec(r.members[k], updates[i]);
      var invalid := ValidateFor(up, r, spec);
      if invalid.Some? { return r, invalid; }
      var e := r.members[k];
      r := r.(members := r.members[k := e.(record := e.record.(pathAuthority := spec.pathAuthority, cost := spec.cost))]);
      i := i + 1;
    }
    return r, None;
  }

  method CollectClaims(updates: seq<MemberRevalidation>) returns (claims: seq<CostClaim>)
    ensures claims == Claims(updates)
  {
    claims := [];
    for i := 0 to |updates|
      invariant claims == Claims(updates[..i])
    {
      assert updates[..i + 1][..i] == updates[..i];
      if updates[i].cost.Some? { claims := claims + [updates[i].cost.value]; }
    }
    assert updates[..|updates|] == updates;
  }

  /** Observes every declared member anew and notes which kinds of staleness are left. */
  method ReobserveGroup(up: Upstream, g: Group) returns (r: Group)
    ensures r == Reobserve(up, g)
  {
    var ms := g.members;
    var pathStale := false;
    for i := 0 to |ms|
      invariant |ms| == |g.members|
      invariant forall n :: 0 <= n < i ==>
                  ms[n] == ReobserveEntry(up, g.source, g.multipathSet, g.multipathGen, g.members[n])
      invariant forall n :: i <= n < |ms| ==> ms[n] == g.members[n]
      invariant pathStale <==> exists n :: 0 <= n < i && ms[n].record.declared && !ms[n].pathCurrent
    {
      if ms[i].record.declared {
        var holds := g.source.DIRECT_PATH_SET? ||
                     (g.multipathSet != NIL && SetHolds(up, g.multipathSet, g.multipathGen, ms[i].record.path));
        ms := ms[i := ReobservePath(up, ms[i]).(multipathCurrent := holds)];
        if !ms[i].pathCurrent { pathStale := true; }
      }
    }
    var multipathStale := false;
    if g.source.MULTIPATH_FABRIC? {
      for i := 0 to |ms|
        invariant multipathStale <==> exists n :: 0 <= n < i && ms[n].record.declared && !ms[n].multipathCurrent
      {
        if ms[i].record.declared && !ms[i].multipathCurrent { multipathStale := true; }
      }
    }
    assert ms == MapEntries(e => ReobserveEntry(up, g.source, g.multipathSet, g.multipathGen, e), g.members);
    r := g.(members := ms, currentness := g.currentness.(stalePath := pathStale, staleMultipath := multipathStale));
  }

  // ----- Notices -----

  method HearPath(up: Upstream, path: Id, g: Group, c: Context, maxHistory: nat) returns (n: Noticed)
    ensures n == NoticePath(up, path, g, c, maxHistory)
  {
    hide Refresh;
    var ms := g.members;
    var changed := false;
    for i := 0 to |ms|
      invariant |ms| == |g.members|
      invariant forall k :: 0 <= k < i ==> ms[k] == NoticePathEntry(up, path, g.members[k])
      invariant forall k :: i <= k < |ms| ==> ms[k] == g.members[k]
      invariant changed <==> exists k :: 0 <= k < i && ms[k].pathCurrent != g.members[k].pathCurrent
    {
      if ms[i].record.declared && ms[i].record.path == path {
        var before := ms[i].pathCurrent;
        ms := ms[i := ReobservePath(up, ms[i])];
        if before != ms[i].pathCurrent { changed := true; }
      }
    }
    var anyStale := false;
    for i := 0 to |ms|
      invariant anyStale <==> exists k :: 0 <= k < i && ms[k].record.declared && !ms[k].pathCurrent
    {
      if ms[i].record.declared && !ms[i].pathCurrent { anyStale := true; }
    }
    assert ms == MapEntries(e => NoticePathEntry(up, path, e), g.members);
    if anyStale != g.currentness.stalePath { changed := true; }
    var observed := g.(members := ms, currentness := g.currentness.(stalePath := anyStale));
    if !changed { return Noticed(observed, false); }
    var refreshed, ok := RefreshGroup(observed, c, maxHistory);
    return Noticed(refreshed, true);
  }

  method HearMultipath(up: Upstream, g: Group, c: Context, maxHistory: nat) returns (n: Noticed)
    ensures n == NoticeMultipath(up, g, c, maxHistory)
  {
    hide Refresh;
    var stale := true;
    if g.multipathSet in up.sets && up.sets[g.multipathSet] == g.multipathGen {
      stale := false;
      for i := 0 to |g.members|
        invariant stale <==> exists k :: 0 <= k < i && g.members[k].record.declared &&
                                (g.multipathSet, g.multipathGen, g.members[k].record.path) !in up.contains
      {
        if g.members[i].record.declared &&
           (g.multipathSet, g.multipathGen, g.members[i].record.path) !in up.contains { stale := true; }
      }
    }
    if stale == g.currentness.staleMultipath { return Noticed(g, false); }
    var ms := g.members;
    for i := 0 to |ms|
      invariant |ms| == |g.members|
      invariant forall k :: 0 <= k < i ==>
                  ms[k] == if stale then MultipathStale(g.members[k]) else MultipathProven(g.members[k])
      invariant forall k :: i <= k < |ms| ==> ms[k] == g.members[k]
    {
      if !stale { ms := ms[i := ms[i].(multipathCurrent := true)]; }
      else if ms[i].record.declared { ms := ms[i := ms[i].(multipathCurrent := false)]; }
    }
    assert ms == if stale then MapEntries(MultipathStale, g.members) else MapEntries(MultipathProven, g.members);
    var refreshed, ok := RefreshGroup(g.(members := ms, currentness := g.currentness.(staleMultipath := stale)), c,
                                      maxHistory);
    return Noticed(refreshed, true);
  }

  method HearCost(generation: U64, g: Group, c: Context, maxHistory: nat) returns (n: Noticed)
    ensures n == NoticeCost(generation, g, c, maxHistory)
  {
    hide Refresh;
    var stale := g.semantics.binding.policyGeneration != generation;
    if stale == g.currentness.staleCost { return Noticed(g, false); }
    var ms := g.members;
    for i := 0 to |ms|
      invariant |ms| == |g.members|
      invariant forall k :: 0 <= k < i ==>
                  ms[k] == if stale then CostStale(g.members[k]) else CostProven(g.members[k])
      invariant forall k :: i <= k < |ms| ==> ms[k] == g.members[k]
    {
      if !stale { ms := ms[i := ms[i].(costCurrent := true)]; }
      else if ms[i].record.declared { ms := ms[i := ms[i].(costCurrent := false)]; }
    }
    assert ms == if stale then MapEntries(CostStale, g.members) else MapEntries(CostProven, g.members);
    var refreshed, ok := RefreshGroup(g.(members := ms, currentness := g.currentness.(staleCost := stale)), c,
                                      maxHistory);
    return Noticed(refreshed, true);
  }

  /** Takes every upstream proof back. */
  method ClearProofs(ms: seq<MemberEntry>) returns (r: seq<MemberEntry>)
    ensures r == MapEntries(Unproven, ms)
  {
    r := ms;
    for i := 0 to |ms|
      invariant |r| == |ms|
      invariant forall k :: 0 <= k < i ==> r[k] == Unproven(ms[k])
      invariant forall k :: i <= k < |ms| ==> r[k] == ms[k]
    {
      r := r[i := r[i].(pathCurrent := false, pathAuthorized := false, multipathCurrent := false, costCurrent := false)];
    }
  }
}

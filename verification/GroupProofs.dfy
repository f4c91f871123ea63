/** What holds of every group, and why a refresh re-establishes it. */
module GroupProofs {
  import opened Prelude
  import opened Assignment
  import opened AssignmentProofs
  import opened Lifecycle
  import opened Records
  import opened Sorting
  import opened Groups

  // ----- Member lists -----

  /** Entries in canonical order, naming each member once and none by nil. */
  ghost predicate EntriesOk(ms: seq<MemberEntry>) {
    Ascending(EntryKey, ms) && Listed(MemberIds(ms))
  }

  /** Every member state is the one derived from the flags. */
  ghost predicate Derived(ms: seq<MemberEntry>) {
    forall i :: 0 <= i < |ms| ==> DeriveEntry(ms[i]) == ms[i]
  }

  lemma EntriesPrefix(ms: seq<MemberEntry>, n: nat)
    requires EntriesOk(ms) && n <= |ms|
    ensures EntriesOk(ms[..n])
  {
    forall i, j | 0 <= i < j < n ensures Less(EntryKey(ms[..n][i]), EntryKey(ms[..n][j])) {
      assert Less(EntryKey(ms[i]), EntryKey(ms[j]));
    }
    assert MemberIds(ms[..n]) == MemberIds(ms)[..n];
  }

  lemma {:induction false} ActiveMembers(ms: seq<MemberEntry>, x: Id)
    ensures x in ActiveIds(ms) <==> exists i :: 0 <= i < |ms| && ms[i].record.IsActive() && ms[i].record.member == x
  {
    if ms != [] {
      var init := ms[..|ms| - 1];
      ActiveMembers(init, x);
      if x in ActiveIds(init) {
        var i :| 0 <= i < |init| && init[i].record.IsActive() && init[i].record.member == x;
        assert ms[i] == init[i];
      }
      if exists i :: 0 <= i < |ms| && ms[i].record.IsActive() && ms[i].record.member == x {
        var i :| 0 <= i < |ms| && ms[i].record.IsActive() && ms[i].record.member == x;
        if i < |init| { assert init[i] == ms[i]; }
      }
    }
  }

  lemma {:induction false} ActiveListed(ms: seq<MemberEntry>)
    requires EntriesOk(ms)
    ensures Listed(ActiveIds(ms))
  {
    if ms != [] {
      var n := |ms| - 1;
      EntriesPrefix(ms, n);
      ActiveListed(ms[..n]);
      ActiveMembers(ms[..n], ms[n].record.member);
      forall i | 0 <= i < n ensures ms[i].record.member != ms[n].record.member {
        assert MemberIds(ms)[i] != MemberIds(ms)[n];
      }
      assert MemberIds(ms)[n] != NIL;
    }
  }

  lemma {:induction false} ActiveNotMoreThanDeclared(ms: seq<MemberEntry>)
    requires Derived(ms)
    ensures |ActiveIds(ms)| <= |DeclaredIds(ms)| <= |ms|
  {
    if ms != [] {
      var n := |ms| - 1;
      assert Derived(ms[..n]) by { assert forall i :: 0 <= i < n ==> DeriveEntry(ms[i]) == ms[i]; }
      ActiveNotMoreThanDeclared(ms[..n]);
      assert DeriveEntry(ms[n]) == ms[n];
    }
  }

  /** Changing only flags and states keeps the entries in order. */
  ghost predicate SamePlaces(ms: seq<MemberEntry>, ms': seq<MemberEntry>) {
    |ms| == |ms'| &&
    forall i :: 0 <= i < |ms| ==> ms[i].record.member == ms'[i].record.member && ms[i].record.path == ms'[i].record.path
  }

  lemma SamePlacesKeepsEntries(ms: seq<MemberEntry>, ms': seq<MemberEntry>)
    requires EntriesOk(ms) && SamePlaces(ms, ms')
    ensures EntriesOk(ms') && MemberIds(ms') == MemberIds(ms)
  {
    assert MemberIds(ms') == MemberIds(ms);
    forall i, j | 0 <= i < j < |ms'| ensures Less(EntryKey(ms'[i]), EntryKey(ms'[j])) {
      assert Less(EntryKey(ms[i]), EntryKey(ms[j]));
    }
  }

  /** The same declared flags give the same declared members. */
  lemma {:induction false} SameDeclared(ms: seq<MemberEntry>, ms': seq<MemberEntry>)
    requires SamePlaces(ms, ms')
    requires forall i :: 0 <= i < |ms| ==> ms[i].record.declared == ms'[i].record.declared
    ensures DeclaredIds(ms) == DeclaredIds(ms')
  {
    if ms != [] { SameDeclared(ms[..|ms| - 1], ms'[..|ms| - 1]); }
  }

  lemma {:induction false} SameActive(ms: seq<MemberEntry>, ms': seq<MemberEntry>)
    requires SamePlaces(ms, ms')
    requires forall i :: 0 <= i < |ms| ==> ms[i].record.IsActive() == ms'[i].record.IsActive()
    ensures ActiveIds(ms) == ActiveIds(ms')
  {
    if ms != [] { SameActive(ms[..|ms| - 1], ms'[..|ms| - 1]); }
  }

  lemma {:induction false} NobodyActive(ms: seq<MemberEntry>)
    requires forall i :: 0 <= i < |ms| ==> !ms[i].record.IsActive()
    ensures ActiveIds(ms) == []
  {
    if ms != [] { NobodyActive(ms[..|ms| - 1]); }
  }

  // ----- The group invariant -----

  /** The enabled members of a target set. */
  function EnabledIds(specs: seq<MemberSpec>): seq<Id> {
    if specs == [] then []
    else
      EnabledIds(specs[..|specs| - 1]) +
      (if specs[|specs| - 1].enabled then [specs[|specs| - 1].member] else [])
  }

  /** A target set as a plan keeps it: in canonical order, each member once. */
  ghost predicate TargetOk(specs: seq<MemberSpec>) {
    Ascending(SpecKey, specs) && Listed(SpecIds(specs))
  }

  /** A pending plan foresees exactly what its commit would do, as long as its generations are current. */
  ghost predicate PlanOk(g: Group) {
    g.plan.Some? ==>
      var p := g.plan.value;
      && p.id == PlanId(g.id, p.fromMembership, p.fromAssignment, p.targetDigest)
      && TargetOk(p.targetMembers) && |p.targetMembers| <= g.bucketCount
      && p.targetDigest == SpecIds(p.targetMembers)
      && p.assignmentDigest == p.assignment
      && p.fromMembership <= g.membershipGen && p.fromAssignment <= g.assignmentGen && p.fromAuthority <= g.authorityGen
      && (p.fromAssignment == g.assignmentGen ==>
            p.assignment == Rebalanced(g.owners, EnabledIds(p.targetMembers)))
      && (p.fromMembership == g.membershipGen ==>
            p.targetMembership == g.membershipGen + (if p.targetDigest == g.declaredDigest then 0 else 1))
  }

  /** What holds of a group at any moment, even in the middle of a change. */
  ghost predicate Loose(g: Group, limits: Limits) {
    && 0 < g.bucketCount <= limits.maxBuckets && |g.owners| == g.bucketCount
    && EntriesOk(g.members) && |DeclaredIds(g.members)| <= g.bucketCount
    && 0 < g.minActive <= limits.maxMembersPerGroup
    && |g.history| <= limits.maxHistory
    && PlanOk(g) && (g.plan.Some? ==> |g.plan.value.targetMembers| <= limits.maxMembersPerGroup)
  }

  ghost predicate OwnersKnown(g: Group) {
    forall b :: 0 <= b < |g.owners| ==> g.owners[b] == NIL || g.owners[b] in MemberIds(g.members)
  }

  /** What holds of a group between requests. */
  ghost predicate GroupOk(g: Group, limits: Limits) {
    && Loose(g, limits)
    && |g.members| <= limits.maxMembersPerGroup
    && Derived(g.members) && OwnersKnown(g)
    && g.declaredDigest == DeclaredIds(g.members)
    && (ActiveIds(g.members) != [] || g.lifecycle.Rebalancing? ==> Settled(g.owners, ActiveIds(g.members)))
    && (!IsClosed(g.lifecycle) ==> g.lifecycle == DeriveLifecycle(InputsOf(g)))
    && (IsTerminal(g.lifecycle) ==> Settled(g.owners, []) && ActiveIds(g.members) == [])
    && (g.successor != NIL ==> g.lifecycle.Superseded? || g.lifecycle.Retired?)
  }

  /** Generations never fall, and an unchanged generation means an unchanged value. */
  ghost predicate Advances(g: Group, g': Group) {
    && g'.id == g.id && g'.key == g.key && g'.bucketCount == g.bucketCount && g'.minActive == g.minActive
    && g.assignmentGen <= g'.assignmentGen && (g'.assignmentGen == g.assignmentGen ==> g'.owners == g.owners)
    && g.membershipGen <= g'.membershipGen &&
       (g'.membershipGen == g.membershipGen ==> g'.declaredDigest == g.declaredDigest)
    && g.authorityGen <= g'.authorityGen
  }

  lemma AdvancesTransitive(a: Group, b: Group, c: Group)
    requires Advances(a, b) && Advances(b, c)
    ensures Advances(a, c)
  {
  }

  // ----- Refresh -----

  /** The parts of a group that a refresh leaves alone. */
  ghost predicate SameFrame(g: Group, g': Group) {
    && g'.id == g.id && g'.key == g.key && g'.source == g.source && g'.currentness == g.currentness
    && g'.semantics == g.semantics && g'.canonicalCost == g.canonicalCost && g'.hashDomain == g.hashDomain
    && g'.bucketCount == g.bucketCount && g'.minActive == g.minActive && g'.multipathSet == g.multipathSet
    && g'.multipathGen == g.multipathGen && g'.provenance == g.provenance && g'.successor == g.successor
    && g'.predecessor == g.predecessor && g'.plan == g.plan
  }

  lemma DeriveIdempotent(ms: seq<MemberEntry>)
    ensures Derived(MapEntries(DeriveEntry, ms))
    ensures SamePlaces(ms, MapEntries(DeriveEntry, ms))
    ensures DeclaredIds(MapEntries(DeriveEntry, ms)) == DeclaredIds(ms)
  {
    SameDeclared(ms, MapEntries(DeriveEntry, ms));
  }

  lemma BindFacts(g: Group, c: Context, limits: Limits)
    requires Loose(g, limits)
    ensures var r := Bind(g, c);
            && Loose(r, limits) && SameFrame(g, r) && Advances(g, r) && r.lifecycle == g.lifecycle
            && r.history == g.history && r.members == g.members && r.owners == g.owners
            && r.declaredDigest == g.declaredDigest && r.membershipGen == g.membershipGen
            && r.assignmentGen == g.assignmentGen
  {
  }

  lemma DeriveFacts(g: Group, limits: Limits)
    requires Loose(g, limits)
    ensures var r := DeriveMembers(g);
            && Loose(r, limits) && SameFrame(g, r) && Advances(g, r) && r.lifecycle == g.lifecycle
            && r.history == g.history && r.members == MapEntries(DeriveEntry, g.members) && Derived(r.members)
            && r.owners == g.owners && r.assignmentGen == g.assignmentGen && r.authorityGen == g.authorityGen
            && r.declaredDigest == DeclaredIds(r.members) == DeclaredIds(g.members)
            && r.membershipGen == g.membershipGen + (if r.declaredDigest == g.declaredDigest then 0 else 1)
  {
    DeriveIdempotent(g.members);
    SamePlacesKeepsEntries(g.members, MapEntries(DeriveEntry, g.members));
  }

  /** New owners come with a new assignment generation; the rest of the group is not concerned. */
  lemma NewMapFacts(g: Group, owners: seq<Id>, record: Option<RebalanceRecord>, limits: Limits)
    requires Loose(g, limits) && |owners| == |g.owners|
    ensures var r := if owners == g.owners then g else g.(assignmentGen := g.assignmentGen + 1, owners := owners);
            && Loose(r.(lastRebalance := record), limits) && Advances(g, r.(lastRebalance := record))
  {
  }

  lemma ReassignFacts(before: Group, g: Group, c: Context, limits: Limits)
    requires Loose(g, limits)
    ensures var r := Reassign(before, g, c);
            && Loose(r, limits) && SameFrame(g, r) && Advances(g, r) && r.lifecycle == g.lifecycle
            && r.history == g.history && r.members == g.members && r.declaredDigest == g.declaredDigest
            && r.owners == Rebalanced(g.owners, ActiveIds(g.members)) && Settled(r.owners, ActiveIds(g.members))
            && r.membershipGen == g.membershipGen && r.authorityGen == g.authorityGen
            && r.assignmentGen == g.assignmentGen + (if r.owners == g.owners then 0 else 1)
  {
    var r := Reassign(before, g, c);
    var owners := Rebalanced(g.owners, ActiveIds(g.members));
    assert Padded(g.owners, g.bucketCount) == g.owners;
    NewMapFacts(g, owners, r.lastRebalance, limits);
    assert r == (if owners == g.owners then g
                 else g.(assignmentGen := g.assignmentGen + 1, owners := owners)).(lastRebalance := r.lastRebalance);
    ActiveListed(g.members);
    RebalancedSettles(g.owners, ActiveIds(g.members));
  }

  /** What Settle computes, without its definition. */
  lemma SettleFacts(g: Group, c: Context, limits: Limits)
    requires Loose(g, limits)
    ensures var r := Settle(g, c);
            && Loose(r, limits) && SameFrame(g, r) && Advances(g, r)
            && r.lifecycle == g.lifecycle && r.history == g.history
            && r.members == MapEntries(DeriveEntry, g.members) && Derived(r.members)
            && r.declaredDigest == DeclaredIds(r.members) == DeclaredIds(g.members)
            && (if c.recompute then r.owners == Rebalanced(g.owners, ActiveIds(r.members)) else r.owners == g.owners)
            && (c.recompute ==> Settled(r.owners, ActiveIds(r.members))) && Counted(g, c, r)
  {
    var bound := Bind(g, c);
    BindFacts(g, c, limits);
    DeriveFacts(bound, limits);
    if c.recompute { ReassignFacts(g, DeriveMembers(bound), c, limits); }
  }

  lemma ChronicleFacts(before: Group, g: Group, c: Context, limits: Limits)
    requires Loose(g, limits)
    ensures var r := Chronicle(before, g, c, limits.maxHistory);
            && Loose(r, limits) && r == g.(history := r.history)
  {
  }

  lemma LooseIgnoresLifecycle(g: Group, l: GroupLifecycle, limits: Limits)
    requires Loose(g, limits)
    ensures Loose(g.(lifecycle := l), limits)
  {
  }

  /** Each generation moves by one exactly when what it counts changed. */
  ghost predicate Counted(g: Group, c: Context, r: Group) {
    && r.membershipGen == g.membershipGen + (if r.declaredDigest == g.declaredDigest then 0 else 1)
    && r.assignmentGen == g.assignmentGen + (if r.owners == g.owners then 0 else 1)
    && r.authorityGen == Bind(g, c).authorityGen
  }

  /** r is what a refresh of g under c leaves behind. */
  ghost predicate RefreshedFrom(g: Group, c: Context, limits: Limits, r: Group) {
    && Counted(g, c, r)
    && Loose(r, limits) && SameFrame(g, r) && Advances(g, r)
    && r.members == MapEntries(DeriveEntry, g.members) && Derived(r.members)
    && r.declaredDigest == DeclaredIds(r.members) == DeclaredIds(g.members)
    && (if c.recompute then r.owners == Rebalanced(g.owners, ActiveIds(r.members)) else r.owners == g.owners)
    && (c.recompute ==> Settled(r.owners, ActiveIds(r.members)))
  }

  /** A refresh whose event is legal yields a settled, well-derived group in the lifecycle the event leads to. */
  lemma RefreshFacts(g: Group, c: Context, limits: Limits)
    requires Loose(g, limits) && LifecycleAllows(g.lifecycle, c.event)
    ensures var f := Refresh(g, c, limits.maxHistory);
            && f.ok && RefreshedFrom(g, c, limits, f.group)
            && Some(f.group.lifecycle) == ApplyGroupEvent(g.lifecycle, c.event, InputsOf(f.group))
  {
    SettleFacts(g, c, limits);
    var settled := Settle(g, c);
    var lifecycle := ApplyGroupEvent(g.lifecycle, c.event, InputsOf(settled)).value;
    LooseIgnoresLifecycle(settled, lifecycle, limits);
    ChronicleFacts(g, settled.(lifecycle := lifecycle), c, limits);
  }

  /** A refresh whose event is not legal updates everything but the lifecycle. */
  lemma RefusedRefreshFacts(g: Group, c: Context, limits: Limits)
    requires Loose(g, limits) && !LifecycleAllows(g.lifecycle, c.event)
    ensures var f := Refresh(g, c, limits.maxHistory);
            && !f.ok && RefreshedFrom(g, c, limits, f.group) && f.group.lifecycle == g.lifecycle
  {
    SettleFacts(g, c, limits);
  }

  /** A refresh leaves its group bound as the context says. */
  lemma RefreshBinding(g: Group, c: Context, maxHistory: nat)
    ensures var f, b := Refresh(g, c, maxHistory).group, Bind(g, c);
            f.publisher == b.publisher && f.boot == b.boot && f.boundEpoch == b.boundEpoch
  {
    hide ApplyGroupEvent, InputsOf, Moves, Rebalanced, DeclaredIds, ActiveIds;
  }

  lemma OwnersFromActive(q: seq<Id>, ms: seq<MemberEntry>, b: nat)
    requires Settled(q, ActiveIds(ms)) && b < |q| && q[b] != NIL
    ensures exists i :: 0 <= i < |ms| && ms[i].record.IsActive() && ms[i].record.member == q[b]
  {
    ActiveMembers(ms, q[b]);
  }

  lemma OwnersListed(q: seq<Id>, ms: seq<MemberEntry>)
    requires Settled(q, ActiveIds(ms))
    ensures forall b :: 0 <= b < |q| ==> q[b] == NIL || q[b] in MemberIds(ms)
  {
    forall b | 0 <= b < |q| && q[b] != NIL ensures q[b] in MemberIds(ms) {
      OwnersFromActive(q, ms, b);
      var i :| 0 <= i < |ms| && ms[i].record.member == q[b];
      assert MemberIds(ms)[i] == q[b];
    }
  }

  // ----- Eviction -----

  lemma {:induction false} ActiveAppend(a: seq<MemberEntry>, b: seq<MemberEntry>)
    ensures ActiveIds(a + b) == ActiveIds(a) + ActiveIds(b)
  {
    if b == [] {
      assert a + b == a;
    } else {
      assert (a + b)[..|a + b| - 1] == a + b[..|b| - 1];
      ActiveAppend(a, b[..|b| - 1]);
    }
  }

  lemma {:induction false} DeclaredAppend(a: seq<MemberEntry>, b: seq<MemberEntry>)
    ensures DeclaredIds(a + b) == DeclaredIds(a) + DeclaredIds(b)
  {
    if b == [] {
      assert a + b == a;
    } else {
      assert (a + b)[..|a + b| - 1] == a + b[..|b| - 1];
      DeclaredAppend(a, b[..|b| - 1]);
    }
  }

  lemma DropKeepsEntries(ms: seq<MemberEntry>, i: nat)
    requires EntriesOk(ms) && i < |ms|
    ensures EntriesOk(ms[..i] + ms[i + 1..])
  {
    var r := ms[..i] + ms[i + 1..];
    forall j, k | 0 <= j < k < |r| ensures Less(EntryKey(r[j]), EntryKey(r[k])) {
      assert Less(EntryKey(ms[if j < i then j else j + 1]), EntryKey(ms[if k < i then k else k + 1]));
    }
    assert MemberIds(r) == MemberIds(ms)[..i] + MemberIds(ms)[i + 1..];
  }

  lemma ActiveDrop(a: seq<MemberEntry>, e: MemberEntry, b: seq<MemberEntry>)
    requires !e.record.IsActive()
    ensures ActiveIds(a + [e] + b) == ActiveIds(a + b)
  {
    ActiveAppend(a, b);
    ActiveAppend(a + [e], b);
    assert (a + [e])[..|a + [e]| - 1] == a;
  }

  lemma DeclaredDrop(a: seq<MemberEntry>, e: MemberEntry, b: seq<MemberEntry>)
    requires !e.record.declared
    ensures DeclaredIds(a + [e] + b) == DeclaredIds(a + b)
  {
    DeclaredAppend(a, b);
    DeclaredAppend(a + [e], b);
    assert (a + [e])[..|a + [e]| - 1] == a;
  }

  /** Dropping one undeclared entry changes neither the declared nor the active members. */
  lemma DropUndeclared(ms: seq<MemberEntry>, i: nat)
    requires EntriesOk(ms) && Derived(ms) && i < |ms| && !ms[i].record.declared
    ensures var r := ms[..i] + ms[i + 1..];
            EntriesOk(r) && Derived(r) && DeclaredIds(r) == DeclaredIds(ms) && ActiveIds(r) == ActiveIds(ms)
  {
    assert DeriveEntry(ms[i]) == ms[i];
    DropKeepsEntries(ms, i);
    assert ms == ms[..i] + [ms[i]] + ms[i + 1..];
    ActiveDrop(ms[..i], ms[i], ms[i + 1..]);
    DeclaredDrop(ms[..i], ms[i], ms[i + 1..]);
  }

  lemma {:induction false} AllDeclaredCount(ms: seq<MemberEntry>)
    requires forall i :: 0 <= i < |ms| ==> ms[i].record.declared
    ensures |DeclaredIds(ms)| == |ms|
  {
    if ms != [] { AllDeclaredCount(ms[..|ms| - 1]); }
  }

  /** Eviction keeps every declared and active member and brings the list within its bound. */
  lemma {:induction false} EvictFacts(ms: seq<MemberEntry>, max: nat)
    requires EntriesOk(ms) && Derived(ms) && |DeclaredIds(ms)| <= max
    ensures var r := Evict(ms, max);
            && EntriesOk(r) && Derived(r) && |r| <= max
            && DeclaredIds(r) == DeclaredIds(ms) && ActiveIds(r) == ActiveIds(ms)
    decreases |ms|
  {
    if |ms| > max {
      var i := FirstUndeclared(ms);
      if i == |ms| {
        AllDeclaredCount(ms);
      } else {
        DropUndeclared(ms, i);
        EvictFacts(ms[..i] + ms[i + 1..], max);
      }
    }
  }
}

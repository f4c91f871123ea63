/** The order in which a request lists its members makes no difference. */
module OrderFree {
  import opened Prelude
  import opened AssignmentProofs
  import opened Lifecycle
  import opened Records
  import opened Sorting
  import opened Groups
  import opened GroupProofs
  import opened TargetProofs
  import opened Governor
  import opened Invariants
  import opened Endings
  import opened Attempts

  /** How many specs satisfy p. */
  ghost function CountIf(p: MemberSpec -> bool, specs: seq<MemberSpec>): nat {
    if specs == [] then 0
    else CountIf(p, specs[..|specs| - 1]) + (if p(specs[|specs| - 1]) then 1 else 0)
  }

  lemma {:induction false} CountIfAppend(p: MemberSpec -> bool, a: seq<MemberSpec>, b: seq<MemberSpec>)
    ensures CountIf(p, a + b) == CountIf(p, a) + CountIf(p, b)
  {
    if b == [] {
      assert a + b == a;
    } else {
      assert (a + b)[..|a + b| - 1] == a + b[..|b| - 1];
      CountIfAppend(p, a, b[..|b| - 1]);
    }
  }

  lemma CountIfRemoved(p: MemberSpec -> bool, b: seq<MemberSpec>, j: nat)
    requires j < |b|
    ensures CountIf(p, b) == CountIf(p, b[..j] + b[j + 1..]) + (if p(b[j]) then 1 else 0)
  {
    assert b == b[..j] + [b[j]] + b[j + 1..];
    CountIfAppend(p, b[..j], b[j + 1..]);
    CountIfAppend(p, b[..j] + [b[j]], b[j + 1..]);
    CountIfAppend(p, b[..j], [b[j]]);
    assert [b[j]][..0] == [];
  }

  lemma MultisetRemoved(b: seq<MemberSpec>, j: nat)
    requires j < |b|
    ensures multiset(b[..j] + b[j + 1..]) == multiset(b) - multiset{b[j]}
  {
    assert b == b[..j] + [b[j]] + b[j + 1..];
  }

  lemma {:induction false} CountIfPermutation(p: MemberSpec -> bool, a: seq<MemberSpec>, b: seq<MemberSpec>)
    requires SameSpecs(a, b)
    ensures CountIf(p, a) == CountIf(p, b)
  {
    SameSpecsElements(a, b);
    if a != [] {
      var n := |a| - 1;
      assert a[n] in b;
      var j :| 0 <= j < |b| && b[j] == a[n];
      MultisetRemoved(a, n);
      MultisetRemoved(b, j);
      assert a[..n] + a[n + 1..] == a[..n];
      CountIfPermutation(p, a[..n], b[..j] + b[j + 1..]);
      CountIfRemoved(p, b, j);
    }
  }

  // ----- Member sets -----

  predicate ChangesMember(g: Group, spec: MemberSpec) {
    !DeclaredIn(g.members, spec.member) || SpecDiffers(g.members[Locate(g.members, spec.member)].record, spec)
  }

  function Changing(g: Group): MemberSpec -> bool { (spec: MemberSpec) => ChangesMember(g, spec) }

  function Joining(ms: seq<MemberEntry>): MemberSpec -> bool { (spec: MemberSpec) => !DeclaredIn(ms, spec.member) }

  function Enabled(): MemberSpec -> bool { (spec: MemberSpec) => spec.enabled }

  lemma {:induction false} SpecChangesCount(g: Group, specs: seq<MemberSpec>)
    ensures SpecChanges(g, specs) == CountIf(Changing(g), specs)
  {
    if specs != [] { SpecChangesCount(g, specs[..|specs| - 1]); }
  }

  lemma {:induction false} AddedCountIf(ms: seq<MemberEntry>, specs: seq<MemberSpec>)
    ensures AddedCount(ms, specs) == CountIf(Joining(ms), specs)
  {
    if specs != [] { AddedCountIf(ms, specs[..|specs| - 1]); }
  }

  lemma {:induction false} EnabledCountIf(specs: seq<MemberSpec>)
    ensures EnabledCount(specs) == CountIf(Enabled(), specs)
  {
    if specs != [] { EnabledCountIf(specs[..|specs| - 1]); }
  }

  lemma SameIdsListed(a: seq<MemberSpec>, b: seq<MemberSpec>, x: Id)
    requires SameSpecs(a, b)
    ensures x in SpecIds(a) <==> x in SpecIds(b)
  {
    SameSpecsElements(a, b);
    SpecIdsMultiset(a, x);
    SpecIdsMultiset(b, x);
    if x in SpecIds(a) {
      var k :| 0 <= k < |a| && a[k].member == x;
      assert a[k] in b;
    }
    if x in SpecIds(b) {
      var k :| 0 <= k < |b| && b[k].member == x;
      assert b[k] in a;
    }
  }

  lemma {:induction false} DeparturesPermutation(ms: seq<MemberEntry>, a: seq<MemberSpec>, b: seq<MemberSpec>)
    requires SameSpecs(a, b)
    ensures Departures(ms, a) == Departures(ms, b)
  {
    if ms != [] {
      DeparturesPermutation(ms[..|ms| - 1], a, b);
      SameIdsListed(a, b, ms[|ms| - 1].record.member);
    }
  }

  lemma CountsPermutation(g: Group, a: seq<MemberSpec>, b: seq<MemberSpec>)
    requires SameSpecs(a, b)
    ensures TargetChanges(g, a) == TargetChanges(g, b) && AddedCount(g.members, a) == AddedCount(g.members, b)
  {
    hide CountIf, SameSpecs, Changing, Joining;
    SpecChangesCount(g, a);
    SpecChangesCount(g, b);
    CountIfPermutation(Changing(g), a, b);
    AddedCountIf(g.members, a);
    AddedCountIf(g.members, b);
    CountIfPermutation(Joining(g.members), a, b);
    DeparturesPermutation(g.members, a, b);
  }

  /** The shape check passes exactly when every spec is well formed and no member is named twice. */
  lemma {:induction false} ShapeExactly(specs: seq<MemberSpec>, i: nat)
    requires i <= |specs|
    ensures CheckSpecShape(specs, i).None? <==>
            forall k :: i <= k < |specs| ==> specs[k].WellFormed() && specs[k].member !in SpecIds(specs[k + 1..])
    decreases |specs| - i
  {
    if i < |specs| { ShapeExactly(specs, i + 1); }
  }

  lemma ListedPasses(specs: seq<MemberSpec>)
    requires Listed(SpecIds(specs)) && forall x :: x in specs ==> x.WellFormed()
    ensures CheckSpecShape(specs, 0).None?
  {
    forall k | 0 <= k < |specs| ensures specs[k].WellFormed() && specs[k].member !in SpecIds(specs[k + 1..]) {
      var rest := SpecIds(specs[k + 1..]);
      forall j | 0 <= j < |rest| ensures rest[j] != specs[k].member {
        assert SpecIds(specs)[k] != SpecIds(specs)[k + 1 + j];
      }
    }
    ShapeExactly(specs, 0);
  }

  lemma ShapePermutation(a: seq<MemberSpec>, b: seq<MemberSpec>)
    requires SameSpecs(a, b) && CheckSpecShape(a, 0).None?
    ensures CheckSpecShape(b, 0).None?
  {
    ShapedSpecsListed(a);
    ShapeExactly(a, 0);
    SameSpecsListed(a, b);
    SameSpecsElements(a, b);
    ListedPasses(b);
  }

  lemma {:induction false} ValidateAllExactly(up: Upstream, g: Group, specs: seq<MemberSpec>, i: nat)
    requires i <= |specs|
    ensures ValidateAll(up, g, specs, i).None? <==> forall k :: i <= k < |specs| ==> ValidateFor(up, g, specs[k]).None?
    decreases |specs| - i
  {
    hide ValidateFor;
    if i < |specs| { ValidateAllExactly(up, g, specs, i + 1); }
  }

  lemma ValidateAllPermutation(up: Upstream, g: Group, a: seq<MemberSpec>, b: seq<MemberSpec>)
    requires SameSpecs(a, b) && ValidateAll(up, g, a, 0).None?
    ensures ValidateAll(up, g, b, 0).None?
  {
    hide ValidateFor;
    SameSpecsElements(a, b);
    ValidateAllExactly(up, g, a, 0);
    ValidateAllExactly(up, g, b, 0);
    forall k | 0 <= k < |b| ensures ValidateFor(up, g, b[k]).None? {
      assert b[k] in a;
    }
  }

  lemma SetCheckPermutation(s: State, g: Group, a: seq<MemberSpec>, b: seq<MemberSpec>, up: Upstream)
    requires SameSpecs(a, b) && CheckSetRequest(s, g, a, up).None?
    ensures CheckSetRequest(s, g, b, up).None?
  {
    hide CheckSpecShape, ValidateAll, TargetChanges, PathMoved;
    SameSpecsElements(a, b);
    ShapePermutation(a, b);
    ValidateAllPermutation(up, g, a, b);
    CountsPermutation(g, a, b);
    if AnyPathMoved(g, b) { PathMovedPermutation(g, a, b); }
  }

  lemma PathMovedPermutation(g: Group, a: seq<MemberSpec>, b: seq<MemberSpec>)
    requires SameSpecs(a, b) && AnyPathMoved(g, b)
    ensures AnyPathMoved(g, a)
  {
    hide PathMoved;
    SameSpecsElements(a, b);
    var i :| 0 <= i < |b| && PathMoved(g, b[i]);
    assert b[i] in a;
  }

  /** Two set requests that differ at most in the order of their members. */
  predicate Reordered(r: Request, r': Request) {
    r.ApplySet? && r'.ApplySet? && r.authority == r'.authority && r.group == r'.group &&
    multiset(r.members) == multiset(r'.members)
  }

  lemma PreambleReordered(s: State, r: Request, r': Request, event: GroupEvent)
    requires r.authority == r'.authority && r.group == r'.group && r.authority.attempt !in s.attempts
    ensures Preamble(s, r, event) == Preamble(s, r', event)
  {
    hide Authorize, PayloadOf, CheckExpected;
  }

  lemma SameTarget(s: State, g: Group, r: Request, r': Request)
    requires Reordered(r, r') && Loose(g, s.limits) && Listed(SpecIds(r.members))
    ensures Retargeted(g, r.members) == Retargeted(g, r'.members)
    ensures TargetContext(s, r.authority, g, r.members) == TargetContext(s, r'.authority, g, r'.members)
  {
    hide ApplyTarget;
    TargetPermutation(g.members, r.members, r'.members);
    CountsPermutation(g, r.members, r'.members);
  }

  /** The same groups and the same outcome. */
  ghost predicate SameResult(a: Answer, a': Answer) {
    a'.outcome == a.outcome && a'.state.groups == a.state.groups
  }

  /** Under a new attempt id, a member set that is carried out would have been carried out in any other order of its
      members, with the same outcome and exactly the same groups: members, maps, generations and last rebalance. */
  lemma ApplyIsOrderFree(s: State, r: Request, r': Request, up: Upstream)
    requires Inv(s) && Reordered(r, r') && r.authority.attempt !in s.attempts
    requires CarriedOut(Apply(s, r, up).outcome)
    ensures SameResult(Apply(s, r, up), Apply(s, r', up))
  {
    hide Preamble, Refresh, Loose, GroupOk, Inv, CheckSetRequest, TargetContext, Retargeted, RememberAttempt, PayloadOf,
         EntriesOk;
    var event := GroupEvent.ADD_MEMBER;
    PreambleReordered(s, r, r', event);
    if Preamble(s, r, event).Some? {
      RefusalIsNotAccepted(s, r, event);
    } else {
      Ready(s, r, event);
      var g := s.groups[r.group];
      SetRequestRefuses(s, g, r.members, up);
      SetCheckPermutation(s, g, r.members, r'.members, up);
      SetRequestShape(s, g, r.members, up);
      ShapedSpecsListed(r.members);
      SameTarget(s, g, r, r');
      var f := Refresh(Retargeted(g, r.members), TargetContext(s, r.authority, g, r.members), s.limits.maxHistory);
      var done := f.group.(members := Evict(f.group.members, s.limits.maxMembersPerGroup));
      var outcome := if f.group.assignmentGen != g.assignmentGen then REBALANCED else NO_CHANGE;
      AttemptsOnly(Stored(s, done), r.authority.attempt, AttemptEntry(PayloadOf(r), outcome, g.id));
      AttemptsOnly(Stored(s, done), r.authority.attempt, AttemptEntry(PayloadOf(r'), outcome, g.id));
    }
  }

  lemma SetRequestShape(s: State, g: Group, specs: seq<MemberSpec>, up: Upstream)
    requires CheckSetRequest(s, g, specs, up).None?
    ensures CheckSpecShape(specs, 0).None?
  {
  }

  // ----- Creation -----

  /** Two creations that differ at most in the order of their members. */
  predicate ReorderedCreation(r: Request, r': Request) {
    && r.CreateGroup? && r'.CreateGroup? && r' == r.(members := r'.members)
    && multiset(r.members) == multiset(r'.members)
  }

  predicate Admissible(up: Upstream, r: Request, reference: PathCost, spec: MemberSpec)
    requires r.CreateGroup?
  {
    ValidateSpec(up, spec, r.semantics, reference, r.source, r.multipathSet, r.multipathGen).None?
  }

  /** New members pass exactly when none repeats and each validates against the cost of the first. */
  lemma {:induction false} NewMembersExactly(up: Upstream, r: Request, i: nat)
    requires r.CreateGroup? && i <= |r.members|
    ensures CheckNewMembers(up, r, i).None? <==>
            forall k :: i <= k < |r.members| ==>
              IndexOf(SpecIds(r.members), r.members[k].member) >= k &&
              Admissible(up, r, r.members[0].cost.cost, r.members[k])
    decreases |r.members| - i
  {
    hide ValidateSpec;
    if i < |r.members| { NewMembersExactly(up, r, i + 1); }
  }

  lemma AdmissibleCost(up: Upstream, r: Request, reference: PathCost, spec: MemberSpec)
    requires r.CreateGroup? && Admissible(up, r, reference, spec)
    ensures spec.cost.cost == reference
  {
  }

  lemma FirstOccurrence(ids: seq<Id>, k: nat)
    requires Listed(ids) && k < |ids|
    ensures IndexOf(ids, ids[k]) == k
  {
    ListedIndex(ids, k);
  }

  lemma NewMembersPermutation(up: Upstream, r: Request, r': Request)
    requires ReorderedCreation(r, r') && CheckNewMembers(up, r, 0).None? && |r.members| > 0
    ensures |r'.members| == |r.members| && r'.members[0].cost.cost == r.members[0].cost.cost
    ensures CheckNewMembers(up, r', 0).None? && Listed(SpecIds(r.members)) && Listed(SpecIds(r'.members))
  {
    hide ValidateSpec, CheckNewMembers;
    var reference := r.members[0].cost.cost;
    NewMembersExactly(up, r, 0);
    NewMembersListed(up, r);
    SameSpecsElements(r.members, r'.members);
    SameSpecsListed(r.members, r'.members);
    forall k | 0 <= k < |r'.members| ensures Admissible(up, r, reference, r'.members[k]) {
      assert r'.members[k] in r.members;
      var j :| 0 <= j < |r.members| && r.members[j] == r'.members[k];
      assert Admissible(up, r, reference, r.members[j]);
    }
    AdmissibleCost(up, r, reference, r'.members[0]);
    forall k | 0 <= k < |r'.members| ensures IndexOf(SpecIds(r'.members), r'.members[k].member) >= k {
      FirstOccurrence(SpecIds(r'.members), k);
    }
    forall k | 0 <= k < |r'.members| ensures Admissible(up, r', reference, r'.members[k]) {
      assert Admissible(up, r, reference, r'.members[k]);
    }
    NewMembersExactly(up, r', 0);
  }

  lemma NewGroupPermutation(s: State, r: Request, r': Request)
    requires ReorderedCreation(r, r') && |r.members| > 0 && |r'.members| > 0
    requires Listed(SpecIds(r.members)) && Listed(SpecIds(r'.members))
    requires r'.members[0].cost.cost == r.members[0].cost.cost
    ensures NewGroup(s, r') == NewGroup(s, r)
  {
    SameSpecsElements(r.members, r'.members);
    FreshSorted(r.members, r'.members);
  }

  lemma FreshSorted(a: seq<MemberSpec>, b: seq<MemberSpec>)
    requires Listed(SpecIds(a)) && Listed(SpecIds(b)) && forall x :: x in a <==> x in b
    ensures SortBy(EntryKey, FreshEntries(a)) == SortBy(EntryKey, FreshEntries(b))
  {
    assert MemberIds(FreshEntries(a)) == SpecIds(a) && MemberIds(FreshEntries(b)) == SpecIds(b);
    EntryKeysDistinct(FreshEntries(a));
    EntryKeysDistinct(FreshEntries(b));
    forall e ensures e in FreshEntries(a) <==> e in FreshEntries(b) {
      if e in FreshEntries(a) { FreshElsewhere(a, b, e); }
      if e in FreshEntries(b) { FreshElsewhere(b, a, e); }
    }
    SortPermutation(EntryKey, FreshEntries(a), FreshEntries(b));
  }

  lemma FreshElsewhere(a: seq<MemberSpec>, b: seq<MemberSpec>, e: MemberEntry)
    requires e in FreshEntries(a) && forall x :: x in a <==> x in b
    ensures e in FreshEntries(b)
  {
    var i :| 0 <= i < |a| && FreshEntries(a)[i] == e;
    assert a[i] in b;
    var j :| 0 <= j < |b| && b[j] == a[i];
    assert FreshEntries(b)[j] == e;
  }

  lemma CreationCheckReordered(s: State, r: Request, r': Request)
    requires ReorderedCreation(r, r')
    ensures CheckCreation(s, r) == CheckCreation(s, r')
  {
    SameSpecsElements(r.members, r'.members);
    hide Total, KeyTaken;
  }

  lemma EnabledReordered(r: Request, r': Request)
    requires ReorderedCreation(r, r')
    ensures EnabledCount(r'.members) == EnabledCount(r.members)
  {
    EnabledCountIf(r.members);
    EnabledCountIf(r'.members);
    CountIfPermutation(Enabled(), r.members, r'.members);
  }

  /** Under a new attempt id, a creation that is carried out would have been carried out in any other order of its members,
      and the created group would be exactly the same. */
  lemma CreateIsOrderFree(s: State, r: Request, r': Request, up: Upstream)
    requires ReorderedCreation(r, r') && r.authority.attempt !in s.attempts
    requires CarriedOut(Create(s, r, up).outcome)
    ensures SameResult(Create(s, r, up), Create(s, r', up))
  {
    hide Refresh, CheckNewMembers, CheckCreation, RememberAttempt, PayloadOf, NewGroup, EnabledCount;
    CreationRefuses(s, r);
    NewMembersRefuse(up, r, 0);
    CreationCheckReordered(s, r, r');
    CreationHasMembers(s, r);
    NewMembersPermutation(up, r, r');
    EnabledReordered(r, r');
    NewGroupPermutation(s, r, r');
    var f := Refresh(NewGroup(s, r), ContextFor(s, r.authority, ChangeReason.CREATE, GroupEvent.ADD_MEMBER),
                     s.limits.maxHistory);
    AttemptsOnly(Stored(s, f.group), r.authority.attempt, AttemptEntry(PayloadOf(r), CREATED, r.group));
    AttemptsOnly(Stored(s, f.group), r.authority.attempt, AttemptEntry(PayloadOf(r'), CREATED, r.group));
  }
}

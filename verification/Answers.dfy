/** With which answer a request past the common checks is refused: the first of its own conditions that fails. */
module Answers {
  import opened Prelude
  import opened Assignment
  import opened Lifecycle
  import opened Records
  import opened Groups
  import opened GroupProofs
  import opened TargetProofs
  import opened Governor
  import opened Invariants
  import opened Endings
  import opened Attempts
  import opened Refusals
  import opened Plans
  import opened PlanRuns
  import opened Standing
  import opened Admission
  import opened Restoration
  import Lapses
  import Permission

  // ----- The first answer of a list -----

  function FirstOf(answers: seq<Option<Outcome>>): Option<Outcome> {
    if answers == [] then None else if answers[0].Some? then answers[0] else FirstOf(answers[1..])
  }

  /** What refuses a spec under the terms of a group. */
  function Unmet(up: Upstream, spec: MemberSpec, semantics: CostSemantics, cost: PathCost, source: MembershipSource,
                 mset: Id, generation: U64): Option<Outcome>
  {
    if !Complete(spec) then Some(MALFORMED_REQUEST)
    else if !PathGranted(up, spec) then Some(STALE_PATH_AUTHORITY)
    else if !SetGranted(up, spec.path, source, mset, generation) then Some(STALE_MULTIPATH_SET)
    else if !SameCostModel(spec.cost, semantics) then Some(COST_CLASS_MISMATCH)
    else if !SamePolicy(spec.cost, semantics) then Some(STALE_COST_GENERATION)
    else if spec.cost.cost.units != cost.units || spec.cost.cost.scale != cost.scale then Some(COST_MISMATCH)
    else None
  }

  function UnmetIn(up: Upstream, g: Group, spec: MemberSpec): Option<Outcome> {
    Unmet(up, spec, g.semantics, g.canonicalCost, g.source, g.multipathSet, g.multipathGen)
  }

  lemma UnmetExactly(up: Upstream, g: Group, spec: MemberSpec)
    ensures ValidateFor(up, g, spec) == UnmetIn(up, g, spec)
  {
    ValidatedExactly(up, spec, g.semantics, g.canonicalCost, g.source, g.multipathSet, g.multipathGen);
    hide ValidateSpec, Complete, PathGranted, SetGranted, SameCostModel, SamePolicy;
  }

  // ----- Single members -----

  ghost function AddAnswer(s: State, g: Group, spec: MemberSpec, up: Upstream): Outcome {
    var declared := |DeclaredIds(g.members)|;
    if spec.member in DeclaredIds(g.members) then DUPLICATE_MEMBER
    else if declared >= s.limits.maxMembersPerGroup || declared >= g.bucketCount ||
            Total(s.groups) >= s.limits.maxTotalMembers then RESOURCE_LIMIT
    else if UnmetIn(up, g, spec).Some? then UnmetIn(up, g, spec).value
    else MEMBER_ADDED
  }

  lemma AddAnswered(s: State, r: Request, up: Upstream)
    requires Inv(s) && r.AddMember? && Preamble(s, r, GroupEvent.ADD_MEMBER).None?
    ensures r.group in s.groups && Add(s, r, up).outcome == AddAnswer(s, s.groups[r.group], r.spec, up)
  {
    hide Preamble, Finish, ValidateFor, WithMember, Total, LifecycleAllows, UnmetIn, DeclaredIn, Inv, GroupOk, Loose,
         EntriesOk;
    Ready(s, r, GroupEvent.ADD_MEMBER);
    var g := s.groups[r.group];
    DeclaredInExactly(g.members, r.spec.member);
    UnmetExactly(up, g, r.spec);
    FinishSucceeds(s, g.(members := WithMember(g.members, r.spec)),
                   ContextFor(s, r.authority, ChangeReason.ADD_MEMBER, GroupEvent.ADD_MEMBER), r, MEMBER_ADDED);
  }

  /** Switching a listed member. */
  function SwitchAnswer(up: Upstream, g: Group, e: MemberEntry, enabled: bool): Outcome {
    var r := e.record;
    if !r.declared then UNKNOWN_MEMBER
    else if r.enabled == enabled then NO_CHANGE
    else if !enabled then MEMBER_DISABLED
    else if g.currentness.staleCost then STALE_COST_GENERATION
    else
      var unmet := UnmetIn(up, g, MemberSpec(r.member, r.path, r.pathAuthority, r.memberGeneration, r.cost, r.provenance,
                                             r.enabled));
      if unmet.Some? then unmet.value else MEMBER_ENABLED
  }

  lemma SwitchAnswered(s: State, r: Request, up: Upstream)
    requires Inv(s) && r.SetEnabled? && Preamble(s, r, Permission.EventOf(s, r)).None?
    ensures r.group in s.groups
    ensures var g := s.groups[r.group];
            && (forall i :: 0 <= i < |g.members| && g.members[i].record.member == r.member ==>
                  Enable(s, r, up).outcome == SwitchAnswer(up, g, g.members[i], r.enabled))
            && ((forall i :: 0 <= i < |g.members| ==> g.members[i].record.member != r.member) ==>
                  Enable(s, r, up).outcome == UNKNOWN_MEMBER)
  {
    hide Preamble, Enable, SwitchAnswer, Locate, Inv, GroupOk, Loose, EntriesOk, LifecycleAllows;
    Ready(s, r, Permission.EventOf(s, r));
    SwitchOutcome(s, r, up);
    var g := s.groups[r.group];
    forall j | 0 <= j < |g.members| && g.members[j].record.member == r.member ensures j == Locate(g.members, r.member) {
      OnlyEntryOf(g.members, j);
    }
  }

  lemma SwitchOutcome(s: State, r: Request, up: Upstream)
    requires r.SetEnabled? && Preamble(s, r, Permission.EventOf(s, r)).None?
    ensures r.group in s.groups
    ensures var g := s.groups[r.group];
            var i := Locate(g.members, r.member);
            Enable(s, r, up).outcome ==
            if i == |g.members| then UNKNOWN_MEMBER else SwitchAnswer(up, g, g.members[i], r.enabled)
  {
    hide Preamble, Finish, ValidateFor, LifecycleAllows, UnmetIn, RememberAttempt, PayloadOf, Locate, Enabling, Disabled;
    var event := Permission.EventOf(s, r);
    PassedLifecycle(s, r, event);
    var g := s.groups[r.group];
    var i := Locate(g.members, r.member);
    if i < |g.members| {
      UnmetExactly(up, g, SpecOf(g.members[i].record));
      var e := if r.enabled then Enabling(g.members[i]) else Disabled(g.members[i]);
      var reason := if r.enabled then ChangeReason.ENABLE_MEMBER else ChangeReason.DISABLE_MEMBER;
      FinishSucceeds(s, g.(members := g.members[i := e]), ContextFor(s, r.authority, reason, event), r,
                     if r.enabled then MEMBER_ENABLED else MEMBER_DISABLED);
    }
  }

  // ----- Member sets -----

  predicate RepeatedIn(specs: seq<MemberSpec>, k: nat)
    requires k < |specs|
  {
    exists n :: k < n < |specs| && specs[n].member == specs[k].member
  }

  /** What is wrong with each spec as it stands. */
  function ShapeAnswers(specs: seq<MemberSpec>): (r: seq<Option<Outcome>>)
    ensures |r| == |specs|
  {
    seq(|specs|, k requires 0 <= k < |specs| =>
      if !Complete(specs[k]) then Some(MALFORMED_REQUEST)
      else if RepeatedIn(specs, k) then Some(DUPLICATE_MEMBER) else None)
  }

  lemma {:induction false} ShapeAnswered(specs: seq<MemberSpec>, i: nat)
    requires i <= |specs|
    ensures CheckSpecShape(specs, i) == FirstOf(ShapeAnswers(specs)[i..])
    decreases |specs| - i
  {
    if i < |specs| {
      RepeatedLater(specs, i);
      assert ShapeAnswers(specs)[i..][1..] == ShapeAnswers(specs)[i + 1..];
      ShapeAnswered(specs, i + 1);
    }
  }

  function SpecAnswers(up: Upstream, g: Group, specs: seq<MemberSpec>): (r: seq<Option<Outcome>>)
    ensures |r| == |specs|
  {
    seq(|specs|, k requires 0 <= k < |specs| => UnmetIn(up, g, specs[k]))
  }

  lemma {:induction false} SpecsAnswered(up: Upstream, g: Group, specs: seq<MemberSpec>, i: nat)
    requires i <= |specs|
    ensures ValidateAll(up, g, specs, i) == FirstOf(SpecAnswers(up, g, specs)[i..])
    decreases |specs| - i
  {
    hide UnmetIn, ValidateFor;
    if i < |specs| {
      UnmetExactly(up, g, specs[i]);
      assert SpecAnswers(up, g, specs)[i..][1..] == SpecAnswers(up, g, specs)[i + 1..];
      SpecsAnswered(up, g, specs, i + 1);
    }
  }

  /** A set that is not carried out: its shape, its size, its paths, the number of changes, the first spec that does not
      meet the conditions, the number of buckets it would move. */
  ghost function SetAnswer(s: State, g: Group, specs: seq<MemberSpec>, up: Upstream): Option<Outcome> {
    if FirstOf(ShapeAnswers(specs)).Some? then FirstOf(ShapeAnswers(specs))
    else if |specs| > s.limits.maxMembersPerGroup || |specs| > g.bucketCount then Some(RESOURCE_LIMIT)
    else if !PathsKept(g, specs) then Some(MALFORMED_REQUEST)
    else if ChangesWanted(g, specs) > s.limits.maxBatchSize then Some(RESOURCE_LIMIT)
    else if FirstOf(SpecAnswers(up, g, specs)).Some? then FirstOf(SpecAnswers(up, g, specs))
    else if WouldMove(g, specs) > s.limits.maxRebalanceMoves then Some(RESOURCE_LIMIT)
    else None
  }

  lemma SetCheckAnswered(s: State, g: Group, specs: seq<MemberSpec>, up: Upstream)
    requires EntriesOk(g.members)
    ensures SetAnswer(s, g, specs, up) ==
            if CheckSetRequest(s, g, specs, up).Some? then CheckSetRequest(s, g, specs, up)
            else if WouldMove(g, specs) > s.limits.maxRebalanceMoves then Some(RESOURCE_LIMIT) else None
  {
    hide CheckSpecShape, ValidateAll, TargetChanges, AnyPathMoved, EntriesOk, PathsKept, ChangesWanted, FirstOf,
         ShapeAnswers, SpecAnswers, WouldMove;
    ChangesCounted(g, specs);
    ShapeAnswered(specs, 0);
    NothingMovedExactly(g, specs);
    SpecsAnswered(up, g, specs, 0);
    assert ShapeAnswers(specs)[0..] == ShapeAnswers(specs);
    assert SpecAnswers(up, g, specs)[0..] == SpecAnswers(up, g, specs);
  }

  lemma SetAnswered(s: State, r: Request, up: Upstream)
    requires Inv(s) && r.ApplySet? && Preamble(s, r, GroupEvent.ADD_MEMBER).None?
    ensures r.group in s.groups
    ensures var answer := SetAnswer(s, s.groups[r.group], r.members, up);
            if answer.Some? then Apply(s, r, up).outcome == answer.value else CarriedOut(Apply(s, r, up).outcome)
  {
    hide Preamble, Refresh, LifecycleAllows, CheckSetRequest, RememberAttempt, PayloadOf, ChurnOf, TargetContext,
         Retargeted, SetAdmitted, SetAnswer, Inv, EntriesOk, Loose, GroupOk, WouldMove;
    Ready(s, r, GroupEvent.ADD_MEMBER);
    var g := s.groups[r.group];
    SetCheckExactly(s, g, r.members, up);
    SetCheckAnswered(s, g, r.members, up);
    SetRequestRefuses(s, g, r.members, up);
    if SetAdmitted(s, g, r.members, up) {
      AdmittedShape(s, g, r.members, up);
      TrialMoves(s, r.authority, g, r.members);
    }
  }

  // ----- Plans -----

  /** A declared member has this identity and another path. */
  ghost predicate LeavesPath(g: Group, spec: MemberSpec) {
    exists i :: 0 <= i < |g.members| && g.members[i].record.declared && g.members[i].record.member == spec.member &&
                g.members[i].record.path != spec.path
  }

  ghost function TargetAnswers(up: Upstream, g: Group, specs: seq<MemberSpec>): (r: seq<Option<Outcome>>)
    ensures |r| == |specs|
  {
    seq(|specs|, k requires 0 <= k < |specs| =>
      if LeavesPath(g, specs[k]) then Some(MALFORMED_REQUEST) else UnmetIn(up, g, specs[k]))
  }

  lemma {:induction false} TargetsAnswered(up: Upstream, g: Group, specs: seq<MemberSpec>, i: nat)
    requires i <= |specs| && EntriesOk(g.members)
    ensures CheckTargets(up, g, specs, i) == FirstOf(TargetAnswers(up, g, specs)[i..])
    decreases |specs| - i
  {
    hide UnmetIn, ValidateFor, PathMoved, EntriesOk;
    if i < |specs| {
      UnmetExactly(up, g, specs[i]);
      MovedExactly(g, specs[i]);
      assert TargetAnswers(up, g, specs)[i..][1..] == TargetAnswers(up, g, specs)[i + 1..];
      TargetsAnswered(up, g, specs, i + 1);
    }
  }

  /** A plan that is not accepted: one is pending already, the shape and the size of the set, the first spec on another
      path or not meeting the conditions, the number of changes, the number of buckets it would move. */
  ghost function PlanAnswer(s: State, g: Group, specs: seq<MemberSpec>, up: Upstream): Outcome {
    if g.plan.Some? then LIFECYCLE_VIOLATION
    else if FirstOf(ShapeAnswers(specs)).Some? then FirstOf(ShapeAnswers(specs)).value
    else if |specs| > s.limits.maxMembersPerGroup || |specs| > g.bucketCount then RESOURCE_LIMIT
    else if FirstOf(TargetAnswers(up, g, specs)).Some? then FirstOf(TargetAnswers(up, g, specs)).value
    else if ChangesWanted(g, specs) > s.limits.maxBatchSize then RESOURCE_LIMIT
    else if WouldMove(g, specs) > s.limits.maxRebalanceMoves then RESOURCE_LIMIT
    else REBALANCE_PLANNED
  }

  lemma PlanCheckAnswered(s: State, g: Group, specs: seq<MemberSpec>, up: Upstream)
    requires EntriesOk(g.members) && g.plan.None?
    ensures PlanAnswer(s, g, specs, up) ==
            if CheckPlanRequest(s, g, specs, up).Some? then CheckPlanRequest(s, g, specs, up).value
            else if WouldMove(g, specs) > s.limits.maxRebalanceMoves then RESOURCE_LIMIT else REBALANCE_PLANNED
  {
    hide CheckSpecShape, CheckTargets, TargetChanges, EntriesOk, ChangesWanted, FirstOf, ShapeAnswers, TargetAnswers,
         WouldMove;
    ChangesCounted(g, specs);
    ShapeAnswered(specs, 0);
    TargetsAnswered(up, g, specs, 0);
    assert ShapeAnswers(specs)[0..] == ShapeAnswers(specs);
    assert TargetAnswers(up, g, specs)[0..] == TargetAnswers(up, g, specs);
  }

  lemma PendingAnswer(s: State, g: Group, specs: seq<MemberSpec>, up: Upstream)
    requires g.plan.Some?
    ensures PlanAnswer(s, g, specs, up) == LIFECYCLE_VIOLATION
  {
  }

  lemma PlanOutcome(s: State, r: Request, up: Upstream)
    requires r.PlanRebalance? && Preamble(s, r, PLAN_REBALANCE).None?
    ensures r.group in s.groups
    ensures var g := s.groups[r.group];
            var f := Refresh(Retargeted(g, r.members), TargetContext(s, r.authority, g, r.members), s.limits.maxHistory);
            Planning(s, r, up).outcome ==
            if g.plan.Some? then LIFECYCLE_VIOLATION
            else if CheckPlanRequest(s, g, r.members, up).Some? then CheckPlanRequest(s, g, r.members, up).value
            else if !f.ok then LIFECYCLE_VIOLATION
            else if ChurnOf(g, f.group) > s.limits.maxRebalanceMoves then RESOURCE_LIMIT
            else REBALANCE_PLANNED
  {
    hide Preamble, Finish, Refresh, LifecycleAllows, CheckPlanRequest, PayloadOf, ChurnOf, TargetContext, Retargeted,
         PlanFor;
    PassedLifecycle(s, r, PLAN_REBALANCE);
    var g := s.groups[r.group];
    var f := Refresh(Retargeted(g, r.members), TargetContext(s, r.authority, g, r.members), s.limits.maxHistory);
    FinishSucceeds(s, g.(plan := Some(PlanFor(s, r, g, f.group))),
                   ContextFor(s, r.authority, ChangeReason.REVALIDATION, PLAN_REBALANCE), r, REBALANCE_PLANNED);
  }

  lemma PlanAnswered(s: State, r: Request, up: Upstream)
    requires Inv(s) && r.PlanRebalance? && Preamble(s, r, PLAN_REBALANCE).None?
    ensures r.group in s.groups && Planning(s, r, up).outcome == PlanAnswer(s, s.groups[r.group], r.members, up)
  {
    hide Preamble, Planning, Refresh, LifecycleAllows, CheckPlanRequest, ChurnOf, TargetContext, Retargeted, SetAdmitted,
         Inv, EntriesOk, Loose, GroupOk, WouldMove, PlanAnswer;
    Ready(s, r, PLAN_REBALANCE);
    PlanOutcome(s, r, up);
    var g := s.groups[r.group];
    PlanCheckExactly(s, g, r.members, up);
    if g.plan.None? { PlanCheckAnswered(s, g, r.members, up); } else { PendingAnswer(s, g, r.members, up); }
    if SetAdmitted(s, g, r.members, up) {
      AdmittedShape(s, g, r.members, up);
      TrialMoves(s, r.authority, g, r.members);
    }
  }

  /** A commit: of another plan or none, of one whose group moved a generation since, or applied. */
  lemma CommitAnswered(s: State, r: Request)
    requires Inv(s) && r.CommitRebalance? && Preamble(s, r, COMMIT_REBALANCE).None?
    ensures r.group in s.groups
    ensures var g := s.groups[r.group];
            Commit(s, r).outcome ==
            if g.plan.None? || g.plan.value.id != r.plan then NO_PENDING_PLAN
            else if g.plan.value.fromMembership != g.membershipGen || g.plan.value.fromAssignment != g.assignmentGen ||
                    g.plan.value.fromAuthority != g.authorityGen then STALE_PLAN
            else REBALANCED
  {
    hide Preamble, Finish, Inv, IsClosed, LandedOn, Retargeted;
    PlanRuns.AppliedExactly(s, r);
  }

  lemma ClosedAnswer(l: GroupLifecycle)
    ensures IsClosed(l) <==> l == Withdrawing || l == Withdrawn || l == Revoked || l == Superseded || l == Retired
    ensures IsClosed(l) ==>
              LifecycleOutcome(l) ==
              if l == Withdrawing then LIFECYCLE_VIOLATION else if l == Withdrawn then WITHDRAWN
              else if l == Revoked then REVOKED else if l == Superseded then SUPERSEDED else RETIRED
  {
  }

  /** A supersession: by nobody or itself, by an unknown group, by one that is closed, or carried out. */
  lemma SupersedeAnswered(s: State, r: Request)
    requires Inv(s) && r.SupersedeGroup? && Preamble(s, r, SUPERSEDE).None?
    ensures Supersede(s, r).outcome ==
            if r.successor == NIL || r.successor == r.group then MALFORMED_REQUEST
            else if r.successor !in s.groups then UNKNOWN_GROUP
            else if s.groups[r.successor].lifecycle == Withdrawing then LIFECYCLE_VIOLATION
            else if s.groups[r.successor].lifecycle == Withdrawn then WITHDRAWN
            else if s.groups[r.successor].lifecycle == Revoked then REVOKED
            else if s.groups[r.successor].lifecycle == Superseded then SUPERSEDED
            else if s.groups[r.successor].lifecycle == Retired then RETIRED
            else SUPERSEDED_OK
  {
    hide Preamble, Finish, LifecycleAllows, Inv, GroupOk, Loose, Retiring, MapEntries, Stored, EntriesOk, IsClosed,
         LifecycleOutcome;
    Ready(s, r, SUPERSEDE);
    var g := s.groups[r.group];
    if r.successor in s.groups {
      ClosedAnswer(s.groups[r.successor].lifecycle);
      var t := g.(members := MapEntries(Disabled, g.members), plan := None, successor := r.successor);
      RetiringKeeps(t);
      FinishSucceeds(Stored(s, s.groups[r.successor].(predecessor := g.id)), Retiring(t),
                     ContextFor(s, r.authority, SUPERSESSION, SUPERSEDE), r, SUPERSEDED_OK);
    }
  }

  lemma RetiringKeeps(g: Group)
    ensures Retiring(g).lifecycle == g.lifecycle
  {
  }

  // ----- Creations -----

  /** What refuses the terms of a creation, before its members are looked at. */
  ghost function TermsAnswer(s: State, r: Request): Option<Outcome>
    requires r.CreateGroup?
  {
    if r.group == NIL || r.key.fabric == NIL || r.key.routingNamespace == NIL || r.key.destination == NIL ||
       r.key.costClass == NIL then Some(MALFORMED_REQUEST)
    else if !Permission.InScope(r.authority.scope, r.key, r.group) then Some(UNAUTHORIZED)
    else if r.semantics.costClass != r.key.costClass || r.semantics.binding.model == NIL ||
            r.semantics.binding.routeClass == NIL || r.hashDomain == NIL || r.provenance == NIL ||
            (r.source == MULTIPATH_FABRIC && r.multipathSet == NIL) || r.minActive == 0 || r.bucketCount == 0
    then Some(MALFORMED_REQUEST)
    else if r.bucketCount > s.limits.maxBuckets || r.minActive > s.limits.maxMembersPerGroup ||
            |r.members| > s.limits.maxMembersPerGroup || |r.members| > r.bucketCount then Some(RESOURCE_LIMIT)
    else if |r.members| < r.minActive then Some(INSUFFICIENT_MEMBERS)
    else if |s.groups| >= s.limits.maxGroups || Total(s.groups) + |r.members| > s.limits.maxTotalMembers
    then Some(RESOURCE_LIMIT)
    else if r.group in s.groups || exists id :: id in s.groups && s.groups[id].key == r.key then Some(DUPLICATE_GROUP)
    else None
  }

  lemma TermsAnswered(s: State, r: Request)
    requires r.CreateGroup?
    ensures CheckCreation(s, r) == TermsAnswer(s, r)
  {
    hide Total;
    Permission.CoversExactly(r.authority.scope, r.key, r.group);
  }

  predicate NamedBefore(specs: seq<MemberSpec>, k: nat)
    requires k < |specs|
  {
    exists j :: 0 <= j < k && specs[j].member == specs[k].member
  }

  function NewAnswers(up: Upstream, r: Request): (a: seq<Option<Outcome>>)
    requires r.CreateGroup?
    ensures |a| == |r.members|
  {
    seq(|r.members|, k requires 0 <= k < |r.members| =>
      if NamedBefore(r.members, k) then Some(DUPLICATE_MEMBER)
      else Unmet(up, r.members[k], r.semantics, r.members[0].cost.cost, r.source, r.multipathSet, r.multipathGen))
  }

  lemma {:induction false} NewAnswered(up: Upstream, r: Request, i: nat)
    requires r.CreateGroup? && i <= |r.members|
    ensures CheckNewMembers(up, r, i) == FirstOf(NewAnswers(up, r)[i..])
    decreases |r.members| - i
  {
    hide Unmet, ValidateSpec, Meets, Complete, PathGranted, SetGranted, SameCostModel, SamePolicy;
    if i < |r.members| {
      FirstNamed(r.members, i);
      NewUnmet(up, r, i);
      assert NewAnswers(up, r)[i..][1..] == NewAnswers(up, r)[i + 1..];
      NewAnswered(up, r, i + 1);
    }
  }

  lemma NewUnmet(up: Upstream, r: Request, i: nat)
    requires r.CreateGroup? && i < |r.members|
    ensures ValidateSpec(up, r.members[i], r.semantics, r.members[0].cost.cost, r.source, r.multipathSet,
                         r.multipathGen) ==
            Unmet(up, r.members[i], r.semantics, r.members[0].cost.cost, r.source, r.multipathSet, r.multipathGen)
  {
    ValidatedExactly(up, r.members[i], r.semantics, r.members[0].cost.cost, r.source, r.multipathSet, r.multipathGen);
    hide ValidateSpec, Complete, PathGranted, SetGranted, SameCostModel, SamePolicy;
  }

  /** A creation past authorization: its terms, the first member that is named twice or does not meet the conditions, the
      number of enabled members. */
  lemma CreateAnswered(s: State, r: Request, up: Upstream)
    requires r.CreateGroup? && Authorize(s, r.authority, MUTATE_GROUP, r.group).None?
    requires r.authority.attempt !in s.attempts
    ensures Create(s, r, up).outcome ==
            if TermsAnswer(s, r).Some? then TermsAnswer(s, r).value
            else if FirstOf(NewAnswers(up, r)).Some? then FirstOf(NewAnswers(up, r)).value
            else if |Enabled(r.members)| < r.minActive then INSUFFICIENT_MEMBERS
            else CREATED
  {
    hide Authorize, CheckCreation, CheckNewMembers, EnabledCount, Refresh, RememberAttempt, PayloadOf, TermsAnswer,
         NewAnswers, FirstOf, Enabled;
    TermsAnswered(s, r);
    NewAnswered(up, r, 0);
    assert NewAnswers(up, r)[0..] == NewAnswers(up, r);
    EnabledCounted(r.members);
    if |r.members| > 0 {
      RefreshSucceeds(NewGroup(s, r), ContextFor(s, r.authority, ChangeReason.CREATE, GroupEvent.ADD_MEMBER),
                      s.limits.maxHistory);
    } else {
      NobodyToCreate(s, r);
    }
  }

  // ----- Revalidations -----

  /** What refuses an update of a group as it is. */
  ghost predicate UpdateRefused(up: Upstream, g: Group, u: MemberRevalidation, o: Outcome) {
    if exists k :: 0 <= k < |g.members| && g.members[k].record.declared && g.members[k].record.member == u.member
    then
      exists k :: 0 <= k < |g.members| && g.members[k].record.declared && g.members[k].record.member == u.member &&
                  UnmetIn(up, g, SpecOf(Renewed(g.members[k].record, u))) == Some(o)
    else o == UNKNOWN_MEMBER
  }

  lemma UpdateStepAnswered(up: Upstream, g: Group, u: MemberRevalidation, o: Outcome)
    requires EntriesOk(g.members)
    ensures var k := Locate(g.members, u.member);
            UpdateRefused(up, g, u, o) <==>
            if k == |g.members| || !g.members[k].record.declared then o == UNKNOWN_MEMBER
            else ValidateFor(up, g, UpdatedSpec(g.members[k], u)) == Some(o)
  {
    hide EntriesOk, ValidateFor, Locate, UnmetIn, UpdatedSpec, Renewed, SpecOf;
    var k := Locate(g.members, u.member);
    UpdateStep(up, g, u, k);
    forall i | 0 <= i < |g.members| && g.members[i].record.member == u.member ensures i == k {
      OnlyEntryOf(g.members, i);
    }
    if k < |g.members| { UnmetExactly(up, g, UpdatedSpec(g.members[k], u)); }
  }

  /** The updates of others do not change what refuses an update. */
  lemma RefusedElsewhere(up: Upstream, g: Group, k: nat, e: MemberEntry, u: MemberRevalidation, o: Outcome)
    requires k < |g.members| && e.record.member == g.members[k].record.member && u.member != e.record.member
    ensures UpdateRefused(up, g.(members := g.members[k := e]), u, o) <==> UpdateRefused(up, g, u, o)
  {
    hide Unmet, Renewed, SpecOf;
    var h := g.(members := g.members[k := e]);
    forall i | 0 <= i < |g.members| && g.members[i].record.member == u.member ensures h.members[i] == g.members[i] {}
    forall i | 0 <= i < |g.members| && h.members[i].record.member == u.member ensures h.members[i] == g.members[i] {}
  }

  /** When no member is named twice, updates fail exactly at the first one that is refused for the group as it is, with
      its answer. */
  lemma {:induction false} UpdatesAnswered(up: Upstream, g: Group, updates: seq<MemberRevalidation>, i: nat)
    requires EntriesOk(g.members) && i <= |updates| && DistinctFrom(updates, i)
    ensures var o := ApplyUpdates(up, g, updates, i).1;
            o.Some? ==>
              exists j :: && i <= j < |updates| && UpdateRefused(up, g, updates[j], o.value)
                          && forall n :: i <= n < j ==> Applicable(up, g, updates[n])
    decreases |updates| - i
  {
    hide EntriesOk, ValidateFor, Applicable, Locate, Renewed, UpdatedSpec, Reproved, SpecOf, UpdateRefused;
    var o := ApplyUpdates(up, g, updates, i).1;
    if i < |updates| && o.Some? {
      var u := updates[i];
      var k := Locate(g.members, u.member);
      UpdateStep(up, g, u, k);
      UpdateStepAnswered(up, g, u, o.value);
      if Applicable(up, g, u) {
        var e := g.members[k].(record := Renewed(g.members[k].record, u));
        var h := g.(members := g.members[k := e]);
        RenewedPlaces(g, k, u);
        RenewedMember(g.members[k].record, u);
        UpdatesAnswered(up, h, updates, i + 1);
        var j :| && i < j < |updates| && UpdateRefused(up, h, updates[j], o.value)
                 && forall n :: i < n < j ==> Applicable(up, h, updates[n]);
        RefusedElsewhere(up, g, k, e, updates[j], o.value);
        forall n | i < n < j ensures Applicable(up, g, updates[n]) { ApplicableElsewhere(up, g, k, e, updates[n]); }
      } else {
        assert UpdateRefused(up, g, updates[i], o.value);
      }
    }
  }

  /** Why a policy is not taken over: as many claims as declared members, in agreement, and as last announced. */
  ghost predicate AdoptionRefused(s: State, g: Group, updates: seq<MemberRevalidation>, o: Outcome) {
    if |Claiming(updates)| != |DeclaredIds(g.members)| then o == STALE_COST_GENERATION
    else if exists i, j :: && 0 <= i < |updates| && 0 <= j < |updates| && updates[i].cost.Some? && updates[j].cost.Some?
                           && (updates[i].cost.value.costClass != g.semantics.costClass ||
                               updates[i].cost.value.binding != updates[j].cost.value.binding ||
                               updates[i].cost.value.cost != updates[j].cost.value.cost)
    then o == COST_CLASS_MISMATCH
    else o == STALE_COST_GENERATION
  }

  lemma AdoptionAnswered(s: State, g: Group, updates: seq<MemberRevalidation>)
    requires |Claims(updates)| > 0
    ensures CheckAdoption(s, g, Claims(updates)).Some? ==>
              AdoptionRefused(s, g, updates, CheckAdoption(s, g, Claims(updates)).value)
  {
    var claims := Claims(updates);
    hide Claims, Claiming;
    ClaimsCounted(updates);
    forall i | 0 <= i < |claims| ensures exists j :: 0 <= j < |updates| && updates[j].cost == Some(claims[i]) {
      ClaimElements(updates, claims[i]);
      assert claims[i] in claims;
    }
    forall j | 0 <= j < |updates| && updates[j].cost.Some? ensures updates[j].cost.value in claims {
      ClaimElements(updates, updates[j].cost.value);
    }
  }

  /** With which answer a revalidation is refused: the size of the batch, a member named twice, the policy it brings, the
      first update that does not apply, the set generation it names. */
  ghost predicate RevalidationRefused(s: State, r: Request, up: Upstream, o: Outcome)
    requires r.Revalidate? && r.group in s.groups
  {
    var g := s.groups[r.group];
    var h := WithTerms(g, r.updates);
    if |r.updates| > s.limits.maxBatchSize then o == RESOURCE_LIMIT
    else if !DistinctFrom(r.updates, 0) then o == MALFORMED_REQUEST
    else if BringsPolicy(g, r.updates) &&
            !exists j :: 0 <= j < |r.updates| && r.updates[j].cost.Some? &&
                         MayAdopt(s, g, r.updates, r.updates[j].cost.value)
    then AdoptionRefused(s, g, r.updates, o)
    else if exists j :: 0 <= j < |r.updates| && !Applicable(up, h, r.updates[j])
    then
      exists j :: && 0 <= j < |r.updates| && UpdateRefused(up, h, r.updates[j], o)
                  && forall n :: 0 <= n < j ==> Applicable(up, h, r.updates[n])
    else !SetRenewable(up, g, r.newMultipathGen) &&
         o == if g.source == DIRECT_PATH_SET then MALFORMED_REQUEST else STALE_MULTIPATH_SET
  }

  lemma RevalidationOutcome(s: State, r: Request, up: Upstream)
    requires r.Revalidate? && Preamble(s, r, GroupEvent.REVALIDATE).None?
    ensures r.group in s.groups
    ensures var g, claims := s.groups[r.group], Claims(r.updates);
            var (updated, refused) := ApplyUpdates(up, WithTerms(g, r.updates), r.updates, 0);
            Revalidation(s, r, up).outcome ==
            if |r.updates| > s.limits.maxBatchSize then RESOURCE_LIMIT
            else if RepeatsMember(r.updates) then MALFORMED_REQUEST
            else if AdoptionNeeded(g, claims) && CheckAdoption(s, g, claims).Some? then CheckAdoption(s, g, claims).value
            else if refused.Some? then refused.value
            else if CheckMultipathUpdate(up, updated, r.newMultipathGen).Some?
            then CheckMultipathUpdate(up, updated, r.newMultipathGen).value
            else REVALIDATED
  {
    hide Preamble, Finish, ApplyUpdates, Adopt, Claims, CheckAdoption, CheckMultipathUpdate, AdoptionNeeded,
         LifecycleAllows, RepeatsMember, Restored, WithMultipath;
    PassedLifecycle(s, r, GroupEvent.REVALIDATE);
    RevalidationSucceeds(s, r, up);
  }

  lemma RevalidationAnswered(s: State, r: Request, up: Upstream)
    requires Inv(s) && r.Revalidate? && Preamble(s, r, GroupEvent.REVALIDATE).None?
    ensures r.group in s.groups
    ensures var o := Revalidation(s, r, up).outcome; o == REVALIDATED || RevalidationRefused(s, r, up, o)
  {
    hide Preamble, Revalidation, GroupOk, Loose, Inv, ApplyUpdates, Claims, CheckAdoption, CheckMultipathUpdate, WithTerms,
         AdoptionNeeded, EntriesOk, LifecycleAllows, RepeatsMember, MayAdopt, Applicable, BringsPolicy, DistinctFrom,
         SetRenewable, UpdateRefused, AdoptionRefused;
    Ready(s, r, GroupEvent.REVALIDATE);
    RevalidationOutcome(s, r, up);
    var g := s.groups[r.group];
    DistinctExactly(r.updates);
    NeededExactly(g, r.updates);
    if AdoptionNeeded(g, Claims(r.updates)) {
      AdoptableExactly(s, g, r.updates);
      AdoptionAnswered(s, g, r.updates);
    }
    var h := WithTerms(g, r.updates);
    TermsKeepEntries(g, r.updates);
    if DistinctFrom(r.updates, 0) {
      UpdatesExactly(up, h, r.updates, 0);
      UpdatesAnswered(up, h, r.updates, 0);
    }
    var updated := ApplyUpdates(up, h, r.updates, 0).0;
    if DistinctFrom(r.updates, 0) {
      SetExactly(up, g, updated, r.newMultipathGen);
      SetRefusalAnswered(up, updated, r.newMultipathGen);
    }
  }

  lemma SetRefusalAnswered(up: Upstream, g: Group, generation: Option<U64>)
    ensures var o := CheckMultipathUpdate(up, g, generation);
            o.Some? ==> o.value == if g.source == DIRECT_PATH_SET then MALFORMED_REQUEST else STALE_MULTIPATH_SET
  {
  }
}

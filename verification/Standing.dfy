/** What the lifecycle of a group and the state of a member say, in the words of the records themselves: in every
    reachable state, and both ways. */
module Standing {
  import opened Prelude
  import opened AssignmentProofs
  import opened Lifecycle
  import opened Records
  import opened Sorting
  import opened Groups
  import opened GroupProofs
  import opened Governor
  import opened Invariants
  import opened Runs

  /** One of the causes that withdraw authority from the whole group is set. */
  predicate Lapsed(c: Currentness) { c.staleEpoch || c.fenced || c.revalidation || c.retired }

  /** The group was neither withdrawn, revoked, superseded nor retired, and is not about to be. */
  predicate InService(l: GroupLifecycle) {
    l == Declared || l == Active || l == Degraded || l == RevalidationRequired || l == Rebalancing
  }

  /** What each open lifecycle says of the members, of the bound on them and of authority. */
  ghost predicate Stands(g: Group) {
    var declared, active, lapsed := |DeclaredIds(g.members)|, |ActiveIds(g.members)|, Lapsed(g.currentness);
    && (g.lifecycle == Rebalancing <==> g.plan.Some?)
    && (g.lifecycle == Declared <==> g.plan.None? && declared == 0)
    && (g.lifecycle == RevalidationRequired <==> g.plan.None? && declared > 0 && (active == 0 || lapsed))
    && (g.lifecycle == Degraded <==> g.plan.None? && 0 < active < g.minActive && !lapsed)
    && (g.lifecycle == Active <==> g.plan.None? && active >= g.minActive && !lapsed)
  }

  lemma OpenStands(g: Group, limits: Limits)
    requires GroupOk(g, limits) && InService(g.lifecycle)
    ensures Stands(g)
  {
    hide EntriesOk, PlanOk, Settled, OwnersKnown;
    ActiveNotMoreThanDeclared(g.members);
  }

  /** What the recorded state of a member says: active exactly when it is declared, enabled and proven in every respect,
      stale exactly when it is declared and lacks a proof, ineligible exactly when only the administrator keeps it out. */
  ghost predicate StatesTold(ms: seq<MemberEntry>) {
    forall i :: 0 <= i < |ms| ==>
      var e := ms[i];
      var proven := e.pathCurrent && e.multipathCurrent && e.costCurrent;
      && (e.record.state == MemberActive <==> e.record.declared && proven && e.record.enabled)
      && (e.record.state == MemberStale <==> e.record.declared && !proven)
      && (e.record.state == MemberIneligible <==> e.record.declared && proven && !e.record.enabled)
      && (e.record.state == MemberWithdrawn <==> !e.record.declared)
  }

  lemma DerivedTold(ms: seq<MemberEntry>)
    requires Derived(ms)
    ensures StatesTold(ms)
  {
    forall i | 0 <= i < |ms| ensures
      var e := ms[i];
      var proven := e.pathCurrent && e.multipathCurrent && e.costCurrent;
      && (e.record.state == MemberActive <==> e.record.declared && proven && e.record.enabled)
      && (e.record.state == MemberStale <==> e.record.declared && !proven)
      && (e.record.state == MemberIneligible <==> e.record.declared && proven && !e.record.enabled)
      && (e.record.state == MemberWithdrawn <==> !e.record.declared)
    {
      assert DeriveEntry(ms[i]) == ms[i];
    }
  }

  /** The members stand by path, those on one path by identity, and each is listed once. */
  ghost predicate Canonical(ms: seq<MemberEntry>) {
    && (forall i, j :: 0 <= i < j < |ms| ==>
          ms[i].record.path < ms[j].record.path ||
          (ms[i].record.path == ms[j].record.path && ms[i].record.member < ms[j].record.member))
    && (forall i, j :: 0 <= i < j < |ms| ==> ms[i].record.member != ms[j].record.member)
  }

  lemma EntriesCanonical(ms: seq<MemberEntry>)
    requires EntriesOk(ms)
    ensures Canonical(ms)
  {
    forall i, j | 0 <= i < j < |ms|
      ensures ms[i].record.path < ms[j].record.path ||
              (ms[i].record.path == ms[j].record.path && ms[i].record.member < ms[j].record.member)
      ensures ms[i].record.member != ms[j].record.member
    {
      assert Less(EntryKey(ms[i]), EntryKey(ms[j]));
      assert MemberIds(ms)[i] != MemberIds(ms)[j];
    }
  }

  lemma OkParts(g: Group, limits: Limits)
    requires GroupOk(g, limits)
    ensures EntriesOk(g.members) && Derived(g.members)
  {
  }

  /** In every state of every run, an open group is Rebalancing exactly when it has a plan; without one it is Declared
      exactly when nobody is declared, RevalidationRequired exactly when somebody is declared but nobody active or
      authority has lapsed, Degraded exactly when fewer members than required are active, and Active exactly when enough
      are. */
  lemma ReachableStanding(run: Run, i: nat, id: Id)
    requires IsRun(run) && i < |run.states| && id in run.states[i].groups
    requires InService(run.states[i].groups[id].lifecycle)
    ensures Stands(run.states[i].groups[id])
  {
    hide IsRun, GroupOk, Stands;
    GroupOfRun(run, i, id);
    OpenStands(run.states[i].groups[id], run.states[0].limits);
  }

  /** In every state of every run, every member is in the state its flags tell, and the members stand in canonical order. */
  lemma ReachableMembersTold(run: Run, i: nat, id: Id)
    requires IsRun(run) && i < |run.states| && id in run.states[i].groups
    ensures StatesTold(run.states[i].groups[id].members) && Canonical(run.states[i].groups[id].members)
  {
    hide IsRun, GroupOk, StatesTold, Canonical;
    GroupOfRun(run, i, id);
    OkParts(run.states[i].groups[id], run.states[0].limits);
    DerivedTold(run.states[i].groups[id].members);
    EntriesCanonical(run.states[i].groups[id].members);
  }
}

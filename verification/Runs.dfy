/** Runs of the governor: any sequence of steps and restarts from an empty governor, and what holds in every state of
    every run. */
module Runs {
  import opened Prelude
  import opened Assignment
  import opened AssignmentProofs
  import opened Lifecycle
  import opened Records
  import opened Groups
  import opened GroupProofs
  import opened Governor
  import opened Invariants

  /** What happens next: a step of the serving governor, or a restart that loads what was saved of an earlier state. */
  datatype Event = Live(step: Step) | Reload(saved: nat)

  datatype Run = Run(states: seq<State>, events: seq<Event>)

  /** A governor that was just constructed. */
  ghost predicate Blank(s: State) {
    s == State(s.limits, s.epoch, map[], map[], {}, map[], [], map[]) && s.limits.Coherent()
  }

  /** Event i leads from state i to state i + 1. */
  ghost predicate Leads(run: Run, i: nat)
    requires i < |run.events| && |run.states| == |run.events| + 1
  {
    match run.events[i]
    case Live(step) => run.states[i + 1] == Next(run.states[i], step).state
    case Reload(j) => j <= i && run.states[i + 1] == Load(run.states[0], Save(run.states[j])).state
  }

  ghost predicate IsRun(run: Run) {
    && |run.states| == |run.events| + 1
    && Blank(run.states[0])
    && forall i :: 0 <= i < |run.events| ==> Leads(run, i)
  }

  lemma BlankInv(s: State)
    requires Blank(s)
    ensures Inv(s)
  {
  }

  lemma ReloadInv(blank: State, saved: State)
    requires Blank(blank) && Inv(saved) && saved.limits == blank.limits
    ensures Inv(Load(blank, Save(saved)).state) && Load(blank, Save(saved)).state.limits == blank.limits
  {
    hide GroupOk, RecoveredGroup;
    LoadOk(blank, Save(saved));
  }

  /** Every state of every run satisfies the invariant. */
  lemma {:induction false} RunInv(run: Run, i: nat)
    requires IsRun(run) && i < |run.states|
    ensures Inv(run.states[i]) && run.states[i].limits == run.states[0].limits
    decreases i
  {
    hide Inv, Next, Load, StepOk;
    if i == 0 {
      BlankInv(run.states[0]);
    } else {
      RunInv(run, i - 1);
      assert Leads(run, i - 1);
      match run.events[i - 1]
      case Live(step) =>
        NextOk(run.states[i - 1], step);
        StepInv(run.states[i - 1], run.states[i], PlannedBy(run.states[i - 1], step));
      case Reload(j) =>
        RunInv(run, j);
        ReloadInv(run.states[0], run.states[j]);
    }
  }

  lemma StepInv(s: State, s': State, planned: Option<Id>)
    requires StepOk(s, s', planned)
    ensures Inv(s') && s'.limits == s.limits
  {
  }

  lemma GroupOfRun(run: Run, i: nat, id: Id)
    requires IsRun(run) && i < |run.states| && id in run.states[i].groups
    ensures var g, limits := run.states[i].groups[id], run.states[0].limits; g.id == id && GroupOk(g, limits)
    ensures run.states[0].limits.Coherent()
  {
    hide GroupOk;
    RunInv(run, i);
  }

  // ----- Sound assignments -----

  /** The map of a group is complete, exact and balanced for its active members and gives no one else a bucket. */
  ghost predicate SoundMap(g: Group) {
    var active := ActiveIds(g.members);
    && |g.owners| == g.bucketCount && Distinct(active)
    && OwnedBy(g.owners, active) && WithinOne(g.owners, active)
    && (forall i :: 0 <= i < |active| ==>
          CountIn(g.owners, |g.owners|, active[i]) == Share(g.bucketCount, |active|, i) >= 1)
    && (forall x :: x != NIL && x !in active ==> x !in g.owners)
  }

  lemma SettledMapIsSound(g: Group)
    requires Settled(g.owners, ActiveIds(g.members)) && EntriesOk(g.members)
    requires |g.owners| == g.bucketCount && |ActiveIds(g.members)| <= g.bucketCount
    ensures SoundMap(g)
  {
    var active := ActiveIds(g.members);
    ActiveListed(g.members);
    SettledIsSound(g.owners, active);
    if active != [] {
      forall i | 0 <= i < |active|
        ensures CountIn(g.owners, |g.owners|, active[i]) == Share(g.bucketCount, |active|, i) >= 1
      {
        EveryoneOwnsABucket(g.owners, active, i);
      }
    }
  }

  lemma ServingGroupIsSettled(g: Group, limits: Limits)
    requires GroupOk(g, limits) && (g.lifecycle.Active? || g.lifecycle.Degraded? || g.lifecycle.Rebalancing?)
    ensures Settled(g.owners, ActiveIds(g.members)) && EntriesOk(g.members)
    ensures |g.owners| == g.bucketCount && |ActiveIds(g.members)| <= g.bucketCount
  {
    hide EntriesOk, Settled, PlanOk, OwnersKnown;
    ActiveNotMoreThanDeclared(g.members);
  }

  /** In every state of every run, the map of an active, degraded or rebalancing group passes the structural check:
      every active member owns exactly its canonical share, at least one bucket, and nobody else owns any. */
  lemma ReachableMapsAreSound(run: Run, i: nat, id: Id)
    requires IsRun(run) && i < |run.states| && id in run.states[i].groups
    requires var l := run.states[i].groups[id].lifecycle; l.Active? || l.Degraded? || l.Rebalancing?
    ensures SoundMap(run.states[i].groups[id])
  {
    hide GroupOk, SoundMap;
    GroupOfRun(run, i, id);
    ServingGroupIsSettled(run.states[i].groups[id], run.states[0].limits);
    SettledMapIsSound(run.states[i].groups[id]);
  }

  /** In every state of every run, an open group is in the lifecycle derived from what it holds, and it holds a plan
      exactly while it is rebalancing; a terminal group has no active member and no owned bucket. */
  lemma ReachableLifecyclesAreDerived(run: Run, i: nat, id: Id)
    requires IsRun(run) && i < |run.states| && id in run.states[i].groups
    ensures var g := run.states[i].groups[id];
            && (!IsClosed(g.lifecycle) ==>
                  g.lifecycle == DeriveLifecycle(InputsOf(g)) && (g.plan.Some? <==> g.lifecycle.Rebalancing?))
            && (IsTerminal(g.lifecycle) ==>
                  ActiveIds(g.members) == [] && forall b :: 0 <= b < |g.owners| ==> g.owners[b] == NIL)
  {
    hide Loose, EntriesOk, OwnersKnown, Derived;
    GroupOfRun(run, i, id);
  }
}

/** Restarts, fences and epoch advances keep the map; a revalidation that brings the same members back keeps it too. */
module Recovery {
  import opened Prelude
  import opened Assignment
  import opened AssignmentProofs
  import opened Lifecycle
  import opened Records
  import opened Groups
  import opened GroupProofs
  import opened Governor
  import opened Invariants
  import opened Runs
  import opened Endings
  import Plans
  import opened PlanRuns
  import opened Attempts
  import opened Fencing

  /** The map and the places of the members are the same. */
  ghost predicate SameMap(g: Group, g': Group) {
    && g'.owners == g.owners && g'.assignmentGen == g.assignmentGen && g'.bucketCount == g.bucketCount
    && SamePlaces(g.members, g'.members)
  }

  lemma SameMapTransitive(a: Group, b: Group, c: Group)
    requires SameMap(a, b) && SameMap(b, c)
    ensures SameMap(a, c)
  {
  }

  lemma SettleKeepsMap(g: Group, c: Context)
    requires !c.recompute
    ensures var r := Settle(g, c);
            && r.owners == g.owners && r.assignmentGen == g.assignmentGen && r.bucketCount == g.bucketCount
            && r.members == MapEntries(DeriveEntry, g.members)
  {
    hide DeclaredIds;
  }

  lemma LapseKeepsMap(g: Group, c: Context, maxHistory: nat)
    requires !c.recompute
    ensures SameMap(g, Refresh(g, c, maxHistory).group)
  {
    SettleKeepsMap(g, c);
    hide Settle, ApplyGroupEvent;
  }

  lemma LapsedKeepMap(g: Group, publisher: Id, boot: Id, epoch: nat, maxHistory: nat)
    ensures SameMap(g, FencedGroup(g, publisher, boot, epoch, maxHistory))
    ensures SameMap(g, EpochGroup(g, epoch, maxHistory))
    ensures SameMap(g, RecoveredGroup(g, epoch, maxHistory))
  {
    hide Refresh;
    forall g0, c: Context | !c.recompute ensures SameMap(g0, Refresh(g0, c, maxHistory).group) {
      LapseKeepsMap(g0, c, maxHistory);
    }
  }

  /** Event j is an epoch advance, a fence, a registration, or a restart from a state no older than state i. */
  predicate Lapse(run: Run, i: nat, j: nat)
    requires j < |run.events|
  {
    match run.events[j]
    case Live(step) => step.OnEpoch? || step.OnFence? || step.OnRegister?
    case Reload(saved) => i <= saved
  }

  lemma FenceKeepsMaps(s: State, publisher: Id, boot: Id, id: Id)
    requires id in s.groups
    ensures var s' := Fence(s, publisher, boot).state; id in s'.groups && SameMap(s.groups[id], s'.groups[id])
  {
    hide FencedGroup, SameMap;
    SameMapReflexive(s.groups[id]);
    LapsedKeepMap(s.groups[id], publisher, boot, s.epoch, s.limits.maxHistory);
  }

  lemma SetEpochKeepsMaps(s: State, epoch: nat, id: Id)
    requires id in s.groups
    ensures var s' := SetEpoch(s, epoch).state; id in s'.groups && SameMap(s.groups[id], s'.groups[id])
  {
    hide EpochGroup, SameMap;
    SameMapReflexive(s.groups[id]);
    LapsedKeepMap(s.groups[id], NIL, NIL, epoch, s.limits.maxHistory);
  }

  lemma LiveLapse(s: State, step: Step, id: Id)
    requires id in s.groups && (step.OnEpoch? || step.OnFence? || step.OnRegister?)
    ensures id in Next(s, step).state.groups && SameMap(s.groups[id], Next(s, step).state.groups[id])
  {
    hide Fence, SetEpoch, SameMap;
    SameMapReflexive(s.groups[id]);
    match step
    case OnRegister(_, _) =>
    case OnFence(p, b) => FenceKeepsMaps(s, p, b, id);
    case OnEpoch(e) => SetEpochKeepsMaps(s, e, id);
  }

  lemma SameMapReflexive(g: Group)
    ensures SameMap(g, g)
  {
  }

  lemma ReloadKeepsMap(blank: State, saved: State, id: Id)
    requires Blank(blank) && blank.epoch <= saved.epoch && id in saved.groups
    ensures var s' := Load(blank, Save(saved)).state;
            id in s'.groups && SameMap(saved.groups[id], s'.groups[id]) && s'.epoch == saved.epoch
  {
    hide RecoveredGroup, SameMap;
    LapsedKeepMap(saved.groups[id], NIL, NIL, saved.epoch, blank.limits.maxHistory);
  }

  lemma {:induction false} NeverBelowFirstEpoch(run: Run, i: nat)
    requires IsRun(run) && i < |run.states|
    ensures run.states[0].epoch <= run.states[i].epoch
    decreases i
  {
    hide Next, Blank;
    if i > 0 {
      NeverBelowFirstEpoch(run, i - 1);
      assert Leads(run, i - 1);
      match run.events[i - 1]
      case Live(step) => EpochsNeverFall(run.states[i - 1], step);
      case Reload(j) => NeverBelowFirstEpoch(run, j);
    }
  }

  /** Any sequence of epoch advances, fences, registrations and restarts keeps every owner vector and its generation. */
  lemma {:induction false} LapsesKeepTheMap(run: Run, i: nat, k: nat, id: Id)
    requires IsRun(run) && i <= k < |run.states| && id in run.states[i].groups
    requires forall j :: i <= j < k ==> Lapse(run, i, j)
    ensures id in run.states[k].groups && SameMap(run.states[i].groups[id], run.states[k].groups[id])
    decreases k
  {
    hide Next, Load, Inv, SameMap;
    if i == k {
      SameMapReflexive(run.states[i].groups[id]);
    } else {
      assert Leads(run, k - 1) && Lapse(run, i, k - 1);
      match run.events[k - 1]
      case Live(step) =>
        LapsesKeepTheMap(run, i, k - 1, id);
        LiveLapse(run.states[k - 1], step, id);
        SameMapTransitive(run.states[i].groups[id], run.states[k - 1].groups[id], run.states[k].groups[id]);
      case Reload(j) =>
        LapsesKeepTheMap(run, i, j, id);
        NeverBelowFirstEpoch(run, j);
        ReloadKeepsMap(run.states[0], run.states[j], id);
        SameMapTransitive(run.states[i].groups[id], run.states[j].groups[id], run.states[k].groups[id]);
    }
  }

  // ----- Revalidation -----

  lemma NamedOnce(ids: seq<Id>, i: nat, j: nat)
    requires Listed(ids) && i < |ids| && j < |ids| && ids[i] == ids[j]
    ensures i == j
  {
  }

  lemma ActiveAt(ms: seq<MemberEntry>, i: nat)
    requires Listed(MemberIds(ms)) && i < |ms|
    ensures ms[i].record.member in ActiveIds(ms) <==> ms[i].record.IsActive()
  {
    hide Listed, ActiveIds;
    ActiveMembers(ms, ms[i].record.member);
    if ms[i].record.member in ActiveIds(ms) {
      var j :| 0 <= j < |ms| && ms[j].record.IsActive() && ms[j].record.member == ms[i].record.member;
      NamedOnce(MemberIds(ms), i, j);
    }
  }

  /** In the same places, the same active members come in the same order. */
  lemma SamePlacesSameOrder(ms: seq<MemberEntry>, ms': seq<MemberEntry>)
    requires EntriesOk(ms) && SamePlaces(ms, ms') && SameMembers(ActiveIds(ms'), ActiveIds(ms))
    ensures ActiveIds(ms') == ActiveIds(ms)
  {
    SamePlacesKeepsEntries(ms, ms');
    forall i | 0 <= i < |ms| ensures ms[i].record.IsActive() == ms'[i].record.IsActive() {
      ActiveAt(ms, i);
      ActiveAt(ms', i);
    }
    SameActive(ms, ms');
  }

  /** What a revalidation that is carried out leaves of its group. */
  ghost predicate RevalidatedFrom(g: Group, g': Group) {
    exists ms ::
      && SamePlaces(g.members, ms) && ActiveIds(g'.members) == ActiveIds(ms)
      && g'.owners == Rebalanced(g.owners, ActiveIds(ms))
      && g'.assignmentGen == g.assignmentGen + (if g'.owners == g.owners then 0 else 1)
  }

  lemma RevalidatedWitness(g: Group, t: Group, c: Context, limits: Limits, f: Group)
    requires RefreshedFrom(t, c, limits, f) && c.recompute && |DeclaredIds(f.members)| <= limits.maxMembersPerGroup
    requires t.owners == g.owners && t.assignmentGen == g.assignmentGen && SamePlaces(g.members, t.members)
    ensures RevalidatedFrom(g, Evicted(f, limits))
  {
    EvictFacts(f.members, limits.maxMembersPerGroup);
    hide Loose, Advances, Derived, Rebalanced, Evict, Settled, EntriesOk;
    assert SamePlaces(g.members, f.members);
  }

  lemma PlacesTransitive(a: seq<MemberEntry>, b: seq<MemberEntry>, c: seq<MemberEntry>)
    requires SamePlaces(a, b) && SamePlaces(b, c)
    ensures SamePlaces(a, c)
  {
  }

  lemma TweakedPlaces(g: Group, g': Group)
    requires Tweaked(g, g')
    ensures SamePlaces(g.members, g'.members) && g'.owners == g.owners && g'.assignmentGen == g.assignmentGen
    ensures g'.id == g.id && g'.plan == g.plan && g'.lifecycle == g.lifecycle && g'.successor == g.successor
  {
  }

  lemma RevalidationEffect(s: State, r: Request, up: Upstream)
    requires Inv(s) && r.Revalidate? && Revalidation(s, r, up).outcome == REVALIDATED
    ensures r.group in s.groups && r.group in Revalidation(s, r, up).state.groups
    ensures RevalidatedFrom(s.groups[r.group], Revalidation(s, r, up).state.groups[r.group])
  {
    hide Preamble, Finish, GroupOk, Loose, Inv, ApplyUpdates, Tweaked, Restored, WithMultipath, Adopt, Claims, StepOk,
         CheckAdoption, CheckMultipathUpdate, Advances, AdoptionNeeded, RevalidatedFrom, RefreshedFrom, EntriesOk, Refresh;
    var event := GroupEvent.REVALIDATE;
    if Preamble(s, r, event).Some? {
      RefusalIsNotAccepted(s, r, event);
    } else {
      Ready(s, r, event);
      RevalidationRefuses(s, r, up);
      UpdatedTweaks(s, r, up);
      var g, updated := s.groups[r.group], Updated(s, r, up);
      TweakedOk(g, updated, s.limits);
      TweakedPlaces(g, updated);
      RevalidationFinished(s, r, up, g, updated);
    }
  }

  lemma RevalidationFinished(s: State, r: Request, up: Upstream, g: Group, updated: Group)
    requires Inv(s) && r.Revalidate? && g.id in s.groups && s.groups[g.id] == g && g.successor == NIL && g.id == r.group
    requires GroupOk(updated, s.limits) && Advances(g, updated) && updated.id == g.id && updated.plan == g.plan
    requires updated.lifecycle == g.lifecycle && updated.successor == g.successor
    requires SamePlaces(g.members, updated.members) && updated.owners == g.owners
    requires updated.assignmentGen == g.assignmentGen && LifecycleAllows(g.lifecycle, GroupEvent.REVALIDATE)
    ensures var c := ContextFor(s, r.authority, ChangeReason.REVALIDATION, GroupEvent.REVALIDATE);
            var s' := Finish(s, Restored(up, WithMultipath(updated, r.newMultipathGen)), c, r, REVALIDATED).state;
            g.id in s'.groups && RevalidatedFrom(g, s'.groups[g.id])
  {
    hide Finish, LifecycleAllows, Inv, StepOk, Restored, WithMultipath, GroupOk, Loose, Refresh, RefreshedFrom, Advances,
         RevalidatedFrom, EntriesOk, Derived;
    var c := ContextFor(s, r.authority, ChangeReason.REVALIDATION, GroupEvent.REVALIDATE);
    var g' := Restored(up, WithMultipath(updated, r.newMultipathGen));
    DeclaredBound(updated, s.limits);
    OkIsLoose(updated, s.limits);
    RestoredLedger(up, updated, r.newMultipathGen);
    LedgerKeepsLoose(updated, g', s.limits);
    AdvancesTransitive(g, updated, g');
    FinishOk(s, g, g', c, r, REVALIDATED);
    RefreshFacts(g', c, s.limits);
    var f := Refresh(g', c, s.limits.maxHistory).group;
    PlacesTransitive(g.members, updated.members, g'.members);
    Plans.RefreshedIsDerived(g', c, s.limits, f);
    RevalidatedWitness(g, g', c, s.limits, f);
  }

  /** A serving group whose proofs lapse in any way, and that is then revalidated with the same members active again,
      keeps its map and its assignment generation. */
  lemma RevalidationRestoresTheMap(run: Run, i: nat, k: nat, id: Id, r: Request, up: Upstream)
    requires IsRun(run) && i <= k < |run.events| && id in run.states[i].groups
    requires run.states[i].groups[id].lifecycle.Active? || run.states[i].groups[id].lifecycle.Degraded?
    requires forall j :: i <= j < k ==> Lapse(run, i, j)
    requires run.events[k] == Live(OnRequest(r, up)) && r.Revalidate? && r.group == id
    requires Next(run.states[k], OnRequest(r, up)).outcome == REVALIDATED
    requires id in run.states[k + 1].groups
    requires SameMembers(ActiveIds(run.states[k + 1].groups[id].members), ActiveIds(run.states[i].groups[id].members))
    ensures var g, g' := run.states[i].groups[id], run.states[k + 1].groups[id];
            g'.owners == g.owners && g'.assignmentGen == g.assignmentGen
  {
    hide Serve, Load, Inv, SameMap, GroupOk, Settled, Rebalanced, SameMembers;
    LapsesKeepTheMap(run, i, k, id);
    RunInv(run, k);
    assert Leads(run, k);
    ServeIsRevalidation(run.states[k], r, up);
    RevalidationEffect(run.states[k], r, up);
    GroupOfRun(run, i, id);
    ServingGroupIsSettled(run.states[i].groups[id], run.states[0].limits);
    RevalidatedSame(run.states[i].groups[id], run.states[k].groups[id], run.states[k + 1].groups[id]);
  }

  lemma ServeIsRevalidation(s: State, r: Request, up: Upstream)
    requires r.Revalidate?
    ensures Serve(s, r, up) == Revalidation(s, r, up)
  {
    hide Revalidation;
  }

  lemma RevalidatedSame(g: Group, lapsed: Group, g': Group)
    requires EntriesOk(g.members) && Settled(g.owners, ActiveIds(g.members))
    requires SameMap(g, lapsed) && RevalidatedFrom(lapsed, g')
    requires SameMembers(ActiveIds(g'.members), ActiveIds(g.members))
    ensures g'.owners == g.owners && g'.assignmentGen == g.assignmentGen
  {
    hide EntriesOk, Settled, Rebalanced;
    var ms :| && SamePlaces(lapsed.members, ms) && ActiveIds(g'.members) == ActiveIds(ms)
              && g'.owners == Rebalanced(lapsed.owners, ActiveIds(ms))
              && g'.assignmentGen == lapsed.assignmentGen + (if g'.owners == lapsed.owners then 0 else 1);
    PlacesTransitive(g.members, lapsed.members, ms);
    SamePlacesSameOrder(g.members, ms);
    ActiveListed(g.members);
    SettledIsFixed(g.owners, ActiveIds(g.members));
  }

  // ----- What lapses leave unproven -----

  /** Nothing about any member is proven, as after every lapse. */
  ghost predicate AllUnproven(ms: seq<MemberEntry>) {
    forall i :: 0 <= i < |ms| ==> !ms[i].pathCurrent && !ms[i].multipathCurrent && !ms[i].costCurrent
  }

  lemma LapsedRefreshUnproven(g: Group, c: Context, maxHistory: nat)
    requires !c.recompute && AllUnproven(g.members)
    ensures AllUnproven(Refresh(g, c, maxHistory).group.members)
  {
    SettleKeepsMap(g, c);
    hide Settle, ApplyGroupEvent;
  }

  /** After a fence, an epoch advance or a restart nothing about the members of a group is proven any more. */
  lemma LapsesProveNothing(g: Group, publisher: Id, boot: Id, epoch: nat, maxHistory: nat)
    ensures AllUnproven(FencedGroup(g, publisher, boot, epoch, maxHistory).members)
    ensures AllUnproven(RecoveredGroup(g, epoch, maxHistory).members)
    ensures EpochGroup(g, epoch, maxHistory) == g || AllUnproven(EpochGroup(g, epoch, maxHistory).members)
  {
    hide Refresh, AllUnproven;
    UnprovenAll(g.members);
    forall g0: Group, c: Context | !c.recompute && AllUnproven(g0.members)
      ensures AllUnproven(Refresh(g0, c, maxHistory).group.members)
    {
      LapsedRefreshUnproven(g0, c, maxHistory);
    }
  }

  lemma UnprovenAll(ms: seq<MemberEntry>)
    ensures AllUnproven(MapEntries(Unproven, ms))
  {
  }
}

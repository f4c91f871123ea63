/** Which groups a fence, an epoch advance and a restart invalidate, and what they leave of them. */
module Lapses {
  import opened Prelude
  import opened Assignment
  import opened Lifecycle
  import opened Records
  import opened Groups
  import opened GroupProofs
  import opened Governor
  import opened Invariants
  import opened Runs
  import opened Standing

  /** No proof of any kind is left. */
  ghost predicate Cleared(ms: seq<MemberEntry>) {
    forall i :: 0 <= i < |ms| ==>
      !ms[i].pathCurrent && !ms[i].pathAuthorized && !ms[i].multipathCurrent && !ms[i].costCurrent
  }

  /** The same members on the same paths, declared, enabled and recorded alike but for their states. */
  ghost predicate SameRecords(ms: seq<MemberEntry>, ms': seq<MemberEntry>) {
    && |ms'| == |ms|
    && forall i :: 0 <= i < |ms| ==> ms'[i].record == ms[i].record.(state := ms'[i].record.state)
  }

  /** An open group after its authority lapsed: nothing proven, no plan, the causes noted, waiting for a revalidation unless
      nobody is declared; its members, its map, its publisher and the generations of both stay. */
  ghost predicate Invalidated(g: Group, g': Group, causes: Currentness) {
    && Cleared(g'.members) && SameRecords(g.members, g'.members) && g'.plan.None? && g'.currentness == causes
    && g'.lifecycle == (if DeclaredIds(g.members) == [] then Declared else RevalidationRequired)
    && g'.owners == g.owners && g'.assignmentGen == g.assignmentGen && g'.membershipGen == g.membershipGen
    && g'.publisher == g.publisher && g'.boot == g.boot && g'.boundEpoch == g.boundEpoch
  }

  lemma OpenIsInService(l: GroupLifecycle)
    ensures !IsClosed(l) <==> InService(l)
  {
  }

  lemma ClearedMembers(g: Group, limits: Limits)
    requires GroupOk(g, limits)
    ensures var ms := MapEntries(DeriveEntry, MapEntries(Unproven, g.members));
            Cleared(ms) && SameRecords(g.members, ms) && DeclaredIds(ms) == g.declaredDigest == DeclaredIds(g.members)
  {
    SameDeclared(g.members, MapEntries(DeriveEntry, MapEntries(Unproven, g.members)));
  }

  /** The refresh of an open group whose proofs were cleared. */
  lemma LapseInvalidates(g: Group, lapsed: Group, c: Context, limits: Limits)
    requires GroupOk(g, limits) && InService(g.lifecycle) && SameLedger(g, lapsed) && lapsed.plan.None?
    requires lapsed.members == MapEntries(Unproven, g.members) && lapsed.lifecycle == g.lifecycle
    requires lapsed.successor == g.successor && lapsed.publisher == g.publisher && lapsed.boot == g.boot
    requires lapsed.boundEpoch == g.boundEpoch
    requires c.event.INVALIDATE_EPOCH? && !c.recompute && !c.bind
    ensures Invalidated(g, Refresh(lapsed, c, limits.maxHistory).group, lapsed.currentness)
  {
    OpenIsInService(g.lifecycle);
    OkIsLoose(g, limits);
    ClearedMembers(g, limits);
    LapsedOk(g, lapsed, c, limits);
    hide GroupOk, Refresh, ApplyGroupEvent, LifecycleAllows, DeriveLifecycle, Loose, Derived, Advances, IsClosed, Cleared,
         SameRecords, InService, Stands, EntriesOk;
    LedgerKeepsLoose(g, lapsed, limits);
    var f := Refresh(lapsed, c, limits.maxHistory).group;
    InvalidationDerives(g.lifecycle, c.event, InputsOf(f));
    DeriveStaysOpen(InputsOf(f));
    RefreshFacts(lapsed, c, limits);
    RefreshBinding(lapsed, c, limits.maxHistory);
    OpenIsInService(f.lifecycle);
    OpenStands(f, limits);
    WaitsOrDeclared(f);
  }

  lemma WaitsOrDeclared(f: Group)
    requires Stands(f) && f.plan.None? && ActiveIds(f.members) == [] && InService(f.lifecycle) && 0 < f.minActive
    ensures f.lifecycle == (if DeclaredIds(f.members) == [] then Declared else RevalidationRequired)
  {
  }

  // ----- Fence -----

  /** The causes after a fence. */
  function FencedCauses(c: Currentness): Currentness {
    Currentness(c.stalePath, c.staleMultipath, c.staleCost, c.staleEpoch, true, true, c.retired)
  }

  lemma FencedInvalidated(g: Group, publisher: Id, boot: Id, epoch: nat, limits: Limits)
    requires GroupOk(g, limits) && InService(g.lifecycle)
    ensures Invalidated(g, FencedGroup(g, publisher, boot, epoch, limits.maxHistory), FencedCauses(g.currentness))
  {
    hide GroupOk, Refresh, Invalidated, InService;
    var lapsed := g.(currentness := g.currentness.(fenced := true, revalidation := true), plan := None,
                     members := MapEntries(Unproven, g.members));
    LapseInvalidates(g, lapsed, LapseContext(g, EPOCH_INVALIDATION, publisher, boot, epoch), limits);
  }

  /** Fencing the live boot of a publisher invalidates every open group bound to both, in whatever open lifecycle it is,
      and leaves every other group exactly as it was. */
  lemma FenceInvalidates(s: State, publisher: Id, boot: Id, id: Id)
    requires Inv(s) && publisher != NIL && boot != NIL && id in s.groups
    requires publisher in s.publishers && s.publishers[publisher].boot == boot
    ensures var s' := Fence(s, publisher, boot).state;
            var g := s.groups[id];
            && s'.groups.Keys == s.groups.Keys
            && (if InService(g.lifecycle) && g.publisher == publisher && g.boot == boot
                then Invalidated(g, s'.groups[id], FencedCauses(g.currentness)) && s'.groups[id].authorityGen == g.authorityGen
                else s'.groups[id] == g)
  {
    hide FencedGroup, GroupOk, IsClosed, InService, Invalidated;
    var g := s.groups[id];
    OpenIsInService(g.lifecycle);
    if InService(g.lifecycle) {
      FencedInvalidated(g, publisher, boot, s.epoch, s.limits);
      FencedAuthority(g, publisher, boot, s.epoch, s.limits.maxHistory);
    }
  }

  lemma UnboundRefreshAuthority(g: Group, c: Context, maxHistory: nat)
    requires !c.bind
    ensures Refresh(g, c, maxHistory).group.authorityGen == g.authorityGen
  {
    hide ApplyGroupEvent, InputsOf, Moves, Rebalanced, DeclaredIds, ActiveIds;
  }

  lemma FencedAuthority(g: Group, publisher: Id, boot: Id, epoch: nat, maxHistory: nat)
    ensures FencedGroup(g, publisher, boot, epoch, maxHistory).authorityGen == g.authorityGen
    ensures RecoveredGroup(g, epoch, maxHistory).authorityGen == g.authorityGen + 1
    ensures EpochGroup(g, epoch, maxHistory) == g || EpochGroup(g, epoch, maxHistory).authorityGen == g.authorityGen + 1
  {
    hide Refresh, IsClosed;
    forall g0, c: Context | !c.bind ensures Refresh(g0, c, maxHistory).group.authorityGen == g0.authorityGen {
      UnboundRefreshAuthority(g0, c, maxHistory);
    }
  }

  /** A fence without a publisher or a boot is malformed; one of a boot that is not live is accepted and changes nothing;
      any other is accepted. */
  lemma FenceAnswer(s: State, publisher: Id, boot: Id)
    ensures Fence(s, publisher, boot).outcome == if publisher == NIL || boot == NIL then MALFORMED_REQUEST else FENCED
    ensures publisher !in s.publishers || s.publishers[publisher].boot != boot ==> Fence(s, publisher, boot).state == s
  {
    hide FencedGroup, IsClosed;
  }

  // ----- Epoch advance and restart -----

  /** The causes after the epoch under which authority was granted has passed. */
  function PassedCauses(c: Currentness): Currentness {
    Currentness(c.stalePath, c.staleMultipath, c.staleCost, true, c.fenced, true, c.retired)
  }

  lemma EpochInvalidated(g: Group, epoch: nat, limits: Limits)
    requires GroupOk(g, limits) && InService(g.lifecycle) && g.boundEpoch != epoch
    ensures Invalidated(g, EpochGroup(g, epoch, limits.maxHistory), PassedCauses(g.currentness))
  {
    hide GroupOk, Refresh, Invalidated, InService, IsClosed;
    OpenIsInService(g.lifecycle);
    var lapsed := g.(authorityGen := g.authorityGen + 1, plan := None, members := MapEntries(Unproven, g.members),
                     currentness := g.currentness.(staleEpoch := true, revalidation := true));
    LapseInvalidates(g, lapsed, LapseContext(g, EPOCH_INVALIDATION, g.publisher, g.boot, epoch), limits);
  }

  /** No group is bound to an epoch that has not come yet. */
  ghost predicate BoundInThePast(s: State) {
    forall id :: id in s.groups ==> s.groups[id].boundEpoch <= s.epoch
  }

  /** A later epoch unregisters every publisher, empties the fence, and invalidates every open group; its authority
      generation moves by one, the closed groups stay exactly as they were. An epoch that is not later changes nothing. */
  lemma EpochInvalidates(s: State, epoch: nat, id: Id)
    requires Inv(s) && BoundInThePast(s) && id in s.groups
    ensures epoch <= s.epoch ==> SetEpoch(s, epoch) == Answer(s, STALE_EPOCH)
    ensures epoch > s.epoch ==>
              var s' := SetEpoch(s, epoch).state;
              var g := s.groups[id];
              && s'.epoch == epoch && s'.publishers == map[] && s'.fenced == {} && s'.groups.Keys == s.groups.Keys
              && (if InService(g.lifecycle)
                  then Invalidated(g, s'.groups[id], PassedCauses(g.currentness)) &&
                       s'.groups[id].authorityGen == g.authorityGen + 1
                  else s'.groups[id] == g)
  {
    hide EpochGroup, GroupOk, IsClosed, InService, Invalidated;
    var g := s.groups[id];
    OpenIsInService(g.lifecycle);
    FencedAuthority(g, NIL, NIL, epoch, s.limits.maxHistory);
    if epoch > s.epoch {
      if InService(g.lifecycle) {
        EpochInvalidated(g, epoch, s.limits);
        EpochChanges(g, epoch, s.limits.maxHistory);
      } else {
        ClosedKeepsEpoch(g, epoch, s.limits.maxHistory);
      }
    }
  }

  lemma ClosedKeepsEpoch(g: Group, epoch: nat, maxHistory: nat)
    requires IsClosed(g.lifecycle)
    ensures EpochGroup(g, epoch, maxHistory) == g
  {
  }

  lemma EpochChanges(g: Group, epoch: nat, maxHistory: nat)
    requires InService(g.lifecycle) && g.boundEpoch != epoch
    ensures EpochGroup(g, epoch, maxHistory).authorityGen == g.authorityGen + 1
  {
    hide Refresh;
    forall g0, c: Context | !c.bind ensures Refresh(g0, c, maxHistory).group.authorityGen == g0.authorityGen {
      UnboundRefreshAuthority(g0, c, maxHistory);
    }
  }

  lemma RecoveredInvalidated(g: Group, epoch: nat, limits: Limits)
    requires GroupOk(g, limits) && InService(g.lifecycle)
    ensures Invalidated(g, RecoveredGroup(g, epoch, limits.maxHistory), PassedCauses(g.currentness))
  {
    hide GroupOk, Refresh, Invalidated, InService;
    UnprovenDeclared(g, limits);
    var members := MapEntries(Unproven, g.members);
    var lapsed := g.(members := members, currentness := g.currentness.(staleEpoch := true, revalidation := true),
                     plan := None, authorityGen := g.authorityGen + 1, declaredDigest := DeclaredIds(members));
    LapseInvalidates(g, lapsed, LapseContext(g, RECOVERY, g.publisher, g.boot, epoch), limits);
  }

  /** Loading into a governor without groups, whatever else it knew, invalidates every open group, moves its authority
      generation by one, and forgets publishers, fence and attempts. */
  lemma RestartInvalidates(blank: State, saved: State, id: Id)
    requires blank.groups == map[] && Inv(saved) && saved.limits == blank.limits && blank.epoch <= saved.epoch
    requires id in saved.groups
    ensures var s := Load(blank, Save(saved)).state;
            && s.epoch == saved.epoch && s.publishers == map[] && s.fenced == {} && s.attempts == map[] && s.order == []
            && s.groups.Keys == saved.groups.Keys && s.groups[id].authorityGen == saved.groups[id].authorityGen + 1
            && (InService(saved.groups[id].lifecycle) ==>
                  Invalidated(saved.groups[id], s.groups[id], PassedCauses(saved.groups[id].currentness)))
            && (!InService(saved.groups[id].lifecycle) ==>
                  s.groups[id].lifecycle == saved.groups[id].lifecycle && s.groups[id].owners == saved.groups[id].owners)
  {
    hide RecoveredGroup, GroupOk, InService, Invalidated;
    var g := saved.groups[id];
    FencedAuthority(g, NIL, NIL, saved.epoch, saved.limits.maxHistory);
    if InService(g.lifecycle) {
      RecoveredInvalidated(g, saved.epoch, saved.limits);
    } else {
      OpenIsInService(g.lifecycle);
      RecoveredClosed(g, saved.epoch, saved.limits);
    }
  }

  lemma RecoveredClosed(g: Group, epoch: nat, limits: Limits)
    requires GroupOk(g, limits) && IsClosed(g.lifecycle)
    ensures var f := RecoveredGroup(g, epoch, limits.maxHistory); f.lifecycle == g.lifecycle && f.owners == g.owners
  {
    hide GroupOk, Refresh, LifecycleAllows, Loose, IsClosed;
    RecoveredGroupOk(g, epoch, limits);
    OkIsLoose(g, limits);
    var members := MapEntries(Unproven, g.members);
    var lapsed := g.(members := members, currentness := g.currentness.(staleEpoch := true, revalidation := true),
                     plan := None, authorityGen := g.authorityGen + 1, declaredDigest := DeclaredIds(members));
    UnprovenDeclared(g, limits);
    LedgerKeepsLoose(g, lapsed, limits);
    ClosedRefusesInvalidation(g.lifecycle, INVALIDATE_EPOCH);
    RefusedRefreshFacts(lapsed, LapseContext(g, RECOVERY, g.publisher, g.boot, epoch), limits);
  }
}

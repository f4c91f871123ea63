/** Fenced boots: within one epoch the fence only grows, and a fenced boot gets nothing through. */
module Fencing {
  import opened Prelude
  import opened Lifecycle
  import opened Records
  import opened Groups
  import opened Governor
  import opened Runs
  import opened Links

  /** The boot that signs a step, if the step carries one. */
  function Signer(step: Step): Option<Id> {
    match step
    case OnRequest(r, _) => Some(r.authority.boot)
    case OnNotice(n, _) => Some(n.boot)
    case OnRegister(_, reg) => Some(reg.boot)
    case OnFence(_, _) => None
    case OnEpoch(_) => None
  }

  lemma FencedMayNotMutate(s: State, a: Authority, requested: Id)
    requires a.boot in s.fenced
    ensures Authorize(s, a, MUTATE_GROUP, requested).Some?
    ensures !Authorize(s, a, MUTATE_GROUP, requested).value.Accepted()
  {
  }

  /** No request, notice or registration signed by a fenced boot is accepted, and none changes anything. */
  lemma FencedIsPowerless(s: State, step: Step)
    requires Signer(step).Some? && Signer(step).value in s.fenced
    ensures Next(s, step).state == s && !Next(s, step).outcome.Accepted()
  {
    hide Finish, Refresh, NoticeGroup, CheckExpected, HandleAttempt, CheckCreation, PayloadOf;
    match step
    case OnRequest(r, up) =>
      FencedMayNotMutate(s, r.authority, r.group);
      hide Authorize;
    case OnNotice(n, up) =>
    case OnRegister(e, reg) =>
  }

  /** Within one epoch the fence only grows. */
  lemma FenceGrows(s: State, step: Step)
    requires Next(s, step).state.epoch == s.epoch
    ensures s.fenced <= Next(s, step).state.fenced
  {
    hide Serve, NoticeGroup, FencedGroup, EpochGroup, AuthorizeUpstream;
  }

  lemma EpochsNeverFall(s: State, step: Step)
    ensures s.epoch <= Next(s, step).state.epoch
  {
    hide Serve, NoticeGroup, FencedGroup, EpochGroup, AuthorizeUpstream;
  }

  lemma {:induction false} EpochBetween(run: Run, i: nat, k: nat)
    requires IsRun(run) && i <= k < |run.states| && NoReload(run, i, k)
    ensures run.states[i].epoch <= run.states[k].epoch
    decreases k
  {
    hide Next, Load, Blank;
    if i < k {
      EpochBetween(run, i, k - 1);
      assert Leads(run, k - 1) && run.events[k - 1].Live?;
      EpochsNeverFall(run.states[k - 1], run.events[k - 1].step);
    }
  }

  /** A boot fenced in some state of a run stays fenced as long as the epoch stays and the governor is not restarted. */
  lemma {:induction false} FencedForTheEpoch(run: Run, i: nat, k: nat, boot: Id)
    requires IsRun(run) && i <= k < |run.states| && NoReload(run, i, k)
    requires run.states[k].epoch == run.states[i].epoch && boot in run.states[i].fenced
    ensures boot in run.states[k].fenced
    decreases k
  {
    hide Next, Load, Blank;
    if i < k {
      assert Leads(run, k - 1) && run.events[k - 1].Live?;
      EpochBetween(run, i, k - 1);
      EpochsNeverFall(run.states[k - 1], run.events[k - 1].step);
      FencedForTheEpoch(run, i, k - 1, boot);
      FenceGrows(run.states[k - 1], run.events[k - 1].step);
    }
  }

  /** Nothing a fenced boot signs is accepted or has any effect for the rest of the epoch. */
  lemma FencedStaysPowerless(run: Run, i: nat, k: nat, boot: Id)
    requires IsRun(run) && i <= k < |run.events| && NoReload(run, i, k) && run.events[k].Live?
    requires run.states[k].epoch == run.states[i].epoch && boot in run.states[i].fenced
    requires Signer(run.events[k].step) == Some(boot)
    ensures run.states[k + 1] == run.states[k] && !Next(run.states[k], run.events[k].step).outcome.Accepted()
  {
    hide Next, Load, Blank;
    FencedForTheEpoch(run, i, k, boot);
    assert Leads(run, k);
    FencedIsPowerless(run.states[k], run.events[k].step);
  }

  /** Fencing a boot that a fresh registration has superseded touches nothing: the registration stays, and so does every
      group. */
  lemma LateFenceChangesNothing(s: State, publisher: Id, boot: Id)
    requires publisher in s.publishers && s.publishers[publisher].boot != boot
    ensures Fence(s, publisher, boot).state == s
  {
  }

  /** An accepted registration with a new boot fences the old one for good and leaves the groups alone. */
  lemma FreshBootFencesTheOld(s: State, epoch: nat, reg: Registration)
    requires Register(s, epoch, reg).outcome == REGISTERED
    requires reg.publisher in s.publishers && s.publishers[reg.publisher].boot != reg.boot
    ensures var s' := Register(s, epoch, reg).state;
            && s'.fenced == s.fenced + {s.publishers[reg.publisher].boot} && s'.publishers[reg.publisher] == reg
            && s'.groups == s.groups && Fence(s', reg.publisher, s.publishers[reg.publisher].boot).state == s'
  {
  }

  // ----- The bound of the fence -----

  /** A fence always removes the registration; it records the boot exactly as long as there is room for it. */
  lemma FenceTakesHold(s: State, publisher: Id, boot: Id)
    requires publisher != NIL && boot != NIL && publisher in s.publishers && s.publishers[publisher].boot == boot
    ensures var s' := Fence(s, publisher, boot).state;
            && publisher !in s'.publishers && s'.publishers == s.publishers - {publisher}
            && (boot in s'.fenced <==> boot in s.fenced || |s.fenced| < s.limits.maxPublishers)
  {
    hide FencedGroup;
  }

  /** The publisher a request or a notice claims to be. */
  function Claimed(step: Step): Option<Id> {
    match step
    case OnRequest(r, _) => Some(r.authority.publisher)
    case OnNotice(n, _) => Some(n.publisher)
    case _ => None
  }

  lemma UnknownMayNotMutate(s: State, a: Authority, requested: Id)
    requires a.publisher !in s.publishers
    ensures Authorize(s, a, MUTATE_GROUP, requested).Some?
    ensures !Authorize(s, a, MUTATE_GROUP, requested).value.Accepted()
  {
  }

  /** So even with a full fence nothing of a fenced publisher is accepted until it registers again. */
  lemma UnregisteredIsPowerless(s: State, step: Step)
    requires Claimed(step).Some? && Claimed(step).value !in s.publishers
    ensures Next(s, step).state == s && !Next(s, step).outcome.Accepted()
  {
    hide Finish, Refresh, NoticeGroup, CheckExpected, HandleAttempt, CheckCreation, PayloadOf;
    match step
    case OnRequest(r, up) =>
      UnknownMayNotMutate(s, r.authority, r.group);
      hide Authorize;
    case OnNotice(n, up) =>
  }

  /** And a boot comes back exactly when the fence did not record it: an otherwise valid registration of an unregistered
      publisher is refused if and only if the boot is fenced or the table of publishers is full. */
  lemma ComesBackUnlessFenced(s: State, reg: Registration)
    requires reg.publisher != NIL && reg.boot != NIL && !reg.scope.DENY_ALL? && reg.capabilities != 0
    requires reg.publisher !in s.publishers
    ensures Register(s, s.epoch, reg).outcome == REGISTERED <==>
            reg.boot !in s.fenced && |s.publishers| < s.limits.maxPublishers
  {
  }
}

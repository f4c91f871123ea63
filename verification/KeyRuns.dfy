/** Keys over whole runs: no two groups of a reachable state share one. */
module KeyRuns {
  import opened Prelude
  import opened Assignment
  import opened Lifecycle
  import opened Records
  import opened Groups
  import opened GroupProofs
  import opened Governor
  import opened Invariants
  import opened Runs
  import opened Endings
  import opened Links
  import opened PlanRuns
  import opened Indexes

  /** The groups that were there keep their keys, and at most one group is new, under a key nobody had. */
  ghost predicate KeysKept(groups: map<Id, Group>, groups': map<Id, Group>) {
    && (forall id :: id in groups ==> id in groups' && groups'[id].key == groups[id].key)
    && (forall id :: id in groups' && id !in groups ==> !KeyTaken(groups, groups'[id].key))
    && (forall a, b :: a in groups' && a !in groups && b in groups' && b !in groups ==> a == b)
  }

  lemma KeptUnique(groups: map<Id, Group>, groups': map<Id, Group>)
    requires KeysKept(groups, groups') && KeysUnique(groups)
    ensures KeysUnique(groups')
  {
    forall a, b | a in groups' && b in groups' && groups'[a].key == groups'[b].key ensures a == b {
      if a in groups && b !in groups { assert KeyTaken(groups, groups'[b].key); }
      if b in groups && a !in groups { assert KeyTaken(groups, groups'[a].key); }
    }
  }

  /** A creation is refused when its key is taken. */
  lemma CreatedKeyIsNew(s: State, r: Request, up: Upstream)
    requires r.CreateGroup? && r.group in Create(s, r, up).state.groups && r.group !in s.groups
    ensures !KeyTaken(s.groups, Create(s, r, up).state.groups[r.group].key)
  {
    hide Refresh, RememberAttempt, CheckNewMembers, KeyTaken, Total, Authorize, HandleAttempt, PayloadOf, EnabledCount;
    if CheckCreation(s, r).None? && |r.members| > 0 {
      var c := ContextFor(s, r.authority, ChangeReason.CREATE, GroupEvent.ADD_MEMBER);
      var f := Refresh(NewGroup(s, r), c, s.limits.maxHistory);
      RefreshKeepsKey(NewGroup(s, r), c, s.limits.maxHistory);
      AttemptsOnly(Stored(s, f.group), r.authority.attempt, AttemptEntry(PayloadOf(r), CREATED, r.group));
    }
  }

  lemma RefreshKeepsKey(g: Group, c: Context, maxHistory: nat)
    ensures Refresh(g, c, maxHistory).group.key == g.key && Refresh(g, c, maxHistory).group.id == g.id
  {
    hide DeclaredIds, ActiveIds, Moves, ApplyGroupEvent, InputsOf;
  }

  lemma AdvancesKey(g: Group, g': Group)
    requires Advances(g, g')
    ensures g'.key == g.key
  {
  }

  lemma StepKeys(s: State, s': State, planned: Option<Id>)
    requires StepOk(s, s', planned)
    ensures forall id :: id in s.groups ==> id in s'.groups && s'.groups[id].key == s.groups[id].key
  {
    hide Inv, Follows, Advances;
    forall id | id in s.groups ensures id in s'.groups && s'.groups[id].key == s.groups[id].key {
      AdvancesKey(s.groups[id], s'.groups[id]);
    }
  }

  lemma RequestKeys(s: State, r: Request, up: Upstream)
    requires Inv(s)
    ensures var s' := Serve(s, r, up).state;
            && (forall id :: id in s'.groups && id !in s.groups ==> !KeyTaken(s.groups, s'.groups[id].key))
            && (forall a, b :: a in s'.groups && a !in s.groups && b in s'.groups && b !in s.groups ==> a == b)
  {
    hide Inv, Serve, EndEffect, KeyTaken;
    if IsEndRequest(r) {
      EndRequestEffect(s, r, up);
      EndEffectKeys(s, r, Serve(s, r, up));
    } else {
      NothingFromNothing(s, r, up);
      if r.CreateGroup? && r.group in Serve(s, r, up).state.groups && r.group !in s.groups {
        ServeIsCreate(s, r, up);
        CreatedKeyIsNew(s, r, up);
      }
    }
  }

  lemma ServeIsCreate(s: State, r: Request, up: Upstream)
    requires r.CreateGroup?
    ensures Serve(s, r, up) == Create(s, r, up)
  {
    hide Create;
  }

  lemma StepKeepsKeys(s: State, step: Step)
    requires Inv(s)
    ensures KeysKept(s.groups, Next(s, step).state.groups)
  {
    hide Inv, Serve, Notify, Register, Fence, SetEpoch, StepOk, KeyTaken;
    NextOk(s, step);
    StepKeys(s, Next(s, step).state, PlannedBy(s, step));
    if step.OnRequest? { RequestKeys(s, step.request, step.up); } else { EmptyStaysEmpty(s, step); }
  }

  lemma ReloadKeepsKeys(blank: State, saved: State)
    requires Blank(blank) && Inv(saved) && saved.limits == blank.limits
    ensures Load(blank, Save(saved)).state.groups == map[] || KeysKept(saved.groups, Load(blank, Save(saved)).state.groups)
  {
    hide RecoveredGroup, GroupOk, Advances;
    forall id | id in saved.groups
      ensures RecoveredGroup(saved.groups[id], saved.epoch, blank.limits.maxHistory).key == saved.groups[id].key
    {
      RecoveredGroupOk(saved.groups[id], saved.epoch, blank.limits);
      AdvancesKey(saved.groups[id], RecoveredGroup(saved.groups[id], saved.epoch, blank.limits.maxHistory));
    }
  }

  lemma NoGroupsUnique()
    ensures KeysUnique(map[])
  {
  }

  lemma BlankUnique(s: State)
    requires Blank(s)
    ensures KeysUnique(s.groups)
  {
  }

  /** In every state of every run all groups have different keys, restarts included; so every image that a run saves has
      distinct keys, and the key index built from it lists every group. */
  lemma {:induction false} ReachableKeysAreUnique(run: Run, i: nat)
    requires IsRun(run) && i < |run.states|
    ensures KeysUnique(run.states[i].groups) && KeysUnique(Save(run.states[i]).groups)
    decreases i
  {
    hide Inv, Next, Load, KeysUnique, KeysKept;
    if i == 0 {
      BlankUnique(run.states[0]);
    } else {
      assert Leads(run, i - 1);
      match run.events[i - 1]
      case Live(step) =>
        ReachableKeysAreUnique(run, i - 1);
        RunInv(run, i - 1);
        StepKeepsKeys(run.states[i - 1], step);
        KeptUnique(run.states[i - 1].groups, run.states[i].groups);
      case Reload(j) =>
        ReachableKeysAreUnique(run, j);
        RunInv(run, j);
        ReloadKeepsKeys(run.states[0], run.states[j]);
        NoGroupsUnique();
        if run.states[i].groups != map[] { KeptUnique(run.states[j].groups, run.states[i].groups); }
    }
  }
}

/** Ends over whole runs: closed groups stay closed, and chains of successors are finite. */
module Links {
  import opened Prelude
  import opened Lifecycle
  import opened Records
  import opened Groups
  import opened GroupProofs
  import opened Governor
  import opened Invariants
  import opened Runs
  import opened Endings

  // ----- Closed groups over a run -----

  /** No restart between state i and state k. */
  predicate NoReload(run: Run, i: nat, k: nat)
    requires k <= |run.events|
  {
    forall j :: i <= j < k ==> run.events[j].Live?
  }

  /** Once closed, a group stays closed for the rest of the incarnation; every change brings it strictly closer to the
      end, so it changes at most three more times. */
  lemma {:induction false} ClosedForGood(run: Run, i: nat, k: nat, id: Id)
    requires IsRun(run) && i <= k < |run.states| && NoReload(run, i, k)
    requires id in run.states[i].groups && IsClosed(run.states[i].groups[id].lifecycle)
    ensures id in run.states[k].groups
    ensures var g, g' := run.states[i].groups[id], run.states[k].groups[id];
            g' == g || Descended(g.lifecycle, g'.lifecycle)
    decreases k
  {
    hide Inv, Next, Load, ClosedRank, IsClosed;
    if i < k {
      ClosedForGood(run, i, k - 1, id);
      RunInv(run, k - 1);
      assert Leads(run, k - 1) && run.events[k - 1].Live?;
      ClosedNeverReopens(run.states[k - 1], run.events[k - 1].step, id);
    }
  }

  // ----- Successor links -----

  /** Every successor is a known group of lower rank. */
  ghost predicate Ranked(groups: map<Id, Group>, rank: map<Id, nat>) {
    forall id :: id in groups ==>
      && id in rank
      && var next := groups[id].successor; next != NIL ==> next in groups && next in rank && rank[next] < rank[id]
  }

  lemma OpenHasNoSuccessor(g: Group, limits: Limits)
    requires GroupOk(g, limits) && !IsClosed(g.lifecycle)
    ensures g.successor == NIL
  {
  }

  lemma OpenOfState(s: State, id: Id)
    requires Inv(s) && id in s.groups && !IsClosed(s.groups[id].lifecycle)
    ensures s.groups[id].successor == NIL
  {
    hide GroupOk, IsClosed;
    OpenHasNoSuccessor(s.groups[id], s.limits);
  }

  /** The same links rank the same way; new groups without a successor can be ranked anyhow. */
  lemma SameLinks(groups: map<Id, Group>, groups': map<Id, Group>, rank: map<Id, nat>) returns (rank': map<Id, nat>)
    requires Ranked(groups, rank) && groups.Keys <= groups'.Keys
    requires forall id :: id in groups ==> groups'[id].successor == groups[id].successor
    requires forall id :: id in groups' && id !in groups ==> groups'[id].successor == NIL
    ensures Ranked(groups', rank')
  {
    rank' := map id | id in groups' :: if id in groups then rank[id] else 0;
  }

  /** A new link from a group without one to an open group goes below everything else. */
  lemma NewLink(groups: map<Id, Group>, groups': map<Id, Group>, rank: map<Id, nat>, from: Id, next: Id)
    returns (rank': map<Id, nat>)
    requires Ranked(groups, rank) && groups'.Keys == groups.Keys && from in groups && next in groups && from != next
    requires groups[next].successor == NIL && groups'[next].successor == NIL && groups'[from].successor == next
    requires forall id :: id in groups && id != from ==> groups'[id].successor == groups[id].successor
    ensures Ranked(groups', rank')
  {
    rank' := map id | id in groups :: if id == next then 0 else rank[id] + 1;
  }

  lemma EndRanked(s: State, r: Request, a: Answer, rank: map<Id, nat>) returns (rank': map<Id, nat>)
    requires Inv(s) && Ranked(s.groups, rank) && EndEffect(s, r, a)
    ensures Ranked(a.state.groups, rank')
  {
    hide Inv, Ranked, IsClosed, Descended;
    if a.outcome.Accepted() && a.outcome != IDEMPOTENT && r.SupersedeGroup? {
      OpenOfState(s, r.successor);
      rank' := NewLink(s.groups, a.state.groups, rank, r.group, r.successor);
    } else {
      rank' := SameLinks(s.groups, a.state.groups, rank);
    }
  }

  lemma RequestRanked(s: State, r: Request, up: Upstream, rank: map<Id, nat>) returns (rank': map<Id, nat>)
    requires Inv(s) && Ranked(s.groups, rank)
    ensures Ranked(Serve(s, r, up).state.groups, rank')
  {
    hide Serve, Inv, Ranked, Untouched, EndEffect;
    if IsEndRequest(r) {
      EndRequestEffect(s, r, up);
      rank' := EndRanked(s, r, Serve(s, r, up), rank);
    } else {
      var s' := Serve(s, r, up).state;
      forall id | id in s.groups ensures id in s'.groups && s'.groups[id].successor == s.groups[id].successor {
        OrdinaryKeepsClosed(s, r, up, id);
      }
      NothingFromNothing(s, r, up);
      rank' := SameLinks(s.groups, s'.groups, rank);
    }
  }

  /** With no group to start from, only a creation makes one, and it has no successor. */
  lemma NothingFromNothing(s: State, r: Request, up: Upstream)
    requires Inv(s) && !IsEndRequest(r)
    ensures OnlyCreates(s, r, Serve(s, r, up).state)
  {
    hide Inv, Serve, Kept;
    if s.groups == map[] {
      FirstGroup(s, r, up);
    } else {
      var id :| id in s.groups;
      OrdinaryKeepsClosed(s, r, up, id);
    }
  }

  lemma FirstGroup(s: State, r: Request, up: Upstream)
    requires s.groups == map[] && !IsEndRequest(r)
    ensures OnlyCreates(s, r, Serve(s, r, up).state)
  {
    hide Refresh, Finish, RememberAttempt, CheckNewMembers, Total, Authorize, HandleAttempt;
    if r.CreateGroup? && |r.members| > 0 {
      var c := ContextFor(s, r.authority, ChangeReason.CREATE, GroupEvent.ADD_MEMBER);
      var f := Refresh(NewGroup(s, r), c, s.limits.maxHistory);
      RefreshKeepsId(NewGroup(s, r), c, s.limits.maxHistory);
      AttemptsOnly(Stored(s, f.group), r.authority.attempt, AttemptEntry(PayloadOf(r), CREATED, r.group));
    }
  }

  lemma StepRanked(s: State, step: Step, rank: map<Id, nat>) returns (rank': map<Id, nat>)
    requires Inv(s) && Ranked(s.groups, rank)
    ensures Ranked(Next(s, step).state.groups, rank')
  {
    hide Serve, Notify, Fence, SetEpoch, Register, Inv, Ranked, IsClosed;
    if step.OnRequest? {
      rank' := RequestRanked(s, step.request, step.up, rank);
    } else {
      forall id | id in s.groups ensures Undisturbed(s, id, Next(s, step).state) { OtherStepsKeep(s, step, id); }
      EmptyStaysEmpty(s, step);
      rank' := SameLinks(s.groups, Next(s, step).state.groups, rank);
    }
  }

  lemma EmptyStaysEmpty(s: State, step: Step)
    requires !step.OnRequest?
    ensures Next(s, step).state.groups.Keys == s.groups.Keys
  {
    hide NoticeGroup, FencedGroup, EpochGroup, AuthorizeUpstream;
  }

  lemma ReloadRanked(blank: State, saved: State, rank: map<Id, nat>) returns (rank': map<Id, nat>)
    requires Blank(blank) && Ranked(saved.groups, rank)
    ensures Ranked(Load(blank, Save(saved)).state.groups, rank')
  {
    hide RecoveredGroup;
    rank' := rank;
    forall id | id in saved.groups
      ensures RecoveredGroup(saved.groups[id], saved.epoch, blank.limits.maxHistory).successor ==
              saved.groups[id].successor
    {
      LapseKeepsLink(saved.groups[id], NIL, NIL, saved.epoch, blank.limits.maxHistory);
    }
  }

  /** In every state of every run, the successor links can be ranked: there are no cycles and no dangling links. */
  lemma {:induction false} RunRanked(run: Run, i: nat) returns (rank: map<Id, nat>)
    requires IsRun(run) && i < |run.states|
    ensures Ranked(run.states[i].groups, rank)
    decreases i
  {
    hide Ranked, Next, Load, Inv;
    if i == 0 {
      rank := map[];
      EmptyRanked(run.states[0]);
    } else {
      assert Leads(run, i - 1);
      match run.events[i - 1]
      case Live(step) =>
        RunInv(run, i - 1);
        rank := RunRanked(run, i - 1);
        rank := StepRanked(run.states[i - 1], step, rank);
      case Reload(j) =>
        rank := RunRanked(run, j);
        rank := ReloadRanked(run.states[0], run.states[j], rank);
    }
  }

  lemma EmptyRanked(s: State)
    requires Blank(s)
    ensures Ranked(s.groups, map[])
  {
  }

  /** Groups found by following successors from chain[0]. */
  ghost predicate SuccessorChain(groups: map<Id, Group>, chain: seq<Id>) {
    && (forall i :: 0 <= i < |chain| ==> chain[i] in groups)
    && (forall i, j :: 0 <= i < j < |chain| && j == i + 1 ==> groups[chain[i]].successor == chain[j] != NIL)
  }

  lemma {:induction false} ChainDescends(groups: map<Id, Group>, rank: map<Id, nat>, chain: seq<Id>, i: nat, j: nat)
    requires Ranked(groups, rank) && SuccessorChain(groups, chain) && i < j < |chain|
    ensures rank[chain[j]] < rank[chain[i]]
    decreases j
  {
    if i < j - 1 { ChainDescends(groups, rank, chain, i, j - 1); }
    assert groups[chain[j - 1]].successor == chain[j];
  }

  lemma {:induction false} DistinctFits(chain: seq<Id>, ids: set<Id>)
    requires Distinct(chain) && forall i :: 0 <= i < |chain| ==> chain[i] in ids
    ensures |chain| <= |ids|
  {
    if chain != [] {
      var last := chain[|chain| - 1];
      DistinctFits(chain[..|chain| - 1], ids - {last});
    }
  }

  /** Following successor links from any group of any reachable state never meets a group twice and ends after at most
      as many groups as there are. */
  lemma FollowingSuccessorsEnds(run: Run, i: nat, chain: seq<Id>)
    requires IsRun(run) && i < |run.states| && SuccessorChain(run.states[i].groups, chain)
    ensures Distinct(chain) && |chain| <= |run.states[i].groups|
  {
    hide IsRun, Ranked;
    var groups := run.states[i].groups;
    var rank := RunRanked(run, i);
    forall a, b | 0 <= a < b < |chain| ensures chain[a] != chain[b] { ChainDescends(groups, rank, chain, a, b); }
    DistinctFits(chain, groups.Keys);
  }
}

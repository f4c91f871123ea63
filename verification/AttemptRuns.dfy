/** Attempts over whole runs: what was carried out stays known until enough newer attempts have come. */
module AttemptRuns {
  import opened Prelude
  import opened Records
  import opened Groups
  import opened Governor
  import opened Invariants
  import opened Runs
  import opened Links
  import opened Attempts

  lemma OtherStepsForgetNothing(s: State, step: Step)
    requires !step.OnRequest?
    ensures Next(s, step).state.attempts == s.attempts && Next(s, step).state.order == s.order
  {
    hide NoticeGroup, FencedGroup, EpochGroup, AuthorizeUpstream, Serve;
    match step
    case OnNotice(n, up) => NoticeForgetsNothing(s, n, up);
    case OnRegister(e, reg) =>
    case OnFence(p, b) =>
    case OnEpoch(e) =>
  }

  lemma NoticeForgetsNothing(s: State, n: Notice, up: Upstream)
    ensures Notify(s, n, up).state.attempts == s.attempts && Notify(s, n, up).state.order == s.order
  {
    hide NoticeGroup, AuthorizeUpstream;
  }

  /** The step is a request that is carried out. */
  ghost predicate CarriesOut(s: State, step: Step) {
    step.OnRequest? && CarriedOut(Next(s, step).outcome)
  }

  lemma EffectKeepsAgreement(s: State, r: Request, a: Answer)
    requires AttemptsOk(s) && 0 < s.limits.maxAttemptsRemembered && AttemptEffect(s, r, a)
    ensures Agree(a.state.attempts, a.state.order, s.limits.maxAttemptsRemembered)
    ensures CarriedOut(a.outcome) ==>
              RememberedAt(a.state.attempts, a.state.order, 0, r.authority.attempt, PayloadOf(r))
  {
    hide Remember, Agree, PayloadOf;
    if CarriedOut(a.outcome) {
      RememberAgrees(s.attempts, s.order, s.limits.maxAttemptsRemembered, r.authority.attempt,
                     AttemptEntry(PayloadOf(r), a.outcome, r.group));
    }
  }

  /** Every step keeps the attempt table and its queue in agreement and within the bound. */
  lemma StepKeepsAttempts(s: State, step: Step)
    requires Inv(s) && AttemptsOk(s)
    ensures var s' := Next(s, step).state; Agree(s'.attempts, s'.order, s.limits.maxAttemptsRemembered)
  {
    hide GroupsOk, Serve, Agree, AttemptEffect;
    if step.OnRequest? {
      ServeAttempt(s, step.request, step.up);
      EffectKeepsAgreement(s, step.request, Next(s, step));
    } else {
      OtherStepsForgetNothing(s, step);
    }
  }

  lemma BlankAttempts(s: State)
    requires Blank(s)
    ensures AttemptsOk(s)
  {
  }

  lemma ReloadAttempts(blank: State, saved: State)
    requires Blank(blank)
    ensures AttemptsOk(Load(blank, Save(saved)).state)
  {
    hide RecoveredGroup;
  }

  /** In every state of every run, the attempt table and its queue hold the same distinct ids within the bound. */
  lemma {:induction false} ReachableAttemptsAgree(run: Run, i: nat)
    requires IsRun(run) && i < |run.states|
    ensures AttemptsOk(run.states[i])
    decreases i
  {
    hide Inv, Next, Load, Agree;
    if i == 0 {
      BlankAttempts(run.states[0]);
    } else {
      ReachableAttemptsAgree(run, i - 1);
      RunInv(run, i - 1);
      RunInv(run, i);
      assert Leads(run, i - 1);
      match run.events[i - 1]
      case Live(step) => StepKeepsAttempts(run.states[i - 1], step);
      case Reload(j) => ReloadAttempts(run.states[0], run.states[j]);
    }
  }

  /** How many requests were carried out between state i and state k. */
  ghost function Newer(run: Run, i: nat, k: nat): nat
    requires i <= k <= |run.events| < |run.states|
    decreases k
  {
    if i == k then 0
    else
      Newer(run, i, k - 1) +
      (if run.events[k - 1].Live? && CarriesOut(run.states[k - 1], run.events[k - 1].step) then 1 else 0)
  }

  lemma StepShifts(s: State, step: Step, n: nat, id: Id, payload: Payload)
    requires Inv(s) && AttemptsOk(s) && RememberedAt(s.attempts, s.order, n, id, payload)
    ensures var s' := Next(s, step).state;
            if CarriesOut(s, step)
            then n + 1 < s.limits.maxAttemptsRemembered ==> RememberedAt(s'.attempts, s'.order, n + 1, id, payload)
            else RememberedAt(s'.attempts, s'.order, n, id, payload)
  {
    hide Inv, Serve, Agree, RememberedAt, Remember, PayloadOf;
    if step.OnRequest? {
      var r := step.request;
      ServeAttempt(s, r, step.up);
      if CarriesOut(s, step) && n + 1 < s.limits.maxAttemptsRemembered {
        RememberShifts(s.attempts, s.order, s.limits.maxAttemptsRemembered, r.authority.attempt,
                       AttemptEntry(PayloadOf(r), Next(s, step).outcome, r.group), n, id, payload);
      }
    } else {
      OtherStepsForgetNothing(s, step);
    }
  }

  /** A request carried out at event i is still known at state k, as long as no restart and fewer newer attempts than
      the bound came in between. */
  lemma {:induction false} StillKnown(run: Run, i: nat, k: nat)
    requires IsRun(run) && i < k < |run.states| && NoReload(run, i, k) && CarriesOut(run.states[i], run.events[i].step)
    requires Newer(run, i + 1, k) < run.states[0].limits.maxAttemptsRemembered
    ensures var s, r := run.states[k], run.events[i].step.request;
            RememberedAt(s.attempts, s.order, Newer(run, i + 1, k), r.authority.attempt, PayloadOf(r))
    decreases k
  {
    hide Inv, Next, Load, Agree, RememberedAt, CarriedOut, AttemptEffect;
    RunInv(run, k - 1);
    ReachableAttemptsAgree(run, k - 1);
    assert Leads(run, k - 1) && run.events[k - 1].Live?;
    var step := run.events[k - 1].step;
    if k == i + 1 {
      Known(run.states[i], step);
    } else {
      StillKnown(run, i, k - 1);
      var r := run.events[i].step.request;
      StepShifts(run.states[k - 1], step, Newer(run, i + 1, k - 1), r.authority.attempt, PayloadOf(r));
    }
  }

  lemma Known(s: State, step: Step)
    requires Inv(s) && AttemptsOk(s) && CarriesOut(s, step)
    ensures var s', r := Next(s, step).state, step.request;
            RememberedAt(s'.attempts, s'.order, 0, r.authority.attempt, PayloadOf(r))
  {
    hide GroupsOk, Serve, Agree, AttemptEffect, RememberedAt;
    ServeAttempt(s, step.request, step.up);
    EffectKeepsAgreement(s, step.request, Next(s, step));
  }

  /** A request reaches the attempt check: its authority is live and covers its group. */
  predicate ReachesAttemptCheck(s: State, r: Request) {
    && Authorize(s, r.authority, MUTATE_GROUP, r.group).None?
    && (r.CreateGroup? || (r.group in s.groups && r.authority.scope.Covers(s.groups[r.group].key, r.group)))
  }

  /** A request under a known attempt id that reaches the attempt check changes nothing: with the remembered payload it is
      idempotent, whatever its operation, and with any other payload it is a conflict. */
  lemma KnownAttemptAnswer(s: State, r: Request, up: Upstream)
    requires r.authority.attempt in s.attempts && ReachesAttemptCheck(s, r)
    ensures Serve(s, r, up) ==
            Answer(s, if s.attempts[r.authority.attempt].payload == PayloadOf(r) then IDEMPOTENT else ATTEMPT_CONFLICT)
  {
    hide Finish, Refresh, Authorize, PayloadOf, CheckExpected, CheckCreation, Preamble;
    PreambleStops(s, r);
  }

  lemma PreambleStops(s: State, r: Request)
    requires r.authority.attempt in s.attempts && ReachesAttemptCheck(s, r)
    ensures HandleAttempt(s, r.authority, PayloadOf(r)) ==
            Some(if s.attempts[r.authority.attempt].payload == PayloadOf(r) then IDEMPOTENT else ATTEMPT_CONFLICT)
    ensures !r.CreateGroup? ==>
              forall event :: Preamble(s, r, event) == HandleAttempt(s, r.authority, PayloadOf(r))
  {
    hide Authorize, PayloadOf;
  }

  /** Replaying a request that was carried out, under authority that is live, before as many newer attempts as the bound
      have been carried out: the answer is idempotent and nothing changes; a different payload under the same id is a
      conflict and changes nothing either. */
  lemma ReplayChangesNothing(run: Run, i: nat, k: nat, replay: Request, up: Upstream)
    requires IsRun(run) && i < k < |run.states| && NoReload(run, i, k) && CarriesOut(run.states[i], run.events[i].step)
    requires Newer(run, i + 1, k) < run.states[0].limits.maxAttemptsRemembered
    requires replay.authority.attempt == run.events[i].step.request.authority.attempt
    requires ReachesAttemptCheck(run.states[k], replay)
    ensures Serve(run.states[k], replay, up) ==
            Answer(run.states[k],
                   if PayloadOf(replay) == PayloadOf(run.events[i].step.request) then IDEMPOTENT else ATTEMPT_CONFLICT)
  {
    hide Serve, PayloadOf, IsRun, ReachesAttemptCheck;
    StillKnown(run, i, k);
    KnownAttemptAnswer(run.states[k], replay, up);
  }
}

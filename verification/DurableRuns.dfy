/** Saving and loading over whole runs: which reachable states are read back, and why the others are not. */
module DurableRuns {
  import opened Prelude
  import opened Assignment
  import opened Lifecycle
  import opened Records
  import opened Bytes
  import opened Codecs
  import opened AssignmentPairs
  import opened StoreCodec
  import opened StorePayload
  import StoreFile
  import opened Groups
  import opened AssignmentProofs
  import opened GroupProofs
  import opened Governor
  import opened Invariants
  import opened Runs
  import opened Attempts
  import opened AttemptRuns
  import opened Durable
  import opened DurableSteps

  // ----- Writing a state -----

  ghost predicate IsLeast(m: nat, ids: set<nat>) {
    m in ids && forall x :: x in ids ==> m <= x
  }

  lemma {:induction false} LeastExists(ids: set<nat>) returns (m: nat)
    requires ids != {}
    ensures IsLeast(m, ids)
    decreases |ids|
  {
    var y :| y in ids;
    var others := ids - {y};
    m := y;
    if others != {} {
      var least := LeastExists(others);
      m := if least < y then least else y;
      forall x | x in ids ensures m <= x { assert x == y || x in others; }
    }
  }

  lemma SomeLeast(ids: set<nat>)
    requires ids != {}
    ensures exists m :: IsLeast(m, ids)
  {
    var m := LeastExists(ids);
  }

  ghost function Least(ids: set<nat>): (m: nat)
    requires ids != {}
    ensures IsLeast(m, ids)
  {
    SomeLeast(ids);
    var m :| IsLeast(m, ids);
    m
  }

  /** Identities in the order in which the program's tables list them. */
  ghost function Ascending(ids: set<nat>): seq<nat>
    decreases |ids|
  {
    if ids == {} then [] else [Least(ids)] + Ascending(ids - {Least(ids)})
  }

  lemma LeastFirst(ids: set<nat>, x: nat)
    requires ids != {}
    ensures x in ids <==> x == Least(ids) || x in ids - {Least(ids)}
    ensures x in ids - {Least(ids)} ==> Least(ids) < x
    ensures |ids - {Least(ids)}| == |ids| - 1
  {
  }

  lemma {:induction false} AscendingHas(ids: set<nat>, x: nat)
    ensures x in Ascending(ids) <==> x in ids
    decreases |ids|
  {
    hide IsLeast;
    if ids != {} {
      LeastFirst(ids, x);
      AscendingHas(ids - {Least(ids)}, x);
    }
  }

  /** The list has every identity once, in ascending order. */
  lemma {:induction false} AscendingOrder(ids: set<nat>)
    ensures |Ascending(ids)| == |ids|
    ensures forall i, j :: 0 <= i < j < |ids| ==> Ascending(ids)[i] < Ascending(ids)[j]
    decreases |ids|
  {
    hide IsLeast;
    if ids != {} {
      var m := Least(ids);
      var rest := ids - {m};
      LeastFirst(ids, m);
      AscendingOrder(rest);
      forall j | 0 <= j < |rest| ensures m < Ascending(rest)[j] {
        AscendingHas(rest, Ascending(rest)[j]);
        LeastFirst(ids, Ascending(rest)[j]);
      }
    }
  }

  ghost function GroupList(groups: map<Id, Group>, cut: Cut): (r: seq<StoredGroup>)
    ensures |r| == |groups|
  {
    var ids := Ascending(groups.Keys);
    AscendingOrder(groups.Keys);
    assert |groups| == |groups.Keys|;
    seq(|ids|, i requires 0 <= i < |ids| => AscendingHas(groups.Keys, ids[i]); StoredFor(groups[ids[i] as Id], cut))
  }

  function StoredAttemptFor(attempt: Id, entry: AttemptEntry, cut: Cut): StoredAttempt {
    StoredAttempt(attempt, cut.payload(entry.payload), cut.outcome(entry.outcome), entry.group, cut.condition(attempt), [])
  }

  /** The attempts of the queue that are in the table. */
  function AttemptList(order: seq<Id>, attempts: map<Id, AttemptEntry>, cut: Cut): seq<StoredAttempt> {
    if order == [] then []
    else
      (if order[0] in attempts then [StoredAttemptFor(order[0], attempts[order[0]], cut)] else []) +
      AttemptList(order[1..], attempts, cut)
  }

  ghost function PayloadFor(s: State, committed: nat, cut: Cut): StoredPayload {
    StoredPayload(GroupList(s.groups, cut), committed, AttemptList(s.order, s.attempts, cut))
  }

  /** The bytes of a payload as they are appended: the attempts are counted in the table but listed by the queue. */
  ghost function PayloadBytes(s: State, committed: nat, cut: Cut): seq<Byte> {
    hide StoredGroups, StoredAttempts, AttemptList;
    LittleEndian(PAYLOAD_VERSION, 4) +
    (LittleEndian(|s.groups|, 4) + EncodeAll(StoredGroups(s.limits), GroupList(s.groups, cut)) +
     (LittleEndian(committed, 8) +
      (LittleEndian(|s.attempts|, 4) + EncodeAll(StoredAttempts(), AttemptList(s.order, s.attempts, cut)) +
       LittleEndian(0, 4))))
  }

  lemma {:induction false} AttemptsListed(order: seq<Id>, attempts: map<Id, AttemptEntry>, cut: Cut)
    requires forall i :: 0 <= i < |order| ==> order[i] in attempts
    ensures |AttemptList(order, attempts, cut)| == |order|
    ensures forall i :: 0 <= i < |order| ==> AttemptList(order, attempts, cut)[i].text == [] &&
                                             AttemptCarries(AttemptList(order, attempts, cut)[i])
  {
    if order != [] {
      forall i | 0 <= i < |order[1..]| ensures order[1..][i] in attempts { assert order[1..][i] == order[i + 1]; }
      AttemptsListed(order[1..], attempts, cut);
    }
  }

  lemma {:induction false} DistinctSize<T>(s: seq<T>, all: set<T>)
    requires Distinct(s) && forall x :: x in all <==> x in s
    ensures |all| == |s|
  {
    if s == [] {
      assert all == {};
    } else {
      var n := |s| - 1;
      assert s == s[..n] + [s[n]];
      assert forall i, j :: 0 <= i < j < n ==> s[..n][i] != s[..n][j] by {
        assert forall i, j :: 0 <= i < j < n ==> s[i] != s[j];
      }
      assert s[n] !in s[..n] by { assert forall i :: 0 <= i < n ==> s[i] != s[n]; }
      DistinctSize(s[..n], all - {s[n]});
    }
  }

  /** Table and queue agree: as many attempts are written as are counted. */
  lemma AsManyAttempts(s: State, cut: Cut)
    requires AttemptsOk(s)
    ensures |AttemptList(s.order, s.attempts, cut)| == |s.attempts| <= s.limits.maxAttemptsRemembered
    ensures var l := AttemptList(s.order, s.attempts, cut);
            forall i :: 0 <= i < |l| ==> l[i].text == [] && AttemptCarries(l[i])
  {
    assert forall i :: 0 <= i < |s.order| ==> s.order[i] in s.attempts;
    AttemptsListed(s.order, s.attempts, cut);
    DistinctSize(s.order, s.attempts.Keys);
    assert |s.attempts| == |s.attempts.Keys|;
  }

  /** What is appended is the written form of the payload. */
  lemma BytesOfPayload(s: State, committed: nat, cut: Cut)
    requires |AttemptList(s.order, s.attempts, cut)| == |s.attempts|
    ensures PayloadBytes(s, committed, cut) == EncodePayload(PayloadFor(s, committed, cut), s.limits)
  {
    hide StoredGroups, StoredAttempts, AttemptList, LittleEndian, EncodeAll, GroupList, Both, Many, Payloads, EncodePayload;
    var groups, attempts := GroupList(s.groups, cut), AttemptList(s.order, s.attempts, cut);
    LayoutBytes(StoredPayload(groups, committed, attempts), s.limits);
    ManyBytes(StoredGroups(s.limits), s.limits.maxGroups, groups);
    ManyBytes(StoredAttempts(), s.limits.maxAttemptsRemembered, attempts);
  }

  lemma ManyBytes<T>(c: Codec<T>, max: nat, vs: seq<T>)
    ensures Many(c, max).encode(vs) == LittleEndian(|vs|, 4) + EncodeAll(c, vs)
  {
  }

  lemma LayoutBytes(p: StoredPayload, limits: Limits)
    ensures EncodePayload(p, limits) ==
            LittleEndian(PAYLOAD_VERSION, 4) +
            (Many(StoredGroups(limits), limits.maxGroups).encode(p.groups) +
             (LittleEndian(p.committed, 8) +
              (Many(StoredAttempts(), limits.maxAttemptsRemembered).encode(p.attempts) + LittleEndian(0, 4))))
  {
    hide StoredGroups, StoredAttempts, LittleEndian, Both, Many;
    var gs, xs := Many(StoredGroups(limits), limits.maxGroups), Many(StoredAttempts(), limits.maxAttemptsRemembered);
    var end := (p.attempts, 0);
    InOrder(xs, Word32(), p.attempts, 0);
    InOrder(Counter(), Both(xs, Word32()), p.committed, end);
    InOrder(gs, Both(Counter(), Both(xs, Word32())), p.groups, (p.committed, end));
    InOrder(Word32(), Both(gs, Both(Counter(), Both(xs, Word32()))), PAYLOAD_VERSION, (p.groups, (p.committed, end)));
    ViaBytes(PayloadLayout(limits), StoredPayloadOf, PayloadTupleOf,
             (t: PayloadTuple) => t.0 == PAYLOAD_VERSION && t.1.1.1.1 == 0 && !RepeatsGroup(t.1.0), p);
  }

  lemma ViaBytes<A, B>(c: Codec<A>, make: A -> B, take: B -> A, ok: A -> bool, v: B)
    ensures Via(c, make, take, ok).encode(v) == c.encode(take(v))
  {
  }

  lemma InOrder<A, B>(a: Codec<A>, b: Codec<B>, x: A, y: B)
    ensures Both(a, b).encode((x, y)) == a.encode(x) + b.encode(y)
  {
  }

  // ----- Which states are read back -----

  /** The counts a store file writes in 32 bits are bounded by 32-bit limits. */
  predicate WordLimits(limits: Limits) {
    limits.maxGroups < 0x1_00000000 && limits.maxHistory < 0x1_00000000 && limits.maxAttemptsRemembered < 0x1_00000000
  }

  predicate PlanCounts(p: Plan) {
    Counts(p.fromMembership) && Counts(p.fromAssignment) && Counts(p.fromAuthority) && Counts(p.targetMembership) &&
    Counts(p.epoch)
  }

  predicate HistoryCounts(h: HistoryEntry) {
    Counts(h.membershipGen) && Counts(h.assignmentGen) && Counts(h.authorityGen) && Counts(h.epoch) && Counts(h.churn) &&
    Counts(h.movesRecorded)
  }

  predicate RebalanceCounts(r: RebalanceRecord) {
    Counts(r.fromMembership) && Counts(r.toMembership) && Counts(r.fromAssignment) && Counts(r.toAssignment) &&
    Counts(r.churn)
  }

  /** Every counter of the group is still a 64-bit number. */
  predicate InWords(g: Group) {
    && Counts(g.membershipGen) && Counts(g.assignmentGen) && Counts(g.authorityGen) && Counts(g.boundEpoch)
    && (g.plan.Some? ==> PlanCounts(g.plan.value))
    && (forall i :: 0 <= i < |g.history| ==> HistoryCounts(g.history[i]))
    && (g.lastRebalance.Some? ==> RebalanceCounts(g.lastRebalance.value))
  }

  ghost predicate AllInWords(s: State) {
    forall id :: id in s.groups ==> InWords(s.groups[id])
  }

  lemma BodyOfGroupCarries(g: Group, limits: Limits, cut: Cut)
    requires limits.Coherent() && WordLimits(limits) && InWords(g) && Sturdy(g)
    requires 0 < g.bucketCount <= limits.maxBuckets && |g.history| <= limits.maxHistory
    requires g.plan.Some? ==> |g.plan.value.targetMembers| <= limits.maxMembersPerGroup
    ensures BodyCarries(BodyFor(g, cut))
  {
    hide SoundEntries, SoundSpecs, Counts;
    var hs := StoredHistoriesFor(g.history, cut);
    forall i | 0 <= i < |hs| ensures HistoryCarries(hs[i]) {
      assert hs[i] == StoredHistoryFor(g.history[i], cut) && HistoryCounts(g.history[i]);
    }
    hide StoredHistoriesFor, HistoryCarries;
  }

  lemma GroupIsCarried(g: Group, limits: Limits, cut: Cut)
    requires limits.Coherent() && WordLimits(limits) && GroupOk(g, limits) && Sturdy(g) && InWords(g)
    ensures GroupCarries(StoredFor(g, cut))
  {
    hide Derived, Settled, DeriveLifecycle, PlanOk, EntriesOk, BodyCarries, BodyFor, OwnersKnown;
    BodyOfGroupCarries(g, limits, cut);
  }

  /** What a group must satisfy to be taken back. */
  predicate Readable(g: Group) { Priced(g) && PlanKnown(g) }

  ghost predicate AllReadable(s: State) {
    forall id :: id in s.groups ==> Readable(s.groups[id])
  }

  lemma ListedGroup(groups: map<Id, Group>, cut: Cut, i: nat) returns (id: Id)
    requires i < |groups|
    ensures id in groups && GroupList(groups, cut)[i] == StoredFor(groups[id], cut) && id == Ascending(groups.Keys)[i]
  {
    AscendingOrder(groups.Keys);
    AscendingHas(groups.Keys, Ascending(groups.Keys)[i]);
    id := Ascending(groups.Keys)[i];
  }

  lemma ListsGroup(groups: map<Id, Group>, cut: Cut, id: Id) returns (i: nat)
    requires id in groups
    ensures i < |groups| && GroupList(groups, cut)[i] == StoredFor(groups[id], cut)
  {
    AscendingOrder(groups.Keys);
    AscendingHas(groups.Keys, id);
    i :| 0 <= i < |Ascending(groups.Keys)| && Ascending(groups.Keys)[i] == id;
  }

  lemma NoGroupTwice(s: State, cut: Cut)
    requires Inv(s)
    ensures !RepeatsGroup(GroupList(s.groups, cut))
  {
    var gs := GroupList(s.groups, cut);
    AscendingOrder(s.groups.Keys);
    hide GroupOk, GroupList, StoredFor;
    forall i, j | 0 <= i < j < |gs| ensures gs[i].head.id != gs[j].head.id {
      var a := ListedGroup(s.groups, cut, i);
      var b := ListedGroup(s.groups, cut, j);
      StoredKeepsId(s.groups[a], cut);
      StoredKeepsId(s.groups[b], cut);
    }
  }

  lemma StoredKeepsId(g: Group, cut: Cut)
    ensures StoredFor(g, cut).head.id == g.id
  {
  }

  lemma GroupFacts(s: State, id: Id)
    requires Savable(s) && id in s.groups
    ensures s.limits.Coherent() && GroupOk(s.groups[id], s.limits) && Sturdy(s.groups[id])
  {
    hide GroupOk, Sturdy;
  }

  /** The groups of a savable state are written without loss, and pass the reader's checks exactly when they are readable. */
  lemma GroupsReadBack(s: State, cut: Cut)
    requires Savable(s) && WordLimits(s.limits) && AllInWords(s)
    ensures var gs := GroupList(s.groups, cut);
            && (forall i :: 0 <= i < |gs| ==> GroupCarries(gs[i]))
            && ((forall i :: 0 <= i < |gs| ==> GroupFits(gs[i], s.limits)) <==> AllReadable(s))
  {
    var gs := GroupList(s.groups, cut);
    hide Savable, GroupOk, Sturdy, InWords, GroupList, GroupCarries, GroupFits, Priced, PlanKnown, StoredFor;
    forall i | 0 <= i < |gs|
      ensures GroupCarries(gs[i]) && (AllReadable(s) ==> GroupFits(gs[i], s.limits))
    {
      var id := ListedGroup(s.groups, cut, i);
      GroupFacts(s, id);
      GroupIsCarried(s.groups[id], s.limits, cut);
      GroupReadBack(s.groups[id], s.limits, cut);
    }
    if forall i :: 0 <= i < |gs| ==> GroupFits(gs[i], s.limits) {
      forall id | id in s.groups ensures Readable(s.groups[id]) {
        var i := ListsGroup(s.groups, cut, id);
        GroupFacts(s, id);
        GroupReadBack(s.groups[id], s.limits, cut);
      }
    }
  }

  /** The state is read back from its own payload exactly when every group is readable, and refused otherwise. */
  ghost predicate ReadsBack(s: State, committed: nat, cut: Cut) {
    hide DecodePayload, PayloadBytes, PayloadFor;
    DecodePayload(PayloadBytes(s, committed, cut), s.limits) ==
    if AllReadable(s) then Some(PayloadFor(s, committed, cut)) else None
  }

  lemma PayloadOfState(s: State, committed: nat, cut: Cut)
    requires Savable(s) && AttemptsOk(s) && WordLimits(s.limits) && AllInWords(s) && Counts(committed)
    ensures var p := PayloadFor(s, committed, cut);
            && PayloadCarries(p) && (PayloadFits(p, s.limits) <==> AllReadable(s))
            && |p.attempts| == |s.attempts|
  {
    hide Savable, AttemptsOk, GroupList, AttemptList, GroupCarries, GroupFits, AllReadable, RepeatsGroup, AllInWords,
         AttemptCarries, Counts;
    GroupsReadBack(s, cut);
    AsManyAttempts(s, cut);
    WithinLimits(s);
    NoGroupTwice(s, cut);
  }

  /** A savable state is read back from its own payload exactly when every group is readable. */
  lemma SavableStateReadBack(s: State, committed: nat, cut: Cut)
    requires Savable(s) && AttemptsOk(s) && WordLimits(s.limits) && AllInWords(s) && Counts(committed)
    ensures ReadsBack(s, committed, cut)
  {
    hide Savable, AttemptsOk, AllReadable, PayloadBytes, DecodePayload, EncodePayload, AllInWords, PayloadFor, Counts,
         PayloadCarries, PayloadFits;
    PayloadOfState(s, committed, cut);
    AttemptsOfPayload(s, committed, cut);
    BytesOfPayload(s, committed, cut);
    PayloadRoundTrip(PayloadFor(s, committed, cut), s.limits);
  }

  lemma AttemptsOfPayload(s: State, committed: nat, cut: Cut)
    ensures PayloadFor(s, committed, cut).attempts == AttemptList(s.order, s.attempts, cut)
  {
    hide AttemptList, GroupList;
  }

  lemma WithinLimits(s: State)
    requires Savable(s)
    ensures |s.groups| <= s.limits.maxGroups && Inv(s)
  {
  }

  // ----- Runs -----

  lemma BlankSavable(s: State)
    requires Blank(s)
    ensures Savable(s)
  {
  }

  lemma LastingSavable(s: State, s': State)
    requires Lasting(s, s') && Inv(s')
    ensures Savable(s')
  {
    hide Sturdy, Inv;
  }

  lemma LastingButSavable(s: State, s': State, id: Id)
    requires LastingBut(s, s', id) && Inv(s')
    ensures Savable(s')
  {
    hide Sturdy, Inv;
  }

  lemma StepSavable(s: State, step: Step)
    requires Savable(s) && Inv(Next(s, step).state)
    ensures Savable(Next(s, step).state)
  {
    hide Savable, Lasting, LastingBut, Inv, Serve;
    if IsRevalidation(step) {
      var r := step.request;
      RevalidationSavable(s, r, step.up);
    } else {
      StepLasts(s, step);
      LastingSavable(s, Next(s, step).state);
    }
  }

  lemma RevalidationSavable(s: State, r: Request, up: Upstream)
    requires Savable(s) && r.Revalidate? && Inv(Serve(s, r, up).state)
    ensures Savable(Serve(s, r, up).state)
  {
    hide Savable, LastingBut, Inv, Adopts, Priced, Revalidation;
    if r.group in s.groups {
      RevalidationTerms(s, r, up);
      LastingButSavable(s, Revalidation(s, r, up).state, r.group);
    } else {
      UnknownGroupRefused(s, r, up);
    }
  }

  lemma UnknownGroupRefused(s: State, r: Request, up: Upstream)
    requires r.Revalidate? && r.group !in s.groups
    ensures Serve(s, r, up).state == s
  {
    hide Authorize, ApplyUpdates, Restored, Adopt, CheckAdoption, Finish;
  }

  lemma ReloadSavable(blank: State, saved: State)
    requires Blank(blank) && Savable(saved) && saved.limits == blank.limits
    ensures Savable(Load(blank, Save(saved)).state)
  {
    ReloadInv(blank, saved);
    hide Inv, Sturdy, RecoveredGroups;
    RecoveredSturdy(saved, Save(saved));
    RecoveredKeys(Save(saved), saved.limits.maxHistory);
    SameSize(saved.groups, RecoveredGroups(Save(saved), saved.limits.maxHistory));
  }

  lemma RecoveredKeys(image: Image, maxHistory: nat)
    ensures RecoveredGroups(image, maxHistory).Keys == image.groups.Keys
  {
    hide RecoveredGroup;
  }

  lemma RecoveredSturdy(saved: State, image: Image)
    requires Savable(saved) && image.groups == saved.groups
    ensures AllSturdy(RecoveredGroups(image, saved.limits.maxHistory))
  {
    hide Inv, Sturdy, RecoveredGroup;
    forall id | id in saved.groups ensures Sturdy(RecoveredGroup(saved.groups[id], image.epoch, saved.limits.maxHistory)) {
      RecoveredLasts(saved.groups[id], image.epoch, saved.limits.maxHistory);
    }
  }

  /** Every state of every run is savable. */
  lemma {:induction false} RunSavable(run: Run, i: nat)
    requires IsRun(run) && i < |run.states|
    ensures Savable(run.states[i])
    decreases i
  {
    hide Inv, Next, Load, Savable;
    RunInv(run, i);
    if i == 0 {
      BlankSavable(run.states[0]);
    } else {
      RunSavable(run, i - 1);
      assert Leads(run, i - 1);
      match run.events[i - 1]
      case Live(step) => StepSavable(run.states[i - 1], step);
      case Reload(j) =>
        RunSavable(run, j);
        RunInv(run, j);
        ReloadSavable(run.states[0], run.states[j]);
    }
  }

  /** Every number a payload holds still fits the word it is written to. */
  ghost predicate Writable(s: State, committed: nat) {
    WordLimits(s.limits) && Counts(committed) && AllInWords(s)
  }

  /** Every reachable state is read back from its own payload exactly when all its groups have complete cost terms and no
      pending plan brings in new members; otherwise the payload is refused. */
  lemma ReachableStatesReadBack(run: Run, i: nat, committed: nat, cut: Cut)
    requires IsRun(run) && i < |run.states| && Writable(run.states[i], committed)
    ensures ReadsBack(run.states[i], committed, cut)
  {
    hide Savable, AttemptsOk, AllReadable, AllInWords, ReadsBack, IsRun;
    RunSavable(run, i);
    ReachableAttemptsAgree(run, i);
    SavableStateReadBack(run.states[i], committed, cut);
  }

  // ----- What spoils a state -----

  ghost predicate AllPriced(groups: map<Id, Group>) {
    forall id :: id in groups ==> Priced(groups[id])
  }

  /** The step is a revalidation that adopts incomplete cost terms. */
  predicate SpoilingStep(s: State, step: Step) { step.OnRequest? && Spoils(s, step.request) }

  lemma LastingPriced(s: State, s': State)
    requires Lasting(s, s') && AllPriced(s.groups)
    ensures AllPriced(s'.groups)
  {
    hide Priced, Sturdy;
    forall id | id in s'.groups ensures Priced(s'.groups[id]) {
      if id in s.groups { PricedBySameTerms(s.groups[id], s'.groups[id]); }
    }
  }

  lemma LastingButPriced(s: State, s': State, id: Id)
    requires LastingBut(s, s', id) && AllPriced(s.groups) && id in s.groups
    ensures id in s'.groups && (AllPriced(s'.groups) <==> Priced(s'.groups[id]))
  {
    hide Priced, Sturdy;
    if Priced(s'.groups[id]) {
      forall x | x in s'.groups ensures Priced(s'.groups[x]) {
        if x != id { PricedBySameTerms(s.groups[x], s'.groups[x]); }
      }
    }
  }

  lemma SpoilingRevalidation(s: State, r: Request, up: Upstream)
    requires Savable(s) && AllPriced(s.groups) && r.Revalidate?
    ensures AllPriced(Serve(s, r, up).state.groups) <==> !Spoils(s, r)
  {
    hide Savable, LastingBut, Adopts, Priced, Revalidation, Complete;
    if r.group in s.groups {
      RevalidationTerms(s, r, up);
      LastingButPriced(s, Revalidation(s, r, up).state, r.group);
    } else {
      UnknownGroupRefused(s, r, up);
      AdoptsKnown(s, r);
    }
  }

  lemma AdoptsKnown(s: State, r: Request)
    requires r.group !in s.groups
    ensures !Adopts(s, r)
  {
  }

  /** As long as all cost terms are complete, a step keeps them so exactly unless it is a revalidation that adopts
      incomplete terms. */
  lemma SpoiledExactly(s: State, step: Step)
    requires Savable(s) && AllPriced(s.groups)
    ensures AllPriced(Next(s, step).state.groups) <==> !SpoilingStep(s, step)
  {
    hide Savable, Lasting, Serve, Spoils, AllPriced;
    if IsRevalidation(step) {
      SpoilingRevalidation(s, step.request, step.up);
    } else {
      StepLasts(s, step);
      LastingPriced(s, Next(s, step).state);
      OnlyRevalidationsSpoil(s, step);
    }
  }

  lemma OnlyRevalidationsSpoil(s: State, step: Step)
    requires !IsRevalidation(step)
    ensures !SpoilingStep(s, step)
  {
  }

  lemma {:induction false} FirstClaim(updates: seq<MemberRevalidation>) returns (j: nat)
    requires |Claims(updates)| > 0
    ensures j < |updates| && updates[j].cost == Some(Claims(updates)[0])
  {
    var n := |updates| - 1;
    if |Claims(updates[..n])| > 0 { j := FirstClaim(updates[..n]); } else { j := n; }
  }

  /** A claim that is not complete is refused when its turn comes. */
  lemma {:induction false} IncompleteClaimRefused(up: Upstream, g: Group, updates: seq<MemberRevalidation>, i: nat, j: nat)
    requires i <= j < |updates| && updates[j].cost.Some? && !updates[j].cost.value.WellFormed()
    ensures ApplyUpdates(up, g, updates, i).1.Some?
    decreases |updates| - i
  {
    var k := Locate(g.members, updates[i].member);
    if k < |g.members| {
      var spec := UpdatedSpec(g.members[k], updates[i]);
      if i < j {
        IncompleteClaimRefused(up, g.(members := g.members[k := Reproved(g.members[k], spec)]), updates, i + 1, j);
      }
    }
  }

  /** A revalidation that spoils a group is always refused: the refusal keeps the adopted terms. */
  lemma SpoilingIsRefused(s: State, r: Request, up: Upstream)
    requires Spoils(s, r)
    ensures Revalidation(s, r, up).outcome != REVALIDATED
  {
    hide Preamble, Finish, CheckAdoption, AdoptionNeeded, RepeatsMember;
    var j := FirstClaim(r.updates);
    hide Claims;
    var adopted := Adopt(s.groups[r.group], Claims(r.updates)[0]);
    IncompleteClaimRefused(up, adopted, r.updates, 0, j);
    RefusedOutcome(up, adopted, r.updates, 0);
  }

  lemma {:induction false} RefusedOutcome(up: Upstream, g: Group, updates: seq<MemberRevalidation>, i: nat)
    requires i <= |updates| && ApplyUpdates(up, g, updates, i).1.Some?
    ensures !ApplyUpdates(up, g, updates, i).1.value.Accepted()
    decreases |updates| - i
  {
    var k := Locate(g.members, updates[i].member);
    if k < |g.members| && g.members[k].record.declared {
      var spec := UpdatedSpec(g.members[k], updates[i]);
      if ValidateFor(up, g, spec).None? {
        RefusedOutcome(up, g.(members := g.members[k := Reproved(g.members[k], spec)]), updates, i + 1);
      }
    }
  }

  ghost predicate SpoilsAt(run: Run, i: nat)
    requires i < |run.events| < |run.states|
  {
    run.events[i].Live? && SpoilingStep(run.states[i], run.events[i].step)
  }

  lemma ReloadPriced(blank: State, saved: State)
    requires Blank(blank) && Savable(saved) && AllPriced(saved.groups) && saved.limits == blank.limits
    ensures AllPriced(Load(blank, Save(saved)).state.groups)
  {
    hide Inv, Sturdy, RecoveredGroup, Priced;
    forall id | id in saved.groups
      ensures Priced(RecoveredGroup(saved.groups[id], saved.epoch, saved.limits.maxHistory))
    {
      RecoveredLasts(saved.groups[id], saved.epoch, saved.limits.maxHistory);
      PricedBySameTerms(saved.groups[id], RecoveredGroup(saved.groups[id], saved.epoch, saved.limits.maxHistory));
    }
  }

  /** No event before state i spoiled a group. */
  ghost predicate Unspoiled(run: Run, i: nat)
    requires i <= |run.events| < |run.states|
  {
    forall k :: 0 <= k < i ==> !SpoilsAt(run, k)
  }

  /** Until a revalidation adopts incomplete terms, all cost terms of a run are complete. */
  lemma {:induction false} PricedUntilSpoiled(run: Run, i: nat)
    requires IsRun(run) && i < |run.states| && Unspoiled(run, i)
    ensures AllPriced(run.states[i].groups)
    decreases i
  {
    hide Inv, Next, Load, Savable, SpoilingStep, Priced;
    if i > 0 {
      PricedUntilSpoiled(run, i - 1);
      RunSavable(run, i - 1);
      assert Leads(run, i - 1) && !SpoilsAt(run, i - 1);
      match run.events[i - 1]
      case Live(step) => SpoiledExactly(run.states[i - 1], step);
      case Reload(j) =>
        PricedUntilSpoiled(run, j);
        RunSavable(run, j);
        RunInv(run, j);
        ReloadPriced(run.states[0], run.states[j]);
    }
  }

  /** The payload of the state is decoded to exactly what was written. */
  ghost predicate ReadsBackFully(s: State, committed: nat, cut: Cut) {
    hide DecodePayload, PayloadBytes, PayloadFor;
    DecodePayload(PayloadBytes(s, committed, cut), s.limits) == Some(PayloadFor(s, committed, cut))
  }

  /** The payload of the state is refused by its own reader. */
  ghost predicate Lost(s: State, committed: nat, cut: Cut) {
    hide DecodePayload, PayloadBytes;
    DecodePayload(PayloadBytes(s, committed, cut), s.limits).None?
  }

  ghost predicate NoPlanPending(s: State) {
    forall id :: id in s.groups ==> s.groups[id].plan.None?
  }

  /** Until a refused revalidation leaves incomplete terms behind, a state without a pending plan is readable throughout. */
  lemma UnspoiledIsReadable(run: Run, i: nat)
    requires IsRun(run) && i < |run.states| && NoPlanPending(run.states[i]) && Unspoiled(run, i)
    ensures AllReadable(run.states[i])
  {
    hide Unspoiled, IsRun, NoPlanPending, AllPriced, AllReadable;
    PricedUntilSpoiled(run, i);
    ReadableWithoutPlan(run.states[i]);
  }

  /** Every state without a pending plan, in a run in which no refused revalidation left incomplete terms behind, is read
      back from its own payload completely. */
  lemma UnspoiledStatesReadBack(run: Run, i: nat, committed: nat, cut: Cut)
    requires IsRun(run) && i < |run.states| && Writable(run.states[i], committed)
    requires NoPlanPending(run.states[i]) && Unspoiled(run, i)
    ensures ReadsBackFully(run.states[i], committed, cut)
  {
    hide Writable, Unspoiled, IsRun, DecodePayload, PayloadBytes, PayloadFor, AllReadable, NoPlanPending;
    UnspoiledIsReadable(run, i);
    ReachableStatesReadBack(run, i, committed, cut);
  }

  lemma ReadableWithoutPlan(s: State)
    requires AllPriced(s.groups) && NoPlanPending(s)
    ensures AllReadable(s)
  {
    hide Priced;
  }

  /** What is written for state s: nothing when the payload is over the record limit, else the image of its epoch and
      payload. */
  ghost function SaveFile(s: State, committed: nat, cut: Cut, limit: U32, tag: seq<Byte> -> StoreFile.Tag)
    : Option<seq<Byte>>
    requires Counts(s.epoch)
  {
    hide PayloadBytes, StoreFile.StoreImage;
    var payload := PayloadBytes(s, committed, cut);
    if |payload| > limit then None else Some(StoreFile.StoreImage(s.epoch, payload, tag))
  }

  /** The file reader accepts the file and takes this epoch and this payload from it. */
  ghost predicate TakenFrom(file: seq<Byte>, limit: U32, tag: seq<Byte> -> StoreFile.Tag, epoch: U64, payload: seq<Byte>) {
    hide StoreFile.StoreImage;
    |payload| <= limit && file == StoreFile.StoreImage(epoch, payload, tag)
  }

  /** The payload reader takes everything that was written in state s from the payload, or, when some group of s is not
      readable, refuses the payload. */
  ghost predicate RestoresExactly(s: State, committed: nat, cut: Cut, payload: seq<Byte>) {
    hide DecodePayload, PayloadFor;
    DecodePayload(payload, s.limits) == if AllReadable(s) then Some(PayloadFor(s, committed, cut)) else None
  }

  /** The file is accepted, and whatever is taken from it is the epoch and the payload of state s. */
  ghost predicate FileRestores(s: State, committed: nat, cut: Cut, limit: U32, tag: seq<Byte> -> StoreFile.Tag,
                               file: seq<Byte>)
  {
    && (exists epoch: U64, payload :: TakenFrom(file, limit, tag, epoch, payload))
    && forall epoch: U64, payload :: TakenFrom(file, limit, tag, epoch, payload) ==>
         epoch == s.epoch && RestoresExactly(s, committed, cut, payload)
  }

  lemma FileRead(s: State, committed: nat, cut: Cut, limit: U32, tag: seq<Byte> -> StoreFile.Tag)
    requires Counts(s.epoch) && ReadsBack(s, committed, cut) && |PayloadBytes(s, committed, cut)| <= limit
    ensures FileRestores(s, committed, cut, limit, tag,
                         StoreFile.StoreImage(s.epoch, PayloadBytes(s, committed, cut), tag))
  {
    hide PayloadBytes, StoreFile.StoreImage, DecodePayload, PayloadFor, AllReadable;
    var bytes := PayloadBytes(s, committed, cut);
    var file := StoreFile.StoreImage(s.epoch, bytes, tag);
    assert TakenFrom(file, limit, tag, s.epoch, bytes);
    forall epoch: U64, payload | TakenFrom(file, limit, tag, epoch, payload)
      ensures epoch == s.epoch && RestoresExactly(s, committed, cut, payload)
    {
      StoreFile.ImageUnique(epoch, payload, s.epoch, bytes, tag);
    }
  }

  /** Saving is refused exactly when the payload is over the record limit, which is exactly when the file reader would
      refuse the image; otherwise the file gives back what the state allows. */
  ghost predicate FileExact(s: State, committed: nat, cut: Cut, limit: U32, tag: seq<Byte> -> StoreFile.Tag) {
    hide PayloadBytes, StoreFile.StoreImage, StoreFile.IsImage, FileRestores;
    Counts(s.epoch) &&
    var bytes, file := PayloadBytes(s, committed, cut), SaveFile(s, committed, cut, limit, tag);
    && (file.None? <==> |bytes| > limit)
    && (|bytes| < 0x1_00000000 ==>
          (file.Some? <==> StoreFile.IsImage(StoreFile.StoreImage(s.epoch, bytes, tag), limit, tag)))
    && (file.Some? ==> FileRestores(s, committed, cut, limit, tag, file.value))
  }

  lemma FileIsExact(s: State, committed: nat, cut: Cut, limit: U32, tag: seq<Byte> -> StoreFile.Tag)
    requires ReadsBack(s, committed, cut) && Counts(s.epoch)
    ensures FileExact(s, committed, cut, limit, tag)
  {
    hide PayloadBytes, StoreFile.StoreImage, StoreFile.IsImage, FileRestores, ReadsBack;
    var bytes := PayloadBytes(s, committed, cut);
    if |bytes| < 0x1_00000000 { StoreFile.AcceptedExactly(s.epoch, bytes, limit, tag); }
    if |bytes| <= limit { FileRead(s, committed, cut, limit, tag); }
  }

  /** From state to file and back, in every reachable state: saving is refused exactly when the payload is over the record
      limit, which is exactly when the file reader would refuse the image; otherwise the file is accepted, and the epoch
      and the payload taken from it are those of the state, the payload being decoded to everything that was written
      exactly when every group is readable. */
  lemma SavedFileReadsBack(run: Run, i: nat, committed: nat, cut: Cut, limit: U32, tag: seq<Byte> -> StoreFile.Tag)
    requires IsRun(run) && i < |run.states| && Writable(run.states[i], committed) && Counts(run.states[i].epoch)
    ensures FileExact(run.states[i], committed, cut, limit, tag)
  {
    hide *;
    ReachableStatesReadBack(run, i, committed, cut);
    FileIsExact(run.states[i], committed, cut, limit, tag);
  }

  /** Right after a spoiling revalidation the state is refused by its own reader. */
  lemma SpoiledStateIsLost(run: Run, i: nat, committed: nat, cut: Cut)
    requires IsRun(run) && i < |run.events| && Writable(run.states[i + 1], committed)
    requires SpoilsAt(run, i) && Unspoiled(run, i)
    ensures Lost(run.states[i + 1], committed, cut)
  {
    hide AllInWords, DecodePayload, PayloadBytes, PayloadFor, Savable, Next, SpoilingStep;
    PricedUntilSpoiled(run, i);
    RunSavable(run, i);
    assert Leads(run, i);
    SpoiledExactly(run.states[i], run.events[i].step);
    ReachableStatesReadBack(run, i + 1, committed, cut);
    UnpricedIsUnreadable(run.states[i + 1]);
  }

  lemma UnpricedIsUnreadable(s: State)
    requires !AllPriced(s.groups)
    ensures !AllReadable(s)
  {
    hide Priced;
  }

  /** The payload determines the groups: two states with the same payload have the same groups, unless digests collide. */
  lemma SamePayloadSameGroups(s: State, s': State, committed: nat, committed': nat, cut: Cut)
    requires Inv(s) && Inv(s') && PayloadFor(s, committed, cut).groups == PayloadFor(s', committed', cut).groups
    requires forall a, b :: a in s.groups && b in s'.groups ==> NoCollision(cut, s.groups[a], s'.groups[b])
    ensures s.groups == s'.groups
  {
    hide GroupOk, NoCollision, StoredFor, GroupList, AttemptList;
    forall id | id in s.groups ensures id in s'.groups && s'.groups[id] == s.groups[id] {
      var i := ListsGroup(s.groups, cut, id);
      var b := ListedGroup(s'.groups, cut, i);
      GroupDetermined(s.groups[id], s'.groups[b], cut);
    }
    forall id | id in s'.groups ensures id in s.groups {
      var i := ListsGroup(s'.groups, cut, id);
      var a := ListedGroup(s.groups, cut, i);
      GroupDetermined(s.groups[a], s'.groups[id], cut);
    }
  }
}

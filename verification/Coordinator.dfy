/** The coordinator process: load, advance the epoch, save, then serve, with a crash possible at any moment. */
module Coordinator {
  import opened Prelude
  import opened Records
  import opened Groups
  import opened Governor
  import opened Fencing

  /** How far an incarnation of the process has come. */
  datatype Phase = Down | Loaded | Prepared | Serving

  /** The store file, the process, whether its incarnation overlooked a file that is there, and the epochs of the
      incarnations that began to serve, oldest first. */
  datatype World = World(disk: Option<Image>, phase: Phase, blind: bool, governor: State, served: seq<nat>)

  datatype Act =
    | Start(found: bool, readable: bool)
    | Advance
    | Persist(written: bool)
    | Handle(step: Step, saved: bool)
    | Crash

  const FIRST_EPOCH: nat := 1

  function NewGovernor(limits: Limits): State {
    State(limits, FIRST_EPOCH, map[], map[], {}, map[], [], map[])
  }

  /** A file that is there but cannot be decoded, or that is refused, ends the incarnation. The program ignores an error
      of the test whether the file exists, and then starts as if there were none. */
  ghost function Started(w: World, limits: Limits, found: bool, readable: bool): World {
    if w.disk.None? || !found then w.(phase := Prepared, blind := w.disk.Some?, governor := NewGovernor(limits))
    else
      var loaded := Load(NewGovernor(limits), w.disk.value);
      if !readable || loaded.outcome != CREATED then w.(phase := Down)
      else w.(phase := Loaded, blind := false, governor := loaded.state)
  }

  /** One act of the process or of its environment. A write replaces the whole file or fails and changes nothing; the
      server handles requests, notices, registrations and fences, and never advances the epoch. */
  ghost predicate Acts(w: World, act: Act, w': World) {
    match act
    case Start(found, readable) =>
      w.phase.Down? && exists limits: Limits :: limits.Coherent() && w' == Started(w, limits, found, readable)
    case Advance =>
      && w.phase.Loaded? && w.disk.Some?
      && w' == w.(phase := Prepared, governor := SetEpoch(w.governor, w.disk.value.epoch + 1).state)
    case Persist(written) =>
      && w.phase.Prepared?
      && w' == if written
               then w.(phase := Serving, disk := Some(Save(w.governor)), served := w.served + [w.governor.epoch])
               else w.(phase := Down)
    case Handle(step, saved) =>
      && w.phase.Serving? && !step.OnEpoch?
      && var next := Next(w.governor, step).state;
         w' == w.(governor := next, disk := if saved then Some(Save(next)) else w.disk)
    case Crash => w' == w.(phase := Down)
  }

  datatype History = History(worlds: seq<World>, acts: seq<Act>)

  /** A history starts with a process that is down and has never served, whatever the file holds. */
  ghost predicate IsHistory(h: History) {
    && |h.worlds| == |h.acts| + 1
    && h.worlds[0].phase.Down? && h.worlds[0].served == []
    && forall i :: 0 <= i < |h.acts| ==> Acts(h.worlds[i], h.acts[i], h.worlds[i + 1])
  }

  predicate Increasing(epochs: seq<nat>) {
    forall i, j :: 0 <= i < j < |epochs| ==> epochs[i] < epochs[j]
  }

  /** An incarnation that overlooked the file begins to serve although others served before. */
  predicate Restarts(w: World, act: Act) {
    act == Persist(true) && w.phase.Prepared? && w.blind && w.served != []
  }

  /** Whatever happened, no incarnation serves below the first epoch. */
  ghost predicate Positive(w: World) {
    && (forall i :: 0 <= i < |w.served| ==> FIRST_EPOCH <= w.served[i])
    && (w.phase.Loaded? || w.phase.Prepared? ==> FIRST_EPOCH <= w.governor.epoch)
    && (w.phase.Prepared? && w.blind ==> w.governor.epoch == FIRST_EPOCH)
    && (w.phase.Loaded? ==> !w.blind)
  }

  /** No incarnation served under an epoch above the one on disk, and one that is about to serve is above them all unless
      it overlooked the file. */
  ghost predicate EpochsOk(w: World) {
    && Increasing(w.served)
    && (w.served != [] ==> w.disk.Some? && w.served[|w.served| - 1] <= w.disk.value.epoch)
    && (w.phase.Loaded? ==> w.disk.Some? && w.governor.epoch == w.disk.value.epoch)
    && (w.phase.Prepared? && !w.blind ==> (w.served != [] ==> w.served[|w.served| - 1] < w.governor.epoch))
    && (w.phase.Serving? ==>
          w.served != [] && w.governor.epoch == w.served[|w.served| - 1] && w.disk.value.epoch == w.governor.epoch)
  }

  lemma ServingKeepsEpoch(s: State, step: Step)
    requires !step.OnEpoch?
    ensures Next(s, step).state.epoch == s.epoch
  {
    hide Serve, NoticeGroup, FencedGroup, AuthorizeUpstream;
  }

  lemma StartKeepsEpochs(w: World, limits: Limits, found: bool, readable: bool)
    requires Positive(w) && w.phase.Down?
    ensures Positive(Started(w, limits, found, readable))
    ensures EpochsOk(w) ==> EpochsOk(Started(w, limits, found, readable))
  {
    hide RecoveredGroup;
  }

  lemma AdvanceKeepsEpochs(w: World, w': World)
    requires Positive(w) && Acts(w, Advance, w')
    ensures Positive(w') && (EpochsOk(w) ==> EpochsOk(w'))
  {
    hide EpochGroup, Next, Load;
  }

  lemma PersistKeepsEpochs(w: World, written: bool, w': World)
    requires Positive(w) && Acts(w, Persist(written), w')
    ensures Positive(w') && (EpochsOk(w) && !Restarts(w, Persist(written)) ==> EpochsOk(w'))
    ensures Restarts(w, Persist(written)) ==> !Increasing(w'.served)
  {
    hide Next, SetEpoch, Load;
    if Restarts(w, Persist(written)) {
      var n := |w.served| - 1;
      assert w'.served[n] == w.served[n] && w'.served[n + 1] == FIRST_EPOCH;
    }
  }

  lemma HandleKeepsEpochs(w: World, step: Step, saved: bool, w': World)
    requires Positive(w) && Acts(w, Handle(step, saved), w')
    ensures Positive(w') && (EpochsOk(w) ==> EpochsOk(w'))
  {
    hide Next, EpochsOk, Positive;
    ServingKeepsEpoch(w.governor, step);
    SameEpochOk(w, Next(w.governor, step).state, saved, w');
  }

  lemma SameEpochOk(w: World, next: State, saved: bool, w': World)
    requires Positive(w) && w.phase.Serving? && next.epoch == w.governor.epoch
    requires w' == w.(governor := next, disk := if saved then Some(Save(next)) else w.disk)
    ensures Positive(w') && (EpochsOk(w) ==> EpochsOk(w'))
  {
  }

  lemma CrashKeepsEpochs(w: World)
    requires Positive(w)
    ensures Positive(w.(phase := Down)) && (EpochsOk(w) ==> EpochsOk(w.(phase := Down)))
  {
  }

  lemma ServedGrows(w: World, act: Act, w': World)
    requires Acts(w, act, w')
    ensures w.served <= w'.served
  {
    hide Next, Load, SetEpoch;
  }

  lemma ActKeepsEpochs(w: World, act: Act, w': World)
    requires Positive(w) && Acts(w, act, w')
    ensures Positive(w') && (EpochsOk(w) && !Restarts(w, act) ==> EpochsOk(w'))
    ensures Restarts(w, act) ==> !Increasing(w'.served)
  {
    hide EpochsOk, Next, Load, SetEpoch, Positive, Increasing;
    match act
    case Start(found, readable) =>
      var limits: Limits :| limits.Coherent() && w' == Started(w, limits, found, readable);
      StartKeepsEpochs(w, limits, found, readable);
    case Advance => AdvanceKeepsEpochs(w, w');
    case Persist(written) => PersistKeepsEpochs(w, written, w');
    case Handle(step, saved) => HandleKeepsEpochs(w, step, saved, w');
    case Crash => CrashKeepsEpochs(w);
  }

  lemma FirstWorldOk(w: World)
    requires w.phase.Down? && w.served == []
    ensures EpochsOk(w) && Positive(w)
  {
  }

  /** Before world i, no incarnation that overlooked the file began to serve after others. */
  ghost predicate NeverRestarts(h: History, i: nat)
    requires i <= |h.acts| < |h.worlds|
  {
    forall k :: 0 <= k < i ==> !Restarts(h.worlds[k], h.acts[k])
  }

  lemma {:induction false} HistoryOk(h: History, i: nat)
    requires IsHistory(h) && i < |h.worlds|
    ensures Positive(h.worlds[i]) && (NeverRestarts(h, i) ==> EpochsOk(h.worlds[i]))
    decreases i
  {
    hide EpochsOk, Acts, Positive;
    if i == 0 {
      FirstWorldOk(h.worlds[0]);
    } else {
      HistoryOk(h, i - 1);
      ActKeepsEpochs(h.worlds[i - 1], h.acts[i - 1], h.worlds[i]);
    }
  }

  lemma PrefixIncreases(a: seq<nat>, b: seq<nat>)
    requires a <= b && Increasing(b)
    ensures Increasing(a)
  {
    forall i, j | 0 <= i < j < |a| ensures a[i] < a[j] { assert b[i] < b[j]; }
  }

  lemma {:induction false} ServedOnlyGrows(h: History, j: nat, i: nat)
    requires IsHistory(h) && j <= i < |h.worlds|
    ensures h.worlds[j].served <= h.worlds[i].served
    decreases i
  {
    hide Acts;
    if j < i {
      ServedOnlyGrows(h, j, i - 1);
      ServedGrows(h.worlds[i - 1], h.acts[i - 1], h.worlds[i]);
    }
  }

  /** The epochs under which incarnations serve are strictly increasing, wherever crashes and failed writes occur, if and
      only if no incarnation overlooked the file and served after others. */
  lemma ServingEpochsIncrease(h: History, i: nat)
    requires IsHistory(h) && i < |h.worlds|
    ensures Increasing(h.worlds[i].served) <==> NeverRestarts(h, i)
  {
    hide Acts, Positive, Increasing, Restarts;
    HistoryOk(h, i);
    if NeverRestarts(h, i) {
      OkIncreases(h.worlds[i]);
    } else {
      var k :| 0 <= k < i && Restarts(h.worlds[k], h.acts[k]);
      HistoryOk(h, k);
      ActKeepsEpochs(h.worlds[k], h.acts[k], h.worlds[k + 1]);
      ServedOnlyGrows(h, k + 1, i);
      if Increasing(h.worlds[i].served) { PrefixIncreases(h.worlds[k + 1].served, h.worlds[i].served); }
    }
  }

  lemma OkIncreases(w: World)
    requires EpochsOk(w)
    ensures Increasing(w.served)
  {
  }

  const LIMITS := Limits(4, 4, 16, 8, 8, 4, 4, 4, 4)

  /** A history in which two incarnations serve under the first epoch: the second one cannot tell that the file is there,
      and its first write replaces the file. */
  lemma RestartCanRepeatEpoch() returns (h: History)
    ensures IsHistory(h) && |h.acts| == 5 && h.worlds[5].served == [FIRST_EPOCH, FIRST_EPOCH]
    ensures h.worlds[3].disk.Some? && h.acts[3] == Start(false, true) && h.worlds[5].disk == Some(Save(NewGovernor(LIMITS)))
  {
    var first := NewGovernor(LIMITS);
    hide Load, Next, SetEpoch, NewGovernor;
    var file := Some(Save(first));
    var w0 := World(None, Down, false, first, []);
    var w1 := w0.(phase := Prepared);
    var w2 := w1.(phase := Serving, disk := file, served := [first.epoch]);
    var w3 := w2.(phase := Down);
    var w4 := w3.(phase := Prepared, blind := true);
    var w5 := w4.(phase := Serving, served := [first.epoch, first.epoch]);
    FirstGovernor();
    assert Acts(w0, Start(true, true), w1) && Acts(w3, Start(false, true), w4);
    assert [] + [first.epoch] == [first.epoch];
    assert Acts(w1, Persist(true), w2) && Acts(w2, Crash, w3);
    assert w4.served + [first.epoch] == w5.served;
    assert Acts(w4, Persist(true), w5);
    h := History([w0, w1, w2, w3, w4, w5], [Start(true, true), Persist(true), Crash, Start(false, true), Persist(true)]);
  }

  lemma FirstGovernor()
    ensures LIMITS.Coherent() && NewGovernor(LIMITS).epoch == FIRST_EPOCH
  {
  }

  /** The epoch a request, a notice or a registration is stamped with. */
  function Stamp(step: Step): Option<nat> {
    match step
    case OnRequest(r, _) => Some(r.authority.epoch)
    case OnNotice(n, _) => Some(n.epoch)
    case OnRegister(e, _) => Some(e)
    case OnFence(_, _) => None
    case OnEpoch(_) => None
  }

  /** Anything stamped with another epoch is refused and changes nothing. */
  lemma OtherEpochsRefused(s: State, step: Step)
    requires Stamp(step).Some? && Stamp(step).value != s.epoch
    ensures Next(s, step).state == s
    ensures Next(s, step).outcome == STALE_EPOCH || Next(s, step).outcome == MALFORMED_REQUEST
  {
    hide Finish, Refresh, NoticeGroup, CheckExpected, HandleAttempt, CheckCreation, PayloadOf;
    match step
    case OnRequest(r, up) =>
      assert Authorize(s, r.authority, MUTATE_GROUP, r.group).Some?;
    case OnNotice(n, up) =>
    case OnRegister(e, reg) =>
  }

  /** So nothing stamped with the epoch of an earlier incarnation is ever accepted by a later one, as long as none
      overlooked the file. */
  lemma EarlierEpochsRefused(h: History, i: nat, earlier: nat)
    requires IsHistory(h) && i < |h.acts| && h.acts[i].Handle? && Stamp(h.acts[i].step) == Some(earlier)
    requires exists j :: 0 <= j < |h.worlds[i].served| - 1 && h.worlds[i].served[j] == earlier
    requires NeverRestarts(h, i)
    ensures h.worlds[i + 1].governor == h.worlds[i].governor
    ensures !Next(h.worlds[i].governor, h.acts[i].step).outcome.Accepted()
  {
    hide Next;
    HistoryOk(h, i);
    assert Acts(h.worlds[i], h.acts[i], h.worlds[i + 1]);
    OtherEpochsRefused(h.worlds[i].governor, h.acts[i].step);
  }
}

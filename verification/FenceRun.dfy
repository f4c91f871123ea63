/** A concrete run in which a fence does not hold: the table of fenced boots is full, so the fenced boot just registers
    again. */
module FenceRun {
  import opened Prelude
  import opened Records
  import opened Groups
  import opened Governor
  import opened Runs
  import opened Fencing
  import opened ExampleRuns

  const ONE_PUBLISHER := LIMITS.(maxPublishers := 1)
  const START := EMPTY_STATE.(limits := ONE_PUBLISHER)
  const THIRD := REGISTRATION.(boot := 3)

  function At(publishers: map<Id, Registration>, fenced: set<Id>): State {
    START.(publishers := publishers, fenced := fenced)
  }

  lemma Steps()
    ensures Next(START, OnRegister(1, REGISTRATION)).state == At(map[PUBLISHER := REGISTRATION], {})
    ensures Next(At(map[PUBLISHER := REGISTRATION], {}), OnRegister(1, THIRD)).state == At(map[PUBLISHER := THIRD], {BOOT})
    ensures Next(At(map[PUBLISHER := THIRD], {BOOT}), OnFence(PUBLISHER, 3)) == Answer(At(map[], {BOOT}), FENCED)
    ensures Next(At(map[], {BOOT}), OnRegister(1, THIRD)) == Answer(At(map[PUBLISHER := THIRD], {BOOT}), REGISTERED)
  {
    hide FencedGroup;
    assert |{BOOT}| == 1;
    assert map[PUBLISHER := THIRD] - {PUBLISHER} == map[];
  }

  lemma StartsBlank()
    ensures IsRun(Run([START], []))
  {
  }

  /** Four steps: a boot is superseded and takes the only place in the table; the next boot is fenced with success and
      registers again at once, with all the authority it had. */
  lemma FencedBootComesBack() returns (run: Run)
    ensures IsRun(run) && |run.events| == 4
    ensures run.events[2] == Live(OnFence(PUBLISHER, 3)) && run.events[3] == Live(OnRegister(1, THIRD))
    ensures Next(run.states[2], OnFence(PUBLISHER, 3)).outcome == FENCED
    ensures Next(run.states[3], OnRegister(1, THIRD)).outcome == REGISTERED && run.states[4] == run.states[2]
  {
    hide Next, IsRun;
    StartsBlank();
    Steps();
    var s1, s2, s3 := At(map[PUBLISHER := REGISTRATION], {}), At(map[PUBLISHER := THIRD], {BOOT}), At(map[], {BOOT});
    var run1 := Extended(Run([START], []), OnRegister(1, REGISTRATION), s1);
    ExtendedRun(Run([START], []), OnRegister(1, REGISTRATION), START);
    var run2 := Extended(run1, OnRegister(1, THIRD), s2);
    ExtendedRun(run1, OnRegister(1, THIRD), s1);
    var run3 := Extended(run2, OnFence(PUBLISHER, 3), s3);
    ExtendedRun(run2, OnFence(PUBLISHER, 3), s2);
    run := Extended(run3, OnRegister(1, THIRD), s2);
    ExtendedRun(run3, OnRegister(1, THIRD), s3);
  }
}

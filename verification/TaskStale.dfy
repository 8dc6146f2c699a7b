/** Two runs in which an AgentTask settles on a report that its current Pod did not
    make: one of a Pod lost within the attempt, and one of an attempt that a retry
    has ended. */
module TaskStale {
  import opened Prelude
  import opened TaskMachine
  import opened TaskProofs
  import opened TaskAttribution

  const SPEC := Spec(1, true, {}, false)
  const CREATE := Input(true, false, false, false, false, false, false, false, false, false, 1)
  const DEADLINE := CREATE.(deadline := true)
  const REPLACE := CREATE.(uid := 2)
  const REPORT := map[STATUS_KEY := SUCCESS]
  const PATCH := Patch(1, REPORT, 0)
  const STARTING := Pod(1, false, false, Active)

  /** The first Pod is gone and its report is in the mailbox, after so many retries. */
  function Lost(retries: nat, current: Option<Uid>): World {
    World(Status(Provisioning, retries, Some(1), current, false, false, false, "", map[]),
          [], REPORT, Rest, false, multiset{}, map[1 := 0], {1})
  }

  // ---- the replacement settles on it ------------------------------------------------

  const UP := Pod(2, false, true, Active)
  const REPLACEMENT: seq<Act> :=
    [Begin(REPLACE), Go(REPLACE), PodChange(UP), Begin(REPLACE), Begin(REPLACE), Go(REPLACE)]

  function Recorded(retries: nat): World {
    var w := Lost(retries, Some(2));
    w.(pods := [Pod(2, false, false, Active)], born := map[1 := 0, 2 := retries],
       status := w.status.(podName := Some(2)))
  }

  function RunningOn(retries: nat): World {
    var w := Recorded(retries);
    w.(pods := [UP], status := w.status.(started := true, phase := Running))
  }

  function Done(retries: nat): World {
    var w := RunningOn(retries);
    w.(status := w.status.(phase := Succeeded, completed := true, report := SUCCESS))
  }

  lemma IsRecorded(retries: nat, current: Option<Uid>)
    ensures Step(SPEC, Step(SPEC, Lost(retries, current), Begin(REPLACE)), Go(REPLACE)) == Recorded(retries)
  {
    var w := Lost(retries, current);
    assert Step(SPEC, w, Begin(REPLACE)) ==
      w.(pods := [Pod(2, false, false, Active)], born := map[1 := 0, 2 := retries], pc := Recording(2));
  }

  lemma IsRunning(retries: nat)
    ensures Step(SPEC, Step(SPEC, Recorded(retries), PodChange(UP)), Begin(REPLACE)) == RunningOn(retries)
  {
    var w := Step(SPEC, Recorded(retries), PodChange(UP));
    assert w.pods == [UP];
    assert OwnedPod([UP]) == Some(UP);
  }

  lemma NoArtifacts()
    ensures ParseCompletion(REPORT) == Payload(SUCCESS, "", map[])
  {
    assert STATUS_KEY[1] == 't' && MESSAGE_KEY[1] == 'e';
    forall n ensures ARTIFACT_PREFIX + n !in REPORT {
      assert (ARTIFACT_PREFIX + n)[0] == 'a' && STATUS_KEY[0] == 's';
    }
    assert ArtifactNames(REPORT) == {};
  }

  lemma IsDone(retries: nat)
    ensures Step(SPEC, Step(SPEC, RunningOn(retries), Begin(REPLACE)), Go(REPLACE)) == Done(retries)
  {
    NoArtifacts();
    hide ParseCompletion;
    assert OwnedPod([UP]) == Some(UP);
    var w := RunningOn(retries);
    assert Step(SPEC, w, Begin(REPLACE)) == w.(status := w.status.(phase := Completing), pc := Settling(Some(UP)));
  }

  lemma TwoSteps(acts: seq<Act>, a: Act, b: Act)
    ensures Run(SPEC, acts + [a, b]) == Step(SPEC, Step(SPEC, Run(SPEC, acts), a), b)
  {
    hide Run, Step;
    RunSnoc(SPEC, acts, a);
    RunSnoc(SPEC, acts + [a], b);
    assert acts + [a] + [b] == acts + [a, b];
  }

  lemma ReplacementSettles(acts: seq<Act>, retries: nat, current: Option<Uid>)
    requires Run(SPEC, acts) == Lost(retries, current)
    ensures Run(SPEC, acts + REPLACEMENT) == Done(retries)
  {
    hide Run, Step;
    var r := REPLACEMENT;
    TwoSteps(acts, r[0], r[1]);
    TwoSteps(acts + [r[0], r[1]], r[2], r[3]);
    TwoSteps(acts + [r[0], r[1]] + [r[2], r[3]], r[4], r[5]);
    IsRecorded(retries, current);
    IsRunning(retries);
    IsDone(retries);
    assert acts + [r[0], r[1]] + [r[2], r[3]] + [r[4], r[5]] == acts + REPLACEMENT;
  }

  // ---- the first Pod is accepted --------------------------------------------------------

  const ACCEPTED: World :=
    World(Status(Provisioning, 0, Some(1), Some(1), false, false, false, "", map[]),
          [STARTING], map[], Rest, false, multiset{PATCH}, map[1 := 0], {})
  const FIRST: seq<Act> := [Begin(CREATE), Go(CREATE), Check(1, REPORT)]

  lemma FirstPodAccepted()
    ensures Run(SPEC, FIRST) == ACCEPTED
  {
    hide Run, Step;
    assert Run(SPEC, []) == INIT by { StartsEmpty(); }
    TwoSteps([], Begin(CREATE), Go(CREATE));
    RunSnoc(SPEC, [] + [Begin(CREATE), Go(CREATE)], Check(1, REPORT));
    assert [] + [Begin(CREATE), Go(CREATE)] + [Check(1, REPORT)] == FIRST;
    FirstCreated();
    FirstRecorded();
    FirstChecked();
  }

  const CREATED: World := INIT.(pods := [STARTING], born := map[1 := 0], pc := Recording(1))
  const RECORDED: World := ACCEPTED.(flight := multiset{})

  lemma StartsEmpty()
    ensures Run(SPEC, []) == INIT
  {}

  lemma FirstCreated()
    ensures Step(SPEC, INIT, Begin(CREATE)) == CREATED
  {
    hide GoOn, ParseCompletion, Judge, DriveRunning, DriveCompleting;
  }

  lemma FirstRecorded()
    ensures Step(SPEC, CREATED, Go(CREATE)) == RECORDED
  {
    hide BeginPass, Judge, DriveCompleting;
  }

  lemma FirstChecked()
    ensures Step(SPEC, RECORDED, Check(1, REPORT)) == ACCEPTED
  {
    hide BeginPass, GoOn;
    assert STATUS_KEY in REPORT;
    assert multiset{} + multiset{PATCH} == multiset{PATCH};
  }

  // ---- lost within the attempt ------------------------------------------------------------

  const LOSES_POD: seq<Act> := [Land(PATCH), PodGone(1)]

  lemma PodLost()
    ensures Step(SPEC, Step(SPEC, ACCEPTED, Land(PATCH)), PodGone(1)) == Lost(0, Some(1))
  {
    assert DropPod([STARTING], 1) == DropPod([], 1);
    assert multiset{PATCH} - multiset{PATCH} == multiset{};
    assert map[] + REPORT == REPORT;
  }

  /** The first Pod reports before it is seen Ready and is lost; its replacement
      has reported nothing when the AgentTask settles Succeeded on the old report. */
  lemma StaleReportSettles()
    ensures var w := Run(SPEC, FIRST + LOSES_POD + REPLACEMENT);
            && w.status.phase == Succeeded && w.status.report == SUCCESS
            && w.status.currentUid == Some(2) && w.writers == {1}
    ensures !NoneMixed(SPEC, FIRST + LOSES_POD + REPLACEMENT)
  {
    hide Run, Step, NoneMixed;
    FirstPodAccepted();
    TwoSteps(FIRST, LOSES_POD[0], LOSES_POD[1]);
    PodLost();
    ReplacementSettles(FIRST + LOSES_POD, 0, Some(1));
    RecordingDecides(SPEC, FIRST + LOSES_POD + REPLACEMENT);
  }

  // ---- landed after the retry ---------------------------------------------------------------

  const RETRIED: seq<Act> := [Begin(DEADLINE), Go(DEADLINE), Go(DEADLINE), Go(DEADLINE)]
  const LANDS_LATE: seq<Act> := [PodGone(1), Land(PATCH)]
  const ENDED := Status(Failed, 1, Some(1), None, false, false, false, "", map[])
  const REOPENED: World :=
    ACCEPTED.(status := ENDED.(phase := Provisioning), pods := [STARTING.(deleting := true)])

  lemma RetryCounted()
    ensures Step(SPEC, Step(SPEC, ACCEPTED, Begin(DEADLINE)), Go(DEADLINE)) ==
            ACCEPTED.(status := ENDED, pods := [STARTING.(deleting := true)], pc := Resetting)
  {
    assert OwnedPod([STARTING]) == Some(STARTING);
    assert Step(SPEC, ACCEPTED, Begin(DEADLINE)) == ACCEPTED.(status := ENDED, pc := Deleting);
    assert MarkDeleting([STARTING], 1) == [STARTING.(deleting := true)];
  }

  lemma RetryReopened()
    ensures var w := ACCEPTED.(status := ENDED, pods := [STARTING.(deleting := true)], pc := Resetting);
            Step(SPEC, Step(SPEC, w, Go(DEADLINE)), Go(DEADLINE)) == REOPENED
  {}

  lemma LandedLate()
    ensures Step(SPEC, Step(SPEC, REOPENED, PodGone(1)), Land(PATCH)) == Lost(1, None)
  {
    assert DropPod([STARTING.(deleting := true)], 1) == DropPod([], 1);
    assert multiset{PATCH} - multiset{PATCH} == multiset{};
    assert map[] + REPORT == REPORT;
  }

  /** The gateway accepts the first Pod's completion, the deadline counts a retry, the
      Pod is deleted, the mailbox found empty and the AgentTask reopened; then the
      patch lands, and the second attempt settles Succeeded on the first one's report. */
  lemma LateReportSettles()
    ensures var acts := FIRST + RETRIED + LANDS_LATE + REPLACEMENT;
            var w := Run(SPEC, acts);
            && w.status.phase == Succeeded && w.status.retries == 1
            && w.writers == {1} && Get(w.born, 1) == Some(0)
            && !NoneLate(SPEC, acts)
  {
    hide Run, Step, NoneLate, AlwaysOwned;
    FirstPodAccepted();
    var r, l := RETRIED, LANDS_LATE;
    TwoSteps(FIRST, r[0], r[1]);
    RetryCounted();
    TwoSteps(FIRST + [r[0], r[1]], r[2], r[3]);
    RetryReopened();
    assert FIRST + [r[0], r[1]] + [r[2], r[3]] == FIRST + RETRIED;
    TwoSteps(FIRST + RETRIED, l[0], l[1]);
    LandedLate();
    var acts := FIRST + RETRIED + LANDS_LATE + REPLACEMENT;
    ReplacementSettles(FIRST + RETRIED + LANDS_LATE, 1, None);
    CompletionAttribution(SPEC, acts);
    assert !AlwaysOwned(SPEC, acts) by { NotOwned(acts); }
  }

  lemma NotOwned(acts: seq<Act>)
    requires Run(SPEC, acts) == Done(1)
    ensures !AlwaysOwned(SPEC, acts)
  {
    hide Run, Step;
    assert 1 in Done(1).writers && !Current(Done(1), 1);
    assert AlwaysOwned(SPEC, acts) ==> AttemptOwned(Run(SPEC, acts));
  }
}

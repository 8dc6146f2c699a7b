/** How many Pods an AgentTask has when a pass lists them from a cache that lags
    (internal/controller/agenttask_controller.go:1038-1056). A Pod gets a generated
    name, so a create is not refused because another Pod is there. */
module TaskPods {
  import opened Prelude
  import opened TaskMachine
  import opened TaskProofs
  import opened TaskSenders
  import opened TaskStale

  /** A step with its list in step, or the beginning or continuation of a pass whose
      list does not show some of the Pods yet. */
  datatype LagAct =
    | Sighted(a: Act)
    | Lagging(i: Input, unseen: set<Uid>)
    | LaggingGo(j: Input, missed: set<Uid>)

  function Select(pods: seq<Pod>, uids: set<Uid>, shown: bool): (r: seq<Pod>)
    ensures |r| <= |pods|
  {
    if pods == [] then []
    else (if (pods[0].uid in uids) != shown then [pods[0]] else []) + Select(pods[1..], uids, shown)
  }

  lemma {:induction false} SelectSplits(pods: seq<Pod>, uids: set<Uid>)
    ensures |Select(pods, uids, true)| + |Select(pods, uids, false)| == |pods|
  {
    if pods != [] { SelectSplits(pods[1..], uids); }
  }

  /** The pass works on the Pods it sees; the others stay as they are. */
  function Seen(w: World, unseen: set<Uid>): World {
    w.(pods := Select(w.pods, unseen, true))
  }

  function Merged(w: World, unseen: set<Uid>, w': World): World {
    w'.(pods := Select(w.pods, unseen, false) + w'.pods)
  }

  function LagStep(spec: Spec, w: World, a: LagAct): World {
    match a
    case Sighted(b) => Step(spec, w, b)
    case Lagging(i, unseen) => if w.pc.Rest? then Merged(w, unseen, BeginPass(spec, Seen(w, unseen), i)) else w
    case LaggingGo(i, unseen) => Merged(w, unseen, GoOn(spec, Seen(w, unseen), i))
  }

  function LagRun(spec: Spec, acts: seq<LagAct>): World {
    if acts == [] then INIT else LagStep(spec, LagRun(spec, acts[..|acts| - 1]), acts[|acts| - 1])
  }

  /** The guard of the create, for a pass whose list shows none of the Pods there are:
      the AgentTask waits for its Pod, nothing holds or refuses it, and its Certificate
      is ready. */
  predicate CreatesBlind(w: World, a: LagAct) {
    && a.Lagging? && w.pc.Rest? && w.pods != [] && Select(w.pods, a.unseen, true) == []
    && !w.deleted && Waiting(w.status)
    && !a.i.held && !a.i.violation && !a.i.createRejected && a.i.certReady && a.i.uid !in w.born
  }

  /** The same guard for a list that is in step. */
  predicate Creates(w: World, i: Input) {
    && w.pods == [] && !w.deleted && Waiting(w.status)
    && !i.held && !i.violation && !i.createRejected && i.certReady && i.uid !in w.born
  }

  predicate SamePods(w: World, w': World) {
    w'.pods == w.pods && !w'.pc.Recording?
  }

  lemma FailPods(spec: Spec, w: World)
    ensures SamePods(w, FailOrRetry(spec, w))
  {}

  lemma CompletingPods(spec: Spec, w: World, pod: Option<Pod>, i: Input)
    ensures SamePods(w, DriveCompleting(spec, w, pod, i))
  {
    hide ParseCompletion, ValidArtifacts, FailOrRetry;
    var p := ParseCompletion(w.mailbox);
    FailPods(spec, w);
    FailPods(spec, w.(status := w.status.(artifacts := p.artifacts, report := p.status)));
  }

  lemma RunningPods(spec: Spec, w: World, i: Input)
    requires w.pc.Rest?
    ensures SamePods(w, DriveRunning(spec, w, i))
  {
    hide ParseCompletion, OwnedPod, FailOrRetry;
    FailPods(spec, w);
  }

  lemma JudgePods(spec: Spec, w: World, pod: Pod, i: Input)
    ensures SamePods(w, Judge(spec, w, pod, i))
  {
    hide FailOrRetry;
    FailPods(spec, w);
  }

  lemma ProvisioningPods(spec: Spec, w: World, i: Input)
    requires w.pc.Rest? && Waiting(w.status) && !w.deleted && !i.held
    ensures |DriveProvisioning(spec, w, i).pods| == if Creates(w, i) then 1 else |w.pods|
  {
    OwnedPodMember(w.pods);
    hide OwnedPod, FailOrRetry, Judge;
    FailPods(spec, w.(status := w.status.(rejected := true, podName := None)));
    if OwnedPod(w.pods).Some? { JudgePods(spec, w, OwnedPod(w.pods).value, i); }
  }

  /** A pass adds a Pod exactly under the guard of the create. */
  lemma BeginPods(spec: Spec, w: World, i: Input)
    requires w.pc.Rest?
    ensures |BeginPass(spec, w, i).pods| == if Creates(w, i) then 1 else |w.pods|
  {
    hide OwnedPod, DriveProvisioning, DriveRunning, DriveCompleting;
    if !w.deleted && !Retrying(w.status) && !Settled(w.status) && !i.held {
      match w.status.phase
      case Running => RunningPods(spec, w, i);
      case Completing => CompletingPods(spec, w, OwnedPod(w.pods), i);
      case _ => ProvisioningPods(spec, w, i);
    }
  }

  lemma GoOnPods(spec: Spec, w: World, i: Input)
    ensures |GoOn(spec, w, i).pods| == |w.pods|
  {
    hide OwnedPod, DriveCompleting, Judge;
    match w.pc
    case Judging(pod) => JudgePods(spec, w, pod, i);
    case Settling(pod) => CompletingPods(spec, w, pod, i);
    case _ =>
  }

  lemma LagStepPods(spec: Spec, w: World, a: LagAct)
    requires |w.pods| <= 1
    ensures |LagStep(spec, w, a).pods| <= 1 <==> !CreatesBlind(w, a)
  {
    hide BeginPass, GoOn, ChangePod, DropPod, MarkDeleting, Select;
    match a
    case Sighted(b) =>
      if b.Begin? && w.pc.Rest? { BeginPods(spec, w, b.i); }
      if b.Go? { GoOnPods(spec, w, b.j); }
    case Lagging(i, unseen) =>
      SelectSplits(w.pods, unseen);
      if w.pc.Rest? { BeginPods(spec, Seen(w, unseen), i); }
    case LaggingGo(i, unseen) =>
      SelectSplits(w.pods, unseen);
      GoOnPods(spec, Seen(w, unseen), i);
  }

  ghost predicate AlwaysOne(spec: Spec, acts: seq<LagAct>) {
    |LagRun(spec, acts).pods| <= 1 && (acts != [] ==> AlwaysOne(spec, acts[..|acts| - 1]))
  }

  ghost predicate NeverBlind(spec: Spec, acts: seq<LagAct>) {
    acts != [] ==>
      var front := acts[..|acts| - 1];
      NeverBlind(spec, front) && !CreatesBlind(LagRun(spec, front), acts[|acts| - 1])
  }

  /** An AgentTask never has two Pods in a run, however its lists lag, if and only if
      no pass reaches the create, free to make it, on a list that shows none of the
      Pods there are. */
  lemma {:induction false} OnePodIff(spec: Spec, acts: seq<LagAct>)
    ensures AlwaysOne(spec, acts) <==> NeverBlind(spec, acts)
  {
    if acts != [] {
      hide LagStep, CreatesBlind;
      var front := acts[..|acts| - 1];
      OnePodIff(spec, front);
      if AlwaysOne(spec, front) { LagStepPods(spec, LagRun(spec, front), acts[|acts| - 1]); }
    }
  }

  // ---- lists that show every Pod ---------------------------------------------------------

  /** The list of the step shows every Pod there is. */
  ghost predicate ShowsAll(w: World, a: LagAct) {
    match a
    case Sighted(_) => true
    case Lagging(_, unseen) => forall p | p in w.pods :: p.uid !in unseen
    case LaggingGo(_, unseen) => forall p | p in w.pods :: p.uid !in unseen
  }

  ghost predicate AlwaysShown(spec: Spec, acts: seq<LagAct>) {
    acts != [] ==>
      var front := acts[..|acts| - 1];
      AlwaysShown(spec, front) && ShowsAll(LagRun(spec, front), acts[|acts| - 1])
  }

  function Plain(a: LagAct): Act {
    match a
    case Sighted(b) => b
    case Lagging(i, _) => Begin(i)
    case LaggingGo(i, _) => Go(i)
  }

  function PlainRun(acts: seq<LagAct>): seq<Act> {
    if acts == [] then [] else PlainRun(acts[..|acts| - 1]) + [Plain(acts[|acts| - 1])]
  }

  lemma {:induction false} SelectAll(pods: seq<Pod>, uids: set<Uid>)
    requires forall p | p in pods :: p.uid !in uids
    ensures Select(pods, uids, true) == pods && Select(pods, uids, false) == []
  {
    if pods != [] {
      assert pods[0] in pods && forall p | p in pods[1..] :: p in pods;
      SelectAll(pods[1..], uids);
    }
  }

  lemma ShownIsPlain(spec: Spec, w: World, a: LagAct)
    requires ShowsAll(w, a)
    ensures LagStep(spec, w, a) == Step(spec, w, Plain(a))
  {
    hide BeginPass, GoOn, Select;
    match a
    case Sighted(_) =>
    case Lagging(i, unseen) =>
      SelectAll(w.pods, unseen);
      assert [] + BeginPass(spec, w, i).pods == BeginPass(spec, w, i).pods;
    case LaggingGo(i, unseen) =>
      SelectAll(w.pods, unseen);
      assert [] + GoOn(spec, w, i).pods == GoOn(spec, w, i).pods;
  }

  /** A run whose lists show every Pod is a run of the machine, so all that holds of
      those holds of it. */
  lemma {:induction false} ShownIsRun(spec: Spec, acts: seq<LagAct>)
    requires AlwaysShown(spec, acts)
    ensures LagRun(spec, acts) == Run(spec, PlainRun(acts))
  {
    if acts != [] {
      hide LagStep, Step, ShowsAll, Plain;
      var front, a := acts[..|acts| - 1], acts[|acts| - 1];
      ShownIsRun(spec, front);
      ShownIsPlain(spec, LagRun(spec, front), a);
      RunSnoc(spec, PlainRun(front), Plain(a));
    }
  }

  lemma LagSnoc(spec: Spec, acts: seq<LagAct>, a: LagAct)
    ensures LagRun(spec, acts + [a]) == LagStep(spec, LagRun(spec, acts), a)
  {
    assert (acts + [a])[..|acts|] == acts;
  }

  lemma CreatesSecond()
    ensures BeginPass(SPEC, RECORDED.(pods := []), REPLACE).pods == [Pod(2, false, false, Active)]
  {
    hide GoOn, ParseCompletion, Judge, DriveRunning, DriveCompleting;
  }

  lemma SeesNone()
    ensures Select([STARTING], {1}, true) == [] && Select([STARTING], {1}, false) == [STARTING]
  {
    assert [STARTING][1..] == [];
  }

  lemma LagsBehind()
    ensures LagStep(SPEC, RECORDED, Lagging(REPLACE, {1})).pods == [STARTING, Pod(2, false, false, Active)]
  {
    hide BeginPass, Select, Step, GoOn;
    SeesNone();
    CreatesSecond();
  }

  /** A pass that follows a create too soon for its list makes a second Pod. */
  lemma LaggingListCreatesTwo()
    ensures var acts := [Sighted(Begin(CREATE)), Sighted(Go(CREATE)), Lagging(REPLACE, {1})];
            LagRun(SPEC, acts).pods == [STARTING, Pod(2, false, false, Active)]
  {
    hide Step, BeginPass, GoOn, Select, LagRun;
    var a, b, d := Sighted(Begin(CREATE)), Sighted(Go(CREATE)), Lagging(REPLACE, {1});
    assert LagRun(SPEC, []) == INIT by { LagStart(); }
    LagSnoc(SPEC, [], a);
    LagSnoc(SPEC, [a], b);
    LagSnoc(SPEC, [a, b], d);
    assert [] + [a] == [a] && [a] + [b] == [a, b] && [a, b] + [d] == [a, b, d];
    FirstCreated();
    FirstRecorded();
    LagsBehind();
  }

  lemma LagStart()
    ensures LagRun(SPEC, []) == INIT
  {}

  // ---- what a second Pod leads to ----------------------------------------------------------

  const SECOND := Pod(2, false, false, Active)
  const BOTH: World := RECORDED.(
    pods := [STARTING, SECOND], born := map[1 := 0, 2 := 0],
    status := RECORDED.status.(podName := Some(2), currentUid := Some(2)))
  const COUNTED: World := BOTH.(status := ENDED, pc := Deleting)
  const REOPENED_BOTH: World :=
    BOTH.(status := ENDED.(phase := Provisioning), pods := [STARTING.(deleting := true), SECOND])
  const TWICE: seq<LagAct> := [Sighted(Begin(CREATE)), Sighted(Go(CREATE)), Lagging(REPLACE, {1}), Sighted(Go(REPLACE))]
  const AGAIN: seq<LagAct> :=
    [Sighted(Begin(DEADLINE)), Sighted(Go(DEADLINE)), Sighted(Go(DEADLINE)), Sighted(Go(DEADLINE)),
        Sighted(Go(DEADLINE)),
     Sighted(Begin(CREATE))]

  lemma BothRecorded()
    ensures LagStep(SPEC, LagStep(SPEC, RECORDED, Lagging(REPLACE, {1})), Sighted(Go(REPLACE))) == BOTH
  {
    hide Select;
    SeesNone();
    var w := LagStep(SPEC, RECORDED, Lagging(REPLACE, {1}));
    assert BeginPass(SPEC, RECORDED.(pods := []), REPLACE) ==
      RECORDED.(pods := [SECOND], born := map[1 := 0, 2 := 0], pc := Recording(2));
    assert w == BOTH.(status := RECORDED.status, pc := Recording(2));
  }

  lemma FirstFails()
    ensures Step(SPEC, Step(SPEC, BOTH, Begin(DEADLINE)), Go(DEADLINE)) == COUNTED
  {
    assert OwnedPod(BOTH.pods) == Some(STARTING);
    assert Step(SPEC, BOTH, Begin(DEADLINE)) ==
      BOTH.(status := BOTH.status.(podName := Some(1), currentUid := Some(1)), pc := Judging(STARTING));
  }

  lemma OnlyFirstDeleted()
    ensures Step(SPEC, COUNTED, Go(DEADLINE)) == REOPENED_BOTH.(status := ENDED, pc := Resetting)
  {
    hide BeginPass, Judge, DriveCompleting;
    assert OwnedPod(COUNTED.pods) == Some(STARTING);
    assert MarkDeleting(COUNTED.pods, 1) == REOPENED_BOTH.pods;
  }

  lemma ReopensBoth()
    ensures var w := REOPENED_BOTH.(status := ENDED, pc := Resetting);
            Step(SPEC, Step(SPEC, w, Go(DEADLINE)), Go(DEADLINE)) == REOPENED_BOTH
  {
    hide BeginPass, Judge, DriveCompleting, DeleteOldPod;
  }

  lemma SecondBecomesCurrent()
    ensures var w := Step(SPEC, REOPENED_BOTH, Begin(CREATE));
            w.status.currentUid == Some(2) && w.status.retries == 1 && w.born == map[1 := 0, 2 := 0]
  {
    hide Judge, DriveCompleting, DriveRunning, GoOn;
    var pods := REOPENED_BOTH.pods;
    assert pods[1..] == [SECOND] && OwnedPod([SECOND]) == Some(SECOND);
    assert OwnedPod(pods) == Some(SECOND);
  }

  lemma LagTwo(acts: seq<LagAct>, a: LagAct, b: LagAct)
    ensures LagRun(SPEC, acts + [a, b]) == LagStep(SPEC, LagStep(SPEC, LagRun(SPEC, acts), a), b)
  {
    hide LagRun, LagStep;
    LagSnoc(SPEC, acts, a);
    LagSnoc(SPEC, acts + [a], b);
    assert acts + [a] + [b] == acts + [a, b];
  }

  lemma IsSighted(w: World, a: Act)
    ensures LagStep(SPEC, w, Sighted(a)) == Step(SPEC, w, a)
  {}

  /** A retry deletes one of two Pods, and the other, of the attempt before, becomes the
      current Pod of the next: with lists that lag, reports need not be of the attempt
      even when none lands late. */
  lemma EarlierPodIsCurrent()
    ensures var w := LagRun(SPEC, TWICE + AGAIN);
            w.status.currentUid == Some(2) && w.status.retries == 1 && Get(w.born, 2) == Some(0)
            && w.flight == multiset{}
  {
    hide LagRun, LagStep, Step;
    var t := TWICE;
    LagStart();
    LagTwo([], t[0], t[1]);
    LagTwo([] + [t[0], t[1]], t[2], t[3]);
    assert [] + [t[0], t[1]] + [t[2], t[3]] == TWICE;
    IsSighted(INIT, Begin(CREATE));
    IsSighted(CREATED, Go(CREATE));
    FirstCreated();
    FirstRecorded();
    BothRecorded();
    RetriesOver();
  }

  lemma RetriesOver()
    requires LagRun(SPEC, TWICE) == BOTH
    ensures var w := LagRun(SPEC, TWICE + AGAIN);
            w.status.currentUid == Some(2) && w.status.retries == 1 && Get(w.born, 2) == Some(0)
            && w.flight == multiset{}
  {
    hide LagRun, LagStep, Step;
    var r := AGAIN;
    LagTwo(TWICE, r[0], r[1]);
    LagTwo(TWICE + [r[0], r[1]], r[2], r[3]);
    LagTwo(TWICE + [r[0], r[1]] + [r[2], r[3]], r[4], r[5]);
    assert TWICE + [r[0], r[1]] + [r[2], r[3]] + [r[4], r[5]] == TWICE + AGAIN;
    forall w, i ensures LagStep(SPEC, w, Sighted(Go(i))) == Step(SPEC, w, Go(i)) { IsSighted(w, Go(i)); }
    IsSighted(BOTH, Begin(DEADLINE));
    FirstFails();
    OnlyFirstDeleted();
    ReopensBoth();
    IsSighted(REOPENED_BOTH, Begin(CREATE));
    SecondBecomesCurrent();
    StaysOut(REOPENED_BOTH, Begin(CREATE));
  }

  lemma StaysOut(w: World, a: Act)
    requires a.Begin? && w.pc.Rest? && !w.status.completed && w.status.phase == Provisioning
    ensures Step(SPEC, w, a).flight == w.flight
  {
    hide OwnedPod, Judge, CreateRejected, GoOn, DriveRunning, DriveCompleting;
    RejectedCalm(SPEC, w, a.i);
    if OwnedPod(w.pods).Some? { JudgeCalm(SPEC, w, OwnedPod(w.pods).value, a.i); }
  }
}

/** What every run of the AgentTask machine keeps: its Pods and their attempts, the
    retry count, and the order of phases. */
module TaskProofs {
  import opened Prelude
  import opened TaskMachine

  // ---- the invariant ---------------------------------------------------------

  predicate Waiting(s: Status) {
    s.phase == Pending || s.phase == Provisioning
  }

  /** A Pod of the current attempt. */
  predicate Current(w: World, uid: Uid) {
    uid in w.born && w.born[uid] == w.status.retries
  }

  ghost predicate PodsInv(w: World) {
    && |w.pods| <= 1
    && (forall p | p in w.pods :: p.uid in w.born && w.born[p.uid] <= w.status.retries)
    && (!Retrying(w.status) ==> forall p | p in w.pods && !p.deleting :: Current(w, p.uid))
  }

  ghost predicate UidInv(spec: Spec, w: World) {
    && (!spec.agentReported ==> w.status.currentUid.None?)
    && (spec.agentReported && (w.status.phase in {Running, Completing} || w.pc.Judging?) ==> w.status.currentUid.Some?)
    && (w.status.currentUid.Some? ==> Current(w, w.status.currentUid.value) && !Retrying(w.status))
  }

  ghost predicate PcInv(w: World) {
    match w.pc
    case Rest => true
    case Recording(uid) => Waiting(w.status) && Current(w, uid)
    case Judging(pod) => Waiting(w.status)
    case Settling(_) => w.status.phase == Completing
    case Deleting => Retrying(w.status)
    case Resetting => Retrying(w.status) && (forall p | p in w.pods :: p.deleting)
    case Reopening => Retrying(w.status) && (forall p | p in w.pods :: p.deleting)
    case Expiring => w.status.phase == Terminating
  }

  ghost predicate StatusInv(spec: Spec, s: Status) {
    && s.retries <= spec.backoffLimit
    && (s.completed ==> Settled(s))
    && (s.phase in {Succeeded, TimedOut, Terminating} ==> s.completed)
    && (s.report != "" ==> Settled(s))
    && (s.report == SUCCESS ==> s.artifacts.Keys == spec.declared)
    && (s.phase == Succeeded && s.report != "" ==> s.report == SUCCESS)
  }

  ghost predicate Inv(spec: Spec, w: World) {
    PodsInv(w) && UidInv(spec, w) && PcInv(w) && StatusInv(spec, w.status)
  }

  // ---- preservation ------------------------------------------------------------

  lemma {:induction false} OwnedPodMember(pods: seq<Pod>)
    ensures OwnedPod(pods).Some? ==> OwnedPod(pods).value in pods
    ensures OwnedPod(pods).None? <==> pods == []
    ensures OwnedPod(pods).Some? && OwnedPod(pods).value.deleting ==> forall p | p in pods :: p.deleting
  {
    if pods != [] { OwnedPodMember(pods[1..]); }
  }

  lemma RetryKeepsPods(spec: Spec, w: World)
    requires PodsInv(w) && !w.status.completed && w.status.retries < spec.backoffLimit
    ensures PodsInv(FailOrRetry(spec, w))
  {}

  lemma RetryKeepsRest(spec: Spec, w: World)
    requires w.status.retries < spec.backoffLimit && !w.status.completed
    ensures UidInv(spec, FailOrRetry(spec, w)) && PcInv(FailOrRetry(spec, w))
    ensures StatusInv(spec, FailOrRetry(spec, w).status)
  {}

  lemma FailOrRetryKeeps(spec: Spec, w: World)
    requires PodsInv(w) && UidInv(spec, w) && !Settled(w.status) && !Retrying(w.status)
    requires w.status.retries <= spec.backoffLimit && !w.status.completed
    requires w.status.report == SUCCESS ==> w.status.artifacts.Keys == spec.declared
    ensures Inv(spec, FailOrRetry(spec, w))
  {
    if w.status.retries < spec.backoffLimit {
      RetryKeepsPods(spec, w);
      RetryKeepsRest(spec, w);
    } else {
      hide PodsInv, UidInv, PcInv, StatusInv, Retrying, Settled;
      SettleKeeps(spec, w, Failed);
    }
  }

  lemma SettleKeeps(spec: Spec, w: World, phase: Phase)
    requires PodsInv(w) && UidInv(spec, w) && !Retrying(w.status)
    requires w.status.retries <= spec.backoffLimit && phase in {Succeeded, Failed, TimedOut}
    requires w.status.report == SUCCESS ==> w.status.artifacts.Keys == spec.declared
    requires phase == Succeeded && w.status.report != "" ==> w.status.report == SUCCESS
    ensures Inv(spec, Settle(w, phase))
  {}

  lemma JudgeKeeps(spec: Spec, w: World, pod: Pod, i: Input)
    requires Inv(spec, w) && Waiting(w.status) && (spec.agentReported ==> w.status.currentUid.Some?)
    ensures Inv(spec, Judge(spec, w, pod, i))
  {
    hide FailOrRetry;
    if !pod.ready { FailOrRetryKeeps(spec, w); }
  }

  lemma CompletingKeeps(spec: Spec, w: World, pod: Option<Pod>, i: Input)
    requires Inv(spec, w) && w.status.phase == Completing
    ensures Inv(spec, DriveCompleting(spec, w, pod, i))
  {
    hide PodsInv, UidInv, ParseCompletion;
    SettleCases(spec, w);
    var p := ParseCompletion(w.mailbox);
    if spec.agentReported && p.status != "" && ValidArtifacts(p, spec.declared) {
      var w1 := w.(status := w.status.(artifacts := p.artifacts, report := p.status));
      SameInvs(spec, w, w1);
      if p.status == SUCCESS { SettleKeeps(spec, w1, Succeeded); } else { FailOrRetryKeeps(spec, w1); }
    }
  }

  lemma SameInvs(spec: Spec, w: World, w1: World)
    requires w1 == w.(status := w.status.(artifacts := w1.status.artifacts, report := w1.status.report))
    requires PodsInv(w) && UidInv(spec, w)
    ensures PodsInv(w1) && UidInv(spec, w1)
  {}

  lemma SettleCases(spec: Spec, w: World)
    requires Inv(spec, w) && !Settled(w.status) && !Retrying(w.status)
    ensures Inv(spec, FailOrRetry(spec, w))
    ensures forall phase | phase in {Succeeded, Failed, TimedOut} :: Inv(spec, Settle(w, phase))
  {
    FailOrRetryKeeps(spec, w);
    forall phase | phase in {Succeeded, Failed, TimedOut} ensures Inv(spec, Settle(w, phase)) {
      SettleKeeps(spec, w, phase);
    }
  }

  lemma RunningKeeps(spec: Spec, w: World, i: Input)
    requires Inv(spec, w) && w.status.phase == Running
    ensures Inv(spec, DriveRunning(spec, w, i))
  {
    hide ParseCompletion, OwnedPod, FailOrRetry;
    SettleCases(spec, w);
  }

  lemma CreateRejectedKeeps(spec: Spec, w: World, i: Input)
    requires Inv(spec, w) && Waiting(w.status) && w.pc.Rest?
    ensures Inv(spec, CreateRejected(spec, w, i))
  {
    hide FailOrRetry;
    FailOrRetryKeeps(spec, w.(status := w.status.(rejected := true, podName := None)));
  }

  lemma ProvisioningKeeps(spec: Spec, w: World, i: Input)
    requires Inv(spec, w) && Waiting(w.status) && w.pc.Rest?
    ensures Inv(spec, DriveProvisioning(spec, w, i))
  {
    hide OwnedPod, Judge, CreateRejected;
    OwnedPodMember(w.pods);
    match OwnedPod(w.pods)
    case None =>
      CreateRejectedKeeps(spec, w, i);
      SettleKeeps(spec, w, Failed);
      if i.uid !in w.born { CreateKeeps(spec, w, i); }
    case Some(pod) =>
      if w.status.podName == Some(pod.uid) && (spec.agentReported ==> w.status.currentUid == Some(pod.uid)) {
        JudgeKeeps(spec, w, pod, i);
      }
  }

  lemma CreateKeeps(spec: Spec, w: World, i: Input)
    requires Inv(spec, w) && Waiting(w.status) && w.pods == [] && i.uid !in w.born
    ensures Inv(spec, w.(pods := w.pods + [Pod(i.uid, false, false, Active)],
                         born := w.born[i.uid := w.status.retries], pc := Recording(i.uid)))
  {}

  lemma BeginKeeps(spec: Spec, w: World, i: Input)
    requires Inv(spec, w) && w.pc.Rest?
    ensures Inv(spec, BeginPass(spec, w, i))
  {
    hide DriveProvisioning, DriveRunning, DriveCompleting;
    if w.deleted || Retrying(w.status) || Settled(w.status) {
      OwnedPodMember(w.pods);
    } else {
      match w.status.phase
      case Running => RunningKeeps(spec, w, i);
      case Completing => CompletingKeeps(spec, w, OwnedPod(w.pods), i);
      case _ => ProvisioningKeeps(spec, w, i);
    }
  }

  lemma DeleteKeeps(spec: Spec, w: World, i: Input)
    requires Inv(spec, w) && w.pc.Deleting?
    ensures Inv(spec, DeleteOldPod(w, i))
  {
    hide UidInv, StatusInv, OwnedPod;
    OwnedPodMember(w.pods);
    SamePods(spec, w, DeleteOldPod(w, i));
  }

  lemma ResetKeeps(spec: Spec, w: World, i: Input)
    requires Inv(spec, w) && w.pc.Resetting?
    ensures Inv(spec, ResetMailbox(spec, w, i))
  {}

  /** Nothing but the Pods and the place in the pass changed. */
  lemma SamePods(spec: Spec, w: World, w1: World)
    requires w1 == w.(pods := w1.pods, pc := w1.pc) && !w1.pc.Judging?
    requires UidInv(spec, w)
    ensures UidInv(spec, w1)
  {}

  lemma RecordKeeps(spec: Spec, w: World)
    requires Inv(spec, w) && w.pc.Recording?
    ensures Inv(spec, ToPhase(Record(spec, w, w.pc.uid, Rest), Provisioning, Rest))
  {}

  lemma ReopenKeeps(spec: Spec, w: World)
    requires Inv(spec, w) && w.pc.Reopening?
    ensures Inv(spec, ToPhase(w, Provisioning, Rest))
  {}

  lemma ExpireKeeps(spec: Spec, w: World)
    requires Inv(spec, w) && w.pc.Expiring?
    ensures Inv(spec, w.(deleted := true, pc := Rest))
  {}

  lemma GoOnKeeps(spec: Spec, w: World, i: Input)
    requires Inv(spec, w)
    ensures Inv(spec, GoOn(spec, w, i))
  {
    hide DriveCompleting, Judge, PodsInv, StatusInv, DeleteOldPod, ResetMailbox, Record, ToPhase;
    match w.pc
    case Rest =>
    case Recording(uid) => RecordKeeps(spec, w);
    case Judging(pod) => JudgeKeeps(spec, w, pod, i);
    case Settling(pod) => CompletingKeeps(spec, w, pod, i);
    case Deleting => DeleteKeeps(spec, w, i);
    case Resetting => ResetKeeps(spec, w, i);
    case Reopening => ReopenKeeps(spec, w);
    case Expiring => ExpireKeeps(spec, w);
  }

  lemma StepKeeps(spec: Spec, w: World, a: Act)
    requires Inv(spec, w)
    ensures Inv(spec, Step(spec, w, a))
  {
    hide BeginPass, GoOn;
    match a
    case Begin(i) => if w.pc.Rest? { BeginKeeps(spec, w, i); }
    case Go(i) => GoOnKeeps(spec, w, i);
    case _ =>
  }

  lemma {:induction false} RunKeeps(spec: Spec, acts: seq<Act>)
    ensures Inv(spec, Run(spec, acts))
  {
    if acts != [] {
      RunKeeps(spec, acts[..|acts| - 1]);
      StepKeeps(spec, Run(spec, acts[..|acts| - 1]), acts[|acts| - 1]);
    }
  }

  // ---- what a run guarantees --------------------------------------------------------

  /** An AgentTask that settled Succeeded by report carries exactly the declared artifacts. */
  lemma SuccessIsComplete(spec: Spec, acts: seq<Act>)
    ensures var s := Run(spec, acts).status;
            s.phase == Succeeded && s.report != "" ==> s.report == SUCCESS && s.artifacts.Keys == spec.declared
  {
    RunKeeps(spec, acts);
  }

  /** No attempt's Pod ever runs beside another's, and retries stay within the limit. */
  lemma OnePodAtATime(spec: Spec, acts: seq<Act>)
    ensures |Run(spec, acts).pods| <= 1
    ensures Run(spec, acts).status.retries <= spec.backoffLimit
  {
    RunKeeps(spec, acts);
  }

  // ---- phases only go forward ---------------------------------------------------------

  function Rank(s: Status): nat {
    if Retrying(s) then 6
    else match s.phase
      case Pending => 5
      case Provisioning => 4
      case Running => 3
      case Completing => 2
      case Terminating => 0
      case _ => 1
  }

  /** Lexicographic in (retries left, rank), as one number. */
  function Measure(spec: Spec, s: Status): int {
    7 * (spec.backoffLimit - s.retries) + Rank(s)
  }

  /** The retry count moves only with the one write that counts a failed attempt;
      every other phase change goes down in rank; a settled status only terminates. */
  predicate Progress(spec: Spec, s: Status, s': Status) {
    && (if !Retrying(s) && Retrying(s') then s'.retries == s.retries + 1 && !Settled(s) else s'.retries == s.retries)
    && (if s'.phase == s.phase then s'.completed == s.completed else Measure(spec, s') < Measure(spec, s))
    && (Settled(s) ==> s' == s || s' == s.(phase := Terminating))
  }

  lemma FailProgress(spec: Spec, w: World)
    requires StatusInv(spec, w.status) && !Retrying(w.status) && !Settled(w.status)
    ensures Progress(spec, w.status, FailOrRetry(spec, w).status)
  {}

  lemma SettleProgress(spec: Spec, s: Status, w: World, phase: Phase)
    requires StatusInv(spec, s) && !Retrying(s) && !Settled(s) && phase in {Succeeded, Failed, TimedOut}
    requires w.status == s.(artifacts := w.status.artifacts, report := w.status.report)
    ensures Progress(spec, s, Settle(w, phase).status)
    ensures Progress(spec, s, FailOrRetry(spec, w).status)
  {}

  lemma JudgeProgress(spec: Spec, w: World, pod: Pod, i: Input)
    requires StatusInv(spec, w.status) && Waiting(w.status)
    ensures Progress(spec, w.status, Judge(spec, w, pod, i).status)
  {
    FailProgress(spec, w);
  }

  lemma CompletingProgress(spec: Spec, w: World, pod: Option<Pod>, i: Input)
    requires StatusInv(spec, w.status) && w.status.phase == Completing
    ensures Progress(spec, w.status, DriveCompleting(spec, w, pod, i).status)
  {
    hide ParseCompletion, ValidArtifacts, Settle, FailOrRetry, Progress;
    var p := ParseCompletion(w.mailbox);
    var w1 := w.(status := w.status.(artifacts := p.artifacts, report := p.status));
    SettleProgress(spec, w.status, w, Succeeded);
    SettleProgress(spec, w.status, w, TimedOut);
    SettleProgress(spec, w.status, w1, Succeeded);
  }

  lemma ForwardProgress(spec: Spec, s: Status, s': Status)
    requires StatusInv(spec, s) && !Retrying(s) && !Settled(s)
    requires s'.phase in {Provisioning, Running, Completing} && s'.retries == s.retries && s'.completed == s.completed
    requires s' .phase == s.phase || Rank(s') < Rank(s)
    ensures Progress(spec, s, s')
  {}

  lemma RunningProgress(spec: Spec, w: World, i: Input)
    requires StatusInv(spec, w.status) && w.status.phase == Running
    ensures Progress(spec, w.status, DriveRunning(spec, w, i).status)
  {
    hide ParseCompletion, OwnedPod, FailOrRetry, Progress;
    FailProgress(spec, w);
    ForwardProgress(spec, w.status, w.status.(phase := Completing));
    ForwardProgress(spec, w.status, w.status);
  }

  lemma RejectedProgress(spec: Spec, w: World, i: Input)
    requires StatusInv(spec, w.status) && Waiting(w.status)
    ensures Progress(spec, w.status, CreateRejected(spec, w, i).status)
  {
    FailProgress(spec, w.(status := w.status.(rejected := true, podName := None)));
  }

  lemma ProvisioningProgress(spec: Spec, w: World, i: Input)
    requires StatusInv(spec, w.status) && Waiting(w.status)
    ensures Progress(spec, w.status, DriveProvisioning(spec, w, i).status)
  {
    match OwnedPod(w.pods)
    case None =>
      hide FailOrRetry, CreateRejected;
      RejectedProgress(spec, w, i);
    case Some(pod) =>
      hide FailOrRetry, Judge;
      JudgeProgress(spec, w, pod, i);
  }

  lemma BeginProgress(spec: Spec, w: World, i: Input)
    requires StatusInv(spec, w.status)
    ensures Progress(spec, w.status, BeginPass(spec, w, i).status)
  {
    hide DriveProvisioning, DriveRunning, DriveCompleting, OwnedPod;
    if !w.deleted && !Retrying(w.status) && !Settled(w.status) {
      match w.status.phase
      case Running => RunningProgress(spec, w, i);
      case Completing => CompletingProgress(spec, w, OwnedPod(w.pods), i);
      case _ => ProvisioningProgress(spec, w, i);
    }
  }

  lemma GoOnProgress(spec: Spec, w: World, i: Input)
    requires StatusInv(spec, w.status) && PcInv(w)
    ensures Progress(spec, w.status, GoOn(spec, w, i).status)
  {
    hide DriveCompleting, Judge, OwnedPod, MarkDeleting;
    match w.pc
    case Judging(pod) => JudgeProgress(spec, w, pod, i);
    case Settling(pod) => CompletingProgress(spec, w, pod, i);
    case _ =>
  }

  lemma StepProgress(spec: Spec, w: World, a: Act)
    requires Inv(spec, w)
    ensures Progress(spec, w.status, Step(spec, w, a).status)
  {
    hide BeginPass, GoOn, PodsInv, UidInv, PcInv;
    match a
    case Begin(i) => BeginProgress(spec, w, i);
    case Go(i) => GoOnProgress(spec, w, i);
    case _ =>
  }

  function PhaseChanges(spec: Spec, acts: seq<Act>): nat {
    if acts == [] then 0
    else
      var front := acts[..|acts| - 1];
      PhaseChanges(spec, front) + if Run(spec, acts).status.phase != Run(spec, front).status.phase then 1 else 0
  }

  function RetriesCounted(spec: Spec, acts: seq<Act>): nat {
    if acts == [] then 0
    else
      var front := acts[..|acts| - 1];
      RetriesCounted(spec, front)
      + if Retrying(Run(spec, acts).status) && !Retrying(Run(spec, front).status) then 1 else 0
  }

  lemma {:induction false} ChangesUseMeasure(spec: Spec, acts: seq<Act>)
    ensures PhaseChanges(spec, acts) <= 7 * spec.backoffLimit + 5 - Measure(spec, Run(spec, acts).status)
  {
    if acts != [] {
      hide Step, Inv;
      var front := acts[..|acts| - 1];
      ChangesUseMeasure(spec, front);
      RunKeeps(spec, front);
      StepProgress(spec, Run(spec, front), acts[|acts| - 1]);
      assert Run(spec, acts) == Step(spec, Run(spec, front), acts[|acts| - 1]);
    }
  }

  /** However the environment behaves and however often the controller stops, the
      phase changes at most 7 * backoffLimit + 5 times over a task's whole life. */
  lemma PhaseChangesBounded(spec: Spec, acts: seq<Act>)
    ensures PhaseChanges(spec, acts) <= 7 * spec.backoffLimit + 5
  {
    ChangesUseMeasure(spec, acts);
    RunKeeps(spec, acts);
  }

  /** Each failed attempt is counted exactly once: the counter equals the number of
      times the AgentTask entered a retry, however often finishing it was interrupted,
      rejected or repeated. */
  lemma {:induction false} EachFailureCountedOnce(spec: Spec, acts: seq<Act>)
    ensures Run(spec, acts).status.retries == RetriesCounted(spec, acts) <= spec.backoffLimit
  {
    RunKeeps(spec, acts);
    if acts != [] {
      hide Step, Inv;
      var front := acts[..|acts| - 1];
      EachFailureCountedOnce(spec, front);
      RunKeeps(spec, front);
      StepProgress(spec, Run(spec, front), acts[|acts| - 1]);
      assert Run(spec, acts) == Step(spec, Run(spec, front), acts[|acts| - 1]);
    }
  }

  lemma RunSnoc(spec: Spec, acts: seq<Act>, a: Act)
    ensures Run(spec, acts + [a]) == Step(spec, Run(spec, acts), a)
  {
    assert (acts + [a])[..|acts|] == acts;
  }

  lemma SettledOnlyTerminates(spec: Spec, s: Status, s1: Status, s2: Status)
    requires Settled(s) && (s1 == s || s1 == s.(phase := Terminating)) && StatusInv(spec, s1)
    requires Progress(spec, s1, s2)
    ensures Settled(s1) && (s2 == s || s2 == s.(phase := Terminating))
  {}

  /** A settled task never changes again, except to Terminating. */
  lemma {:induction false} SettledStays(spec: Spec, acts: seq<Act>, more: seq<Act>)
    requires Settled(Run(spec, acts).status)
    ensures var s, s' := Run(spec, acts).status, Run(spec, acts + more).status;
            s' == s || s' == s.(phase := Terminating)
  {
    hide Run, Step, Progress, StatusInv, PodsInv, UidInv, PcInv, Settled;
    if more == [] {
      assert acts + more == acts;
    } else {
      var front, a := more[..|more| - 1], more[|more| - 1];
      assert acts + more == acts + front + [a];
      SettledStays(spec, acts, front);
      RunKeeps(spec, acts + front);
      RunSnoc(spec, acts + front, a);
      StepProgress(spec, Run(spec, acts + front), a);
      SettledOnlyTerminates(spec, Run(spec, acts).status, Run(spec, acts + front).status,
          Run(spec, acts + more).status);
    }
  }
}

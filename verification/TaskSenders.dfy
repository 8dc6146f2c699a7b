/** Whose completions are in the mailbox or on their way to it. */
module TaskSenders {
  import opened Prelude
  import opened TaskMachine
  import opened TaskProofs

  // ---- what a pass does to the mailbox ----------------------------------------

  ghost predicate BornGrows(w: World, w': World) {
    forall u | u in w.born :: u in w'.born && w'.born[u] == w.born[u]
  }

  /** A pass touches the mailbox only to empty it, and never in a step that changes the status. */
  ghost predicate Quiet(w: World, w': World) {
    && w'.flight == w.flight && BornGrows(w, w')
    && ((w'.writers == w.writers && w'.mailbox == w.mailbox)
        || (w'.writers == {} && w'.mailbox == map[] && w'.status == w.status))
  }

  /** Mailbox and Pods are as they were, and the current Pod is, or a retry was counted. */
  predicate Calm(w: World, w': World) {
    && w'.writers == w.writers && w'.mailbox == w.mailbox && w'.flight == w.flight && w'.born == w.born
    && w'.pods == w.pods && !w'.pc.Recording?
    && (w'.status.currentUid == w.status.currentUid || Retrying(w'.status))
  }

  lemma FailCalm(spec: Spec, w: World)
    requires !w.status.completed
    ensures Calm(w, FailOrRetry(spec, w))
  {}

  lemma CompletingCalm(spec: Spec, w: World, pod: Option<Pod>, i: Input)
    requires !w.status.completed
    ensures Calm(w, DriveCompleting(spec, w, pod, i))
  {
    hide ParseCompletion, ValidArtifacts, FailOrRetry, Retrying;
    var p := ParseCompletion(w.mailbox);
    FailCalm(spec, w);
    FailCalm(spec, w.(status := w.status.(artifacts := p.artifacts, report := p.status)));
  }

  lemma JudgeCalm(spec: Spec, w: World, pod: Pod, i: Input)
    requires !w.status.completed
    ensures Calm(w, Judge(spec, w, pod, i))
  {
    hide FailOrRetry, Retrying;
    FailCalm(spec, w);
  }

  lemma RunningCalm(spec: Spec, w: World, i: Input)
    requires !w.status.completed && w.pc.Rest?
    ensures Calm(w, DriveRunning(spec, w, i))
  {
    hide FailOrRetry, Retrying, OwnedPod, ParseCompletion;
    FailCalm(spec, w);
  }

  lemma RejectedCalm(spec: Spec, w: World, i: Input)
    requires !w.status.completed
    ensures Calm(w, CreateRejected(spec, w, i))
  {
    hide FailOrRetry, Retrying;
    FailCalm(spec, w.(status := w.status.(rejected := true, podName := None)));
  }

  lemma ProvisioningQuiet(spec: Spec, w: World, i: Input)
    requires !w.status.completed
    ensures Quiet(w, DriveProvisioning(spec, w, i))
  {
    hide OwnedPod, Judge, CreateRejected, Retrying;
    RejectedCalm(spec, w, i);
    if OwnedPod(w.pods).Some? { JudgeCalm(spec, w, OwnedPod(w.pods).value, i); }
  }

  lemma BeginQuiet(spec: Spec, w: World, i: Input)
    requires Inv(spec, w) && w.pc.Rest?
    ensures Quiet(w, BeginPass(spec, w, i))
  {
    hide OwnedPod, DriveProvisioning, DriveCompleting, DriveRunning, MarkDeleting, PodsInv, UidInv;
    if !w.status.completed {
      RunningCalm(spec, w, i);
      CompletingCalm(spec, w, OwnedPod(w.pods), i);
      ProvisioningQuiet(spec, w, i);
    }
  }

  lemma DeleteQuiet(w: World, i: Input)
    ensures Quiet(w, DeleteOldPod(w, i))
  {
    hide OwnedPod, MarkDeleting;
  }

  lemma ResetQuiet(spec: Spec, w: World, i: Input)
    ensures Quiet(w, ResetMailbox(spec, w, i))
  {}

  lemma GoOnQuiet(spec: Spec, w: World, i: Input)
    requires Inv(spec, w)
    ensures Quiet(w, GoOn(spec, w, i))
  {
    hide DriveCompleting, Judge, DeleteOldPod, ResetMailbox, PodsInv, UidInv, Retrying;
    match w.pc
    case Judging(pod) => Uncompleted(spec, w); JudgeCalm(spec, w, pod, i);
    case Settling(pod) => Uncompleted(spec, w); CompletingCalm(spec, w, pod, i);
    case Deleting => DeleteQuiet(w, i);
    case Resetting => ResetQuiet(spec, w, i);
    case _ =>
  }

  lemma Uncompleted(spec: Spec, w: World)
    requires StatusInv(spec, w.status) && PcInv(w) && (w.pc.Judging? || w.pc.Settling?)
    ensures !w.status.completed
  {}

  /** Only the gateway's own steps are not quiet. */
  lemma StepQuiet(spec: Spec, w: World, a: Act)
    requires Inv(spec, w) && !a.Check? && !a.Land?
    ensures Quiet(w, Step(spec, w, a))
  {
    hide BeginPass, GoOn, ChangePod, DropPod, Inv;
    match a
    case Begin(i) => if w.pc.Rest? { BeginQuiet(spec, w, i); }
    case Go(i) => GoOnQuiet(spec, w, i);
    case _ =>
  }

  // ---- the invariant -------------------------------------------------------------

  /** A Pod of the current attempt, or of one that a counted retry has ended. */
  predicate Sender(w: World, uid: Uid) {
    uid in w.born && w.born[uid] <= w.status.retries && (Retrying(w.status) ==> w.born[uid] < w.status.retries)
  }

  ghost predicate SendersInv(w: World) {
    && (w.writers == {} <==> w.mailbox == map[])
    && (forall u | u in w.writers :: Sender(w, u))
    && (forall p | p in w.flight :: Sender(w, p.from) && p.attempt == w.born[p.from] && p.data != map[])
  }

  lemma QuietKeeps(spec: Spec, w: World, w': World)
    requires SendersInv(w) && Quiet(w, w') && Progress(spec, w.status, w'.status)
    ensures SendersInv(w')
  {
    hide Retrying, Measure, Settled;
  }

  lemma CheckKeepsSenders(w: World, p: Patch)
    requires SendersInv(w) && Current(w, p.from) && !Retrying(w.status) && p.attempt == w.status.retries
            && p.data != map[]
    ensures SendersInv(w.(flight := w.flight + multiset{p}))
  {
    hide Retrying;
  }

  lemma LandKeepsSenders(w: World, p: Patch)
    requires SendersInv(w) && p in w.flight
    ensures SendersInv(w.(mailbox := w.mailbox + p.data, writers := w.writers + {p.from},
            flight := w.flight - multiset{p}))
  {
    hide Retrying;
    var k :| k in p.data;
    assert k in w.mailbox + p.data && p.from in w.writers + {p.from};
  }

  lemma GatewayKeepsSenders(spec: Spec, w: World, a: Act)
    requires UidInv(spec, w) && SendersInv(w) && (a.Check? || a.Land?)
    ensures SendersInv(Step(spec, w, a))
  {
    hide SendersInv, Retrying, Current;
    match a
    case Check(from, data) =>
      if GatewayAccepts(spec, w, from, data) { CheckKeepsSenders(w, Patch(from, data, w.status.retries)); }
    case Land(p) => if p in w.flight { LandKeepsSenders(w, p); }
  }

  lemma StepKeepsSenders(spec: Spec, w: World, a: Act)
    requires Inv(spec, w) && SendersInv(w)
    ensures SendersInv(Step(spec, w, a))
  {
    hide Step, PodsInv, UidInv, StatusInv, PcInv, Quiet, SendersInv, Progress;
    if a.Check? || a.Land? {
      GatewayKeepsSenders(spec, w, a);
    } else {
      StepProgress(spec, w, a);
      StepQuiet(spec, w, a);
      QuietKeeps(spec, w, Step(spec, w, a));
    }
  }

  lemma {:induction false} RunKeepsSenders(spec: Spec, acts: seq<Act>)
    ensures SendersInv(Run(spec, acts))
  {
    if acts != [] {
      hide Step, Inv, SendersInv;
      var front := acts[..|acts| - 1];
      RunKeeps(spec, front);
      RunKeepsSenders(spec, front);
      StepKeepsSenders(spec, Run(spec, front), acts[|acts| - 1]);
    }
  }

  // ---- live Pods that have reported --------------------------------------------------

  /** A Pod whose report is in the mailbox or in flight. */
  ghost predicate Reported(w: World, uid: Uid) {
    uid in w.writers || exists p :: p in w.flight && p.from == uid
  }

  /** Outside a retry a live Pod that has reported is the current one. */
  ghost predicate LiveIsCurrent(w: World) {
    !Retrying(w.status) ==>
      forall p | p in w.pods && !p.deleting && Reported(w, p.uid) :: w.status.currentUid == Some(p.uid)
  }

  /** A Pod about to be recorded is the only one and has not reported. */
  ghost predicate NewIsAlone(w: World) {
    w.pc.Recording? ==>
      && !Reported(w, w.pc.uid) && w.status.currentUid != Some(w.pc.uid)
      && forall p | p in w.pods :: p.uid == w.pc.uid
  }

  ghost predicate LiveInv(spec: Spec, w: World) {
    LiveIsCurrent(w) && NewIsAlone(w) && (!spec.agentReported ==> w.writers == {} && w.flight == multiset{})
  }

  /** Every live Pod was live before. */
  ghost predicate PodsShrink(w: World, w': World) {
    forall p | p in w'.pods :: exists q :: q in w.pods && q.uid == p.uid && (q.deleting ==> p.deleting)
  }

  lemma FrameKeeps(spec: Spec, w: World, w': World)
    requires LiveInv(spec, w) && Quiet(w, w') && PodsShrink(w, w')
    requires w'.status.currentUid == w.status.currentUid || Retrying(w'.status)
    requires Retrying(w.status) && !Retrying(w'.status) ==> forall p | p in w.pods :: p.deleting
    requires w'.pc.Recording? ==> w'.pc == w.pc && w'.status == w.status
    ensures LiveInv(spec, w')
  {
    hide Retrying, BornGrows;
    forall u | Reported(w', u) ensures Reported(w, u) {}
    forall p | p in w'.pods ensures exists q :: q in w.pods && q.uid == p.uid && (q.deleting ==> p.deleting) {}
  }

  lemma CalmKeeps(spec: Spec, w: World, w': World)
    requires LiveInv(spec, w) && Calm(w, w') && !Retrying(w.status)
    ensures LiveInv(spec, w')
  {
    hide Retrying, LiveInv;
    FrameKeeps(spec, w, w');
  }

  lemma CreateKeepsLive(spec: Spec, w: World, uid: Uid)
    requires LiveInv(spec, w) && SendersInv(w) && UidInv(spec, w) && w.pods == [] && uid !in w.born
            && !Retrying(w.status)
    ensures LiveInv(spec, w.(pods := w.pods + [Pod(uid, false, false, Active)],
                             born := w.born[uid := w.status.retries], pc := Recording(uid)))
  {
    hide Retrying;
  }

  lemma RecordKeepsLive(spec: Spec, w: World, uid: Uid, pc: Pc)
    requires LiveInv(spec, w) && !Retrying(w.status) && !pc.Recording?
    requires forall p | p in w.pods :: p.uid == uid
    ensures LiveInv(spec, Record(spec, w, uid, pc))
    ensures LiveInv(spec, ToPhase(Record(spec, w, uid, pc), Provisioning, Rest))
  {}

  lemma ProvisioningKeepsLive(spec: Spec, w: World, i: Input)
    requires Inv(spec, w) && SendersInv(w) && LiveInv(spec, w) && Waiting(w.status) && w.pc.Rest?
    ensures LiveInv(spec, DriveProvisioning(spec, w, i))
  {
    OwnedPodMember(w.pods);
    assert forall p, q | p in w.pods && q in w.pods :: p == q;
    hide OwnedPod, Judge, CreateRejected, LiveInv, SendersInv, PodsInv, Record;
    match OwnedPod(w.pods)
    case None =>
      RejectedCalm(spec, w, i);
      CalmKeeps(spec, w, CreateRejected(spec, w, i));
      CalmKeeps(spec, w, Settle(w, Failed));
      CalmKeeps(spec, w, ToPhase(w, Provisioning, Rest));
      if i.uid !in w.born { CreateKeepsLive(spec, w, i.uid); }
    case Some(pod) =>
      JudgeCalm(spec, w, pod, i);
      CalmKeeps(spec, w, Judge(spec, w, pod, i));
      RecordKeepsLive(spec, w, pod.uid, Judging(pod));
  }

  lemma DeletingShrinks(w: World, uid: Uid)
    ensures PodsShrink(w, w.(pods := MarkDeleting(w.pods, uid)))
  {
    var r := MarkDeleting(w.pods, uid);
    forall p | p in r ensures exists q :: q in w.pods && q.uid == p.uid && (q.deleting ==> p.deleting) {
      var k :| 0 <= k < |r| && r[k] == p;
      assert w.pods[k] in w.pods;
    }
  }

  lemma BeginKeepsLive(spec: Spec, w: World, i: Input)
    requires Inv(spec, w) && SendersInv(w) && LiveInv(spec, w) && w.pc.Rest?
    ensures LiveInv(spec, BeginPass(spec, w, i))
  {
    hide OwnedPod, DriveProvisioning, DriveCompleting, DriveRunning, MarkDeleting, PodsInv, UidInv, LiveInv, SendersInv;
    var w' := BeginPass(spec, w, i);
    if w.deleted || Retrying(w.status) || Settled(w.status) || i.held {
      BeginQuiet(spec, w, i);
      var pod := OwnedPod(w.pods);
      if pod.Some? { DeletingShrinks(w, pod.value.uid); }
      hide Quiet;
      FrameKeeps(spec, w, w');
    } else {
      match w.status.phase
      case Running => RunningCalm(spec, w, i); CalmKeeps(spec, w, w');
      case Completing => CompletingCalm(spec, w, OwnedPod(w.pods), i); CalmKeeps(spec, w, w');
      case _ => ProvisioningKeepsLive(spec, w, i);
    }
  }

  lemma GoOnKeepsLive(spec: Spec, w: World, i: Input)
    requires Inv(spec, w) && LiveInv(spec, w)
    ensures LiveInv(spec, GoOn(spec, w, i))
  {
    hide OwnedPod, DriveCompleting, Judge, MarkDeleting, PodsInv, UidInv, LiveInv, Record, DeleteOldPod, ResetMailbox;
    var w' := GoOn(spec, w, i);
    match w.pc
    case Recording(uid) =>
      assert forall p | p in w.pods :: p.uid == uid by { Alone(spec, w); }
      RecordKeepsLive(spec, w, uid, Rest);
    case Judging(pod) => JudgeCalm(spec, w, pod, i); CalmKeeps(spec, w, w');
    case Settling(pod) => CompletingCalm(spec, w, pod, i); CalmKeeps(spec, w, w');
    case Rest =>
    case Deleting => DeleteKeepsLive(spec, w, i);
    case Resetting => ResetKeepsLive(spec, w, i);
    case _ => EndKeepsLive(spec, w, w');
  }

  lemma DeleteShrinks(w: World, i: Input)
    ensures var w' := DeleteOldPod(w, i);
            PodsShrink(w, w') && w'.status == w.status && !w'.pc.Recording?
  {
    hide OwnedPod, MarkDeleting;
    var pod := OwnedPod(w.pods);
    if pod.Some? { DeletingShrinks(w, pod.value.uid); }
  }

  lemma SamePodsShrink(w: World, w': World)
    requires w'.pods == w.pods
    ensures PodsShrink(w, w')
  {}

  lemma DeleteKeepsLive(spec: Spec, w: World, i: Input)
    requires Inv(spec, w) && LiveInv(spec, w) && w.pc.Deleting?
    ensures LiveInv(spec, DeleteOldPod(w, i))
  {
    hide *;
    DeleteShrinks(w, i);
    DeleteQuiet(w, i);
    FrameKeeps(spec, w, DeleteOldPod(w, i));
  }

  lemma ResetKeepsLive(spec: Spec, w: World, i: Input)
    requires Inv(spec, w) && LiveInv(spec, w) && w.pc.Resetting?
    ensures LiveInv(spec, ResetMailbox(spec, w, i))
  {
    hide PodsInv, UidInv, StatusInv, LiveInv, Quiet, PodsShrink, Retrying;
    SamePodsShrink(w, ResetMailbox(spec, w, i));
    ResetQuiet(spec, w, i);
    FrameKeeps(spec, w, ResetMailbox(spec, w, i));
  }

  lemma EndKeepsLive(spec: Spec, w: World, w': World)
    requires Inv(spec, w) && LiveInv(spec, w)
    requires || (w.pc.Reopening? && w' == ToPhase(w, Provisioning, Rest))
             || (w.pc.Expiring? && w' == w.(deleted := true, pc := Rest))
    ensures LiveInv(spec, w')
  {
    hide PodsInv, UidInv, StatusInv, LiveInv, PodsShrink, Retrying;
    SamePodsShrink(w, w');
    FrameKeeps(spec, w, w');
  }

  lemma Alone(spec: Spec, w: World)
    requires LiveInv(spec, w) && w.pc.Recording?
    ensures forall p | p in w.pods :: p.uid == w.pc.uid
  {}

  lemma PodStepShrinks(w: World, a: Act, spec: Spec)
    requires a.PodChange? || a.PodGone?
    ensures PodsShrink(w, Step(spec, w, a))
  {
    var w' := Step(spec, w, a);
    forall p | p in w'.pods ensures exists q :: q in w.pods && q.uid == p.uid && (q.deleting ==> p.deleting) {
      if a.PodChange? {
        var k :| 0 <= k < |w'.pods| && w'.pods[k] == p;
        assert w.pods[k] in w.pods;
      }
    }
  }

  lemma GatewayKeepsLive(spec: Spec, w: World, a: Act)
    requires Inv(spec, w) && LiveInv(spec, w) && (a.Check? || a.Land?)
    ensures LiveInv(spec, Step(spec, w, a))
  {
    hide PodsInv, StatusInv, PcInv, UidInv, Retrying;
    var w' := Step(spec, w, a);
    forall u | Reported(w', u) ensures Reported(w, u) || (a.Check? && w.status.currentUid == Some(u)) {
      if a.Land? && a.patch in w.flight && u == a.patch.from { assert Reported(w, u); }
    }
  }

  lemma StepKeepsLive(spec: Spec, w: World, a: Act)
    requires Inv(spec, w) && SendersInv(w) && LiveInv(spec, w)
    ensures LiveInv(spec, Step(spec, w, a))
  {
    hide BeginPass, GoOn, ChangePod, DropPod, Inv, SendersInv, LiveInv, Quiet;
    match a
    case Begin(i) => if w.pc.Rest? { BeginKeepsLive(spec, w, i); }
    case Go(i) => GoOnKeepsLive(spec, w, i);
    case Check(_, _) => GatewayKeepsLive(spec, w, a);
    case Land(_) => GatewayKeepsLive(spec, w, a);
    case _ =>
      StepQuiet(spec, w, a);
      if a.PodChange? || a.PodGone? { PodStepShrinks(w, a, spec); }
      FrameKeeps(spec, w, Step(spec, w, a));
  }

  lemma {:induction false} RunKeepsLive(spec: Spec, acts: seq<Act>)
    ensures LiveInv(spec, Run(spec, acts))
  {
    if acts != [] {
      hide Step, Inv, SendersInv, LiveInv;
      var front := acts[..|acts| - 1];
      RunKeeps(spec, front);
      RunKeepsSenders(spec, front);
      RunKeepsLive(spec, front);
      StepKeepsLive(spec, Run(spec, front), acts[|acts| - 1]);
    }
  }
}

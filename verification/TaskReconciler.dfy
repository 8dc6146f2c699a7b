/** One uninterrupted pass of the AgentTask reconciler, in place: the methods
    of internal/controller/agenttask_controller.go over the stored objects, and
    the proof that a pass is a run of the machine's steps. */
module TaskReconciler {
  import opened Prelude
  import opened TaskMachine
  import opened TaskProofs
  import opened TaskOutcome

  // ---- a pass as a run of steps ---------------------------------------------

  function StepsLeft(pc: Pc): nat {
    match pc
    case Rest => 0
    case Recording(_) => 1
    case Expiring => 1
    case Reopening => 1
    case Resetting => 2
    case Deleting => 3
    case Settling(_) => 4
    case Judging(_) => 5
  }

  lemma FailPc(spec: Spec, w: World)
    ensures FailOrRetry(spec, w).pc in {Rest, Deleting}
  {}

  lemma JudgePc(spec: Spec, w: World, pod: Pod, i: Input)
    ensures Judge(spec, w, pod, i).pc in {Rest, Deleting, Settling(Some(pod))}
  {
    hide FailOrRetry;
    FailPc(spec, w);
  }

  lemma CompletingPc(spec: Spec, w: World, pod: Option<Pod>, i: Input)
    ensures DriveCompleting(spec, w, pod, i).pc in {Rest, Deleting}
  {
    hide ParseCompletion, ValidArtifacts, FailOrRetry;
    var p := ParseCompletion(w.mailbox);
    FailPc(spec, w);
    FailPc(spec, w.(status := w.status.(artifacts := p.artifacts, report := p.status)));
  }

  lemma RetryPcs(spec: Spec, w: World, i: Input)
    ensures DeleteOldPod(w, i).pc in {Rest, Resetting} && ResetMailbox(spec, w, i).pc in {Rest, Reopening}
    ensures DeleteOldPod(w, i).pc.Rest? ==> i.deleteRejected
    ensures ResetMailbox(spec, w, i).pc.Rest? ==> i.resetRejected
  {
    hide OwnedPod, MarkDeleting;
  }

  lemma GoOnEnds(spec: Spec, w: World, i: Input)
    requires !w.pc.Rest?
    ensures StepsLeft(GoOn(spec, w, i).pc) < StepsLeft(w.pc)
  {
    hide DriveCompleting, Judge, DeleteOldPod, ResetMailbox;
    RetryPcs(spec, w, i);
    if w.pc.Judging? { JudgePc(spec, w, w.pc.pod, i); }
    if w.pc.Settling? { CompletingPc(spec, w, w.pc.seen, i); }
  }

  /** The pass goes on until it has nothing left to write. */
  function Finish(spec: Spec, w: World, i: Input): World
    decreases StepsLeft(w.pc)
  {
    if w.pc.Rest? then w else (GoOnEnds(spec, w, i); Finish(spec, GoOn(spec, w, i), i))
  }

  lemma {:induction false} FinishKeeps(spec: Spec, w: World, i: Input)
    requires Inv(spec, w)
    ensures Inv(spec, Finish(spec, w, i)) && Finish(spec, w, i).pc.Rest?
    decreases StepsLeft(w.pc)
  {
    if !w.pc.Rest? {
      hide GoOn, Inv;
      GoOnEnds(spec, w, i);
      GoOnKeeps(spec, w, i);
      FinishKeeps(spec, GoOn(spec, w, i), i);
    }
  }

  lemma FinishOnce(spec: Spec, w: World, i: Input)
    ensures Finish(spec, w, i) == if w.pc.Rest? then w else Finish(spec, GoOn(spec, w, i), i)
  {}

  lemma RetrySteps(spec: Spec, w: World, i: Input)
    requires w.pc.Deleting?
    ensures Finish(spec, w, i) ==
            var w1 := DeleteOldPod(w, i);
            if w1.pc.Rest? then w1
            else
              var w2 := ResetMailbox(spec, w1, i);
              if w2.pc.Rest? then w2 else ToPhase(w2, Provisioning, Rest)
  {
    hide Finish, DeleteOldPod, ResetMailbox;
    var w1 := DeleteOldPod(w, i);
    RetryPcs(spec, w, i);
    FinishOnce(spec, w, i);
    FinishOnce(spec, w1, i);
    if !w1.pc.Rest? {
      var w2 := ResetMailbox(spec, w1, i);
      RetryPcs(spec, w1, i);
      FinishOnce(spec, w2, i);
      FinishOnce(spec, ToPhase(w2, Provisioning, Rest), i);
    }
  }

  /** A pass with nothing in between is a stretch of a run. */
  lemma {:induction false} FinishIsRun(spec: Spec, acts: seq<Act>, i: Input) returns (more: seq<Act>)
    ensures Run(spec, acts + more) == Finish(spec, Run(spec, acts), i)
    decreases StepsLeft(Run(spec, acts).pc)
  {
    hide GoOn, Run, Finish;
    var w := Run(spec, acts);
    FinishOnce(spec, w, i);
    if w.pc.Rest? {
      more := [];
      assert acts + [] == acts;
    } else {
      GoOnEnds(spec, w, i);
      RunSnoc(spec, acts, Go(i));
      var rest := FinishIsRun(spec, acts + [Go(i)], i);
      more := [Go(i)] + rest;
      assert acts + more == acts + [Go(i)] + rest;
    }
  }

  // ---- the outcome of a whole pass ------------------------------------------

  /** What a pass that reaches a verdict leaves: the outcome, or a retry counted and,
      unless a write was refused, finished. */
  ghost predicate PassVerdict(spec: Spec, w: World, pod: Option<Pod>, i: Input, s': Status) {
    && (Won(spec, w, pod, i) ==> s'.phase == Succeeded && s'.completed)
    && (RanOut(spec, w, pod, i) ==> s'.phase == TimedOut && s'.completed)
    && (Lost(spec, w, pod, i) ==>
          if w.status.retries < spec.backoffLimit then
            && s'.retries == w.status.retries + 1 && s'.completed == w.status.completed
            && s'.phase in {Failed, Provisioning}
            && (!i.deleteRejected && !i.resetRejected ==> s'.phase == Provisioning)
          else s'.phase == Failed && s'.completed && s'.retries == w.status.retries)
  }

  lemma RetryFinished(spec: Spec, w: World, i: Input)
    requires w.pc.Deleting? && w.status.phase == Failed
    ensures var s' := Finish(spec, w, i).status;
            && s' == w.status.(phase := s'.phase) && s'.phase in {Failed, Provisioning}
            && (!i.deleteRejected && !i.resetRejected ==> s'.phase == Provisioning)
  {
    hide Finish, DeleteOldPod, ResetMailbox;
    RetrySteps(spec, w, i);
    RestUntouched(spec, w, i);
    RetryPcs(spec, w, i);
    var w1 := DeleteOldPod(w, i);
    RestUntouched(spec, w1, i);
    RetryPcs(spec, w1, i);
  }

  lemma CompletingEnds(spec: Spec, w: World, pod: Option<Pod>, i: Input)
    ensures var w' := DriveCompleting(spec, w, pod, i);
            w'.pc == if w'.status.phase == Failed && w.status.retries < spec.backoffLimit then Deleting else Rest
  {
    hide ParseCompletion, ValidArtifacts, FailOrRetry;
    var p := ParseCompletion(w.mailbox);
    FailEnds(spec, w);
    FailEnds(spec, w.(status := w.status.(artifacts := p.artifacts, report := p.status)));
  }

  lemma FailEnds(spec: Spec, w: World)
    ensures var w' := FailOrRetry(spec, w);
            w'.status.phase == Failed && w'.pc == if w.status.retries < spec.backoffLimit then Deleting else Rest
  {}

  lemma CompletingPass(spec: Spec, w: World, pod: Option<Pod>, i: Input)
    ensures PassVerdict(spec, w, pod, i, Finish(spec, DriveCompleting(spec, w, pod, i), i).status)
  {
    hide DriveCompleting, Finish, Won, RanOut, Lost, GoodReport;
    var w' := DriveCompleting(spec, w, pod, i);
    CompletingVerdict(spec, w, pod, i);
    OneVerdict(spec, w, pod, i);
    CompletingEnds(spec, w, pod, i);
    FinishOnce(spec, w', i);
    if w'.pc.Deleting? { RetryFinished(spec, w', i); }
  }

  /** A Running AgentTask whose report is in, whose container has ended or whose time is
      up is decided by that very pass. */
  lemma ToldInOnePass(spec: Spec, w: World, i: Input)
    requires Inv(spec, w) && Told(spec, w, Begin(i))
    ensures PassVerdict(spec, w, Found(w), i, Finish(spec, BeginPass(spec, w, i), i).status)
  {
    hide DriveCompleting, Finish, PassVerdict, Inv, BeginPass, Told, Found;
    var w1 := ToPhase(w, Completing, Settling(Found(w)));
    ToldBegins(spec, w, i);
    FinishOnce(spec, w1, i);
    CompletingPass(spec, w1, Found(w), i);
    SameVerdict(spec, w, w1, Found(w), i, Finish(spec, w1, i).status);
  }

  lemma ToldBegins(spec: Spec, w: World, i: Input)
    requires Inv(spec, w) && Told(spec, w, Begin(i))
    ensures BeginPass(spec, w, i) == ToPhase(w, Completing, Settling(Found(w)))
  {
    hide Inv, BeginPass, FailOrRetry, Untold, Vanished;
    RunningShape(spec, w, Begin(i));
  }

  lemma SameVerdict(spec: Spec, w: World, w1: World, pod: Option<Pod>, i: Input, s': Status)
    requires w1.mailbox == w.mailbox && w1.status == w.status.(phase := w1.status.phase)
    requires PassVerdict(spec, w1, pod, i, s')
    ensures PassVerdict(spec, w, pod, i, s')
  {}

  // ---- the mailbox ------------------------------------------------------------

  method ReadMailbox(data: map<string, string>) returns (p: Payload)
    ensures p == ParseCompletion(data)
  {
    var artifacts := map[];
    var keys := data.Keys;
    while keys != {}
      invariant keys <= data.Keys
      invariant forall n :: n in artifacts <==> ARTIFACT_PREFIX + n in data && ARTIFACT_PREFIX + n !in keys
      invariant forall n | n in artifacts :: artifacts[n] == data[ARTIFACT_PREFIX + n]
      decreases keys
    {
      var k :| k in keys;
      keys := keys - {k};
      if ARTIFACT_PREFIX <= k {
        var name := k[|ARTIFACT_PREFIX|..];
        assert ARTIFACT_PREFIX + name == k;
        assert forall n | ARTIFACT_PREFIX + n == k :: n == name by {
          assert forall n :: (ARTIFACT_PREFIX + n)[|ARTIFACT_PREFIX|..] == n;
        }
        artifacts := artifacts[name := data[k]];
      }
    }
    p := Payload(if STATUS_KEY in data then data[STATUS_KEY] else "",
                 if MESSAGE_KEY in data then data[MESSAGE_KEY] else "", artifacts);
    assert artifacts == ParseCompletion(data).artifacts;
  }

  method ValidateArtifactNames(p: Payload, declared: seq<string>) returns (ok: bool)
    ensures ok == ValidArtifacts(p, Elems(declared))
  {
    var keys := p.artifacts.Keys;
    while keys != {}
      invariant keys <= p.artifacts.Keys && p.artifacts.Keys - keys <= Elems(declared)
      decreases keys
    {
      var k :| k in keys;
      if k !in declared { return false; }
      keys := keys - {k};
    }
    if p.status == SUCCESS {
      for n := 0 to |declared|
        invariant forall m | 0 <= m < n :: declared[m] in p.artifacts
      {
        if declared[n] !in p.artifacts {
          assert declared[n] in Elems(declared);
          return false;
        }
      }
    }
    ok := true;
  }

  // ---- the reconciler -----------------------------------------------------------

  class Reconciler {
    const spec: Spec
    const declared: seq<string>

    var status: Status
    var pods: seq<Pod>
    var mailbox: map<string, string>
    var deleted: bool

    /** Completions the gateway is about to write, the UIDs handed out, each with its
        attempt, and whose reports are stored. */
    var flight: multiset<Patch>
    var born: map<Uid, nat>
    var writers: set<Uid>

    function World(pc: Pc): World
      reads this
    {
      TaskMachine.World(status, pods, mailbox, pc, deleted, flight, born, writers)
    }

    ghost predicate Valid()
      reads this
    {
      Inv(spec, World(Rest)) && spec.declared == Elems(declared)
    }

    constructor (spec: Spec, declared: seq<string>)
      requires spec.declared == Elems(declared)
      ensures this.spec == spec && this.declared == declared
      ensures Valid() && World(Rest) == INIT
    {
      this.spec, this.declared := spec, declared;
      status, pods, mailbox, deleted := INIT.status, [], map[], false;
      flight, born, writers := multiset{}, map[], {};
      new;
      RunKeeps(spec, []);
    }

    method SettleTask(phase: Phase)
      modifies `status
      ensures World(Rest) == Settle(old(World(Rest)), phase)
    {
      status := status.(phase := phase, completed := true, rejected := false);
    }

    method DeletePod(i: Input) returns (go: bool)
      modifies `pods
      ensures World(if go then Resetting else Rest) == DeleteOldPod(old(World(Deleting)), i)
    {
      hide OwnedPod, MarkDeleting;
      var pod := OwnedPod(pods);
      if pod.Some? && !pod.value.deleting {
        if i.deleteRejected { return false; }
        pods := MarkDeleting(pods, pod.value.uid);
      }
      go := true;
    }

    method EmptyMailbox(i: Input) returns (go: bool)
      modifies `mailbox, `writers
      ensures World(if go then Reopening else Rest) == ResetMailbox(spec, old(World(Resetting)), i)
    {
      if spec.agentReported && mailbox != map[] {
        if i.resetRejected { return false; }
        mailbox := map[];
        writers := {};
      }
      go := true;
    }

    /** Deletes the old Pod, resets the mailbox, returns to Provisioning. Each step
        may be repeated by a later pass; a rejected one ends this pass. */
    method FinishRetry(i: Input)
      modifies `status, `pods, `mailbox, `writers
      ensures World(Rest) == Finish(spec, old(World(Deleting)), i)
    {
      hide DeleteOldPod, ResetMailbox, Finish, GoOn;
      RetrySteps(spec, World(Deleting), i);
      var go := DeletePod(i);
      if !go { return; }
      go := EmptyMailbox(i);
      if !go { return; }
      status := status.(phase := Provisioning);
    }

    method FailOrRetryTask(i: Input)
      modifies `status, `pods, `mailbox, `writers
      ensures World(Rest) == Finish(spec, FailOrRetry(spec, old(World(Rest))), i)
    {
      if status.retries < spec.backoffLimit {
        status := status.(retries := status.retries + 1, currentUid := None, started := false,
                          artifacts := map[], report := "", rejected := false, phase := Failed);
        FinishRetry(i);
      } else {
        SettleTask(Failed);
      }
    }

    method CompleteTask(pod: Option<Pod>, i: Input)
      requires spec.declared == Elems(declared)
      modifies `status, `pods, `mailbox, `writers
      ensures World(Rest) == Finish(spec, DriveCompleting(spec, old(World(Rest)), pod, i), i)
      ensures PassVerdict(spec, old(World(Rest)), pod, i, status)
    {
      CompletingPass(spec, World(Rest), pod, i);
      hide ParseCompletion, ValidArtifacts, GoOn;
      if spec.agentReported {
        var p := ReadMailbox(mailbox);
        if p.status != "" {
          var ok := ValidateArtifactNames(p, declared);
          if !ok { FailOrRetryTask(i); return; }
          status := status.(artifacts := p.artifacts, report := p.status);
          if p.status == SUCCESS { SettleTask(Succeeded); } else { FailOrRetryTask(i); }
          return;
        }
      } else if pod.Some? && pod.value.phase == PodSucceeded {
        SettleTask(Succeeded);
        return;
      } else if pod.Some? && pod.value.phase == PodFailed {
        FailOrRetryTask(i);
        return;
      }
      if i.late && status.started {
        SettleTask(if spec.timeoutSucceeds then Succeeded else TimedOut);
      } else {
        FailOrRetryTask(i);
      }
    }

    method RunTask(i: Input)
      requires spec.declared == Elems(declared)
      modifies `status, `pods, `mailbox, `writers
      ensures World(Rest) == Finish(spec, DriveRunning(spec, old(World(Rest)), i), i)
    {
      hide DriveCompleting, FailOrRetry, ParseCompletion, OwnedPod, PassVerdict;
      var pod := OwnedPod(pods);
      var p := ReadMailbox(mailbox);
      if (spec.agentReported && p.status != "")
         || (!spec.agentReported && pod.Some? && pod.value.phase != Active)
         || (i.late && status.started)
      {
        status := status.(phase := Completing);
        CompletingAnyPc(spec, World(Rest), World(Settling(pod)), pod, i);
        CompleteTask(pod, i);
      } else if pod.None? || (spec.agentReported && pod.value.phase == PodFailed) {
        FailOrRetryTask(i);
      }
    }

    method JudgePod(pod: Pod, i: Input)
      requires spec.declared == Elems(declared)
      modifies `status, `pods, `mailbox, `writers
      ensures World(Rest) == Finish(spec, Judge(spec, old(World(Rest)), pod, i), i)
    {
      hide DriveCompleting, FailOrRetry, PassVerdict;
      if pod.ready {
        status := status.(started := true, phase := Running);
      } else if pod.phase == Active {
        if i.fatal || i.deadline { FailOrRetryTask(i); }
      } else if !spec.agentReported && pod.phase == PodSucceeded {
        status := status.(phase := Completing);
        CompletingAnyPc(spec, World(Rest), World(Settling(Some(pod))), Some(pod), i);
        CompleteTask(Some(pod), i);
      } else {
        FailOrRetryTask(i);
      }
    }

    method ProvisionTask(i: Input)
      requires spec.declared == Elems(declared)
      modifies this
      ensures World(Rest) == Finish(spec, DriveProvisioning(spec, old(World(Rest)), i), i)
    {
      hide Judge, FailOrRetry, OwnedPod;
      match OwnedPod(pods)
      case None =>
        if i.violation {
          SettleTask(Failed);
        } else if i.createRejected {
          var first := !status.rejected;
          status := status.(rejected := true, podName := None);
          if !first && i.deadline { FailOrRetryTask(i); } else { status := status.(phase := Provisioning); }
        } else if !i.certReady {
          status := status.(phase := Provisioning);
        } else {
          CreatePod(i.uid);
        }
      case Some(pod) =>
        if !pod.deleting {
          var lost := status.podName != Some(pod.uid);
          if lost || (spec.agentReported && status.currentUid != Some(pod.uid)) {
            RecordPod(pod.uid);
            JudgeAnyPc(spec, World(Rest), World(Judging(pod)), pod, i);
          }
          JudgePod(pod, i);
        }
    }

    method RecordPod(uid: Uid)
      modifies `status
      ensures World(Rest) == Record(spec, old(World(Rest)), uid, Rest)
    {
      status := status.(podName := Some(uid), rejected := false,
                        currentUid := if spec.agentReported then Some(uid) else status.currentUid);
    }

    /** Creates the Pod, then records it in a second write. A UID already handed
        out stands for a create that did not happen. */
    method CreatePod(uid: Uid)
      modifies `status, `pods, `born
      ensures var w := old(World(Rest));
              World(Rest) ==
              if uid in w.born then w
              else ToPhase(Record(spec, w.(pods := w.pods + [Pod(uid, false, false, Active)],
                                           born := w.born[uid := w.status.retries]), uid, Rest), Provisioning, Rest)
    {
      if uid !in born {
        pods := pods + [Pod(uid, false, false, Active)];
        born := born[uid := status.retries];
        RecordPod(uid);
        status := status.(phase := Provisioning);
      }
    }

    /** One pass: the steps of the machine with nothing in between. */
    method Reconcile(i: Input)
      requires Valid()
      modifies this
      ensures Valid()
      ensures World(Rest) == Finish(spec, BeginPass(spec, old(World(Rest)), i), i)
    {
      BeginKeeps(spec, World(Rest), i);
      FinishKeeps(spec, BeginPass(spec, World(Rest), i), i);
      hide DriveProvisioning, DriveRunning, DriveCompleting, OwnedPod, Inv, Finish, PassVerdict;
      FinishOnce(spec, BeginPass(spec, World(Rest), i), i);
      if deleted {
        var pod := OwnedPod(pods);
        if pod.Some? { pods := MarkDeleting(pods, pod.value.uid); }
      } else if status.phase == Failed && !status.completed {
        FinishRetry(i);
      } else if status.phase in {Succeeded, Failed, TimedOut, Terminating} {
        if i.expired {
          status := status.(phase := Terminating);
          deleted := true;
        }
      } else if !i.held {
        if status.phase == Running { RunTask(i); }
        else if status.phase == Completing { CompleteTask(OwnedPod(pods), i); }
        else { ProvisionTask(i); }
      }
    }
  }

  lemma CompletingAnyPc(spec: Spec, w: World, w': World, pod: Option<Pod>, i: Input)
    requires w' == w.(pc := w'.pc)
    ensures DriveCompleting(spec, w, pod, i) == DriveCompleting(spec, w', pod, i)
  {
    hide ParseCompletion, ValidArtifacts, FailOrRetry;
    var p := ParseCompletion(w.mailbox);
    FailAnyPc(spec, w, w');
    FailAnyPc(spec, w.(status := w.status.(artifacts := p.artifacts, report := p.status)),
              w'.(status := w.status.(artifacts := p.artifacts, report := p.status)));
  }

  lemma FailAnyPc(spec: Spec, w: World, w': World)
    requires w' == w.(pc := w'.pc)
    ensures FailOrRetry(spec, w) == FailOrRetry(spec, w')
  {}

  lemma JudgeAnyPc(spec: Spec, w: World, w': World, pod: Pod, i: Input)
    requires w' == w.(pc := w'.pc)
    ensures Judge(spec, w, pod, i) == Judge(spec, w', pod, i)
  {}
}

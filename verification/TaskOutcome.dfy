/** What a settled AgentTask means: each outcome, told by the mailbox's keys, the
    container's state, the clock and the retry count alone. */
module TaskOutcome {
  import opened Prelude
  import opened TaskMachine
  import opened TaskProofs

  // ---- the verdict on one attempt ----------------------------------------------

  predicate Reported(spec: Spec, w: World) {
    spec.agentReported && "status" in w.mailbox && w.mailbox["status"] != ""
  }

  /** A report of success with every declared artifact and no other. */
  ghost predicate GoodReport(spec: Spec, w: World) {
    && Reported(spec, w) && w.mailbox["status"] == "success"
    && (forall n: string :: n in spec.declared <==> "artifact." + n in w.mailbox)
  }

  predicate Exited(spec: Spec, pod: Option<Pod>, how: PodPhase) {
    !spec.agentReported && pod.Some? && pod.value.phase == how
  }

  /** Neither a report nor an ended container tells how the attempt went. */
  predicate Untold(spec: Spec, w: World, pod: Option<Pod>) {
    !Reported(spec, w) && !Exited(spec, pod, PodSucceeded) && !Exited(spec, pod, PodFailed)
  }

  predicate Overdue(w: World, i: Input) {
    i.late && w.status.started
  }

  ghost predicate Won(spec: Spec, w: World, pod: Option<Pod>, i: Input) {
    || GoodReport(spec, w)
    || Exited(spec, pod, PodSucceeded)
    || (Untold(spec, w, pod) && Overdue(w, i) && spec.timeoutSucceeds)
  }

  predicate RanOut(spec: Spec, w: World, pod: Option<Pod>, i: Input) {
    Untold(spec, w, pod) && Overdue(w, i) && !spec.timeoutSucceeds
  }

  ghost predicate Lost(spec: Spec, w: World, pod: Option<Pod>, i: Input) {
    || (Reported(spec, w) && !GoodReport(spec, w))
    || Exited(spec, pod, PodFailed)
    || (Untold(spec, w, pod) && !Overdue(w, i))
  }

  /** A lost attempt: one retry more, or Failed for good once they are used up. */
  predicate CountedOrFailed(spec: Spec, s: Status, s': Status) {
    if s.retries < spec.backoffLimit then
      s'.retries == s.retries + 1 && s'.phase == Failed && s'.completed == s.completed
      && s'.currentUid.None? && !s'.started && s'.report == "" && s'.artifacts == map[]
    else s'.retries == s.retries && s'.phase == Failed && s'.completed
  }

  /** A report that counted is kept: the artifacts are the mailbox's, by name. */
  ghost predicate KeepsReport(w: World, s': Status) {
    && "status" in w.mailbox && s'.report == w.mailbox["status"]
    && (forall n: string :: n in s'.artifacts <==> "artifact." + n in w.mailbox)
    && (forall n: string | n in s'.artifacts :: s'.artifacts[n] == w.mailbox["artifact." + n])
  }

  lemma FailCounts(spec: Spec, w: World)
    ensures CountedOrFailed(spec, w.status, FailOrRetry(spec, w).status)
  {}

  lemma ReportRead(spec: Spec, w: World)
    requires spec.agentReported
    ensures var p := ParseCompletion(w.mailbox);
            && (Reported(spec, w) <==> p.status != "") && (GoodReport(spec, w) ==> Reported(spec, w))
            && (Reported(spec, w) ==>
                  (GoodReport(spec, w) <==> ValidArtifacts(p, spec.declared) && p.status == SUCCESS))
  {
    var p := ParseCompletion(w.mailbox);
    assert forall n: string :: n in p.artifacts <==> "artifact." + n in w.mailbox;
    if p.status == SUCCESS && ValidArtifacts(p, spec.declared) {
      assert p.artifacts.Keys == spec.declared;
      assert forall n: string :: n in spec.declared <==> n in p.artifacts;
    }
    if GoodReport(spec, w) { assert p.artifacts.Keys == spec.declared; }
  }

  /** The status a Completing pass writes is the verdict's. */
  ghost predicate Verdict(spec: Spec, w: World, pod: Option<Pod>, i: Input, s': Status) {
    && (Won(spec, w, pod, i) ==> s'.phase == Succeeded && s'.completed && s'.retries == w.status.retries)
    && (RanOut(spec, w, pod, i) ==> s'.phase == TimedOut && s'.completed && s'.retries == w.status.retries)
    && (Lost(spec, w, pod, i) ==> CountedOrFailed(spec, w.status, s'))
    && (GoodReport(spec, w) ==> KeepsReport(w, s'))
  }

  lemma ExitVerdict(spec: Spec, w: World, pod: Option<Pod>, i: Input)
    requires !spec.agentReported
    ensures Verdict(spec, w, pod, i, DriveCompleting(spec, w, pod, i).status)
  {
    hide FailOrRetry, CountedOrFailed, KeepsReport;
    FailCounts(spec, w);
  }

  lemma ReportVerdict(spec: Spec, w: World, pod: Option<Pod>, i: Input)
    requires spec.agentReported
    ensures Verdict(spec, w, pod, i, DriveCompleting(spec, w, pod, i).status)
  {
    hide ValidArtifacts, ParseCompletion, FailOrRetry, GoodReport, CountedOrFailed, KeepsReport, Reported;
    var p := ParseCompletion(w.mailbox);
    var w1 := w.(status := w.status.(artifacts := p.artifacts, report := p.status));
    ReportRead(spec, w);
    FailCounts(spec, w);
    FailCounts(spec, w1);
    CountedAfter(spec, w.status, w1.status, FailOrRetry(spec, w1).status);
    if GoodReport(spec, w) { ReportKept(spec, w, Settle(w1, Succeeded).status); }
  }

  lemma CompletingVerdict(spec: Spec, w: World, pod: Option<Pod>, i: Input)
    ensures Verdict(spec, w, pod, i, DriveCompleting(spec, w, pod, i).status)
  {
    hide DriveCompleting, Verdict;
    if spec.agentReported { ReportVerdict(spec, w, pod, i); } else { ExitVerdict(spec, w, pod, i); }
  }

  lemma CountedAfter(spec: Spec, s: Status, s1: Status, s': Status)
    requires s1.retries == s.retries && s1.completed == s.completed && CountedOrFailed(spec, s1, s')
    ensures CountedOrFailed(spec, s, s')
  {}

  lemma ReportKept(spec: Spec, w: World, s': Status)
    requires GoodReport(spec, w)
    requires s'.report == ParseCompletion(w.mailbox).status && s'.artifacts == ParseCompletion(w.mailbox).artifacts
    ensures KeepsReport(w, s')
  {}

  lemma ReportsOnly(spec: Spec, w: World)
    ensures Reported(spec, w) ==> spec.agentReported
  {}

  /** Exactly one verdict holds. */
  lemma OneVerdict(spec: Spec, w: World, pod: Option<Pod>, i: Input)
    ensures Won(spec, w, pod, i) || RanOut(spec, w, pod, i) || Lost(spec, w, pod, i)
    ensures !(Won(spec, w, pod, i) && RanOut(spec, w, pod, i)) && !(Won(spec, w, pod, i) && Lost(spec, w, pod, i))
    ensures !(RanOut(spec, w, pod, i) && Lost(spec, w, pod, i))
  {}

  // ---- where a step reaches its verdict ---------------------------------------------

  /** A pass begins on an AgentTask that is still going. */
  predicate Passes(w: World, a: Act) {
    a.Begin? && w.pc.Rest? && !w.deleted && !a.i.held && !Retrying(w.status) && !Settled(w.status)
  }

  function Found(w: World): Option<Pod> {
    if w.pods == [] then None else Some(w.pods[0])
  }

  /** The step judges an attempt in Completing, by this Pod. */
  predicate Concludes(w: World, a: Act) {
    (Passes(w, a) && w.status.phase == Completing) || (a.Go? && w.pc.Settling?)
  }

  function PodRead(w: World, a: Act): Option<Pod> {
    if a.Go? && w.pc.Settling? then w.pc.seen else Found(w)
  }

  function InputOf(a: Act): Input
    requires a.Begin? || a.Go?
  {
    if a.Begin? then a.i else a.j
  }

  /** The step judges a recorded Pod that should be starting. */
  predicate Judges(spec: Spec, w: World, a: Act, pod: Pod) {
    || (a.Go? && w.pc == Judging(pod))
    || (Passes(w, a) && Waiting(w.status) && w.pods == [pod] && !pod.deleting && w.status.podName == Some(pod.uid)
        && (spec.agentReported ==> w.status.currentUid == Some(pod.uid)))
  }

  /** It ended before it was Ready and that is no success, it can never start, or it took too long. */
  predicate Hopeless(spec: Spec, pod: Pod, i: Input) {
    && !pod.ready
    && (match pod.phase
        case Active => i.fatal || i.deadline
        case PodSucceeded => spec.agentReported
        case PodFailed => true)
  }

  /** A Running attempt is gone with nothing to show. */
  predicate Vanished(spec: Spec, w: World, a: Act) {
    && Passes(w, a) && w.status.phase == Running && Untold(spec, w, Found(w)) && !Overdue(w, a.i)
    && (w.pods == [] || (spec.agentReported && w.pods[0].phase == PodFailed))
  }

  /** A Running attempt is told or overdue. */
  predicate Told(spec: Spec, w: World, a: Act) {
    Passes(w, a) && w.status.phase == Running && (!Untold(spec, w, Found(w)) || Overdue(w, a.i))
  }

  predicate RefusedTwice(w: World, a: Act) {
    && Passes(w, a) && Waiting(w.status) && w.pods == []
    && !a.i.violation && a.i.createRejected && w.status.rejected && a.i.deadline
  }

  /** The class forbids the AgentTask before it has a Pod. */
  predicate Forbidden(w: World, a: Act) {
    Passes(w, a) && Waiting(w.status) && w.pods == [] && a.i.violation
  }

  ghost predicate LosesAttempt(spec: Spec, w: World, a: Act) {
    || (Concludes(w, a) && Lost(spec, w, PodRead(w, a), InputOf(a)))
    || (exists pod :: Judges(spec, w, a, pod) && Hopeless(spec, pod, InputOf(a)))
    || Vanished(spec, w, a)
    || RefusedTwice(w, a)
  }

  // ---- one step --------------------------------------------------------------------------

  lemma FoundIsOwned(spec: Spec, w: World)
    requires Inv(spec, w)
    ensures OwnedPod(w.pods) == Found(w) && (Found(w).Some? ==> w.pods == [Found(w).value])
  {}

  /** What a status write that decides nothing leaves as it is. */
  predicate Undecided(s: Status, s': Status) {
    s'.retries == s.retries && s'.completed == s.completed && s'.phase !in {Succeeded, TimedOut, Terminating}
    && (s'.phase == Failed ==> s.phase == Failed)
  }

  ghost predicate Decided(spec: Spec, w: World, a: Act, s': Status) {
    var s := w.status;
    && (Concludes(w, a) && Won(spec, w, PodRead(w, a), InputOf(a)) ==>
          s'.phase == Succeeded && s'.completed && s'.retries == s.retries)
    && (Concludes(w, a) && RanOut(spec, w, PodRead(w, a), InputOf(a)) ==>
          s'.phase == TimedOut && s'.completed && s'.retries == s.retries)
    && (LosesAttempt(spec, w, a) ==> CountedOrFailed(spec, s, s'))
    && (Forbidden(w, a) ==> s'.phase == Failed && s'.completed && s'.retries == s.retries)
    && (!Concludes(w, a) && !LosesAttempt(spec, w, a) && !Forbidden(w, a) && !Settled(s) ==> Undecided(s, s'))
  }

  lemma JudgeShape(spec: Spec, w: World, pod: Pod, i: Input)
    ensures Judge(spec, w, pod, i) ==
            if pod.ready then w.(status := w.status.(phase := Running, started := true), pc := Rest)
            else if Hopeless(spec, pod, i) then FailOrRetry(spec, w)
            else if Exited(spec, Some(pod), PodSucceeded) then ToPhase(w, Completing, Settling(Some(pod)))
            else w.(pc := Rest)
  {
    hide FailOrRetry;
  }

  lemma JudgeDecides(spec: Spec, w: World, pod: Pod, i: Input)
    requires Waiting(w.status)
    ensures var s' := Judge(spec, w, pod, i).status;
            if Hopeless(spec, pod, i) then CountedOrFailed(spec, w.status, s') else Undecided(w.status, s')
  {
    hide Judge, FailOrRetry, CountedOrFailed, Exited;
    JudgeShape(spec, w, pod, i);
    FailCounts(spec, w);
    assert Hopeless(spec, pod, i) ==> !pod.ready;
    hide Hopeless;
  }

  lemma ConcludeDecides(spec: Spec, w: World, a: Act)
    requires Inv(spec, w) && Concludes(w, a)
    ensures Decided(spec, w, a, Step(spec, w, a).status)
  {
    hide DriveCompleting, Won, RanOut, Lost, CountedOrFailed, Hopeless, PodsInv, UidInv, StatusInv, OwnedPod;
    FoundIsOwned(spec, w);
    CompletingVerdict(spec, w, PodRead(w, a), InputOf(a));
    OneVerdict(spec, w, PodRead(w, a), InputOf(a));
  }

  /** A pass over a Running AgentTask, by what it finds. */
  lemma RunningShape(spec: Spec, w: World, a: Act)
    requires Inv(spec, w) && Passes(w, a) && w.status.phase == Running
    ensures Step(spec, w, a) ==
            if Told(spec, w, a) then ToPhase(w, Completing, Settling(Found(w)))
            else if Vanished(spec, w, a) then FailOrRetry(spec, w)
            else w
  {
    hide FailOrRetry, PodsInv, UidInv, StatusInv, OwnedPod, ParseCompletion, Reported, GoodReport, ValidArtifacts;
    FoundIsOwned(spec, w);
    if spec.agentReported { ReportRead(spec, w); }
    ReportsOnly(spec, w);
  }

  lemma RunningDecides(spec: Spec, w: World, a: Act)
    requires Inv(spec, w) && Passes(w, a) && w.status.phase == Running
    ensures Decided(spec, w, a, Step(spec, w, a).status)
  {
    hide Step, FailOrRetry, CountedOrFailed, Hopeless, Inv, Won, Lost, RanOut;
    RunningShape(spec, w, a);
    FailCounts(spec, w);
  }

  lemma RejectedDecides(spec: Spec, w: World, i: Input)
    requires Waiting(w.status)
    ensures var s' := CreateRejected(spec, w, i).status;
            if w.status.rejected && i.deadline then CountedOrFailed(spec, w.status, s') else Undecided(w.status, s')
  {
    hide FailOrRetry;
    var w1 := w.(status := w.status.(rejected := true, podName := None));
    FailCounts(spec, w1);
    CountedAfter(spec, w.status, w1.status, FailOrRetry(spec, w1).status);
  }

  lemma OneJudged(spec: Spec, w: World, a: Act, pod: Pod)
    requires Judges(spec, w, a, pod)
    ensures (exists p :: Judges(spec, w, a, p) && Hopeless(spec, p, InputOf(a))) <==> Hopeless(spec, pod, InputOf(a))
  {
    hide Hopeless;
    assert forall p | Judges(spec, w, a, p) :: p == pod;
  }

  lemma EmptyDecides(spec: Spec, w: World, a: Act)
    requires Inv(spec, w) && Passes(w, a) && Waiting(w.status) && w.pods == []
    ensures Decided(spec, w, a, Step(spec, w, a).status)
  {
    hide FailOrRetry, CountedOrFailed, Hopeless, PodsInv, UidInv, StatusInv, CreateRejected, Won, Lost, RanOut;
    RejectedDecides(spec, w, a.i);
  }

  lemma WaitingDecides(spec: Spec, w: World, a: Act)
    requires Inv(spec, w) && Passes(w, a) && Waiting(w.status) && w.pods != []
    ensures Decided(spec, w, a, Step(spec, w, a).status)
  {
    hide FailOrRetry, CountedOrFailed, Hopeless, PodsInv, UidInv, StatusInv, OwnedPod, Judge, CreateRejected, Won,
      Lost, RanOut;
    FoundIsOwned(spec, w);
    var pod := w.pods[0];
    JudgeDecides(spec, w, pod, a.i);
    if Judges(spec, w, a, pod) { OneJudged(spec, w, a, pod); }
  }

  lemma GoDecides(spec: Spec, w: World, a: Act)
    requires Inv(spec, w) && a.Go? && !w.pc.Settling?
    ensures Decided(spec, w, a, Step(spec, w, a).status)
  {
    hide FailOrRetry, CountedOrFailed, Hopeless, PodsInv, UidInv, OwnedPod, Judge, DeleteOldPod, ResetMailbox, Won,
      Lost, RanOut;
    RestUntouched(spec, w, a.j);
    if w.pc.Judging? {
      JudgeDecides(spec, w, w.pc.pod, a.j);
      OneJudged(spec, w, a, w.pc.pod);
    }
  }

  lemma RestUntouched(spec: Spec, w: World, i: Input)
    ensures DeleteOldPod(w, i).status == w.status && ResetMailbox(spec, w, i).status == w.status
  {}

  lemma StepDecides(spec: Spec, w: World, a: Act)
    requires Inv(spec, w)
    ensures Decided(spec, w, a, Step(spec, w, a).status)
  {
    hide *;
    if Concludes(w, a) {
      ConcludeDecides(spec, w, a);
    } else if a.Go? {
      IsNoConclusion(w, a);
      GoDecides(spec, w, a);
    } else if Passes(w, a) {
      PassPhases(w, a);
      if w.status.phase == Running { RunningDecides(spec, w, a); }
      else if w.pods == [] { EmptyDecides(spec, w, a); }
      else { WaitingDecides(spec, w, a); }
    } else {
      OtherDecides(spec, w, a);
    }
  }

  lemma IsNoConclusion(w: World, a: Act)
    requires !Concludes(w, a) && a.Go?
    ensures !w.pc.Settling?
  {}

  lemma PassPhases(w: World, a: Act)
    requires Passes(w, a) && !Concludes(w, a)
    ensures w.status.phase == Running || Waiting(w.status)
  {}

  /** Pods, the gateway and the owner write no status; a pass that is over, held or
      finishing a retry decides nothing. */
  lemma OtherStatus(spec: Spec, w: World, a: Act)
    requires !a.Go? && !Passes(w, a)
    ensures var s, s' := w.status, Step(spec, w, a).status;
            s' == s || (Settled(s) && s' == s.(phase := Terminating))
  {
    hide DriveProvisioning, DriveRunning, DriveCompleting, GoOn, OwnedPod, MarkDeleting;
  }

  lemma NothingLost(spec: Spec, w: World, a: Act)
    requires !a.Go? && !Passes(w, a)
    ensures !LosesAttempt(spec, w, a) && !Forbidden(w, a)
  {
    hide Lost, Hopeless;
  }

  lemma OtherDecides(spec: Spec, w: World, a: Act)
    requires !Concludes(w, a) && !a.Go? && !Passes(w, a)
    ensures Decided(spec, w, a, Step(spec, w, a).status)
  {
    hide Step, LosesAttempt, Forbidden, Won, RanOut, Passes;
    OtherStatus(spec, w, a);
    NothingLost(spec, w, a);
  }

  /** A step reaches at most one of these. */
  lemma OutcomesApart(spec: Spec, w: World, a: Act)
    requires PcInv(w) && !Settled(w.status)
    ensures Concludes(w, a) ==> (LosesAttempt(spec, w, a) <==> Lost(spec, w, PodRead(w, a), InputOf(a)))
    ensures !(Concludes(w, a) && Forbidden(w, a)) && !(LosesAttempt(spec, w, a) && Forbidden(w, a))
  {
    hide Lost, Untold, Overdue, Hopeless;
  }

  /** From an AgentTask that is still going, each outcome is reached exactly when its
      cause is there. */
  lemma OutcomeIff(spec: Spec, acts: seq<Act>, a: Act)
    requires !Settled(Run(spec, acts).status)
    ensures var w := Run(spec, acts);
            var s, s' := w.status, Run(spec, acts + [a]).status;
            && (s'.phase == Succeeded <==> Concludes(w, a) && Won(spec, w, PodRead(w, a), InputOf(a)))
            && (s'.phase == TimedOut <==> Concludes(w, a) && RanOut(spec, w, PodRead(w, a), InputOf(a)))
            && (s'.phase == Failed && s'.completed <==>
                  (LosesAttempt(spec, w, a) && s.retries == spec.backoffLimit) || Forbidden(w, a))
            && (s'.retries == s.retries + 1 <==> LosesAttempt(spec, w, a) && s.retries < spec.backoffLimit)
            && s'.phase != Terminating
  {
    hide LosesAttempt, Won, RanOut, Lost, Forbidden, Step, Run;
    var w := Run(spec, acts);
    RunKeeps(spec, acts);
    RunSnoc(spec, acts, a);
    StepDecides(spec, w, a);
    OutcomesApart(spec, w, a);
    if Concludes(w, a) { OneVerdict(spec, w, PodRead(w, a), InputOf(a)); }
  }

  // ---- over whole runs ----------------------------------------------------------------

  /** The step that settles with this phase has this phase's cause. */
  ghost predicate Causes(spec: Spec, w: World, a: Act, phase: Phase) {
    match phase
    case Succeeded => Concludes(w, a) && Won(spec, w, PodRead(w, a), InputOf(a))
    case TimedOut => Concludes(w, a) && RanOut(spec, w, PodRead(w, a), InputOf(a))
    case Failed => (LosesAttempt(spec, w, a) && w.status.retries == spec.backoffLimit) || Forbidden(w, a)
    case _ => false
  }

  /** The phase an AgentTask settled with, also once it is being deleted. */
  ghost predicate SettledAs(spec: Spec, acts: seq<Act>, k: nat, phase: Phase) {
    && k < |acts| && !Settled(Run(spec, acts[..k]).status)
    && Causes(spec, Run(spec, acts[..k]), acts[k], phase) && Run(spec, acts[..k + 1]).status.phase == phase
  }

  /** Every settled AgentTask settled once, at a step that had the cause its phase
      names, and nothing has changed it since but its deletion. */
  lemma {:induction false} SettledMeans(spec: Spec, acts: seq<Act>) returns (k: nat, phase: Phase)
    requires Settled(Run(spec, acts).status)
    ensures SettledAs(spec, acts, k, phase)
    ensures var s := Run(spec, acts[..k + 1]).status;
            Run(spec, acts).status == s || Run(spec, acts).status == s.(phase := Terminating)
  {
    hide Run, Causes, Settled;
    k, phase := SettlingStep(spec, acts);
    assert acts == acts[..k + 1] + acts[k + 1..];
    SettledAlready(spec, acts, k, phase);
    SettledStays(spec, acts[..k + 1], acts[k + 1..]);
  }

  lemma SettledAlready(spec: Spec, acts: seq<Act>, k: nat, phase: Phase)
    requires SettledAs(spec, acts, k, phase)
    ensures Settled(Run(spec, acts[..k + 1]).status)
  {
    hide Causes, Run;
    RunKeeps(spec, acts[..k + 1]);
    RunCut(spec, acts, k);
    CauseCompletes(spec, acts, k, phase);
  }

  lemma RunCut(spec: Spec, acts: seq<Act>, k: nat)
    requires k < |acts|
    ensures acts[..k + 1] == acts[..k] + [acts[k]]
  {}

  lemma CauseCompletes(spec: Spec, acts: seq<Act>, k: nat, phase: Phase)
    requires SettledAs(spec, acts, k, phase)
    ensures phase in {Succeeded, TimedOut, Failed} && (phase == Failed ==> Run(spec, acts[..k + 1]).status.completed)
  {
    hide Run, LosesAttempt, Won, RanOut, Forbidden;
    RunCut(spec, acts, k);
    OutcomeIff(spec, acts[..k], acts[k]);
  }

  lemma {:induction false} SettlingStep(spec: Spec, acts: seq<Act>) returns (k: nat, phase: Phase)
    requires Settled(Run(spec, acts).status)
    ensures SettledAs(spec, acts, k, phase)
  {
    hide Run, Step, LosesAttempt, Won, RanOut, Forbidden, PodsInv, UidInv, PcInv;
    NotSettledAtFirst(spec, acts);
    var n := |acts| - 1;
    RunCut(spec, acts, n);
    assert acts[..n + 1] == acts;
    if Settled(Run(spec, acts[..n]).status) {
      k, phase := SettlingStep(spec, acts[..n]);
      assert acts[..n][..k] == acts[..k] && acts[..n][..k + 1] == acts[..k + 1];
    } else {
      k, phase := n, Run(spec, acts).status.phase;
      OutcomeIff(spec, acts[..n], acts[n]);
      RunKeeps(spec, acts[..n]);
      RunKeeps(spec, acts);
      RunSnoc(spec, acts[..n], acts[n]);
    }
  }

  lemma NotSettledAtFirst(spec: Spec, acts: seq<Act>)
    requires Settled(Run(spec, acts).status)
    ensures acts != []
  {}

  // ---- the other steps -----------------------------------------------------------------

  ghost predicate Starts(spec: Spec, w: World, a: Act) {
    exists pod :: Judges(spec, w, a, pod) && pod.ready
  }

  ghost predicate EndsUnready(spec: Spec, w: World, a: Act) {
    exists pod :: Judges(spec, w, a, pod) && !pod.ready && Exited(spec, Some(pod), PodSucceeded)
  }

  predicate Creates(w: World, a: Act) {
    && Passes(w, a) && Waiting(w.status) && w.pods == []
    && !a.i.violation && !a.i.createRejected && a.i.certReady && a.i.uid !in w.born
  }

  ghost predicate Moved(spec: Spec, w: World, a: Act, w': World) {
    var s, s' := w.status, w'.status;
    && (s'.phase == Running <==>
          (s.phase == Running && !Told(spec, w, a) && !Vanished(spec, w, a)) || Starts(spec, w, a))
    && (s'.phase == Completing <==>
          (s.phase == Completing && !Concludes(w, a)) || Told(spec, w, a) || EndsUnready(spec, w, a))
    && (Starts(spec, w, a) ==> s'.started) && (Told(spec, w, a) ==> w'.pc == Settling(Found(w)))
    && (Creates(w, a) ==> w'.pods == [Pod(a.i.uid, false, false, Active)] && w'.pc == Recording(a.i.uid))
    && (!Creates(w, a) ==> w'.born == w.born)
    && w'.deleted == (w.deleted || a.DeleteTask? || (a.Go? && w.pc == Expiring))
  }

  lemma FailMoves(spec: Spec, w: World)
    ensures var w' := FailOrRetry(spec, w);
            w'.status.phase == Failed && w'.born == w.born && w'.deleted == w.deleted
  {}

  lemma CompletingMoves(spec: Spec, w: World, pod: Option<Pod>, i: Input)
    ensures var w' := DriveCompleting(spec, w, pod, i);
            w'.status.phase in {Succeeded, TimedOut, Failed} && w'.born == w.born && w'.deleted == w.deleted
  {
    hide ValidArtifacts, ParseCompletion, FailOrRetry;
    var p := ParseCompletion(w.mailbox);
    FailMoves(spec, w);
    FailMoves(spec, w.(status := w.status.(artifacts := p.artifacts, report := p.status)));
  }

  lemma JudgeMoves(spec: Spec, w: World, pod: Pod, i: Input)
    requires Waiting(w.status)
    ensures var w' := Judge(spec, w, pod, i);
            && (w'.status.phase == Running <==> pod.ready) && (pod.ready ==> w'.status.started)
            && (w'.status.phase == Completing <==> !pod.ready && Exited(spec, Some(pod), PodSucceeded))
            && w'.born == w.born && w'.deleted == w.deleted
  {
    hide Judge, FailOrRetry;
    JudgeShape(spec, w, pod, i);
    FailMoves(spec, w);
  }

  lemma OneStarts(spec: Spec, w: World, a: Act, pod: Pod)
    requires Judges(spec, w, a, pod)
    ensures Starts(spec, w, a) <==> pod.ready
    ensures EndsUnready(spec, w, a) <==> !pod.ready && Exited(spec, Some(pod), PodSucceeded)
  {
    hide Exited;
    assert forall p | Judges(spec, w, a, p) :: p == pod;
  }

  lemma ConcludeMoves(spec: Spec, w: World, a: Act)
    requires Inv(spec, w) && Concludes(w, a)
    ensures Moved(spec, w, a, Step(spec, w, a))
  {
    hide DriveCompleting, PodsInv, UidInv, StatusInv, OwnedPod, Untold, Exited;
    FoundIsOwned(spec, w);
    CompletingMoves(spec, w, PodRead(w, a), InputOf(a));
  }

  lemma RunningMoves(spec: Spec, w: World, a: Act)
    requires Inv(spec, w) && Passes(w, a) && w.status.phase == Running
    ensures Moved(spec, w, a, Step(spec, w, a))
  {
    hide Step, FailOrRetry, Inv, Untold, Exited;
    RunningShape(spec, w, a);
    FailMoves(spec, w);
  }

  lemma RejectedMoves(spec: Spec, w: World, i: Input)
    requires Waiting(w.status)
    ensures var w' := CreateRejected(spec, w, i);
            w'.status.phase in {Failed, Provisioning} && w'.born == w.born && w'.deleted == w.deleted
  {
    hide FailOrRetry;
    FailMoves(spec, w.(status := w.status.(rejected := true, podName := None)));
  }

  lemma EmptyMoves(spec: Spec, w: World, a: Act)
    requires Inv(spec, w) && Passes(w, a) && Waiting(w.status) && w.pods == []
    ensures Moved(spec, w, a, Step(spec, w, a))
  {
    hide FailOrRetry, PodsInv, UidInv, StatusInv, CreateRejected, Untold, Exited;
    RejectedMoves(spec, w, a.i);
  }

  lemma WaitingMoves(spec: Spec, w: World, a: Act)
    requires Inv(spec, w) && Passes(w, a) && Waiting(w.status) && w.pods != []
    ensures Moved(spec, w, a, Step(spec, w, a))
  {
    hide FailOrRetry, PodsInv, UidInv, StatusInv, OwnedPod, Judge, CreateRejected, Untold, Exited;
    FoundIsOwned(spec, w);
    var pod := w.pods[0];
    JudgeMoves(spec, w, pod, a.i);
    if Judges(spec, w, a, pod) { OneStarts(spec, w, a, pod); }
  }

  lemma RetryMoves(spec: Spec, w: World, i: Input)
    ensures DeleteOldPod(w, i).born == w.born && DeleteOldPod(w, i).deleted == w.deleted
    ensures ResetMailbox(spec, w, i).born == w.born && ResetMailbox(spec, w, i).deleted == w.deleted
  {
    hide OwnedPod, MarkDeleting;
  }

  lemma GoJudges(spec: Spec, w: World, a: Act)
    requires Inv(spec, w) && a.Go? && w.pc.Judging?
    ensures Moved(spec, w, a, Step(spec, w, a))
  {
    hide FailOrRetry, PodsInv, UidInv, StatusInv, OwnedPod, Judge, Untold, Exited;
    JudgeMoves(spec, w, w.pc.pod, a.j);
    OneStarts(spec, w, a, w.pc.pod);
  }

  lemma GoMoves(spec: Spec, w: World, a: Act)
    requires Inv(spec, w) && a.Go? && !w.pc.Settling? && !w.pc.Judging?
    ensures Moved(spec, w, a, Step(spec, w, a))
  {
    hide PodsInv, UidInv, StatusInv, OwnedPod, DeleteOldPod, ResetMailbox, Untold, Exited;
    RetryMoves(spec, w, a.j);
    RestUntouched(spec, w, a.j);
  }

  lemma OtherMoves(spec: Spec, w: World, a: Act)
    requires !Concludes(w, a) && !a.Go? && !Passes(w, a)
    ensures Moved(spec, w, a, Step(spec, w, a))
  {
    hide Step, Untold, Overdue, Exited;
    OtherStatus(spec, w, a);
    OtherBorn(spec, w, a);
  }

  lemma BeginKeepsRest(spec: Spec, w: World, i: Input)
    requires w.pc.Rest? && !Passes(w, Begin(i))
    ensures BeginPass(spec, w, i).born == w.born && BeginPass(spec, w, i).deleted == w.deleted
  {
    hide DriveProvisioning, DriveRunning, DriveCompleting, OwnedPod, MarkDeleting;
  }

  lemma BeginBorn(spec: Spec, w: World, i: Input)
    requires !Passes(w, Begin(i))
    ensures Step(spec, w, Begin(i)).born == w.born && Step(spec, w, Begin(i)).deleted == w.deleted
  {
    hide BeginPass, Passes;
    if w.pc.Rest? { BeginKeepsRest(spec, w, i); }
  }

  lemma GatewayBorn(spec: Spec, w: World, a: Act)
    requires a.Check? || a.Land?
    ensures Step(spec, w, a).born == w.born && Step(spec, w, a).deleted == w.deleted
  {
    hide BeginPass, GoOn, GatewayAccepts;
  }

  lemma OtherBorn(spec: Spec, w: World, a: Act)
    requires !a.Go? && !Passes(w, a)
    ensures Step(spec, w, a).born == w.born && Step(spec, w, a).deleted == (w.deleted || a.DeleteTask?)
  {
    hide BeginPass, ChangePod, DropPod, GatewayAccepts, Passes, GoOn;
    if a.Begin? { BeginBorn(spec, w, a.i); }
    else if a.Check? || a.Land? { GatewayBorn(spec, w, a); }
  }

  /** When a step starts an attempt, takes it to Completing and with what Pod, and
      creates a Pod, and that nothing else does. */
  lemma MovesIff(spec: Spec, acts: seq<Act>, a: Act)
    ensures Moved(spec, Run(spec, acts), a, Run(spec, acts + [a]))
  {
    hide *;
    var w := Run(spec, acts);
    RunKeeps(spec, acts);
    RunSnoc(spec, acts, a);
    if Concludes(w, a) {
      ConcludeMoves(spec, w, a);
    } else if a.Go? {
      IsNoConclusion(w, a);
      if w.pc.Judging? { GoJudges(spec, w, a); } else { GoMoves(spec, w, a); }
    } else if Passes(w, a) {
      PassPhases(w, a);
      if w.status.phase == Running { RunningMoves(spec, w, a); }
      else if w.pods == [] { EmptyMoves(spec, w, a); }
      else { WaitingMoves(spec, w, a); }
    } else {
      OtherMoves(spec, w, a);
    }
  }

  /** A settled AgentTask is taken for deletion exactly when its time to live is over,
      and is deleted by the next step of that pass. */
  lemma ExpiresIff(spec: Spec, acts: seq<Act>, a: Act)
    ensures var w, w' := Run(spec, acts), Run(spec, acts + [a]);
            && (w.status.phase != Terminating ==>
                  (w'.status.phase == Terminating <==>
                     a.Begin? && w.pc.Rest? && !w.deleted && Settled(w.status) && a.i.expired))
            && (!w.deleted && w'.deleted <==> !w.deleted && (a.DeleteTask? || (a.Go? && w.pc == Expiring)))
  {
    hide Run, Step, LosesAttempt, Won, RanOut, Creates, Told, Starts, EndsUnready, Vanished, Concludes;
    var w := Run(spec, acts);
    RunSnoc(spec, acts, a);
    MovesIff(spec, acts, a);
    RunKeeps(spec, acts);
    if !Settled(w.status) { OutcomeIff(spec, acts, a); }
    else if w.status.phase != Terminating { SettledExpires(spec, w, a); }
  }

  lemma SettledExpires(spec: Spec, w: World, a: Act)
    requires PcInv(w) && Settled(w.status) && w.status.phase != Terminating
    ensures Step(spec, w, a).status.phase == Terminating <==>
              a.Begin? && w.pc.Rest? && !w.deleted && a.i.expired
  {
    hide Step;
    match a
    case Begin(i) => BeginExpires(spec, w, i);
    case Go(i) => assert Step(spec, w, a) == w by { RestGoesNowhere(spec, w, i); }
    case _ => ElseKeepsStatus(spec, w, a);
  }

  lemma BeginExpires(spec: Spec, w: World, i: Input)
    requires Settled(w.status) && w.status.phase != Terminating
    ensures Step(spec, w, Begin(i)).status.phase == Terminating <==> w.pc.Rest? && !w.deleted && i.expired
  {
    hide DriveProvisioning, DriveRunning, DriveCompleting, OwnedPod, MarkDeleting;
  }

  lemma RestGoesNowhere(spec: Spec, w: World, i: Input)
    requires w.pc.Rest?
    ensures Step(spec, w, Go(i)) == w
  {}

  lemma ElseKeepsStatus(spec: Spec, w: World, a: Act)
    requires !a.Begin? && !a.Go?
    ensures Step(spec, w, a).status == w.status
  {
    hide BeginPass, GoOn, ChangePod, DropPod, GatewayAccepts;
  }

  /** A completion is accepted exactly from the Pod the status names, for as long as
      the AgentTask has no outcome; and that Pod is the current attempt's. */
  lemma AcceptsIff(spec: Spec, acts: seq<Act>, from: Uid, data: map<string, string>)
    ensures var w, w' := Run(spec, acts), Run(spec, acts + [Check(from, data)]);
            var accepted := && spec.agentReported && data != map[] && w.status.currentUid == Some(from)
                            && w.status.phase != Succeeded && w.status.phase != Failed && w.status.phase != TimedOut;
            && w' == (if accepted then w.(flight := w.flight + multiset{Patch(from, data, w.status.retries)}) else w)
            && (accepted ==> from in w.born && w.born[from] == w.status.retries)
  {
    hide Run, PodsInv, PcInv, StatusInv;
    RunSnoc(spec, acts, Check(from, data));
    RunKeeps(spec, acts);
  }

  /** A Pod is on record before it is judged, and for reported completions it is then
      the one Pod the gateway listens to. */
  lemma RecordsFirst(spec: Spec, acts: seq<Act>, a: Act, pod: Pod)
    requires var w := Run(spec, acts);
             || (Passes(w, a) && Waiting(w.status) && w.pods == [pod] && !pod.deleting && !Judges(spec, w, a, pod))
             || (a.Go? && w.pc == Recording(pod.uid))
    ensures var w, w' := Run(spec, acts), Run(spec, acts + [a]);
            && w'.status.podName == Some(pod.uid) && (spec.agentReported ==> w'.status.currentUid == Some(pod.uid))
            && w'.pc == (if a.Go? then Rest else Judging(pod)) && w'.pods == w.pods
            && w'.status.retries == w.status.retries
  {
    hide Run, Judge, Inv;
    RunSnoc(spec, acts, a);
    RunKeeps(spec, acts);
    FoundIsOwned(spec, Run(spec, acts));
  }

  /** What finishing a retry does, write by write: the old Pod goes first, then what is
      in the mailbox, and only then is the AgentTask reopened; a refused write ends the
      pass with nothing changed. */
  ghost predicate Cleared(spec: Spec, w: World, i: Input, w': World) {
    && (w.pc.Deleting? ==>
          if i.deleteRejected && exists p | p in w.pods :: !p.deleting then w' == w.(pc := Rest)
          else w'.pc == Resetting && (forall p | p in w'.pods :: p.deleting) && w'.mailbox == w.mailbox)
    && (w.pc.Resetting? ==>
          if spec.agentReported && i.resetRejected && w.mailbox != map[] then w' == w.(pc := Rest)
          else w'.pc == Reopening && (spec.agentReported ==> w'.mailbox == map[]) && w'.pods == w.pods)
    && (w.pc.Reopening? ==>
          w'.pc == Rest && w'.status.phase == Provisioning && w'.mailbox == w.mailbox && w'.pods == w.pods)
  }

  lemma DeleteClears(w: World, i: Input)
    requires |w.pods| <= 1 && w.pc.Deleting?
    ensures var w' := DeleteOldPod(w, i);
            if i.deleteRejected && exists p | p in w.pods :: !p.deleting then w' == w.(pc := Rest)
            else w'.pc == Resetting && (forall p | p in w'.pods :: p.deleting) && w'.mailbox == w.mailbox
  {
    if w.pods != [] {
      var p := w.pods[0];
      assert w.pods == [p] && OwnedPod(w.pods) == Some(p) && p in w.pods;
      assert forall q | q in w.pods :: q == p;
    }
  }

  lemma RetryClears(spec: Spec, acts: seq<Act>, i: Input)
    ensures Cleared(spec, Run(spec, acts), i, Run(spec, acts + [Go(i)]))
  {
    hide Run, DriveCompleting, Judge, DeleteOldPod, Record;
    var w := Run(spec, acts);
    RunSnoc(spec, acts, Go(i));
    OnePodAtATime(spec, acts);
    if w.pc.Deleting? { DeleteClears(w, i); }
  }

  /** A pass over an AgentTask that is being deleted deletes its Pod. */
  lemma DeletionTakesPod(spec: Spec, acts: seq<Act>, i: Input)
    requires Run(spec, acts).deleted && Run(spec, acts).pc.Rest?
    ensures forall p | p in Run(spec, acts + [Begin(i)]).pods :: p.deleting
  {
    hide Run, DriveCompleting, DriveRunning, DriveProvisioning;
    RunSnoc(spec, acts, Begin(i));
    RunKeeps(spec, acts);
    FoundIsOwned(spec, Run(spec, acts));
  }
}

/** Whose report settles an AgentTask. The mailbox is emptied between attempts, but
    a completion that was checked before can land after; and within one attempt a
    replacement Pod is recorded over whatever the mailbox holds. */
module TaskAttribution {
  import opened Prelude
  import opened TaskMachine
  import opened TaskProofs
  import opened TaskSenders

  // ---- attempts ------------------------------------------------------------------

  /** Outside a retry every report in the mailbox is of the current attempt. */
  ghost predicate AttemptOwned(w: World) {
    !Retrying(w.status) ==> forall u | u in w.writers :: Current(w, u)
  }

  /** A patch that lands outside a retry was checked at the retry count of that time. */
  predicate LandsInTime(w: World, a: Act) {
    a.Land? && a.patch in w.flight && !Retrying(w.status) ==> a.patch.attempt == w.status.retries
  }

  /** A retry is reopened over an empty mailbox: none landed since it was emptied. */
  predicate ReopensEmpty(w: World, w': World) {
    Retrying(w.status) && !Retrying(w'.status) ==> w.mailbox == map[]
  }

  ghost predicate NoneLate(spec: Spec, acts: seq<Act>) {
    acts != [] ==>
      var front, a := acts[..|acts| - 1], acts[|acts| - 1];
      NoneLate(spec, front) && LandsInTime(Run(spec, front), a) && ReopensEmpty(Run(spec, front), Run(spec, acts))
  }

  ghost predicate AlwaysOwned(spec: Spec, acts: seq<Act>) {
    AttemptOwned(Run(spec, acts)) && (acts != [] ==> AlwaysOwned(spec, acts[..|acts| - 1]))
  }

  lemma LandOwnedIff(w: World, p: Patch)
    requires SendersInv(w) && AttemptOwned(w) && p in w.flight
    ensures AttemptOwned(w.(mailbox := w.mailbox + p.data, writers := w.writers + {p.from},
            flight := w.flight - multiset{p}))
            <==> LandsInTime(w, Land(p))
  {
    hide Retrying;
  }

  lemma QuietOwnedIff(spec: Spec, w: World, w': World)
    requires SendersInv(w) && AttemptOwned(w) && Quiet(w, w') && Progress(spec, w.status, w'.status)
    ensures AttemptOwned(w') <==> ReopensEmpty(w, w')
  {
    hide Retrying, Measure, Settled;
    if Retrying(w.status) && !Retrying(w'.status) && w.mailbox != map[] {
      var u :| u in w.writers;
      assert u in w'.writers && !Current(w', u);
    }
  }

  lemma StepOwnedIff(spec: Spec, w: World, a: Act)
    requires Inv(spec, w) && SendersInv(w) && AttemptOwned(w)
    ensures AttemptOwned(Step(spec, w, a)) <==> LandsInTime(w, a) && ReopensEmpty(w, Step(spec, w, a))
  {
    hide BeginPass, GoOn, ChangePod, DropPod, Inv, SendersInv, Quiet, Progress, Retrying, Current;
    match a
    case Check(_, _) => assert AttemptOwned(Step(spec, w, a)) by { CheckOwned(spec, w, a); }
    case Land(p) => if p in w.flight { LandOwnedIff(w, p); }
    case _ =>
      StepProgress(spec, w, a);
      StepQuiet(spec, w, a);
      QuietOwnedIff(spec, w, Step(spec, w, a));
  }

  lemma CheckOwned(spec: Spec, w: World, a: Act)
    requires AttemptOwned(w) && a.Check?
    ensures AttemptOwned(Step(spec, w, a))
  {}

  /** Over a whole run the mailbox holds only reports of the current attempt outside
      a retry, if and only if no patch lands in a later attempt than it was checked
      in, and none lands between the emptying of the mailbox and the write that
      reopens the AgentTask. */
  lemma {:induction false} CompletionAttribution(spec: Spec, acts: seq<Act>)
    ensures AlwaysOwned(spec, acts) <==> NoneLate(spec, acts)
  {
    if acts != [] {
      hide Step, Inv, SendersInv, AttemptOwned, LandsInTime, ReopensEmpty;
      var front, a := acts[..|acts| - 1], acts[|acts| - 1];
      CompletionAttribution(spec, front);
      RunKeeps(spec, front);
      RunKeepsSenders(spec, front);
      if AttemptOwned(Run(spec, front)) { StepOwnedIff(spec, Run(spec, front), a); }
    }
  }

  /** Some step of `more` reopens a retry. */
  ghost predicate Reopened(spec: Spec, acts: seq<Act>, more: seq<Act>) {
    more != [] &&
    var front := more[..|more| - 1];
    || Reopened(spec, acts, front)
    || (Retrying(Run(spec, acts + front).status) && !Retrying(Run(spec, acts + more).status))
  }

  lemma {:induction false} ReopeningCounts(spec: Spec, acts: seq<Act>, more: seq<Act>)
    requires !Retrying(Run(spec, acts).status)
    ensures var s, s' := Run(spec, acts).status, Run(spec, acts + more).status;
            if Reopened(spec, acts, more) then s'.retries > s.retries
            else s'.retries == if Retrying(s') then s.retries + 1 else s.retries
  {
    hide Run, Step, Retrying, Measure, Settled, PodsInv, UidInv, PcInv, StatusInv;
    if more == [] { assert acts + more == acts; } else {
      var front, a := more[..|more| - 1], more[|more| - 1];
      assert acts + more == acts + front + [a];
      ReopeningCounts(spec, acts, front);
      RunSnoc(spec, acts + front, a);
      RunKeeps(spec, acts + front);
      StepProgress(spec, Run(spec, acts + front), a);
    }
  }

  /** A patch accepted after `acts` lands in time after `more`, outside a retry, exactly
      when no retry was reopened in between. */
  lemma LandsInTimeIff(spec: Spec, acts: seq<Act>, more: seq<Act>, from: Uid, data: map<string, string>)
    requires GatewayAccepts(spec, Run(spec, acts), from, data)
    requires var p := Patch(from, data, Run(spec, acts).status.retries);
             p in Run(spec, acts + more).flight && !Retrying(Run(spec, acts + more).status)
    ensures var p := Patch(from, data, Run(spec, acts).status.retries);
            LandsInTime(Run(spec, acts + more), Land(p)) <==> !Reopened(spec, acts, more)
  {
    hide Run, Reopened, PodsInv, PcInv, StatusInv;
    RunKeeps(spec, acts);
    ReopeningCounts(spec, acts, more);
  }

  // ---- Pods ------------------------------------------------------------------------

  /** Every report in the mailbox came from the Pod the status names. */
  predicate Attributed(w: World) {
    w.status.currentUid.Some? ==> w.writers <= {w.status.currentUid.value}
  }

  /** The step records a new current Pod. */
  predicate Records(w: World, w': World) {
    w'.status.currentUid.Some? && w'.status.currentUid != w.status.currentUid
  }

  /** A new current Pod is recorded over an empty mailbox. */
  predicate RecordsOverEmpty(w: World, w': World) {
    Records(w, w') ==> w.mailbox == map[]
  }

  /** The Pod a patch was checked for is still the current one when it lands. */
  predicate LandsForCurrent(w: World, a: Act) {
    a.Land? && a.patch in w.flight && w.status.currentUid.Some? ==> w.status.currentUid == Some(a.patch.from)
  }

  ghost predicate NoneMixed(spec: Spec, acts: seq<Act>) {
    acts != [] ==>
      var front, a := acts[..|acts| - 1], acts[|acts| - 1];
      NoneMixed(spec, front) && LandsForCurrent(Run(spec, front), a)
          && RecordsOverEmpty(Run(spec, front), Run(spec, acts))
  }

  ghost predicate AlwaysAttributed(spec: Spec, acts: seq<Act>) {
    Attributed(Run(spec, acts)) && (acts != [] ==> AlwaysAttributed(spec, acts[..|acts| - 1]))
  }

  /** The status names the same Pod as before, none for a counted retry, or one that
      has not reported. */
  ghost predicate NamesFresh(w: World, w': World) {
    || w'.status.currentUid == w.status.currentUid
    || Retrying(w'.status)
    || (w'.status.currentUid.Some? && !Reported(w, w'.status.currentUid.value)
        && w'.writers == w.writers && w'.mailbox == w.mailbox)
  }

  lemma ProvisioningNames(spec: Spec, w: World, i: Input)
    requires Inv(spec, w) && LiveInv(spec, w) && Waiting(w.status) && w.pc.Rest?
    ensures NamesFresh(w, DriveProvisioning(spec, w, i))
  {
    OwnedPodMember(w.pods);
    hide OwnedPod, Judge, CreateRejected, PodsInv, UidInv, Reported;
    RejectedCalm(spec, w, i);
    if OwnedPod(w.pods).Some? { JudgeCalm(spec, w, OwnedPod(w.pods).value, i); }
  }

  lemma BeginNames(spec: Spec, w: World, i: Input)
    requires Inv(spec, w) && LiveInv(spec, w) && w.pc.Rest?
    ensures NamesFresh(w, BeginPass(spec, w, i))
  {
    hide OwnedPod, DriveProvisioning, DriveCompleting, DriveRunning, MarkDeleting, PodsInv, UidInv, LiveInv, Reported;
    if !w.deleted && !Retrying(w.status) && !Settled(w.status) {
      match w.status.phase
      case Running => RunningCalm(spec, w, i);
      case Completing => CompletingCalm(spec, w, OwnedPod(w.pods), i);
      case _ => ProvisioningNames(spec, w, i);
    }
  }

  lemma GoOnNames(spec: Spec, w: World, i: Input)
    requires Inv(spec, w) && LiveInv(spec, w)
    ensures NamesFresh(w, GoOn(spec, w, i))
  {
    hide OwnedPod, DriveCompleting, Judge, MarkDeleting, PodsInv, UidInv, Reported, LiveIsCurrent, Retrying;
    match w.pc
    case Judging(pod) => Uncompleted(spec, w); JudgeCalm(spec, w, pod, i);
    case Settling(pod) => Uncompleted(spec, w); CompletingCalm(spec, w, pod, i);
    case _ =>
  }

  lemma StepNames(spec: Spec, w: World, a: Act)
    requires Inv(spec, w) && LiveInv(spec, w)
    ensures NamesFresh(w, Step(spec, w, a))
  {
    hide BeginPass, GoOn, ChangePod, DropPod, Inv, LiveInv, Reported;
    match a
    case Begin(i) => if w.pc.Rest? { BeginNames(spec, w, i); }
    case Go(i) => GoOnNames(spec, w, i);
    case _ =>
  }

  lemma GatewayAttributedIff(spec: Spec, w: World, a: Act)
    requires Attributed(w) && (a.Check? || a.Land?)
    ensures var w' := Step(spec, w, a);
            Attributed(w') <==> LandsForCurrent(w, a) && RecordsOverEmpty(w, w')
  {
    hide BeginPass, GoOn, ChangePod, DropPod, GatewayAccepts;
  }

  lemma QuietAttributedIff(spec: Spec, w: World, w': World)
    requires SendersInv(w) && Attributed(w) && Quiet(w, w') && NamesFresh(w, w') && UidInv(spec, w')
    ensures Attributed(w') <==> RecordsOverEmpty(w, w')
  {
    hide Retrying, Sender, BornGrows, Current;
    assert Records(w, w') ==> !Reported(w, w'.status.currentUid.value) && w'.writers == w.writers;
  }

  lemma StepAttributedIff(spec: Spec, w: World, a: Act)
    requires Inv(spec, w) && SendersInv(w) && LiveInv(spec, w) && Attributed(w)
    ensures var w' := Step(spec, w, a);
            Attributed(w') <==> LandsForCurrent(w, a) && RecordsOverEmpty(w, w')
  {
    if a.Check? || a.Land? {
      GatewayAttributedIff(spec, w, a);
    } else {
      StepNames(spec, w, a);
      StepQuiet(spec, w, a);
      StepKeeps(spec, w, a);
      hide Step, PodsInv, UidInv, PcInv, StatusInv, LiveInv, SendersInv, Quiet, NamesFresh, Attributed,
          RecordsOverEmpty;
      QuietAttributedIff(spec, w, Step(spec, w, a));
    }
  }

  /** Over a whole run every report acted on is the current Pod's own if and only if
      every new current Pod is recorded over an empty mailbox and every patch lands
      while the Pod it was checked for is still the current one. */
  lemma {:induction false} RecordingDecides(spec: Spec, acts: seq<Act>)
    ensures AlwaysAttributed(spec, acts) <==> NoneMixed(spec, acts)
  {
    if acts != [] {
      hide Step, Inv, SendersInv, LiveInv, Attributed, LandsForCurrent, RecordsOverEmpty;
      var front, a := acts[..|acts| - 1], acts[|acts| - 1];
      RecordingDecides(spec, front);
      RunKeeps(spec, front);
      RunKeepsSenders(spec, front);
      RunKeepsLive(spec, front);
      if Attributed(Run(spec, front)) { StepAttributedIff(spec, Run(spec, front), a); }
    }
  }

  /** In such a run the report that a Running or Completing AgentTask acts on is its
      current Pod's. */
  lemma ReportIsCurrentPods(spec: Spec, acts: seq<Act>)
    requires NoneMixed(spec, acts) && spec.agentReported
    ensures var w := Run(spec, acts);
            w.status.phase in {Running, Completing} && w.mailbox != map[] ==>
              w.status.currentUid.Some? && w.writers == {w.status.currentUid.value}
  {
    hide Run, NoneMixed;
    RecordingDecides(spec, acts);
    RunKeeps(spec, acts);
    RunKeepsSenders(spec, acts);
  }
}

/** Which phase an Agent is in after a step, by what the pass found: the whole
    lifecycle of internal/controller/agent_controller.go, entry by entry. */
module AgentPhases {
  import opened Prelude
  import opened AgentMachine
  import opened AgentProofs
  import opened AgentFloor
  import opened AgentActivity

  /** A pass begins, on whatever the gateway could know by now. */
  predicate Begun(w: World, a: Act) {
    a.Begin? && w.pc.Rest? && Known(w, a.i)
  }

  /** The pass gets past deletion, wake and the first checks. */
  predicate Checked(w: World, a: Act) {
    Begun(w, a) && !w.deleted && (w.wake ==> w.status.phase == Hibernating) && !a.i.held
  }

  /** The pass takes a Degraded Agent back to the phase it remembers. */
  predicate Recovers(w: World, a: Act, phase: Phase) {
    Checked(w, a) && !a.i.violation && w.status.phase == Degraded && w.status.preDegraded == Some(phase)
  }

  predicate Steps(w: World, a: Act) {
    a.Begin? && PodStep(w, a.i)
  }

  // ---- sleep, wake, Degraded and deletion -----------------------------------------

  lemma PassPhase(c: Config, w: World, i: Input)
    requires Inv(w) && w.status.phase !in {Degraded, Hibernating, Hibernated} && Known(w, i)
    ensures ConvergePass(c, w, i).status.phase !in {Degraded, Hibernated}
    ensures ConvergePass(c, w, i).status.phase in {Resuming, Terminating} ==>
              ConvergePass(c, w, i).status.phase == w.status.phase
  {
    hide Trunc, Activity, Converge;
    ConvergeSound(w.status, i, w.now);
    ActivitySound(c, Converge(w.status, i, w.now), i, w.now);
    PodStepPhase(w.status, i, w.now);
    var s := Converge(w.status, i, w.now);
    if s.phase in {Running, Idle} { ActivityKeepsMark(c, s, i, w.now); } else { ActivityMoves(c, s, i, w.now); }
  }

  /** The phase the Pod step ends in. */
  lemma PodStepPhase(s: Status, i: Input, now: Time)
    ensures var t := Converge(s, i, now);
            var replaced := i.pod.Live? && i.pod.drifted && i.certReady && (s.mark == Replacing || i.slot);
            t.phase ==
            if i.pod.Live? && !replaced && i.pod.crashed then Failed
            else if i.pod.Live? && !replaced && i.pod.ready then (if s.phase == Idle then Idle else Running)
            else if s.phase == Resuming then Resuming else Provisioning
  {}

  lemma OffSteps(c: Config, w: World, a: Act)
    requires Inv(w) && !Steps(w, a)
    ensures var s, s' := w.status, Step(c, w, a).status;
            s'.phase ==
            if Begun(w, a) && w.deleted then Terminating
            else if Begun(w, a) && w.wake && s.phase == Hibernated then Resuming
            else if Checked(w, a) && a.i.violation then Degraded
            else if Checked(w, a) && s.phase == Degraded then s.preDegraded.value
            else if Checked(w, a) && s.phase == Hibernating && a.i.pod.NoPod? then Hibernated
            else if a.Go? && w.pc.Creating? && s.phase != Resuming then Provisioning
            else s.phase
  {
    hide Trunc, ConvergePass;
  }

  lemma OnSteps(c: Config, w: World, a: Act)
    requires Inv(w) && Steps(w, a)
    ensures Step(c, w, a) ==
            if StoresMarkFirst(w.status, a.i) then Write(w, MarkDisrupted(w.status), Creating)
            else ConvergePass(c, w, a.i)
    ensures StoresMarkFirst(w.status, a.i) ==> Step(c, w, a).status.phase == w.status.phase
  {
    hide Trunc, ConvergePass;
  }

  /** When an Agent is deleted, Degraded, Hibernated and woken. */
  lemma EntersIff(c: Config, acts: seq<Act>, a: Act)
    ensures var w := Run(c, acts);
            var s, s' := w.status, Run(c, acts + [a]).status;
            && (s.phase != Terminating ==>
                  (s'.phase == Terminating <==> (Begun(w, a) && w.deleted) || Recovers(w, a, Terminating)))
            && (s.phase != Degraded ==> (s'.phase == Degraded <==> Checked(w, a) && a.i.violation))
            && (s.phase != Hibernated ==>
                  (s'.phase == Hibernated <==>
                     (Checked(w, a) && !a.i.violation && s.phase == Hibernating && a.i.pod.NoPod?)
                     || Recovers(w, a, Hibernated)))
            && (s.phase != Resuming ==>
                  (s'.phase == Resuming <==>
                     (Begun(w, a) && !w.deleted && w.wake && s.phase == Hibernated) || Recovers(w, a, Resuming)))
  {
    hide Run, Step, Trunc, ConvergePass, Activity, Converge, MarkDisrupted, StoresMarkFirst;
    var w := Run(c, acts);
    RunKeeps(c, acts);
    RunSnoc(c, acts, a);
    if Steps(w, a) {
      OnSteps(c, w, a);
      PassPhase(c, w, a.i);
    } else {
      OffSteps(c, w, a);
    }
  }

  /** A request to wake is set by asking; it is cleared by a pass that finds the Agent
      neither Hibernating nor Hibernated, and after one that has stored Resuming with
      the activity time set to now. */
  lemma WakesIff(c: Config, acts: seq<Act>, a: Act)
    ensures var w, w' := Run(c, acts), Run(c, acts + [a]);
            && (w'.wake <==>
                  a.AskWake? || (w.wake && !(a.Go? && w.pc.ClearWake?)
                                 && !(Begun(w, a) && !w.deleted && w.status.phase !in {Hibernating, Hibernated})))
            && (w'.pc.ClearWake? <==>
                  (Begun(w, a) && !w.deleted && w.wake && w.status.phase == Hibernated)
                  || (w.pc.ClearWake? && !a.Go? && !a.Stop?))
            && (!w.pc.ClearWake? && w'.pc.ClearWake? ==>
                  w'.status.phase == Resuming && w'.status.lastActivity == Some(Trunc(w.now)))
  {
    hide Run, Trunc, Activity, Converge, MarkDisrupted, StoresMarkFirst;
    RunKeeps(c, acts);
    RunSnoc(c, acts, a);
  }

  // ---- the Pod ---------------------------------------------------------------------

  /** A lost Pod's mark is stored first, and the phase by the next write. */
  predicate MarksFirst(w: World, i: Input) {
    i.pod.NoPod? && i.certReady && w.status.mark !in {NoMark, Replacing, PodDisrupted}
  }

  /** There is no Pod to serve yet. */
  predicate Lacks(w: World, i: Input) {
    !i.pod.Live? || Replaces(w, i) || (!i.pod.ready && !i.pod.crashed)
  }

  /** When an Agent fails, waits for its Pod, and may serve at all. */
  lemma PodPhasesIff(c: Config, acts: seq<Act>, a: Act)
    ensures var w := Run(c, acts);
            var s, s' := w.status, Run(c, acts + [a]).status;
            && (s.phase != Failed ==>
                  (s'.phase == Failed <==>
                     (Steps(w, a) && a.i.pod.Live? && a.i.pod.crashed && !Replaces(w, a.i)) || Recovers(w, a, Failed)))
            && (s.phase != Provisioning ==>
                  (s'.phase == Provisioning <==>
                     || (Steps(w, a) && s.phase != Resuming && Lacks(w, a.i) && !MarksFirst(w, a.i))
                     || (a.Go? && w.pc.Creating? && s.phase != Resuming)
                     || Recovers(w, a, Provisioning)))
            && (s'.phase in {Running, Idle, Hibernating} && s'.phase != s.phase ==>
                  (a.Begin? && FindsReady(w, a.i)) || Recovers(w, a, s'.phase))
  {
    hide Run, Step, Trunc, Activity, Converge;
    var w := Run(c, acts);
    RunKeeps(c, acts);
    RunSnoc(c, acts, a);
    if Steps(w, a) {
      OnSteps(c, w, a);
      PodStepPhase(w.status, a.i, w.now);
      var s := Converge(w.status, a.i, w.now);
      if s.phase in {Running, Idle} { ActivityKeepsMark(c, s, a.i, w.now); } else { ActivityMoves(c, s, a.i, w.now); }
    } else {
      OffSteps(c, w, a);
    }
  }

  // ---- idle and hibernate -------------------------------------------------------------

  /** Every time the pass knows of the Agent's activity is more than `d` ago; with no
      record it takes a replica that has watched for long enough, and the time the
      Agent entered its phase counts when `bySince` says so. */
  predicate Silent(s: Status, g: Gateway, now: Time, d: nat, bySince: bool) {
    && g.Reachable? && (s.lastActivity.Some? ==> now - s.lastActivity.value > d)
    && (if g.record.Some? then now - g.record.value > d
        else g.qualified && s.since.Some? && (bySince ==> now - s.since.value > d))
  }

  lemma ActivityIdlesIff(c: Config, s: Status, i: Input, now: Time)
    requires s.phase == Running
    ensures var t := Activity(c, s, i, now);
            && t.phase ==
               (if c.idleTimeout != 0 && Silent(s, i.gateway, now, c.idleTimeout, true) then Idle else Running)
            && (t.phase == Running ==> t == s)
  {}

  lemma ActivityHibernatesIff(c: Config, s: Status, i: Input, now: Time)
    requires s.phase == Idle
    ensures var d := c.idleTimeout + c.hibernationDelay;
            Activity(c, s, i, now).phase == Hibernating <==>
            && c.idleTimeout != 0 && c.hibernates && i.certReady && Activity(c, s, i, now).phase != Running
            && Silent(s, i.gateway, now, d, s.lastActivity.None?)
  {
    hide Trunc;
  }

  /** What the Pod step hands to the activity step. */
  lemma ReadyHands(s: Status, i: Input, now: Time)
    requires i.pod.Live? && i.pod.ready && !i.pod.crashed
    requires !(i.pod.drifted && i.certReady && (s.mark == Replacing || i.slot))
    ensures Converge(s, i, now).since == if s.phase in {Running, Idle} then s.since else Some(now)
  {}

  /** With its Pod Ready an Agent that is not Idle is then Running, or Idle, and Idle
      exactly when the clock did not restart and nothing the pass knows is more recent
      than the idle timeout. Without a record that takes an Agent that was Running. */
  lemma IdlesIff(c: Config, acts: seq<Act>, i: Input)
    requires FindsReady(Run(c, acts), i) && Run(c, acts).status.phase != Idle
    ensures var w := Run(c, acts);
            var s, s' := w.status, Run(c, acts + [Begin(i)]).status;
            var restarts := s.phase != Running && (s.phase == Resuming || s.mark in {Replacing, PodDisrupted});
            && s'.phase in {Running, Idle}
            && (s'.phase == Idle <==>
                  && c.idleTimeout != 0 && !restarts
                  && (i.gateway.Reachable? && i.gateway.record.None? ==> s.phase == Running)
                  && Silent(s, i.gateway, w.now, c.idleTimeout, true))
  {
    hide Run, Converge, Activity, Trunc;
    var w := Run(c, acts);
    RunKeeps(c, acts);
    RunSnoc(c, acts, Begin(i));
    ReadyPass(w.status, i, w.now);
    ReadyHands(w.status, i, w.now);
    ActivityIdlesIff(c, Converge(w.status, i, w.now), i, w.now);
  }

  /** With its Pod Ready an Idle Agent hibernates exactly when hibernation is on, the
      Certificate is ready, no record is newer than what is stored, and everything the
      pass knows is longer ago than the idle timeout and the hibernation delay. */
  lemma HibernatesIff(c: Config, acts: seq<Act>, i: Input)
    requires FindsReady(Run(c, acts), i) && Run(c, acts).status.phase == Idle
    ensures var w := Run(c, acts);
            var s, s' := w.status, Run(c, acts + [Begin(i)]).status;
            && s'.phase in {Idle, Running, Hibernating}
            && (s'.phase == Hibernating <==>
                  && c.idleTimeout != 0 && c.hibernates && i.certReady && !SeesNewer(w, i)
                  && Silent(s, i.gateway, w.now, c.idleTimeout + c.hibernationDelay, s.lastActivity.None?))
            && (s'.phase == Running <==> c.idleTimeout != 0 && SeesNewer(w, i))
  {
    hide Run, Converge, Activity, Trunc;
    var w := Run(c, acts);
    RunSnoc(c, acts, Begin(i));
    var s := Converge(w.status, i, w.now);
    ReadyPass(w.status, i, w.now);
    ReadyHands(w.status, i, w.now);
    ActivityReturnsIff(c, s, i, w.now);
    ActivityHibernatesIff(c, s, i, w.now);
    ActivityKeepsMark(c, s, i, w.now);
  }

  // ---- times and the mark -------------------------------------------------------------------

  /** The later of a time and one that may be missing, in the store. */
  predicate StoresLater(t: Option<Time>, a: Time, b: Option<Time>) {
    t == Some(Trunc(if b.Some? && b.value > a then b.value else a))
  }

  lemma ActivityTime(c: Config, s: Status, i: Input, now: Time)
    ensures var t := Activity(c, s, i, now);
            && t.since == (if t.phase == s.phase then s.since else Some(now))
            && (s.phase == Running && t.phase == Idle ==>
                  && i.gateway.Reachable? && t.lastActivity.Some?
                  && (if i.gateway.record.Some? then
                        StoresLater(Some(Trunc(t.lastActivity.value)), i.gateway.record.value, s.lastActivity)
                      else
                        s.since.Some? && StoresLater(Some(Trunc(t.lastActivity.value)), s.since.value, s.lastActivity)))
            && (s.phase == Idle && t.phase == Running ==>
                  i.gateway.Reachable? && i.gateway.record.Some? && t.lastActivity == i.gateway.record)
            && (t.phase == s.phase || t.phase == Hibernating ==> t.lastActivity == s.lastActivity)
  {
    hide Trunc;
  }

  lemma ConvergeTimes(s: Status, i: Input, now: Time)
    ensures var t := Converge(s, i, now);
            && t.since == (if t.phase == s.phase then s.since else Some(now))
            && (t.phase != Running ==> t.lastActivity == s.lastActivity)
  {}

  /** The clock restarts: a wake is stored, or the Pod is Ready after a wake or a
      replacement. */
  predicate Restarts(w: World, a: Act) {
    || (Begun(w, a) && !w.deleted && w.wake && w.status.phase == Hibernated)
    || (a.Begin? && FindsReady(w, a.i) && w.status.phase !in {Running, Idle}
        && (w.status.phase == Resuming || w.status.mark in {Replacing, PodDisrupted}))
  }

  /** What the activity time is after a step. */
  ghost predicate Timed(w: World, a: Act, s': Status) {
    var s := w.status;
    var idles := a.Begin? && FindsReady(w, a.i) && s.phase != Idle && s'.phase == Idle;
    var comesBack := a.Begin? && FindsReady(w, a.i) && s.phase == Idle && s'.phase == Running;
    && (Restarts(w, a) ==> s'.lastActivity == Some(Trunc(w.now)))
    && (idles ==>
          && a.i.gateway.Reachable?
          && (if a.i.gateway.record.Some? then StoresLater(s'.lastActivity, a.i.gateway.record.value, s.lastActivity)
              else s.since.Some? && StoresLater(s'.lastActivity, s.since.value, s.lastActivity)))
    && (comesBack ==>
          && a.i.gateway.Reachable? && a.i.gateway.record.Some?
          && s'.lastActivity == Some(Trunc(a.i.gateway.record.value)))
    && (!Restarts(w, a) && !idles && !comesBack ==> s'.lastActivity == s.lastActivity)
  }

  lemma OffTimes(c: Config, w: World, a: Act)
    requires Inv(w) && !Steps(w, a)
    ensures var s, s' := w.status, Step(c, w, a).status;
            && s'.since == (if s'.phase == s.phase then s.since else Some(Trunc(w.now)))
            && s'.lastActivity == if Restarts(w, a) then Some(Trunc(w.now)) else s.lastActivity
  {
    hide Trunc, ConvergePass;
    StoredTwice(w.status);
  }

  lemma StoredTwice(s: Status)
    requires WholeSeconds(s)
    ensures Stored(s) == s
  {}

  lemma ReadyTimes(c: Config, w: World, i: Input)
    requires Inv(w) && FindsReady(w, i)
    ensures Timed(w, Begin(i), Step(c, w, Begin(i)).status)
  {
    hide Trunc, Activity, Converge, Step;
    var a, s, t := Begin(i), w.status, Converge(w.status, i, w.now);
    OnSteps(c, w, a);
    StoredTwice(s);
    ReadyPass(s, i, w.now);
    ReadyHands(s, i, w.now);
    ActivityTime(c, t, i, w.now);
    ActivityKeepsMark(c, t, i, w.now);
    if FloorsAtReady(s, s.mark) { FreshActivity(c, t, i, w.now); }
    if s.phase != Running { ActivityIdlesIff(c, t.(phase := Running), i, w.now); }
  }

  lemma OtherTimes(c: Config, w: World, i: Input)
    requires Inv(w) && PodStep(w, i) && !FindsReady(w, i)
    ensures Timed(w, Begin(i), Step(c, w, Begin(i)).status)
  {
    hide Trunc, Activity, Converge, Step, MarkDisrupted;
    var a, s, t := Begin(i), w.status, Converge(w.status, i, w.now);
    OnSteps(c, w, a);
    StoredTwice(s);
    PodStepPhase(s, i, w.now);
    ConvergeTimes(s, i, w.now);
    ActivityMoves(c, t, i, w.now);
    assert MarkDisrupted(s).lastActivity == s.lastActivity by { DisruptedKeeps(s); }
  }

  lemma DisruptedKeeps(s: Status)
    ensures MarkDisrupted(s) == s.(mark := MarkDisrupted(s).mark)
  {}

  /** The activity time changes only with a clock that restarts, to now; with an Agent
      that turns Idle, to the latest time its silence is counted from; and with one that
      returns, to the record it returned on. */
  lemma ActivityTimeIs(c: Config, acts: seq<Act>, a: Act)
    ensures Timed(Run(c, acts), a, Run(c, acts + [a]).status)
  {
    hide Run, Step, Trunc, StoresLater;
    var w := Run(c, acts);
    RunKeeps(c, acts);
    RunSnoc(c, acts, a);
    if Steps(w, a) {
      if FindsReady(w, a.i) { ReadyTimes(c, w, a.i); } else { OtherTimes(c, w, a.i); }
    } else {
      OffTimes(c, w, a);
    }
  }

  /** The transition time is that of the last change of phase. */
  lemma SinceIs(c: Config, acts: seq<Act>, a: Act)
    ensures var s, s' := Run(c, acts).status, Run(c, acts + [a]).status;
            s'.since == if s'.phase == s.phase then s.since else Some(Trunc(Run(c, acts).now))
  {
    hide Run, Step, Trunc, Activity, Converge;
    var w := Run(c, acts);
    RunKeeps(c, acts);
    RunSnoc(c, acts, a);
    StoredTwice(w.status);
    if Steps(w, a) {
      OnSteps(c, w, a);
      DisruptedKeeps(w.status);
      var t := Converge(w.status, a.i, w.now);
      ConvergeTimes(w.status, a.i, w.now);
      PodStepPhase(w.status, a.i, w.now);
      ActivityTime(c, t, a.i, w.now);
      if t.phase in {Running, Idle} { ActivityKeepsMark(c, t, a.i, w.now); } else { ActivityMoves(c, t, a.i, w.now); }
      if t.phase == Running { ActivityIdlesIff(c, t, a.i, w.now); }
    } else {
      OffTimes(c, w, a);
    }
  }

  /** What the Pod a pass finds makes of the mark. */
  function MarkAfter(mark: Mark, i: Input): Mark {
    match i.pod
    case NoPod => mark
    case Going => if mark in {NoMark, Replacing, PodDisrupted} then mark else PodDisrupted
    case Terminal => if mark in {NoMark, Replacing, PodDisrupted} then mark else PodDisrupted
    case Live(ready, drifted, crashed) =>
      if !drifted then (if ready && !crashed then PodCurrent else mark)
      else if !i.certReady then (if mark in {Replacing, PodDisrupted} && !ready then mark else CertificateNotReady)
      else if mark == Replacing || i.slot then Replacing else ReplacementPending
  }

  lemma ConvergeMarks(s: Status, i: Input, now: Time)
    ensures Converge(s, i, now).mark == MarkAfter(s.mark, i)
  {}

  /** The mark a pass leaves: a Pod that is lost or ends marks a disruption, unless a
      replacement is marked or nothing was; a drifted Pod is replaced, waits for a slot
      or for the Certificate; a Ready Pod that has not drifted is current; and a Pod put
      to sleep leaves none. */
  lemma MarkIs(c: Config, acts: seq<Act>, a: Act)
    ensures var w := Run(c, acts);
            var s, s' := w.status, Run(c, acts + [a]).status;
            && (Steps(w, a) && MarksFirst(w, a.i) ==> s'.mark == PodDisrupted)
            && (Steps(w, a) && !MarksFirst(w, a.i) ==> s'.mark == MarkAfter(s.mark, a.i))
            && (!Steps(w, a) ==> s'.mark == if s.phase == Hibernating && s'.phase == Hibernated then NoMark else s.mark)
  {
    hide Run, Trunc, Activity, Converge;
    var w := Run(c, acts);
    RunKeeps(c, acts);
    RunSnoc(c, acts, a);
    if Steps(w, a) {
      ConvergeMarks(w.status, a.i, w.now);
      ActivityKeepsMark(c, Converge(w.status, a.i, w.now), a.i, w.now);
    }
  }

  // ---- switched off -----------------------------------------------------------------------

  /** The Agent neither is in the phase nor goes back to it. */
  predicate Away(s: Status, phase: Phase) {
    s.phase != phase && s.preDegraded != Some(phase)
  }

  lemma StaysAwake(c: Config, acts: seq<Act>, a: Act)
    requires var s := Run(c, acts).status;
             Away(s, Hibernating) && Away(s, Hibernated) && Away(s, Resuming)
    requires !c.hibernates || c.idleTimeout == 0
    requires c.idleTimeout == 0 ==> Away(Run(c, acts).status, Idle)
    ensures var s := Run(c, acts + [a]).status;
            && Away(s, Hibernating) && Away(s, Hibernated) && Away(s, Resuming)
            && (c.idleTimeout == 0 ==> Away(s, Idle))
  {
    hide Run, Step, Trunc, Silent, FindsReady;
    var w := Run(c, acts);
    EntersIff(c, acts, a);
    PodPhasesIff(c, acts, a);
    RunKeeps(c, acts + [a]);
    RunSnoc(c, acts, a);
    RunKeeps(c, acts);
    EnteredStays(c, w, a);
    if a.Begin? && FindsReady(w, a.i) {
      if w.status.phase == Idle { HibernatesIff(c, acts, a.i); } else { IdlesIff(c, acts, a.i); }
    }
  }

  /** With hibernation off no Agent is ever Hibernating, Hibernated or Resuming, nor goes
      back to that from Degraded; with an idle timeout of zero none is ever Idle either. */
  lemma {:induction false} SwitchedOff(c: Config, acts: seq<Act>)
    requires !c.hibernates || c.idleTimeout == 0
    ensures var s := Run(c, acts).status;
            && Away(s, Hibernating) && Away(s, Hibernated) && Away(s, Resuming)
            && (c.idleTimeout == 0 ==> Away(s, Idle))
  {
    if acts != [] {
      hide Step;
      var front, a := acts[..|acts| - 1], acts[|acts| - 1];
      assert acts == front + [a];
      SwitchedOff(c, front);
      StaysAwake(c, front, a);
    }
  }
}

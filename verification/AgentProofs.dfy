/** What every run of the Agent machine keeps: activity times that only move
    forward, a full idle window for a Pod that restarted the clock, the wake
    request, and the phase Degraded goes back to. */
module AgentProofs {
  import opened Prelude
  import opened AgentMachine

  // ---- the invariant -----------------------------------------------------------

  /** Activity and phase times lie in the past. */
  ghost predicate TimeInv(s: Status, now: Time) {
    && (s.lastActivity.Some? ==> s.lastActivity.value <= now)
    && (s.since.Some? ==> s.since.value <= now)
  }

  ghost predicate WholeSeconds(s: Status) {
    && (s.lastActivity.Some? ==> s.lastActivity.value == Trunc(s.lastActivity.value))
    && (s.since.Some? ==> s.since.value == Trunc(s.since.value))
  }

  ghost predicate DegradedInv(s: Status) {
    && (s.preDegraded.Some? <==> s.phase == Degraded)
    && s.preDegraded != Some(Degraded)
  }

  ghost predicate PcInv(w: World) {
    match w.pc
    case Rest => true
    case ClearWake => w.status.phase == Resuming
    case Creating => w.status.phase !in {Degraded, Hibernating, Hibernated}
  }

  /** The idle clock runs from no earlier than the last restart. */
  ghost predicate FloorInv(w: World) {
    w.floored.Some? ==>
      w.floored.value <= w.now && w.status.lastActivity.Some? && Trunc(w.floored.value) <= w.status.lastActivity.value
  }

  ghost predicate Inv(w: World) {
    && TimeInv(w.status, w.now) && WholeSeconds(w.status) && DegradedInv(w.status) && PcInv(w) && FloorInv(w)
    && (w.status.phase == Degraded ==> w.status.preDegraded == Some(w.entered))
  }

  // ---- truncation -----------------------------------------------------------------

  lemma TruncLaws(t: Time, u: Time)
    ensures Trunc(t) <= t < Trunc(t) + SECOND
    ensures t <= u ==> Trunc(t) <= Trunc(u)
    ensures Trunc(Trunc(t)) == Trunc(t)
  {
    var q, r := t / SECOND, t % SECOND;
    var q', r' := u / SECOND, u % SECOND;
    assert t == q * SECOND + r && u == q' * SECOND + r';
    assert Trunc(t) == q * SECOND && Trunc(u) == q' * SECOND;
    if t <= u { assert q <= q'; }
    assert (q * SECOND) % SECOND == 0;
  }

  /** A later time stays later, and in the past, once both are stored. */
  lemma StoredTimes(s: Status, now: Time)
    requires TimeInv(s, now)
    ensures TimeInv(Stored(s), now) && WholeSeconds(Stored(s))
    ensures s.lastActivity.Some? ==> Stored(s).lastActivity == Some(Trunc(s.lastActivity.value))
  {
    hide Trunc;
    if s.lastActivity.Some? { TruncLaws(s.lastActivity.value, now); }
    if s.since.Some? { TruncLaws(s.since.value, now); }
  }

  /** No step of a pass moves the activity time back. */
  predicate NotEarlier(a: Option<Time>, b: Option<Time>) {
    a.Some? ==> b.Some? && a.value <= b.value
  }

  lemma StoredNotEarlier(s: Status, t: Status, now: Time)
    requires TimeInv(t, now) && WholeSeconds(s) && NotEarlier(s.lastActivity, t.lastActivity)
    ensures NotEarlier(s.lastActivity, Stored(t).lastActivity)
  {
    hide Trunc;
    if s.lastActivity.Some? { TruncLaws(s.lastActivity.value, t.lastActivity.value); }
  }

  // ---- the steps of a pass ---------------------------------------------------------

  /** What the Pod and activity steps keep. */
  ghost predicate Sound(s: Status, t: Status, now: Time) {
    && TimeInv(t, now) && NotEarlier(s.lastActivity, t.lastActivity)
    && t.preDegraded == s.preDegraded && t.phase != Degraded && t.phase != Hibernated
  }

  lemma ConvergeLiveSound(s: Status, mark: Mark, pod: Pod, now: Time)
    requires TimeInv(s, now) && s.phase !in {Degraded, Hibernating, Hibernated} && pod.Live?
    ensures Sound(s, ConvergeLive(s, mark, pod, now), now)
    ensures ConvergeLive(s, mark, pod, now).phase != Hibernating
  {}

  lemma ConvergeSound(s: Status, i: Input, now: Time)
    requires TimeInv(s, now) && s.phase !in {Degraded, Hibernating, Hibernated}
    ensures Sound(s, Converge(s, i, now), now)
    ensures Converge(s, i, now).phase != Hibernating
  {
    hide ConvergeLive;
    if i.pod.Live? {
      forall mark ensures Sound(s, ConvergeLive(s.(mark := mark), s.mark, i.pod, now), now)
        && ConvergeLive(s.(mark := mark), s.mark, i.pod, now).phase != Hibernating
      {
        ConvergeLiveSound(s.(mark := mark), s.mark, i.pod, now);
      }
      assert s == s.(mark := s.mark);
    }
  }

  lemma ActivitySound(c: Config, s: Status, i: Input, now: Time)
    requires TimeInv(s, now) && s.phase !in {Degraded, Hibernating, Hibernated}
    requires i.gateway.Reachable? && i.gateway.record.Some? ==> i.gateway.record.value <= now
    ensures Sound(s, Activity(c, s, i, now), now)
  {
    hide Trunc;
    if i.gateway.Reachable? && i.gateway.record.Some? { TruncLaws(i.gateway.record.value, now); }
  }

  lemma FlooredPass(c: Config, w: World, i: Input)
    requires Inv(w) && w.status.phase !in {Degraded, Hibernating, Hibernated} && Known(w, i)
    ensures var w' := ConvergePass(c, w, i);
            && Inv(w'.(pc := Rest)) && w'.pc == Rest
            && NotEarlier(w.status.lastActivity, w'.status.lastActivity)
  {
    var s1 := Converge(w.status, i, w.now);
    ConvergeSound(w.status, i, w.now);
    ActivitySound(c, s1, i, w.now);
    var s2 := Activity(c, s1, i, w.now);
    StoredTimes(s2, w.now);
    StoredNotEarlier(w.status, s2, w.now);
    var w' := ConvergePass(c, w, i);
    if w'.floored != w.floored {
      assert s1.lastActivity == Some(w.now);
      hide Trunc, Converge, Activity;
      TruncLaws(w.now, s2.lastActivity.value);
    }
  }

  predicate Known(w: World, i: Input) {
    i.gateway.Reachable? && i.gateway.record.Some? ==> i.gateway.record.value <= w.now
  }

  lemma BeginKeeps(c: Config, w: World, i: Input)
    requires Inv(w) && w.pc.Rest? && Known(w, i)
    ensures Inv(BeginPass(c, w, i))
    ensures NotEarlier(w.status.lastActivity, BeginPass(c, w, i).status.lastActivity)
  {
    hide Trunc, Converge, Activity, ConvergePass;
    var s := w.status;
    TruncLaws(w.now, w.now);
    if s.lastActivity.Some? { TruncLaws(s.lastActivity.value, w.now); }
    if s.since.Some? { TruncLaws(s.since.value, w.now); }
    if !w.deleted && !w.wake && !i.held && !i.violation && !i.blocked
       && s.phase !in {Degraded, Hibernating, Hibernated} && !StoresMarkFirst(s, i)
    {
      FlooredPass(c, w, i);
    }
  }

  lemma GoKeeps(c: Config, w: World)
    requires Inv(w)
    ensures Inv(Step(c, w, Go)) && NotEarlier(w.status.lastActivity, Step(c, w, Go).status.lastActivity)
  {
    hide Trunc;
    var s := w.status;
    TruncLaws(w.now, w.now);
    if s.lastActivity.Some? { TruncLaws(s.lastActivity.value, w.now); }
    if s.since.Some? { TruncLaws(s.since.value, w.now); }
  }

  lemma StepKeeps(c: Config, w: World, a: Act)
    requires Inv(w)
    ensures Inv(Step(c, w, a)) && NotEarlier(w.status.lastActivity, Step(c, w, a).status.lastActivity)
  {
    hide Trunc, BeginPass;
    match a
    case Begin(i) => if w.pc.Rest? && Known(w, i) { BeginKeeps(c, w, i); }
    case Go => GoKeeps(c, w);
    case _ =>
  }

  lemma {:induction false} RunKeeps(c: Config, acts: seq<Act>)
    ensures Inv(Run(c, acts))
  {
    if acts != [] {
      hide Step, Inv;
      RunKeeps(c, acts[..|acts| - 1]);
      StepKeeps(c, Run(c, acts[..|acts| - 1]), acts[|acts| - 1]);
    }
  }

  lemma RunSnoc(c: Config, acts: seq<Act>, a: Act)
    ensures Run(c, acts + [a]) == Step(c, Run(c, acts), a)
  {
    assert (acts + [a])[..|acts|] == acts;
  }

  // ---- guarantees -------------------------------------------------------------------------

  /** The stored activity time never moves back. */
  lemma {:induction false} ActivityNeverDecreases(c: Config, acts: seq<Act>, more: seq<Act>)
    ensures NotEarlier(Run(c, acts).status.lastActivity, Run(c, acts + more).status.lastActivity)
  {
    hide Step, Run;
    if more == [] { assert acts + more == acts; } else {
      var front, a := more[..|more| - 1], more[|more| - 1];
      assert acts + more == acts + front + [a];
      ActivityNeverDecreases(c, acts, front);
      RunKeeps(c, acts + front);
      RunSnoc(c, acts + front, a);
      StepKeeps(c, Run(c, acts + front), a);
    }
  }

  lemma ActivityWindow(c: Config, s: Status, i: Input, now: Time, l: Time)
    requires s.lastActivity.Some? && l <= s.lastActivity.value
    ensures var t := Activity(c, s, i, now);
            && (s.phase == Running && t.phase == Idle ==> now - l > c.idleTimeout)
            && (s.phase == Idle && t.phase == Hibernating ==> now - l > c.idleTimeout + c.hibernationDelay)
            && (t.phase == s.phase || (s.phase == Running && t.phase == Idle)
                || (s.phase == Idle && t.phase in {Hibernating, Running}))
  {
    hide Trunc;
  }

  /** The phase the Agent holds, or goes back to when its checks clear. */
  function Held(s: Status): Phase {
    if s.phase == Degraded && s.preDegraded.Some? then s.preDegraded.value else s.phase
  }

  ghost predicate InWindow(c: Config, w: World) {
    w.floored.Some? ==>
      && (Held(w.status) == Idle ==> w.now + SECOND > w.floored.value + c.idleTimeout)
      && (Held(w.status) in {Hibernating, Hibernated} ==>
            w.now + SECOND > w.floored.value + c.idleTimeout + c.hibernationDelay)
  }

  lemma ConvergePassWindow(c: Config, w: World, i: Input)
    requires Inv(w) && InWindow(c, w) && w.status.phase !in {Degraded, Hibernating, Hibernated} && Known(w, i)
    ensures InWindow(c, ConvergePass(c, w, i))
  {
    var s := Converge(w.status, i, w.now);
    var w' := ConvergePass(c, w, i);
    ConvergeSound(w.status, i, w.now);
    ActivitySound(c, s, i, w.now);
    ConvergeIdle(w.status, i, w.now);
    if w'.floored.Some? {
      var t := w'.floored.value;
      if w'.floored != w.floored { assert s.lastActivity == Some(w.now); }
      hide Trunc, Activity, Converge;
      TruncLaws(t, t);
      ActivityWindow(c, s, i, w.now, Trunc(t));
    }
  }

  /** The Pod step makes no Agent Idle. */
  lemma ConvergeIdle(s: Status, i: Input, now: Time)
    ensures Converge(s, i, now).phase == Idle ==> s.phase == Idle && Converge(s, i, now).lastActivity == s.lastActivity
  {}

  lemma StepWindow(c: Config, w: World, a: Act)
    requires Inv(w) && InWindow(c, w)
    ensures InWindow(c, Step(c, w, a))
  {
    hide Trunc, ConvergePass;
    match a
    case Begin(i) =>
      if w.status.phase !in {Degraded, Hibernating, Hibernated} && Known(w, i) { ConvergePassWindow(c, w, i); }
    case _ =>
  }

  /** After a replaced or woken Pod restarts the idle clock at some time, the Agent
      is Idle only once the idle timeout has passed, and Hibernating or Hibernated
      only once the hibernation delay has passed too, to within the second that
      storing a time cuts off. A Degraded Agent counts as what it goes back to. */
  lemma {:induction false} WindowAfterRestart(c: Config, acts: seq<Act>)
    ensures InWindow(c, Run(c, acts))
  {
    if acts != [] {
      hide Step, InWindow;
      var front := acts[..|acts| - 1];
      WindowAfterRestart(c, front);
      RunKeeps(c, front);
      StepWindow(c, Run(c, front), acts[|acts| - 1]);
    } else {
      hide Step;
    }
  }

  /** A wake request is never cleared while the Agent is Hibernating or Hibernated. */
  lemma WakeIsNotLost(c: Config, acts: seq<Act>, a: Act)
    requires Run(c, acts).wake && !Run(c, acts + [a]).wake
    ensures Run(c, acts).status.phase !in {Hibernating, Hibernated}
  {
    RunKeeps(c, acts);
    RunSnoc(c, acts, a);
    hide Run, Trunc, Activity, Converge, ConvergePass;
  }

  /** preDegradedPhase is set exactly while Degraded, and never to Degraded. */
  lemma DegradedIsRemembered(c: Config, acts: seq<Act>)
    ensures var s := Run(c, acts).status;
            (s.preDegraded.Some? <==> s.phase == Degraded) && s.preDegraded != Some(Degraded)
  {
    RunKeeps(c, acts);
  }

  lemma EnteredStays(c: Config, w: World, a: Act)
    requires Inv(w)
    ensures var w' := Step(c, w, a);
            && (w.status.phase != Degraded && w'.status.phase == Degraded ==> w'.entered == w.status.phase)
            && (w.status.phase == Degraded && w'.status.phase == Degraded ==> w'.entered == w.entered)
            && (w.status.phase == Degraded && w'.status.phase !in {Degraded, Terminating} ==>
                  w'.status.phase == w.entered)
  {
    hide Trunc, Activity, Converge;
    match a
    case Begin(i) =>
      if w.status.phase !in {Degraded, Hibernating, Hibernated} && w.pc.Rest? && Known(w, i) {
        ConvergeSound(w.status, i, w.now);
        ActivitySound(c, Converge(w.status, i, w.now), i, w.now);
      }
    case _ =>
  }

  lemma {:induction false} EnteredThroughout(c: Config, acts: seq<Act>, stay: seq<Act>)
    requires stay != [] && Run(c, acts).status.phase != Degraded
    requires forall k | 1 <= k <= |stay| :: Run(c, acts + stay[..k]).status.phase == Degraded
    ensures Run(c, acts + stay).entered == Run(c, acts).status.phase
  {
    hide Run, Step;
    var front, a := stay[..|stay| - 1], stay[|stay| - 1];
    assert acts + stay == acts + front + [a] && stay[..|stay|] == stay;
    RunSnoc(c, acts + front, a);
    RunKeeps(c, acts + front);
    EnteredStays(c, Run(c, acts + front), a);
    if front == [] { assert acts + front == acts; } else {
      forall k | 1 <= k <= |front| ensures Run(c, acts + front[..k]).status.phase == Degraded {
        assert front[..k] == stay[..k];
      }
      EnteredThroughout(c, acts, front);
      assert stay[..|front|] == front;
    }
  }

  /** Any number of Degraded passes, interrupted or not, and then clearing every
      check restores precisely the phase held on entry. */
  lemma DegradedRoundTrip(c: Config, acts: seq<Act>, stay: seq<Act>, out: Act)
    requires stay != [] && Run(c, acts).status.phase != Degraded
    requires forall k | 1 <= k <= |stay| :: Run(c, acts + stay[..k]).status.phase == Degraded
    requires Run(c, acts + stay + [out]).status.phase !in {Degraded, Terminating}
    ensures Run(c, acts + stay + [out]).status.phase == Run(c, acts).status.phase
  {
    hide Run, Step;
    EnteredThroughout(c, acts, stay);
    assert stay[..|stay|] == stay;
    RunSnoc(c, acts + stay, out);
    RunKeeps(c, acts + stay);
    EnteredStays(c, Run(c, acts + stay), out);
  }
}

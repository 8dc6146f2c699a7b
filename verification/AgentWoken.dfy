/** Whether a woken Agent's Pod restarts the idle clock when it turns Ready. The
    restart goes by the phase Resuming, and a crash loop takes the Agent out of
    that phase (internal/controller/agent_controller.go:1229-1240, 1243-1261). */
module AgentWoken {
  import opened Prelude
  import opened AgentMachine
  import opened AgentProofs
  import opened AgentFloor

  /** The pass gets to a Pod in a crash loop that it does not replace. */
  predicate FindsCrash(w: World, i: Input) {
    PodStep(w, i) && i.pod.Live? && i.pod.crashed && !Replaces(w, i)
  }

  lemma ConvergeFrom(s: Status, i: Input, now: Time)
    requires s.phase in {Resuming, Provisioning, Failed}
    ensures var p := Converge(s, i, now).phase;
            var stays := !i.pod.Live? || (i.pod.drifted && i.certReady && (s.mark == Replacing || i.slot));
            p == if stays then PendingPhase(s)
                 else if i.pod.crashed then Failed else if i.pod.ready then Running else PendingPhase(s)
  {}

  /** One step of an Agent that is on its way up: only a crash takes it off Resuming. */
  lemma StepFrom(c: Config, w: World, a: Act)
    requires Inv(w) && Held(w.status) in {Resuming, Provisioning, Failed} && !Step(c, w, a).deleted
    requires !(a.Begin? && FindsReady(w, a.i))
    ensures var h, h' := Held(w.status), Held(Step(c, w, a).status);
            && (a.Begin? && FindsCrash(w, a.i) ==> h' == Failed)
            && (!(a.Begin? && FindsCrash(w, a.i)) ==>
                  if h == Resuming then h' == Resuming else h' in {Provisioning, Failed})
  {
    hide Trunc, Converge, Activity;
    match a
    case Begin(i) =>
      if w.status.phase != Degraded && w.pc.Rest? && Known(w, i) {
        ConvergeFrom(w.status, i, w.now);
        var s := Converge(w.status, i, w.now);
        if s.phase != Running { Untouched(c, s, i, w.now); }
      }
    case _ =>
  }

  lemma Untouched(c: Config, s: Status, i: Input, now: Time)
    requires s.phase !in {Running, Idle}
    ensures Activity(c, s, i, now) == s
  {}

  /** From the wake on, no pass has yet found the Pod Ready and the Agent was not deleted. */
  ghost predicate Rising(c: Config, acts: seq<Act>, more: seq<Act>) {
    && !Run(c, acts + more).deleted
    && forall k | 0 <= k < |more| :: !(more[k].Begin? && FindsReady(Run(c, acts + more[..k]), more[k].i))
  }

  ghost predicate Crashes(c: Config, acts: seq<Act>, more: seq<Act>, k: nat) {
    k < |more| && more[k].Begin? && FindsCrash(Run(c, acts + more[..k]), more[k].i)
  }

  lemma {:induction false} RisingPhases(c: Config, acts: seq<Act>, more: seq<Act>)
    requires Held(Run(c, acts).status) == Resuming && Rising(c, acts, more)
    ensures var h := Held(Run(c, acts + more).status);
            if exists k: nat :: Crashes(c, acts, more, k) then h in {Provisioning, Failed} else h == Resuming
  {
    hide Run, Step, FindsReady, FindsCrash;
    if more == [] { assert acts + more == acts; } else {
      var front, a, n := more[..|more| - 1], more[|more| - 1], |more| - 1;
      var w := Run(c, acts + front);
      assert acts + more == acts + front + [a] && more[..n] == front;
      RunSnoc(c, acts + front, a);
      RunKeeps(c, acts + front);
      DeletedStays(c, w, a);
      assert Rising(c, acts, front) by {
        forall k | 0 <= k < |front| ensures !(front[k].Begin? && FindsReady(Run(c, acts + front[..k]), front[k].i)) {
          assert front[..k] == more[..k] && front[k] == more[k];
        }
      }
      RisingPhases(c, acts, front);
      StepFrom(c, w, a);
      forall k: nat | k < n ensures Crashes(c, acts, front, k) <==> Crashes(c, acts, more, k) {
        assert front[..k] == more[..k] && front[k] == more[k];
      }
      assert Crashes(c, acts, more, n) <==> a.Begin? && FindsCrash(w, a.i);
      assert forall k: nat :: Crashes(c, acts, more, k) ==> k < n || k == n;
      assert forall k: nat :: Crashes(c, acts, front, k) ==> k < n;
    }
  }

  lemma DeletedStays(c: Config, w: World, a: Act)
    ensures w.deleted ==> Step(c, w, a).deleted
  {
    hide Converge, Activity, Trunc;
  }

  /** A woken Agent whose Pod comes up with no replacement marked restarts the clock
      when the Pod turns Ready if and only if no pass on the way found the Pod in a
      crash loop. */
  lemma WokenRestartsIff(c: Config, acts: seq<Act>, more: seq<Act>, i: Input)
    requires Run(c, acts).status.phase == Resuming && Rising(c, acts, more)
    requires FindsReady(Run(c, acts + more), i) && !Floors(Run(c, acts + more).status.mark)
    ensures var w, w' := Run(c, acts + more), Run(c, acts + more + [Begin(i)]);
            var crashed := exists k: nat :: Crashes(c, acts, more, k);
            && (!crashed ==> w'.floored == Some(w.now) && w'.status.lastActivity == Some(Trunc(w.now)))
            && (crashed ==>
                  w'.floored == w.floored && Converge(w.status, i, w.now).lastActivity == w.status.lastActivity)
  {
    hide Run, Step, Trunc, Converge;
    RisingPhases(c, acts, more);
    RunKeeps(c, acts + more);
    RunSnoc(c, acts + more, Begin(i));
    RestartsIff(c, Run(c, acts + more), i);
  }

  // ---- a woken Agent put back to sleep ---------------------------------------------------

  const TIMES := Config(600 * SECOND, 600 * SECOND, true)
  const CRASH_LOOP := READY_POD.(pod := Live(false, false, true))
  const OLD_RECORD := READY_POD.(gateway := Reachable(Some(0), true))

  const LATE_UP := UP.(now := 2000 * SECOND)
  const ASLEEP := LATE_UP.(status := Status(Hibernated, None, Some(0), Some(2000 * SECOND), NoMark))
  const WOKEN := ASLEEP.(status := Status(Resuming, None, Some(2000 * SECOND), Some(2000 * SECOND), NoMark))
  const CRASHED := WOKEN.(now := 4000 * SECOND, status := WOKEN.status.(phase := Failed))

  lemma FallsAsleep()
    ensures Step(TIMES, Step(TIMES, Step(TIMES, LATE_UP, Begin(READY_POD)), Begin(READY_POD)), Begin(NO_POD)) == ASLEEP
  {
    var idle := LATE_UP.(status := Status(Idle, None, Some(0), Some(2000 * SECOND), PodCurrent));
    assert Step(TIMES, LATE_UP, Begin(READY_POD)) == idle;
    var hibernating := idle.(status := idle.status.(phase := Hibernating));
    assert Step(TIMES, idle, Begin(READY_POD)) == hibernating;
  }

  lemma WakesUp()
    ensures Step(TIMES, Step(TIMES, Step(TIMES, ASLEEP, AskWake), Begin(NO_POD)), Go) == WOKEN
  {}

  lemma IsCrashed()
    ensures Step(TIMES, Step(TIMES, WOKEN, Begin(CRASH_LOOP)), Tick(4000 * SECOND)) == CRASHED
  {}

  lemma SleepsAgain()
    ensures FindsReady(CRASHED, OLD_RECORD)
    ensures Step(TIMES, CRASHED, Begin(OLD_RECORD)).status.phase == Idle
            && Step(TIMES, CRASHED, Begin(OLD_RECORD)).floored == None
  {}

  lemma TwoSteps(c: Config, acts: seq<Act>, a: Act, b: Act)
    ensures Run(c, acts + [a, b]) == Step(c, Step(c, Run(c, acts), a), b)
  {
    hide Run, Step;
    RunSnoc(c, acts, a);
    RunSnoc(c, acts + [a], b);
    assert acts + [a] + [b] == acts + [a, b];
  }

  const FIRST := [Begin(NO_POD), Begin(READY_POD), Tick(2000 * SECOND)]
  const SLEEP := [Begin(READY_POD), Begin(READY_POD), Begin(NO_POD)]
  const WAKE := [AskWake, Begin(NO_POD), Go]
  const CRASH := [Begin(CRASH_LOOP), Tick(4000 * SECOND)]

  lemma ThreeSteps(c: Config, acts: seq<Act>, a: Act, b: Act, d: Act)
    ensures Run(c, acts + [a, b, d]) == Step(c, Step(c, Step(c, Run(c, acts), a), b), d)
  {
    hide Run, Step;
    TwoSteps(c, acts, a, b);
    RunSnoc(c, acts + [a, b], d);
    assert acts + [a, b] + [d] == acts + [a, b, d];
  }

  /** A woken Agent whose Pod crash-looped once on its way up turns Idle on the very
      pass that finds the Pod Ready, though its Pod was up for no time at all. */
  lemma CrashLosesRestart()
    ensures var acts := FIRST + SLEEP + WAKE;
            && Run(TIMES, acts).status.phase == Resuming
            && FindsReady(Run(TIMES, acts + CRASH), OLD_RECORD)
            && Run(TIMES, acts + CRASH + [Begin(OLD_RECORD)]).status.phase == Idle
            && Run(TIMES, acts + CRASH + [Begin(OLD_RECORD)]).floored == None
  {
    hide Run, Step;
    ThreeSteps(TIMES, [], FIRST[0], FIRST[1], FIRST[2]);
    assert [] + FIRST == FIRST;
    StartsUp();
    ThreeSteps(TIMES, FIRST, SLEEP[0], SLEEP[1], SLEEP[2]);
    FallsAsleep();
    ThreeSteps(TIMES, FIRST + SLEEP, WAKE[0], WAKE[1], WAKE[2]);
    WakesUp();
    TwoSteps(TIMES, FIRST + SLEEP + WAKE, CRASH[0], CRASH[1]);
    IsCrashed();
    RunSnoc(TIMES, FIRST + SLEEP + WAKE + CRASH, Begin(OLD_RECORD));
    SleepsAgain();
  }

  lemma StartsUp()
    ensures Run(TIMES, []) == INIT
    ensures Step(TIMES, Step(TIMES, Step(TIMES, INIT, Begin(NO_POD)), Begin(READY_POD)), Tick(2000 * SECOND)) == LATE_UP
  {
    ComesUp(TIMES);
  }
}

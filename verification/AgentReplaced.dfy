/** When the first Ready pass after any stretch of a run restarts the idle clock. It
    goes by the stored phase and the stored mark, so it comes down to which passes of
    the stretch stored or overwrote them
    (internal/controller/agent_controller.go:1163-1277, 1284-1314, 1380-1406). */
module AgentReplaced {
  import opened Prelude
  import opened AgentMachine
  import opened AgentProofs
  import opened AgentFloor
  import opened AgentWoken

  // ---- what passes do to mark and phase ---------------------------------------------

  /** The pass stores a mark that tells of a replacement: it replaces a drifted Pod, or
      finds its Pod lost, terminal or going after one has been up or has drifted. */
  predicate Marks(w: World, a: Act) {
    && a.Begin? && PodStep(w, a.i)
    && (Replaces(w, a.i)
        || (w.status.mark != NoMark && (a.i.pod.Going? || a.i.pod.Terminal? || (a.i.pod.NoPod? && a.i.certReady))))
  }

  /** The pass meets a live drifted Pod and is refused a slot, or waits for the
      Certificate with a Pod that counts as Ready though it crash-loops: it stores that
      it waits, over whatever the mark said. */
  predicate Overwrites(w: World, a: Act) {
    && a.Begin? && PodStep(w, a.i) && a.i.pod.Live? && a.i.pod.drifted && !Replaces(w, a.i)
    && (a.i.certReady || (a.i.pod.ready && a.i.pod.crashed))
  }

  /** The step stores the phase of an Agent whose Pod is not Ready. */
  predicate Lowers(w: World, a: Act) {
    || (a.Begin? && PodStep(w, a.i) && !FindsReady(w, a.i) && !StoresMarkFirst(w.status, a.i))
    || (a.Go? && w.pc.Creating?)
  }

  predicate Wakes(w: World, a: Act) {
    a.Begin? && w.pc.Rest? && Known(w, a.i) && !w.deleted && w.wake && w.status.phase == Hibernated
  }

  predicate Crashing(w: World, a: Act) {
    a.Begin? && FindsCrash(w, a.i)
  }

  predicate Up(s: Status) {
    Held(s) in {Running, Idle}
  }

  // ---- a mark goes with an Agent that is awake ----------------------------------------

  predicate Awake(s: Status) {
    Floors(s.mark) ==> Held(s) !in {Hibernating, Hibernated}
  }

  lemma ConvergeIdleMark(s: Status, i: Input, now: Time)
    ensures Converge(s, i, now).phase == Idle ==> !Floors(Converge(s, i, now).mark)
  {}

  lemma ActivityToSleep(c: Config, s: Status, i: Input, now: Time)
    ensures var t := Activity(c, s, i, now);
            && t.mark == s.mark && t.preDegraded == s.preDegraded
            && (t.phase == s.phase || (s.phase == Idle && t.phase == Hibernating) || t.phase in {Running, Idle})
            && (s.phase !in {Running, Idle} ==> t == s)
            && (s.phase in {Running, Idle} ==> t.phase in {Running, Idle, Hibernating})
  {
    hide Trunc;
  }

  lemma StepAwake(c: Config, w: World, a: Act)
    requires Inv(w) && Awake(w.status)
    ensures Awake(Step(c, w, a).status)
  {
    hide Trunc, Converge, Activity;
    match a
    case Begin(i) =>
      if w.status.phase !in {Degraded, Hibernating, Hibernated} && w.pc.Rest? && Known(w, i) {
        ConvergeSound(w.status, i, w.now);
        ConvergeIdleMark(w.status, i, w.now);
        ActivityToSleep(c, Converge(w.status, i, w.now), i, w.now);
      }
    case _ =>
  }

  lemma {:induction false} RunAwake(c: Config, acts: seq<Act>)
    ensures Awake(Run(c, acts).status)
  {
    if acts != [] {
      hide Step, Inv, Awake;
      var front := acts[..|acts| - 1];
      RunKeeps(c, front);
      RunAwake(c, front);
      StepAwake(c, Run(c, front), acts[|acts| - 1]);
    }
  }

  // ---- one step ------------------------------------------------------------------------

  lemma ConvergeMark(w: World, i: Input)
    requires PodStep(w, i) && !FindsReady(w, i) && !StoresMarkFirst(w.status, i)
    ensures var t := Converge(w.status, i, w.now);
            && (Floors(t.mark) <==> Marks(w, Begin(i)) || (Floors(w.status.mark) && !Overwrites(w, Begin(i))))
            && t.phase !in {Running, Idle} && (t.phase == Resuming <==> w.status.phase == Resuming && !FindsCrash(w, i))
  {}

  /** What a step that finds no Ready Pod does to mark and phase. */
  lemma StepEffect(c: Config, w: World, a: Act)
    requires Inv(w) && Awake(w.status) && !Step(c, w, a).deleted && !(a.Begin? && FindsReady(w, a.i))
    ensures var s, s' := w.status, Step(c, w, a).status;
            && (Floors(s'.mark) <==> Marks(w, a) || (Floors(s.mark) && !Overwrites(w, a)))
            && (Up(s') <==> Up(s) && !Lowers(w, a))
            && (Held(s') == Resuming <==> Wakes(w, a) || (Held(s) == Resuming && !Crashing(w, a)))
  {
    hide Trunc, Converge, Activity, FindsReady;
    match a
    case Begin(i) =>
      if PodStep(w, i) && !StoresMarkFirst(w.status, i) {
        var s := Converge(w.status, i, w.now);
        ConvergeMark(w, i);
        ConvergeSound(w.status, i, w.now);
        ActivityToSleep(c, s, i, w.now);
        assert Step(c, w, a) == ConvergePass(c, w, i);
      }
    case _ =>
  }

  // ---- stretches of a run -------------------------------------------------------------------

  /** The last pass of the stretch to store or overwrite the mark stored it, or the
      mark stood before and none overwrote it. */
  ghost predicate StillMarked(c: Config, acts: seq<Act>, more: seq<Act>) {
    if more == [] then Floors(Run(c, acts).status.mark)
    else
      var front, a := more[..|more| - 1], more[|more| - 1];
      var w := Run(c, acts + front);
      Marks(w, a) || (!Overwrites(w, a) && StillMarked(c, acts, front))
  }

  /** The Agent was Running or Idle before, and no step of the stretch stored a phase. */
  ghost predicate StillUp(c: Config, acts: seq<Act>, more: seq<Act>) {
    if more == [] then Up(Run(c, acts).status)
    else
      var front, a := more[..|more| - 1], more[|more| - 1];
      !Lowers(Run(c, acts + front), a) && StillUp(c, acts, front)
  }

  /** The Agent was woken, in the stretch or before, and no pass since then found its
      Pod in a crash loop. */
  ghost predicate StillWoken(c: Config, acts: seq<Act>, more: seq<Act>) {
    if more == [] then Held(Run(c, acts).status) == Resuming
    else
      var front, a := more[..|more| - 1], more[|more| - 1];
      var w := Run(c, acts + front);
      Wakes(w, a) || (!Crashing(w, a) && StillWoken(c, acts, front))
  }

  lemma RisingFront(c: Config, acts: seq<Act>, more: seq<Act>)
    requires Rising(c, acts, more) && more != []
    ensures var front, a := more[..|more| - 1], more[|more| - 1];
            && acts + more == acts + front + [a]
            && Run(c, acts + more) == Step(c, Run(c, acts + front), a)
            && Rising(c, acts, front) && !(a.Begin? && FindsReady(Run(c, acts + front), a.i))
  {
    hide Run, Step, FindsReady;
    var front, a, n := more[..|more| - 1], more[|more| - 1], |more| - 1;
    assert acts + more == acts + front + [a] && more[..n] == front;
    RunSnoc(c, acts + front, a);
    DeletedStays(c, Run(c, acts + front), a);
    forall k | 0 <= k < |front| ensures !(front[k].Begin? && FindsReady(Run(c, acts + front[..k]), front[k].i)) {
      assert front[..k] == more[..k] && front[k] == more[k];
    }
  }

  /** Mark and phase after a stretch without a Ready pass are what its passes made them. */
  lemma {:induction false} StretchEffect(c: Config, acts: seq<Act>, more: seq<Act>)
    requires Rising(c, acts, more)
    ensures var s := Run(c, acts + more).status;
            && (Floors(s.mark) <==> StillMarked(c, acts, more))
            && (Up(s) <==> StillUp(c, acts, more))
            && (Held(s) == Resuming <==> StillWoken(c, acts, more))
  {
    if more == [] { assert acts + more == acts; } else {
      hide Run, Step, Inv, Rising, Floors, Up, Held, Marks, Overwrites, Lowers, Wakes, Crashing, FindsReady, Awake;
      var front, a := more[..|more| - 1], more[|more| - 1];
      RisingFront(c, acts, more);
      StretchEffect(c, acts, front);
      RunKeeps(c, acts + front);
      RunAwake(c, acts + front);
      NotDeleted(c, acts, more);
      StepEffect(c, Run(c, acts + front), a);
    }
  }

  lemma NotDeleted(c: Config, acts: seq<Act>, more: seq<Act>)
    requires Rising(c, acts, more)
    ensures !Run(c, acts + more).deleted
  {}

  /** The first pass after any stretch of a run to find the Pod Ready restarts the idle
      clock if and only if some step stored the phase of an Agent without a Ready Pod,
      or the phase was such before; and a mark of a replacement stands that no pass has
      overwritten since, or a wake that no crash loop has interrupted. */
  lemma ClockRestartsIff(c: Config, acts: seq<Act>, more: seq<Act>, i: Input)
    requires Rising(c, acts, more) && FindsReady(Run(c, acts + more), i)
    ensures var w, w' := Run(c, acts + more), Run(c, acts + more + [Begin(i)]);
            var restarts := !StillUp(c, acts, more) && (StillMarked(c, acts, more) || StillWoken(c, acts, more));
            && (restarts ==>
                  w'.floored == Some(w.now) && w'.status.phase == Running
                      && w'.status.lastActivity == Some(Trunc(w.now)))
            && (!restarts ==>
                  w'.floored == w.floored && Converge(w.status, i, w.now).lastActivity == w.status.lastActivity)
  {
    hide Run, Step, Trunc, Converge, Rising, StillUp, StillMarked, StillWoken;
    StretchEffect(c, acts, more);
    RunKeeps(c, acts + more);
    RunSnoc(c, acts + more, Begin(i));
    RestartsIff(c, Run(c, acts + more), i);
  }

  // ---- a replacement that waits for a slot -----------------------------------------------------

  const WAITING_POD := READY_POD.(pod := Live(false, true, false))
  const WAITED_POD := READY_POD.(pod := Live(true, true, false), gateway := Reachable(Some(0), true))
  const REFUSED: seq<Act> := [Begin(NO_POD), Go, Begin(WAITING_POD)]
  const WAITS := UP.(now := LATE, status := Status(Provisioning, None, None, Some(LATE), ReplacementPending))

  lemma IsRefused(c: Config)
    ensures Step(c, Step(c, Step(c, UP.(now := LATE), Begin(NO_POD)), Go), Begin(WAITING_POD)) == WAITS
  {
    var lost := UP.(now := LATE, status := Status(Provisioning, None, None, Some(LATE), PodDisrupted));
    assert Step(c, Step(c, UP.(now := LATE), Begin(NO_POD)), Go) == lost;
  }

  lemma IdlesAtOnce(c: Config)
    requires c.idleTimeout == 600 * SECOND
    ensures FindsReady(WAITS, WAITED_POD)
    ensures Step(c, WAITS, Begin(WAITED_POD)).status.phase == Idle && Step(c, WAITS, Begin(WAITED_POD)).floored == None
  {}

  /** A Pod is lost, its replacement has drifted by the time it is seen and is refused a
      slot, and its first Ready pass turns the Agent Idle, though no step was cut short:
      that it waits for a slot was stored over the mark. */
  lemma RefusedLosesRestart(c: Config)
    requires c.idleTimeout == 600 * SECOND
    ensures var acts := [Begin(NO_POD), Begin(READY_POD), Tick(LATE)] + REFUSED;
            && NeverTorn(c, acts) && FindsReady(Run(c, acts), WAITED_POD)
            && Run(c, acts + [Begin(WAITED_POD)]).status.phase == Idle
            && Run(c, acts + [Begin(WAITED_POD)]).floored == None
  {
    hide Run, Step;
    var first, r := [Begin(NO_POD), Begin(READY_POD), Tick(LATE)], REFUSED;
    ThreeSteps(c, [], first[0], first[1], first[2]);
    assert [] + first == first;
    StartsLate(c);
    ThreeSteps(c, first, r[0], r[1], r[2]);
    IsRefused(c);
    RunSnoc(c, first + r, Begin(WAITED_POD));
    IdlesAtOnce(c);
  }

  lemma StartsLate(c: Config)
    ensures Run(c, []) == INIT
    ensures Step(c, Step(c, Step(c, INIT, Begin(NO_POD)), Begin(READY_POD)), Tick(LATE)) == UP.(now := LATE)
  {
    ComesUp(c);
  }
}

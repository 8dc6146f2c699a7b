/** When a Pod that turns Ready restarts the idle clock. The disruption mark is
    stored before the Pod is created so that the restart cannot be lost
    (agent_controller.go:1291-1297), but the phase is stored only at the end of
    the pass, and the restart needs both. */
module AgentFloor {
  import opened Prelude
  import opened AgentMachine
  import opened AgentProofs

  // ---- a pass ---------------------------------------------------------------------

  /** The pass gets to the Pod step. */
  predicate PodStep(w: World, i: Input) {
    && !w.deleted && !w.wake && !i.held && !i.violation && !i.blocked && w.pc.Rest? && Known(w, i)
    && w.status.phase !in {Degraded, Hibernating, Hibernated}
  }

  /** The pass replaces a live Pod that has drifted: it holds a slot or is given one. */
  predicate Replaces(w: World, i: Input) {
    i.pod.Live? && i.pod.drifted && i.certReady && (w.status.mark == Replacing || i.slot)
  }

  /** The pass finds a Ready Pod that it keeps. */
  predicate FindsReady(w: World, i: Input) {
    PodStep(w, i) && i.pod.Live? && i.pod.ready && !i.pod.crashed && !Replaces(w, i)
  }

  lemma ReadyPass(s: Status, i: Input, now: Time)
    requires i.pod.Live? && i.pod.ready && !i.pod.crashed
    requires !(i.pod.drifted && i.certReady && (s.mark == Replacing || i.slot))
    ensures var t := Converge(s, i, now);
            && t.phase == (if s.phase == Idle then Idle else Running) && !Floors(t.mark)
            && t.lastActivity == (if FloorsAtReady(s, s.mark) then Some(now) else s.lastActivity)
  {}

  /** A pass that finds the Pod Ready ends the replacement or the wake, and it
      restarts the clock exactly when the phase says neither Running nor Idle and
      either still says Resuming or the mark tells of a replacement. */
  lemma RestartsIff(c: Config, w: World, i: Input)
    requires FindsReady(w, i) && Inv(w)
    ensures var w' := Step(c, w, Begin(i));
            var restarts := w.status.phase !in {Running, Idle} && (w.status.phase == Resuming || Floors(w.status.mark));
            && !Floors(w'.status.mark) && w'.status.phase != Resuming
            && (restarts ==>
                  w'.floored == Some(w.now) && w'.status.phase == Running
                      && w'.status.lastActivity == Some(Trunc(w.now)))
            && (!restarts ==>
                  w'.floored == w.floored && Converge(w.status, i, w.now).lastActivity == w.status.lastActivity)
  {
    hide Converge, Trunc;
    var s := Converge(w.status, i, w.now);
    ReadyPass(w.status, i, w.now);
    ConvergeSound(w.status, i, w.now);
    ActivitySound(c, s, i, w.now);
    ActivityKeepsMark(c, s, i, w.now);
    assert Step(c, w, Begin(i)) == ConvergePass(c, w, i);
    if FloorsAtReady(w.status, w.status.mark) { FreshActivity(c, s, i, w.now); }
  }

  lemma ActivityKeepsMark(c: Config, s: Status, i: Input, now: Time)
    ensures Activity(c, s, i, now).mark == s.mark
    ensures s.phase in {Running, Idle} ==> Activity(c, s, i, now).phase in {Running, Idle, Hibernating}
  {
    hide Trunc;
  }

  /** Just restarted, the activity step keeps the Agent awake and its clock. */
  lemma FreshActivity(c: Config, s: Status, i: Input, now: Time)
    requires s.phase == Running && s.lastActivity == Some(now)
    requires i.gateway.Reachable? && i.gateway.record.Some? ==> i.gateway.record.value <= now
    requires s.since.Some? ==> s.since.value <= now
    ensures Activity(c, s, i, now) == s
  {}

  // ---- runs --------------------------------------------------------------------------

  /** A replacement under way is known by the phase too: the Agent is not Running,
      Idle or going to sleep. */
  predicate Covered(s: Status) {
    Floors(s.mark) ==> Held(s) !in {Running, Idle, Hibernating}
  }

  /** The process stops between storing the mark and storing the phase. */
  predicate Torn(w: World, a: Act) {
    w.pc.Creating? && a.Stop? && w.status.phase in {Running, Idle}
  }

  predicate PcCovered(w: World) {
    if w.pc.Creating? then Floors(w.status.mark) && w.status.phase != Hibernating else Covered(w.status)
  }

  lemma ConvergeCovers(s: Status, i: Input, now: Time)
    requires Covered(s) && s.phase !in {Degraded, Hibernating, Hibernated}
    ensures Covered(Converge(s, i, now))
  {}

  lemma ActivityCovers(c: Config, s: Status, i: Input, now: Time)
    requires Covered(s) && s.phase != Degraded
    ensures Covered(Activity(c, s, i, now))
  {
    hide Trunc;
  }

  lemma BeginCovers(c: Config, w: World, i: Input)
    requires Inv(w) && Covered(w.status) && w.pc.Rest? && Known(w, i)
    ensures PcCovered(BeginPass(c, w, i))
  {
    hide Converge, Activity, Trunc;
    var s := w.status;
    if s.phase !in {Degraded, Hibernating, Hibernated} {
      ConvergeCovers(s, i, w.now);
      ConvergeSound(s, i, w.now);
      ActivityCovers(c, Converge(s, i, w.now), i, w.now);
    }
  }

  lemma StepCovers(c: Config, w: World, a: Act)
    requires Inv(w) && PcCovered(w)
    ensures Torn(w, a) ==> Step(c, w, a).pc.Rest? && !Covered(Step(c, w, a).status)
    ensures !Torn(w, a) ==> PcCovered(Step(c, w, a))
  {
    hide BeginPass, Trunc;
    match a
    case Begin(i) => if w.pc.Rest? && Known(w, i) { BeginCovers(c, w, i); }
    case _ =>
  }

  ghost predicate NeverTorn(c: Config, acts: seq<Act>) {
    forall k | 0 <= k < |acts| :: !Torn(Run(c, acts[..k]), acts[k])
  }

  ghost predicate AlwaysCovered(c: Config, acts: seq<Act>) {
    forall k | 0 <= k <= |acts| :: Run(c, acts[..k]).pc.Rest? ==> Covered(Run(c, acts[..k]).status)
  }

  lemma {:induction false} CoveredUpTo(c: Config, acts: seq<Act>, k: nat)
    requires NeverTorn(c, acts) && k <= |acts|
    ensures PcCovered(Run(c, acts[..k]))
  {
    hide Step;
    if k > 0 {
      CoveredUpTo(c, acts, k - 1);
      assert acts[..k] == acts[..k - 1] + [acts[k - 1]];
      RunSnoc(c, acts[..k - 1], acts[k - 1]);
      RunKeeps(c, acts[..k - 1]);
      StepCovers(c, Run(c, acts[..k - 1]), acts[k - 1]);
    }
  }

  lemma {:induction false} FirstTear(c: Config, acts: seq<Act>, k: nat)
    requires k < |acts| && Torn(Run(c, acts[..k]), acts[k])
    ensures !AlwaysCovered(c, acts)
  {
    hide Step, Run;
    if j :| 0 <= j < k && Torn(Run(c, acts[..j]), acts[j]) {
      FirstTear(c, acts, j);
    } else {
      var front := acts[..k];
      assert NeverTorn(c, front) by {
        forall j | 0 <= j < |front| ensures !Torn(Run(c, front[..j]), front[j]) {
          assert front[..j] == acts[..j];
        }
      }
      CoveredUpTo(c, front, k);
      assert front[..k] == front;
      assert acts[..k + 1] == front + [acts[k]];
      RunSnoc(c, front, acts[k]);
      RunKeeps(c, front);
      StepCovers(c, Run(c, front), acts[k]);
    }
  }

  /** At rest a mark that tells of a replacement never goes with a phase that says
      Running, Idle or Hibernating, over a whole run, if and only if the process never stops
      between storing the two for an Agent that was Running or Idle. */
  lemma CoveredIff(c: Config, acts: seq<Act>)
    ensures AlwaysCovered(c, acts) <==> NeverTorn(c, acts)
  {
    hide Step, Run;
    if NeverTorn(c, acts) {
      forall k | 0 <= k <= |acts| ensures Run(c, acts[..k]).pc.Rest? ==> Covered(Run(c, acts[..k]).status) {
        CoveredUpTo(c, acts, k);
      }
    } else {
      var k :| 0 <= k < |acts| && Torn(Run(c, acts[..k]), acts[k]);
      FirstTear(c, acts, k);
    }
  }

  // ---- the lost restart ------------------------------------------------------------------

  const SILENT := Reachable(None, true)
  const NO_POD := Input(false, false, false, true, NoPod, false, SILENT)
  const READY_POD := Input(false, false, false, true, Live(true, false, false), false, SILENT)

  const LATE := 1000 * SECOND

  /** The Agent once its first Pod is Ready, and after the interrupted replacement. */
  const UP := World(0, Status(Running, None, None, Some(0), PodCurrent), false, Rest, false, None, Pending)
  const CUT := UP.(now := LATE, status := UP.status.(mark := PodDisrupted))

  lemma ComesUp(c: Config)
    ensures Step(c, Step(c, INIT, Begin(NO_POD)), Begin(READY_POD)) == UP
  {
    assert Step(c, INIT, Begin(NO_POD)) == INIT.(status := Status(Provisioning, None, None, Some(0), NoMark));
  }

  lemma IsCut(c: Config)
    ensures Step(c, Step(c, UP.(now := LATE), Begin(NO_POD)), Stop) == CUT
  {}

  /** A Running Agent loses its Pod, the controller stops right after creating the
      replacement, and the replacement's first Ready pass turns the Agent Idle: the
      silence before the disruption counted against the new Pod. */
  lemma RestartLost(c: Config)
    requires c.idleTimeout == 600 * SECOND
    ensures var acts := [Begin(NO_POD), Begin(READY_POD), Tick(LATE), Begin(NO_POD), Stop];
            && Run(c, acts) == CUT && Floors(CUT.status.mark) && FindsReady(CUT, READY_POD)
            && Run(c, acts + [Begin(READY_POD)]).status.phase == Idle
            && Run(c, acts + [Begin(READY_POD)]).floored == None
  {
    var acts := [Begin(NO_POD), Begin(READY_POD), Tick(LATE), Begin(NO_POD), Stop];
    assert Run(c, acts) == CUT by {
      hide BeginPass, Step;
      RunSnoc(c, [], acts[0]);
      RunSnoc(c, acts[..1], acts[1]);
      RunSnoc(c, acts[..2], acts[2]);
      RunSnoc(c, acts[..3], acts[3]);
      RunSnoc(c, acts[..4], acts[4]);
      ComesUp(c);
      Waits(c);
      IsCut(c);
      assert [] + [acts[0]] == acts[..1] && acts[..1] + [acts[1]] == acts[..2] && acts[..2] + [acts[2]] == acts[..3]
        && acts[..3] + [acts[3]] == acts[..4] && acts[..4] + [acts[4]] == acts;
    }
    RunSnoc(c, acts, Begin(READY_POD));
    TurnsIdle(c);
  }

  lemma Waits(c: Config)
    ensures Step(c, UP, Tick(LATE)) == UP.(now := LATE)
  {}

  lemma TurnsIdle(c: Config)
    requires c.idleTimeout == 600 * SECOND
    ensures FindsReady(CUT, READY_POD) && Step(c, CUT, Begin(READY_POD)).status.phase == Idle
    ensures Step(c, CUT, Begin(READY_POD)).floored == None
  {}
}

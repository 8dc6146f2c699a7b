/** When the activity step takes an Idle Agent back to Running
    (internal/controller/agent_controller.go:543-622). */
module AgentActivity {
  import opened Prelude
  import opened AgentMachine
  import opened AgentProofs
  import opened AgentFloor

  /** The pass is at work and its gateway record, if it has one, is newer than what
      is stored, at the resolution of the store. */
  predicate SeesNewer(w: World, i: Input) {
    && i.gateway.Reachable? && i.gateway.record.Some? && w.status.lastActivity.Some?
    && Trunc(i.gateway.record.value) > w.status.lastActivity.value
  }

  lemma ActivityReturnsIff(c: Config, s: Status, i: Input, now: Time)
    requires s.phase == Idle
    ensures Activity(c, s, i, now).phase == Running <==>
      && c.idleTimeout != 0 && i.gateway.Reachable? && i.gateway.record.Some? && s.lastActivity.Some?
      && Trunc(i.gateway.record.value) > s.lastActivity.value
  {
    hide Trunc;
  }

  lemma ConvergeKeepsActivity(s: Status, i: Input, now: Time)
    requires s.phase == Idle
    ensures Converge(s, i, now).lastActivity == s.lastActivity && Converge(s, i, now).phase != Running
  {}

  /** A pass takes an Idle Agent to Running only on a record that is newer. */
  lemma ReturnNeedsNewer(c: Config, w: World, a: Act)
    requires Inv(w) && w.status.phase == Idle && Step(c, w, a).status.phase == Running
    ensures a.Begin? && SeesNewer(w, a.i)
  {
    hide Trunc, Converge, Activity;
    match a
    case Begin(i) =>
      if w.pc.Rest? && Known(w, i) {
        var s := Converge(w.status, i, w.now);
        ConvergeKeepsActivity(w.status, i, w.now);
        if s.phase == Idle { ActivityReturnsIff(c, s, i, w.now); } else { ActivityMoves(c, s, i, w.now); }
      }
    case _ =>
  }

  lemma ActivityMoves(c: Config, s: Status, i: Input, now: Time)
    requires s.phase !in {Running, Idle}
    ensures Activity(c, s, i, now) == s
  {}

  /** With its Pod Ready an Idle Agent returns to Running exactly when the record
      the pass sees is newer than the stored time. */
  lemma ReturnsIff(c: Config, w: World, i: Input)
    requires FindsReady(w, i) && w.status.phase == Idle && c.idleTimeout != 0
    ensures Step(c, w, Begin(i)).status.phase == Running <==> SeesNewer(w, i)
  {
    hide Trunc, Converge, Activity;
    ReadyPass(w.status, i, w.now);
    ConvergeKeepsActivity(w.status, i, w.now);
    ActivityReturnsIff(c, Converge(w.status, i, w.now), i, w.now);
  }

  // ---- runs with one record ------------------------------------------------------------

  /** Every pass sees the record r or none. */
  predicate Only(acts: seq<Act>, r: Time) {
    forall a | a in acts :: a.Begin? && a.i.gateway.Reachable? ==> a.i.gateway.record in {None, Some(r)}
  }

  lemma StaysDown(c: Config, acts: seq<Act>, more: seq<Act>, a: Act, r: Time)
    requires Only(more + [a], r)
    requires Run(c, acts).status.lastActivity.Some? && Trunc(r) <= Run(c, acts).status.lastActivity.value
    ensures !(Run(c, acts + more).status.phase == Idle && Run(c, acts + more + [a]).status.phase == Running)
  {
    hide Run, Step, Trunc;
    var w := Run(c, acts + more);
    ActivityNeverDecreases(c, acts, more);
    RunKeeps(c, acts + more);
    RunSnoc(c, acts + more, a);
    assert a in more + [a];
    if w.status.phase == Idle && Step(c, w, a).status.phase == Running {
      ReturnNeedsNewer(c, w, a);
      assert false;
    }
  }

  /** The activity step that makes an Agent Idle remembers the record it saw. */
  lemma EntryRemembers(c: Config, w: World, i: Input)
    requires Inv(w) && w.status.phase == Running && Step(c, w, Begin(i)).status.phase == Idle
    ensures i.gateway.Reachable?
    ensures var l := Step(c, w, Begin(i)).status.lastActivity;
            l.Some? && (i.gateway.record.Some? ==> Trunc(i.gateway.record.value) <= l.value)
  {
    hide Trunc, Converge, Activity;
    var s := Converge(w.status, i, w.now);
    ConvergeIdle(w.status, i, w.now);
    if w.pc.Rest? && Known(w, i) {
      EntryMarker(c, s, i, w.now);
    }
  }

  lemma EntryMarker(c: Config, s: Status, i: Input, now: Time)
    requires s.phase != Idle && Activity(c, s, i, now).phase == Idle
    ensures i.gateway.Reachable?
    ensures var t := Activity(c, s, i, now);
            && t.lastActivity.Some?
            && (i.gateway.record.Some? ==> Trunc(i.gateway.record.value) <= Trunc(t.lastActivity.value))
  {
    hide Trunc;
    if i.gateway.Reachable? && i.gateway.record.Some? {
      TruncLaws(i.gateway.record.value, Activity(c, s, i, now).lastActivity.value);
    }
  }

  /** No oscillation: an Agent that turns Idle on a pass that saw the record r does
      not go from Idle to Running again while every pass sees r or no record, however
      often its times are stored and its Pod is replaced meanwhile. */
  lemma SameRecordNeverReturns(c: Config, acts: seq<Act>, i: Input, more: seq<Act>, a: Act, r: Time)
    requires Run(c, acts).status.phase == Running && Run(c, acts + [Begin(i)]).status.phase == Idle
    requires i.gateway.Reachable? && i.gateway.record == Some(r) && Only(more + [a], r)
    ensures var before := acts + [Begin(i)] + more;
            !(Run(c, before).status.phase == Idle && Run(c, before + [a]).status.phase == Running)
  {
    hide Run, Step, Trunc;
    RunSnoc(c, acts, Begin(i));
    RunKeeps(c, acts);
    EntryRemembers(c, Run(c, acts), i);
    StaysDown(c, acts + [Begin(i)], more, a, r);
  }

  /** With no record at all an Idle Agent never goes straight back to Running. */
  lemma SilenceNeverReturns(c: Config, acts: seq<Act>, a: Act)
    requires a.Begin? && a.i.gateway.Reachable? ==> a.i.gateway.record.None?
    ensures !(Run(c, acts).status.phase == Idle && Run(c, acts + [a]).status.phase == Running)
  {
    hide Run, Step, Trunc;
    RunKeeps(c, acts);
    RunSnoc(c, acts, a);
    var w := Run(c, acts);
    if w.status.phase == Idle && Step(c, w, a).status.phase == Running {
      ReturnNeedsNewer(c, w, a);
      assert false;
    }
  }

  // ---- the one way round ------------------------------------------------------------------

  function Sees(r: Option<Time>): Act {
    Begin(READY_POD.(gateway := Reachable(r, true)))
  }

  const UP_500 := UP.(now := 500 * SECOND)
  const UP_700 := UP.(now := 700 * SECOND)
  const IDLE_700 := UP_700.(status := Status(Idle, None, Some(0), Some(700 * SECOND), PodCurrent))

  lemma StaysUp(c: Config)
    requires c.idleTimeout == 600 * SECOND
    ensures Step(c, Step(c, UP, Tick(500 * SECOND)), Sees(Some(500 * SECOND))) == UP_500
    ensures Step(c, UP_500, Tick(700 * SECOND)) == UP_700
  {}

  lemma IdlesOnSilence(c: Config)
    requires c.idleTimeout == 600 * SECOND
    ensures Step(c, UP_700, Sees(None)) == IDLE_700
  {}

  lemma ReturnsOnRecord(c: Config)
    requires c.idleTimeout == 600 * SECOND
    ensures Step(c, IDLE_700, Sees(Some(500 * SECOND))).status.phase == Running
  {
    ReturnsIff(c, IDLE_700, Sees(Some(500 * SECOND)).i);
  }

  /** The record must be seen on the pass that turns the Agent Idle: when it goes
      missing on that pass alone, silence is counted from before it, and its return
      takes the Agent back to Running without anything new having happened. */
  lemma MissingRecordOscillates(c: Config)
    requires c.idleTimeout == 600 * SECOND
    ensures var r := 500 * SECOND;
            var acts := [Begin(NO_POD), Begin(READY_POD), Tick(r), Sees(Some(r)), Tick(700 * SECOND), Sees(None)];
            && Run(c, acts[..5]).status.phase == Running
            && Run(c, acts).status.phase == Idle
            && Run(c, acts + [Sees(Some(r))]).status.phase == Running
  {
    hide BeginPass, Step;
    var r := 500 * SECOND;
    var acts := [Begin(NO_POD), Begin(READY_POD), Tick(r), Sees(Some(r)), Tick(700 * SECOND), Sees(None)];
    RunSnoc(c, [], acts[0]);
    RunSnoc(c, acts[..1], acts[1]);
    RunSnoc(c, acts[..2], acts[2]);
    RunSnoc(c, acts[..3], acts[3]);
    RunSnoc(c, acts[..4], acts[4]);
    RunSnoc(c, acts[..5], acts[5]);
    RunSnoc(c, acts, Sees(Some(r)));
    ComesUp(c);
    StaysUp(c);
    IdlesOnSilence(c);
    ReturnsOnRecord(c);
    assert [] + [acts[0]] == acts[..1] && acts[..1] + [acts[1]] == acts[..2] && acts[..2] + [acts[2]] == acts[..3]
      && acts[..3] + [acts[3]] == acts[..4] && acts[..4] + [acts[4]] == acts[..5] && acts[..5] + [acts[5]] == acts;
  }
}

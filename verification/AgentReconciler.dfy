/** The Agent reconciler as it works on the status in place, field by field
    (internal/controller/agent_controller.go), proved to take the machine's steps. */
module AgentReconciler {
  import opened Prelude
  import opened AgentMachine
  import opened AgentProofs
  import opened AgentPhases
  import GA = GatewayActivity

  /** What the activity step makes of the replicas that answered. */
  ghost predicate Reads(g: Gateway, c: Config, replicas: seq<GA.Replica>, name: GA.Name, source: GA.Source,
                        created: Time, now: Time)
  {
    match g
    case Unreachable => replicas == []
    case Reachable(record, qualified) =>
      && replicas != []
      && GA.IsNewest(GA.Since(GA.Recorded(replicas, name, source), created), record)
      && (record.None? ==> (qualified <==> exists r :: r in replicas && now - r.startedAt >= c.idleTimeout))
  }

  /** A pass that is not interrupted: what it begins it also ends. */
  function Finish(c: Config, w: World, i: Input): World {
    var w' := Step(c, w, Begin(i));
    if w'.pc.Rest? then w' else Step(c, w', Go)
  }

  class Reconciler {
    const c: Config

    var phase: Phase
    var preDegraded: Option<Phase>
    var lastActivity: Option<Time>
    var since: Option<Time>
    var mark: Mark

    var now: Time
    var wake: bool
    var deleted: bool

    ghost var floored: Option<Time>
    ghost var entered: Phase

    function State(): Status
      reads this
    {
      Status(phase, preDegraded, lastActivity, since, mark)
    }

    ghost function World(): World
      reads this
    {
      AgentMachine.World(now, State(), wake, Rest, deleted, floored, entered)
    }

    ghost predicate Valid()
      reads this
    {
      Inv(World())
    }

    constructor (c: Config)
      ensures this.c == c && Valid() && World() == INIT
    {
      this.c := c;
      phase, preDegraded, lastActivity, since, mark := Pending, None, None, None, NoMark;
      now, wake, deleted, floored, entered := 0, false, false, None, Pending;
      new;
      RunKeeps(c, []);
    }

    method MoveTo(p: Phase)
      modifies `phase, `since
      ensures State() == SetPhase(old(State()), p, now)
    {
      if phase != p {
        phase, since := p, Some(now);
      }
    }

    /** The API server keeps whole seconds. */
    method WriteStatus()
      modifies `lastActivity, `since
      ensures State() == Stored(old(State()))
    {
      if lastActivity.Some? { lastActivity := Some(Trunc(lastActivity.value)); }
      if since.Some? { since := Some(Trunc(since.value)); }
    }

    method Disrupted() returns (changed: bool)
      modifies `mark
      ensures State() == MarkDisrupted(old(State()))
      ensures changed <==> State() != old(State())
    {
      changed := mark != NoMark && mark != Replacing && mark != PodDisrupted;
      if changed { mark := PodDisrupted; }
    }

    method ConvergeLivePod(pod: Pod, floorAtReady: bool, ghost was: Mark)
      requires pod.Live? && floorAtReady == Floors(was)
      modifies `phase, `since, `lastActivity, `mark
      ensures State() == ConvergeLive(old(State()), was, pod, now)
    {
      if pod.crashed {
        MoveTo(Failed);
      } else if pod.ready {
        if phase != Idle {
          if phase != Running && (phase == Resuming || floorAtReady) { lastActivity := Some(now); }
          MoveTo(Running);
        }
        if !pod.drifted { mark := PodCurrent; }
      } else {
        MoveTo(PendingPhase(State()));
      }
    }

    /** convergePod, whose mark for a lost Pod is stored before the Pod is created. */
    method ConvergePod(i: Input)
      modifies `phase, `since, `lastActivity, `mark
      ensures var s := old(State());
              State() == if StoresMarkFirst(s, i) then SetPhase(Stored(MarkDisrupted(s)), PendingPhase(s), now)
                         else Converge(s, i, now)
    {
      var floorAtReady := mark == Replacing || mark == PodDisrupted;
      if i.pod.NoPod? {
        if i.certReady {
          var changed := Disrupted();
          if changed { WriteStatus(); }
        }
        MoveTo(PendingPhase(State()));
      } else if i.pod.Going? || i.pod.Terminal? {
        var _ := Disrupted();
        MoveTo(PendingPhase(State()));
      } else {
        ghost var was := mark;
        if i.pod.drifted && i.certReady {
          if mark == Replacing || i.slot {
            mark := Replacing;
            MoveTo(PendingPhase(State()));
            return;
          }
          mark := ReplacementPending;
        } else if i.pod.drifted && (!floorAtReady || i.pod.ready) {
          mark := CertificateNotReady;
        }
        ConvergeLivePod(i.pod, floorAtReady, was);
      }
    }

    /** evaluateActivity on the answers of the replicas that could be reached. */
    method EvaluateActivity(replicas: seq<GA.Replica>, name: GA.Name, source: GA.Source, created: Time, i: Input)
      returns (ghost g: Gateway)
      modifies `phase, `since, `lastActivity
      ensures Reads(g, c, replicas, name, source, created, now)
      ensures c.idleTimeout != 0 ==> State() == Activity(c, old(State()), i.(gateway := g), now)
      ensures c.idleTimeout == 0 ==> State() == old(State())
      ensures old(phase) == Running ==>
                phase ==
                if c.idleTimeout != 0 && Silent(old(State()), g, now, c.idleTimeout, true) then Idle else Running
      ensures old(phase) == Idle ==>
                && (phase == Running <==>
                      && c.idleTimeout != 0 && g.Reachable? && g.record.Some? && old(lastActivity).Some?
                      && Trunc(g.record.value) > old(lastActivity).value)
                && (phase == Hibernating <==>
                      && c.idleTimeout != 0 && c.hibernates && i.certReady && phase != Running
                      && Silent(old(State()), g, now, c.idleTimeout + c.hibernationDelay, old(lastActivity).None?))
    {
      if |replicas| == 0 { return Unreachable; }
      var record := GA.MergedActivity(replicas, name, source, created);
      var qualified := false;
      if record.None? { qualified := GA.Qualified(replicas, now, c.idleTimeout); }
      g := Reachable(record, qualified);
      if c.idleTimeout == 0 || (record.None? && (!qualified || since.None?)) { return; }
      var synthetic := record.None?;
      var last := if synthetic then since.value else record.value;
      if phase == Running {
        var marker := last;
        if lastActivity.Some? && lastActivity.value > marker { marker := lastActivity.value; }
        if now - marker > c.idleTimeout {
          MoveTo(Idle);
          lastActivity := Some(marker);
        }
      } else if phase == Idle {
        if !synthetic && lastActivity.Some? && Trunc(last) > lastActivity.value {
          MoveTo(Running);
          lastActivity := Some(last);
          return;
        }
        var silenceStart := last;
        if lastActivity.Some? && (synthetic || lastActivity.value > silenceStart) {
          silenceStart := lastActivity.value;
        }
        if c.hibernates && i.certReady && now - silenceStart > c.idleTimeout + c.hibernationDelay {
          MoveTo(Hibernating);
        }
      }
    }

    /** handleWake: Resuming is stored before the request is cleared. */
    method HandleWake()
      requires Valid() && !deleted && wake && phase != Hibernating
      modifies `phase, `since, `lastActivity, `wake
      ensures forall i | Known(old(World()), i) :: World() == Finish(c, old(World()), i)
    {
      if phase == Hibernated {
        MoveTo(Resuming);
        lastActivity := Some(now);
        WriteStatus();
      }
      wake := false;
    }

    method DriveHibernating(pod: Pod)
      modifies `phase, `since, `lastActivity, `mark
      ensures State() == if pod.NoPod? then Stored(SetPhase(old(State()), Hibernated, now).(mark := NoMark))
                         else Stored(old(State()))
    {
      if pod.NoPod? {
        MoveTo(Hibernated);
        mark := NoMark;
      }
      WriteStatus();
    }

    /** reconcileDegraded and enterOrStayDegraded. */
    method ReconcileDegraded(violation: bool) returns (handled: bool)
      requires DegradedInv(State())
      modifies `phase, `since, `preDegraded, `lastActivity, `entered
      ensures handled <==> violation || old(phase) == Degraded
      ensures !handled ==> State() == old(State())
      ensures handled && violation ==> State() == Stored(EnterOrStayDegraded(old(State()), now))
      ensures handled && !violation ==> State() == Stored(LeaveDegraded(old(State()), now))
      ensures entered == if violation && old(phase) != Degraded then old(phase) else old(entered)
    {
      if violation {
        if phase != Degraded {
          entered := phase;
          preDegraded := Some(phase);
          MoveTo(Degraded);
        }
        WriteStatus();
        return true;
      }
      if phase != Degraded { return false; }
      var restored := if preDegraded.Some? then preDegraded.value else Pending;
      MoveTo(restored);
      preDegraded := None;
      WriteStatus();
      return true;
    }

    /** Steps 9 to 11 of a pass: the Pod, then the activity, then one write. */
    method ConvergeAndWrite(i: Input, replicas: seq<GA.Replica>, name: GA.Name, source: GA.Source, created: Time)
      returns (ghost g: Gateway)
      requires Valid() && phase !in {Degraded, Hibernating, Hibernated}
      modifies `phase, `since, `lastActivity, `mark, `floored
      ensures Reads(g, c, replicas, name, source, created, now)
      ensures var w, j := old(World()), i.(gateway := g);
              World() == if StoresMarkFirst(w.status, i)
                         then Step(c, Write(w, MarkDisrupted(w.status), Creating), Go) else ConvergePass(c, w, j)
    {
      hide Trunc, Inv, Converge, Activity, ConvergePass, Stored, MarkDisrupted, SetPhase, Reads;
      ghost var w := World();
      ConvergePod(i);
      g := EvaluateActivity(replicas, name, source, created, i);
      WriteStatus();
      floored := if StoresMarkFirst(w.status, i) then floored else ConvergePass(c, w, i).floored;
      PassIs(c, w, i, g);
    }

    /** One pass of Reconcile from a settled state: what the machine does when the
        pass is not interrupted, so it keeps what every run keeps. */
    method Reconcile(i: Input, replicas: seq<GA.Replica>, name: GA.Name, source: GA.Source, created: Time)
      returns (ghost g: Gateway)
      requires Valid() && forall t | t in GA.Recorded(replicas, name, source) :: t <= now
      modifies `phase, `since, `preDegraded, `lastActivity, `mark, `wake, `floored, `entered
      ensures Valid() && World() == Finish(c, old(World()), i.(gateway := g))
    {
      hide Finish, Step, ConvergePass, Trunc, Inv, Reads, Known, Converge, Activity;
      ghost var w := World();
      g := Unreachable;
      InvParts(w);
      KnownReads(c, w, i, g, replicas, name, source, created);
      if deleted {
        MarkDeleted();
      } else if wake && phase != Hibernating {
        HandleWake();
      } else if !i.held {
        var handled := ReconcileDegraded(i.violation);
        if !handled {
          if phase == Hibernating {
            DriveHibernating(i.pod);
          } else if phase != Hibernated && !i.blocked {
            g := ConvergeAndWrite(i, replicas, name, source, created);
            KnownReads(c, w, i, g, replicas, name, source, created);
          }
        }
      }
      if w.deleted || !w.wake || w.status.phase == Hibernating { FinishIs(c, w, i.(gateway := g)); }
      FinishKeeps(c, w, i.(gateway := g));
    }

    method MarkDeleted()
      requires Valid() && deleted
      modifies `phase, `since, `preDegraded, `lastActivity
      ensures State() == Stored(SetPhase(old(State()).(preDegraded := None), Terminating, now))
    {
      StoredTwice(State());
      if phase != Terminating {
        preDegraded := None;
        MoveTo(Terminating);
        WriteStatus();
      }
    }
  }

  /** The Pod step does not look at the gateway, and the activity step leaves an
      Agent alone whose Pod is yet to come. */
  lemma PassIs(c: Config, w: World, i: Input, g: Gateway)
    requires w.pc.Rest?
    ensures var s, j := w.status, i.(gateway := g);
            && ConvergePass(c, w, j) == w.(status := Stored(Activity(c, Converge(s, i, w.now), j, w.now)),
                floored := ConvergePass(c, w, i).floored)
            && (StoresMarkFirst(s, i) ==>
                  var t := SetPhase(Stored(MarkDisrupted(s)), PendingPhase(s), w.now);
                  && Activity(c, t, j, w.now) == t
                  && Step(c, Write(w, MarkDisrupted(s), Creating), Go) == w.(status := Stored(t)))
    ensures c.idleTimeout == 0 ==> forall t :: Activity(c, t, i.(gateway := g), w.now) == t
  {
    hide Trunc;
  }

  lemma InvParts(w: World)
    requires Inv(w)
    ensures DegradedInv(w.status) && Stored(w.status) == w.status
  {}

  lemma KnownReads(c: Config, w: World, i: Input, g: Gateway, replicas: seq<GA.Replica>, name: GA.Name,
      source: GA.Source, created: Time)
    requires g.Unreachable? || Reads(g, c, replicas, name, source, created, w.now)
    requires forall t | t in GA.Recorded(replicas, name, source) :: t <= w.now
    ensures Known(w, i.(gateway := g))
  {}

  lemma FinishKeeps(c: Config, w: World, i: Input)
    requires Inv(w)
    ensures Inv(Finish(c, w, i))
  {
    hide Inv, Step;
    StepKeeps(c, w, Begin(i));
    StepKeeps(c, Step(c, w, Begin(i)), Go);
  }

  /** The branches of an uninterrupted pass. */
  lemma FinishIs(c: Config, w: World, i: Input)
    requires Inv(w) && w.pc.Rest? && Known(w, i) && (w.deleted || !w.wake || w.status.phase == Hibernating)
    ensures var s := w.status;
            Finish(c, w, i) ==
              if w.deleted then Write(w, SetPhase(s.(preDegraded := None), Terminating, w.now), Rest)
              else if i.held then w
              else if i.violation then
                Write(w, EnterOrStayDegraded(s, w.now), Rest).(
                  entered := if s.phase == Degraded then w.entered else s.phase)
              else if s.phase == Degraded then Write(w, LeaveDegraded(s, w.now), Rest)
              else if s.phase == Hibernating then
                if i.pod.NoPod? then Write(w, SetPhase(s, Hibernated, w.now).(mark := NoMark), Rest) else w
              else if s.phase == Hibernated || i.blocked then w
              else if StoresMarkFirst(s, i) then Step(c, Write(w, MarkDisrupted(s), Creating), Go)
              else ConvergePass(c, w, i)
  {
    hide Trunc, Converge, Activity;
  }
}

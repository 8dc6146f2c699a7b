/** The Agent lifecycle (internal/controller/agent_controller.go): wake, idle
    and hibernate, Degraded, and the Pod step's part in them, as a state machine
    over its API writes. Times are in nanoseconds and lose their fraction of a
    second when they are stored. What a pass finds outside the Agent is its
    input; the gateway's records lie in the past. `floored` and `entered` are
    history variables: when a replaced or woken Pod last restarted the idle
    clock, and the phase held when Degraded was last entered. */
module AgentMachine {
  import opened Prelude

  type Time = nat
  const SECOND: nat := 1_000_000_000

  function Trunc(t: Time): Time {
    t - t % SECOND
  }

  datatype Phase =
    | Pending | Provisioning | Running | Idle | Hibernating | Hibernated | Resuming
    | Degraded | Failed | Terminating

  /** The reason of the PodUpToDate condition, if there is one. */
  datatype Mark = NoMark | PodCurrent | ReplacementPending | CertificateNotReady | Replacing | PodDisrupted

  datatype Status = Status(
    phase: Phase, preDegraded: Option<Phase>, lastActivity: Option<Time>, since: Option<Time>, mark: Mark)

  /** The Agent's effective timings; an idle timeout of zero turns the cycle off. */
  datatype Config = Config(idleTimeout: nat, hibernationDelay: nat, hibernates: bool)

  datatype Pod = NoPod | Going | Terminal | Live(ready: bool, drifted: bool, crashed: bool)

  /** What the gateway's replicas report together: nothing, or the newest record
      and whether some replica has watched long enough for silence to count. */
  datatype Gateway = Unreachable | Reachable(record: Option<Time>, qualified: bool)

  /** What a pass finds: a failed check before or after the Degraded ones, the
      Degraded checks, the Certificate, the Pod, a drift slot, the gateway. */
  datatype Input = Input(
    held: bool, violation: bool, blocked: bool, certReady: bool, pod: Pod, slot: bool, gateway: Gateway)

  // ---- status edits ----------------------------------------------------------

  function SetPhase(s: Status, phase: Phase, now: Time): Status {
    if s.phase == phase then s else s.(phase := phase, since := Some(now))
  }

  /** A woken Agent stays Resuming until its Pod is Ready. */
  function PendingPhase(s: Status): Phase {
    if s.phase == Resuming then Resuming else Provisioning
  }

  predicate Floors(m: Mark) {
    m == Replacing || m == PodDisrupted
  }

  /** An involuntary replacement is marked only once a Pod has been up to date or drifted. */
  function MarkDisrupted(s: Status): Status {
    if s.mark == NoMark || Floors(s.mark) then s else s.(mark := PodDisrupted)
  }

  // ---- the Pod step ------------------------------------------------------------

  predicate FloorsAtReady(s: Status, mark: Mark) {
    s.phase != Idle && s.phase != Running && (s.phase == Resuming || Floors(mark))
  }

  /** A live Pod; `mark` is the reason the pass read before changing it. */
  function ConvergeLive(s: Status, mark: Mark, pod: Pod, now: Time): Status
    requires pod.Live?
  {
    if pod.crashed then SetPhase(s, Failed, now)
    else if !pod.ready then SetPhase(s, PendingPhase(s), now)
    else
      var s1 := if FloorsAtReady(s, mark) then s.(lastActivity := Some(now)) else s;
      var s2 := if s.phase == Idle then s1 else SetPhase(s1, Running, now);
      if pod.drifted then s2 else s2.(mark := PodCurrent)
  }

  /** The Pod step after its own mid-pass write, if it makes one. */
  function Converge(s: Status, i: Input, now: Time): Status {
    match i.pod
    case NoPod => SetPhase(s, PendingPhase(s), now)
    case Going => SetPhase(MarkDisrupted(s), PendingPhase(s), now)
    case Terminal => SetPhase(MarkDisrupted(s), PendingPhase(s), now)
    case Live(ready, drifted, crashed) =>
      if drifted && i.certReady && (s.mark == Replacing || i.slot) then
        SetPhase(s.(mark := Replacing), PendingPhase(s), now)
      else
        var s1 :=
          if !drifted then s
          else if i.certReady then s.(mark := ReplacementPending)
          else if !Floors(s.mark) || ready then s.(mark := CertificateNotReady)
          else s;
        ConvergeLive(s1, s.mark, i.pod, now)
  }

  /** Creating a replacement Pod stores the disruption mark first. */
  predicate StoresMarkFirst(s: Status, i: Input) {
    i.pod.NoPod? && i.certReady && MarkDisrupted(s) != s
  }

  // ---- the activity step ------------------------------------------------------------

  function Later(a: Time, b: Option<Time>): Time {
    if b.Some? && b.value > a then b.value else a
  }

  function Activity(c: Config, s: Status, i: Input, now: Time): Status {
    if c.idleTimeout == 0 || s.phase !in {Running, Idle} || i.gateway.Unreachable? then s
    else if i.gateway.record.None? && (!i.gateway.qualified || s.since.None?) then s
    else
      var synthetic := i.gateway.record.None?;
      var last := if synthetic then s.since.value else i.gateway.record.value;
      if s.phase == Running then
        var marker := Later(last, s.lastActivity);
        if now - marker > c.idleTimeout then SetPhase(s, Idle, now).(lastActivity := Some(marker)) else s
      else if !synthetic && s.lastActivity.Some? && Trunc(last) > s.lastActivity.value then
        SetPhase(s, Running, now).(lastActivity := Some(last))
      else
        var start :=
          if s.lastActivity.Some? && (synthetic || s.lastActivity.value > last) then s.lastActivity.value else last;
        if c.hibernates && i.certReady && now - start > c.idleTimeout + c.hibernationDelay
        then SetPhase(s, Hibernating, now) else s
  }

  // ---- Degraded -----------------------------------------------------------------------

  function EnterOrStayDegraded(s: Status, now: Time): Status {
    if s.phase == Degraded then s else SetPhase(s.(preDegraded := Some(s.phase)), Degraded, now)
  }

  function LeaveDegraded(s: Status, now: Time): Status {
    SetPhase(s, if s.preDegraded.Some? then s.preDegraded.value else Pending, now).(preDegraded := None)
  }

  // ---- the machine -----------------------------------------------------------------------

  /** At rest, with a wake committed and its annotation still to clear, or with the
      disruption mark stored and the Pod's phase still to write. */
  datatype Pc = Rest | ClearWake | Creating

  datatype World = World(
    now: Time, status: Status, wake: bool, pc: Pc, deleted: bool, floored: Option<Time>, entered: Phase)

  datatype Act =
    | Tick(t: Time)
    | AskWake
    | Begin(i: Input)
    | Go
    | Stop
    | Delete

  const INIT: World := World(0, Status(Pending, None, None, None, NoMark), false, Rest, false, None, Pending)

  function Stored(s: Status): Status {
    s.(lastActivity := if s.lastActivity.Some? then Some(Trunc(s.lastActivity.value)) else None,
       since := if s.since.Some? then Some(Trunc(s.since.value)) else None)
  }

  function Write(w: World, s: Status, pc: Pc): World {
    w.(status := Stored(s), pc := pc)
  }

  /** Pod step and activity step, written together. */
  function ConvergePass(c: Config, w: World, i: Input): World {
    var s := w.status;
    var floors := i.pod.Live? && i.pod.ready && !i.pod.crashed && FloorsAtReady(s, s.mark)
                  && !(i.pod.drifted && i.certReady && (s.mark == Replacing || i.slot));
    Write(w, Activity(c, Converge(s, i, w.now), i, w.now), Rest).(floored := if floors then Some(w.now) else w.floored)
  }

  function BeginPass(c: Config, w: World, i: Input): World {
    var s := w.status;
    if w.deleted then Write(w, SetPhase(s.(preDegraded := None), Terminating, w.now), Rest)
    else if w.wake && s.phase == Hibernated then
      Write(w, SetPhase(s, Resuming, w.now).(lastActivity := Some(w.now)), ClearWake)
    else if w.wake && s.phase != Hibernating then w.(wake := false)
    else if i.held then w
    else if i.violation then
      Write(w, EnterOrStayDegraded(s, w.now), Rest).(entered := if s.phase == Degraded then w.entered else s.phase)
    else if s.phase == Degraded then Write(w, LeaveDegraded(s, w.now), Rest)
    else if s.phase == Hibernating then
      if i.pod.NoPod? then Write(w, SetPhase(s, Hibernated, w.now).(mark := NoMark), Rest) else w
    else if s.phase == Hibernated || i.blocked then w
    else if StoresMarkFirst(s, i) then Write(w, MarkDisrupted(s), Creating)
    else ConvergePass(c, w, i)
  }

  function Step(c: Config, w: World, a: Act): World {
    match a
    case Tick(t) => if t >= w.now then w.(now := t) else w
    case AskWake => w.(wake := true)
    case Begin(i) =>
      if w.pc.Rest? && (i.gateway.Reachable? && i.gateway.record.Some? ==> i.gateway.record.value <= w.now)
      then BeginPass(c, w, i) else w
    case Go =>
      (match w.pc
       case Rest => w
       case ClearWake => w.(wake := false, pc := Rest)
       case Creating => Write(w, SetPhase(w.status, PendingPhase(w.status), w.now), Rest))
    case Stop => w.(pc := Rest)
    case Delete => w.(deleted := true)
  }

  function Run(c: Config, acts: seq<Act>): World {
    if acts == [] then INIT else Step(c, Run(c, acts[..|acts| - 1]), acts[|acts| - 1])
  }
}

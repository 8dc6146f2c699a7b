/** The AgentTask reconciler (internal/controller/agenttask_controller.go) as a
    state machine over its API writes. A pass reads the AgentTask, its Pods and its
    mailbox, and then makes one write per step; the process may stop between
    any two. Clocks, class checks and API rejections are inputs. Pods, the
    gateway and the AgentTask's owner act in between. The gateway checks a
    completion and patches the mailbox later: a check on a cached AgentTask is one
    made when that copy was current, with a patch that took the longer. `born`
    and `writers` are history variables: the attempt each Pod was created in, and
    the Pods whose reports are in the mailbox. */
module TaskMachine {
  import opened Prelude

  type Uid = nat

  datatype Phase = Pending | Provisioning | Running | Completing | Succeeded | Failed | TimedOut | Terminating

  datatype Spec = Spec(backoffLimit: nat, agentReported: bool, declared: set<string>, timeoutSucceeds: bool)

  datatype PodPhase = Active | PodSucceeded | PodFailed
  datatype Pod = Pod(uid: Uid, deleting: bool, ready: bool, phase: PodPhase)

  /** The persisted status. A Failed phase that is not completed is a counted
      retry still to be finished. */
  datatype Status = Status(
    phase: Phase, retries: nat, podName: Option<Uid>, currentUid: Option<Uid>,
    started: bool, completed: bool, rejected: bool, report: string, artifacts: map<string, string>)

  /** Where the pass stands: at rest, with a Pod created and not yet recorded, with
      a recorded Pod to judge, in Completing with the Pod it read, in one of the
      three steps that finish a retry, or with an expired AgentTask to delete. */
  datatype Pc = Rest | Recording(uid: Uid) | Judging(pod: Pod) | Settling(seen: Option<Pod>)
              | Deleting | Resetting | Reopening | Expiring

  /** A completion the gateway has accepted and not yet written, with the retry
      count of the AgentTask it was checked against. */
  datatype Patch = Patch(from: Uid, data: map<string, string>, attempt: nat)

  datatype World = World(
    status: Status, pods: seq<Pod>, mailbox: map<string, string>, pc: Pc, deleted: bool,
    flight: multiset<Patch>, born: map<Uid, nat>, writers: set<Uid>)

  /** What a pass finds besides the objects: Certificate readiness, a class
      violation, another hold, rejected writes, elapsed deadlines, a container
      that can never start, and the UID a create returns. */
  datatype Input = Input(
    certReady: bool, violation: bool, held: bool, createRejected: bool, deadline: bool, late: bool,
    fatal: bool, expired: bool, deleteRejected: bool, resetRejected: bool, uid: Uid)

  datatype Act =
    | Begin(i: Input)
    | Go(j: Input)
    | Stop
    | Check(from: Uid, data: map<string, string>)
    | Land(patch: Patch)
    | PodChange(pod: Pod)
    | PodGone(gone: Uid)
    | MailboxLost
    | DeleteTask

  const INIT: World := World(Status(Pending, 0, None, None, false, false, false, "", map[]),
                             [], map[], Rest, false, multiset{}, map[], {})

  // ---- the mailbox ---------------------------------------------------------

  const STATUS_KEY := "status"
  const MESSAGE_KEY := "message"
  const SUCCESS := "success"
  const ARTIFACT_PREFIX := "artifact."

  datatype Payload = Payload(status: string, message: string, artifacts: map<string, string>)

  function ArtifactNames(data: map<string, string>): (names: set<string>)
    ensures forall n :: n in names <==> ARTIFACT_PREFIX + n in data
  {
    var names := set k | k in data && ARTIFACT_PREFIX <= k :: k[|ARTIFACT_PREFIX|..];
    assert forall n | ARTIFACT_PREFIX + n in data :: (ARTIFACT_PREFIX + n)[|ARTIFACT_PREFIX|..] == n;
    assert forall k: string | ARTIFACT_PREFIX <= k :: ARTIFACT_PREFIX + k[|ARTIFACT_PREFIX|..] == k;
    names
  }

  function ParseCompletion(data: map<string, string>): Payload {
    Payload(if STATUS_KEY in data then data[STATUS_KEY] else "",
            if MESSAGE_KEY in data then data[MESSAGE_KEY] else "",
            map n | n in ArtifactNames(data) :: data[ARTIFACT_PREFIX + n])
  }

  /** No undeclared artifact, and on success no missing one. */
  predicate ValidArtifacts(p: Payload, declared: set<string>) {
    p.artifacts.Keys <= declared && (p.status == SUCCESS ==> declared <= p.artifacts.Keys)
  }

  // ---- Pods ------------------------------------------------------------------

  /** A Pod that is not being deleted if there is one, else any. */
  function OwnedPod(pods: seq<Pod>): Option<Pod> {
    if pods == [] then None
    else if !pods[0].deleting then Some(pods[0])
    else
      var rest := OwnedPod(pods[1..]);
      if rest.Some? then rest else Some(pods[0])
  }

  function MarkDeleting(pods: seq<Pod>, uid: Uid): (r: seq<Pod>)
    ensures |r| == |pods|
    ensures forall i | 0 <= i < |pods| ::
              r[i] == if pods[i].uid == uid then pods[i].(deleting := true) else pods[i]
  {
    seq(|pods|, i requires 0 <= i < |pods| => if pods[i].uid == uid then pods[i].(deleting := true) else pods[i])
  }

  /** A Pod's state moves on its own; a deletion is never taken back. */
  function ChangePod(pods: seq<Pod>, p: Pod): (r: seq<Pod>)
    ensures |r| == |pods|
    ensures forall i | 0 <= i < |pods| ::
              r[i] == if pods[i].uid == p.uid then p.(deleting := p.deleting || pods[i].deleting) else pods[i]
  {
    seq(|pods|, i requires 0 <= i < |pods| =>
      if pods[i].uid == p.uid then p.(deleting := p.deleting || pods[i].deleting) else pods[i])
  }

  function DropPod(pods: seq<Pod>, uid: Uid): (r: seq<Pod>)
    ensures |r| <= |pods| && forall p | p in r :: p in pods
  {
    if pods == [] then []
    else if pods[0].uid == uid then DropPod(pods[1..], uid)
    else [pods[0]] + DropPod(pods[1..], uid)
  }

  // ---- status writes -----------------------------------------------------------

  function ToPhase(w: World, phase: Phase, pc: Pc): World {
    w.(status := w.status.(phase := phase), pc := pc)
  }

  function Settle(w: World, phase: Phase): World {
    w.(status := w.status.(phase := phase, completed := true, rejected := false), pc := Rest)
  }

  function FailOrRetry(spec: Spec, w: World): World {
    if w.status.retries < spec.backoffLimit then
      w.(status := w.status.(retries := w.status.retries + 1, currentUid := None, started := false,
                             artifacts := map[], report := "", rejected := false, phase := Failed),
         pc := Deleting)
    else Settle(w, Failed)
  }

  function TimedOutNow(w: World, i: Input): bool {
    i.late && w.status.started
  }

  function Record(spec: Spec, w: World, uid: Uid, pc: Pc): World {
    w.(status := w.status.(podName := Some(uid), rejected := false,
                           currentUid := if spec.agentReported then Some(uid) else w.status.currentUid),
       pc := pc)
  }

  // ---- the phases --------------------------------------------------------------

  function CreateRejected(spec: Spec, w: World, i: Input): World {
    var w1 := w.(status := w.status.(rejected := true, podName := None));
    if w.status.rejected && i.deadline then FailOrRetry(spec, w1) else ToPhase(w1, Provisioning, Rest)
  }

  /** A Pod that is recorded: Ready, terminal, hopeless, or still starting. */
  function Judge(spec: Spec, w: World, pod: Pod, i: Input): World {
    if pod.ready then ToPhase(w.(status := w.status.(started := true)), Running, Rest)
    else if pod.phase == Active then
      if i.fatal || i.deadline then FailOrRetry(spec, w) else w.(pc := Rest)
    else if !spec.agentReported && pod.phase == PodSucceeded then ToPhase(w, Completing, Settling(Some(pod)))
    else FailOrRetry(spec, w)
  }

  function DriveProvisioning(spec: Spec, w: World, i: Input): World {
    match OwnedPod(w.pods)
    case None =>
      if i.violation then Settle(w, Failed)
      else if i.createRejected then CreateRejected(spec, w, i)
      else if !i.certReady then ToPhase(w, Provisioning, Rest)
      else if i.uid in w.born then w
      else w.(pods := w.pods + [Pod(i.uid, false, false, Active)], born := w.born[i.uid := w.status.retries],
              pc := Recording(i.uid))
    case Some(pod) =>
      if pod.deleting then w
      else if w.status.podName != Some(pod.uid) || (spec.agentReported && w.status.currentUid != Some(pod.uid)) then
        Record(spec, w, pod.uid, Judging(pod))
      else Judge(spec, w, pod, i)
  }

  function DriveRunning(spec: Spec, w: World, i: Input): World {
    var pod := OwnedPod(w.pods);
    if spec.agentReported && ParseCompletion(w.mailbox).status != "" then ToPhase(w, Completing, Settling(pod))
    else if !spec.agentReported && pod.Some? && pod.value.phase != Active then ToPhase(w, Completing, Settling(pod))
    else if TimedOutNow(w, i) then ToPhase(w, Completing, Settling(pod))
    else if pod.None? || (spec.agentReported && pod.value.phase == PodFailed) then FailOrRetry(spec, w)
    else w
  }

  function SettleTimeout(spec: Spec, w: World): World {
    Settle(w, if spec.timeoutSucceeds then Succeeded else TimedOut)
  }

  /** The outcome, re-derived: mailbox first, then the container, then the clock. */
  function DriveCompleting(spec: Spec, w: World, pod: Option<Pod>, i: Input): World {
    if spec.agentReported then
      var p := ParseCompletion(w.mailbox);
      if p.status != "" then
        if !ValidArtifacts(p, spec.declared) then FailOrRetry(spec, w)
        else
          var w1 := w.(status := w.status.(artifacts := p.artifacts, report := p.status));
          if p.status == SUCCESS then Settle(w1, Succeeded) else FailOrRetry(spec, w1)
      else if TimedOutNow(w, i) then SettleTimeout(spec, w)
      else FailOrRetry(spec, w)
    else if pod.Some? && pod.value.phase == PodSucceeded then Settle(w, Succeeded)
    else if pod.Some? && pod.value.phase == PodFailed then FailOrRetry(spec, w)
    else if TimedOutNow(w, i) then SettleTimeout(spec, w)
    else FailOrRetry(spec, w)
  }

  // ---- finishing a retry ----------------------------------------------------------

  function DeleteOldPod(w: World, i: Input): World {
    match OwnedPod(w.pods)
    case Some(pod) =>
      if pod.deleting then w.(pc := Resetting)
      else if i.deleteRejected then w.(pc := Rest)
      else w.(pods := MarkDeleting(w.pods, pod.uid), pc := Resetting)
    case None => w.(pc := Resetting)
  }

  function ResetMailbox(spec: Spec, w: World, i: Input): World {
    if !spec.agentReported || w.mailbox == map[] then w.(pc := Reopening)
    else if i.resetRejected then w.(pc := Rest)
    else w.(mailbox := map[], writers := {}, pc := Reopening)
  }

  // ---- steps ------------------------------------------------------------------------

  predicate Retrying(s: Status) {
    s.phase == Failed && !s.completed
  }

  predicate Settled(s: Status) {
    s.phase in {Succeeded, Failed, TimedOut, Terminating} && !Retrying(s)
  }

  /** A pass from its first read to its first write. */
  function BeginPass(spec: Spec, w: World, i: Input): World {
    if w.deleted then
      var pod := OwnedPod(w.pods);
      if pod.Some? then w.(pods := MarkDeleting(w.pods, pod.value.uid)) else w
    else if Retrying(w.status) then w.(pc := Deleting)
    else if Settled(w.status) then
      if i.expired then ToPhase(w, Terminating, Expiring) else w
    else if i.held then w
    else match w.status.phase
      case Running => DriveRunning(spec, w, i)
      case Completing => DriveCompleting(spec, w, OwnedPod(w.pods), i)
      case _ => DriveProvisioning(spec, w, i)
  }

  /** The pass goes on after a write, with what it already read. */
  function GoOn(spec: Spec, w: World, i: Input): World {
    match w.pc
    case Rest => w
    case Recording(uid) => ToPhase(Record(spec, w, uid, Rest), Provisioning, Rest)
    case Judging(pod) => Judge(spec, w, pod, i)
    case Settling(pod) => DriveCompleting(spec, w, pod, i)
    case Deleting => DeleteOldPod(w, i)
    case Resetting => ResetMailbox(spec, w, i)
    case Reopening => ToPhase(w, Provisioning, Rest)
    case Expiring => w.(deleted := true, pc := Rest)
  }

  /** The gateway accepts a completion only from the current Pod, and none once the
      phase is terminal. Its patch later merges into what the mailbox then holds. */
  predicate GatewayAccepts(spec: Spec, w: World, from: Uid, data: map<string, string>) {
    spec.agentReported && w.status.currentUid == Some(from) && data != map[]
    && w.status.phase !in {Succeeded, Failed, TimedOut}
  }

  function Step(spec: Spec, w: World, a: Act): World {
    match a
    case Begin(i) => if w.pc.Rest? then BeginPass(spec, w, i) else w
    case Go(i) => GoOn(spec, w, i)
    case Stop => w.(pc := Rest)
    case Check(from, data) =>
      if GatewayAccepts(spec, w, from, data) then w.(flight := w.flight + multiset{Patch(from, data, w.status.retries)})
      else w
    case Land(p) =>
      if p in w.flight then
        w.(mailbox := w.mailbox + p.data, writers := w.writers + {p.from}, flight := w.flight - multiset{p})
      else w
    case PodChange(pod) => w.(pods := ChangePod(w.pods, pod))
    case PodGone(uid) => w.(pods := DropPod(w.pods, uid))
    case MailboxLost => w.(mailbox := map[], writers := {})
    case DeleteTask => w.(deleted := true)
  }

  function Run(spec: Spec, acts: seq<Act>): World {
    if acts == [] then INIT else Step(spec, Run(spec, acts[..|acts| - 1]), acts[|acts| - 1])
  }
}

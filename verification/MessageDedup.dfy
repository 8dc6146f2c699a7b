/** Redelivery across crashes (agentruntime/agent.go, messageHandler): the
    handler around the store, one delivery at a time, with the process free to
    stop between the handler, the remember, and the reply. `sent` holds the 200
    replies that left, `handled` the results handlers returned; both outlive
    the process. */
module MessageDedup {
  import opened Prelude
  import opened StoreState
  import opened StoreReplay
  import opened StoreLog
  import opened StoreCrash
  import opened StoreObject

  datatype Delivery =
    | Waiting
    | Handling(id: string)
    | Remembering(id: string, reply: Response)
    | Answering(id: string, reply: Response)

  datatype Node = Node(
    w: World, delivery: Delivery, sent: seq<(string, Response)>, handled: seq<(string, Response)>)

  datatype Move =
    | StoreMove(a: Act)
    | Deliver(id: string)
    | HandlerOk(reply: Response, compact: bool)
    | HandlerTorn(lost: Response, k: nat)
    | HandlerFails
    | RememberDone
    | Send
    | Refuse

  const START: Node := Node(INIT, Waiting, [], [])

  /** What else the store may do meanwhile: start, crash, compaction, and the
      handler's own key writes. Only deliveries remember and recall, and no older
      runtime runs in between. */
  predicate Unrelated(a: Act) {
    match a
    case Begin(rec, _) => !IsRemember(rec)
    case Tear(rec, _) => !IsRemember(rec)
    case Recall(_) => false
    case Downlevel(_) => false
    case _ => true
  }

  function OnStore(n: Node, w: World): Node {
    n.(w := w, delivery := if w.proc.Up? then n.delivery else Waiting)
  }

  function Step(c: Codec, n: Node, m: Move, size: nat): Node {
    var p := n.w.proc;
    match m
    case StoreMove(a) => if Unrelated(a) then OnStore(n, Next(c, n.w, a, size)) else n
    case Deliver(id) =>
      if !Idle(p) || !n.delivery.Waiting? then n
      else if id != "" && id in p.ram.cache.replies then
        n.(w := Next(c, n.w, Act.Recall(id), size), delivery := Answering(id, p.ram.cache.replies[id]))
      else n.(delivery := Handling(id))
    case HandlerOk(reply, compact) =>
      if !Idle(p) || !n.delivery.Handling? then n
      else
        var id := n.delivery.id;
        var n1 := n.(handled := n.handled + [(id, reply)]);
        if id == "" then n1.(delivery := Answering(id, reply))
        else n1.(w := Next(c, n.w, Begin(RememberRecord(id, reply), compact), size), delivery := Remembering(id, reply))
    case HandlerTorn(reply, k) =>
      if !Idle(p) || !n.delivery.Handling? || n.delivery.id == "" then n
      else
        var id := n.delivery.id;
        OnStore(n.(handled := n.handled + [(id, reply)]), Next(c, n.w, Tear(RememberRecord(id, reply), k), size))
    case HandlerFails => if n.delivery.Handling? then n.(delivery := Waiting) else n
    case RememberDone =>
      if n.delivery.Remembering? && Idle(p) then n.(delivery := Answering(n.delivery.id, n.delivery.reply)) else n
    case Send =>
      if n.delivery.Answering? then
        n.(delivery := Waiting, sent := n.sent + [(n.delivery.id, n.delivery.reply)])
      else n
    case Refuse => if n.delivery.Answering? then n.(delivery := Waiting) else n
  }

  function Run(c: Codec, moves: seq<Move>, size: nat): Node {
    if moves == [] then START else Step(c, Run(c, moves[..|moves| - 1], size), moves[|moves| - 1], size)
  }

  // ---- the invariant -----------------------------------------------------

  /** The recorded reply of an identified message is this one. */
  ghost predicate OnRecord(h: seq<LogRecord>, id: string, reply: Response) {
    id != "" ==> LastReply(h, id) == Some(reply)
  }

  /** No message id is answered by a handler and recorded twice. */
  predicate RemembersOnce(h: seq<LogRecord>) {
    forall i, j | 0 <= i < j < |h| && IsRemember(h[i]) && IsRemember(h[j]) :: h[i].id != h[j].id
  }

  ghost predicate FromHandlers(n: Node) {
    && (forall i | 0 <= i < |n.w.hist| && IsRemember(n.w.hist[i]) ::
          (n.w.hist[i].id, n.w.hist[i].reply.value) in n.handled)
    && (forall s | s in n.sent :: s in n.handled)
    && (n.delivery.Remembering? || n.delivery.Answering? ==> (n.delivery.id, n.delivery.reply) in n.handled)
  }

  ghost predicate Consistent(n: Node) {
    && (forall i | 0 <= i < |n.sent| :: OnRecord(n.w.hist, n.sent[i].0, n.sent[i].1))
    && RemembersOnce(n.w.hist)
    && match n.delivery
       case Waiting => true
       case Handling(id) => n.w.proc.Up? && (id != "" ==> id !in n.w.proc.ram.cache.replies)
       case Remembering(id, reply) => n.w.proc.Up? && OnRecord(n.w.hist, id, reply)
       case Answering(id, reply) => n.w.proc.Up? && OnRecord(n.w.hist, id, reply)
  }

  // ---- facts about the store's history ---------------------------------------

  lemma LastReplySnoc(h: seq<LogRecord>, rec: LogRecord, id: string)
    ensures LastReply(h + [rec], id) == if IsRemember(rec) && rec.id == id then rec.reply else LastReply(h, id)
  {
    assert (h + [rec])[..|h|] == h;
  }

  lemma NextHist(c: Codec, w: World, a: Act, size: nat)
    requires !a.Downlevel?
    ensures var h' := Next(c, w, a, size).hist;
            || h' == w.hist
            || (a.Begin? && h' == w.hist + [a.rec])
            || (a.Tear? && h' == w.hist + [a.torn])
  {}

  lemma UnrelatedKeepsReplies(c: Codec, w: World, a: Act, size: nat)
    requires Unrelated(a) && w.proc.Up? && Next(c, w, a, size).proc.Up?
    ensures Next(c, w, a, size).proc.ram.cache == w.proc.ram.cache
  {}

  lemma {:induction false} RememberedIffReply(h: seq<LogRecord>, id: string)
    ensures id in RememberedIds(h) <==> LastReply(h, id).Some?
  {
    if h != [] {
      var front, rec := h[..|h| - 1], h[|h| - 1];
      assert h == front + [rec];
      RememberedIdsSnoc(front, rec);
      RememberedIffReply(front, id);
    }
  }

  lemma OnceSnoc(h: seq<LogRecord>, rec: LogRecord)
    requires RemembersOnce(h) && (IsRemember(rec) ==> rec.id !in RememberedIds(h))
    ensures RemembersOnce(h + [rec])
  {
    var h' := h + [rec];
    forall i, j | 0 <= i < j < |h'| && IsRemember(h'[i]) && IsRemember(h'[j]) ensures h'[i].id != h'[j].id {
      if j == |h| { assert h[i].id in RememberedIds(h); }
    }
  }

  /** A further record for no id on record keeps every reply on record. */
  lemma RecordKeepsReplies(h: seq<LogRecord>, rec: LogRecord)
    requires IsRemember(rec) ==> rec.id !in RememberedIds(h)
    ensures forall id, reply | OnRecord(h, id, reply) :: OnRecord(h + [rec], id, reply)
  {
    forall id, reply | OnRecord(h, id, reply) ensures OnRecord(h + [rec], id, reply) {
      LastReplySnoc(h, rec, id);
      RememberedIffReply(h, id);
    }
  }

  // ---- preservation ------------------------------------------------------------

  lemma StoreMoveKeeps(c: Codec, n: Node, a: Act, size: nat)
    requires Unrelated(a) && Consistent(n)
    ensures Consistent(Step(c, n, StoreMove(a), size))
  {
    hide Next, LastReply, RememberedIds, RemembersOnce;
    var w' := Next(c, n.w, a, size);
    NextHist(c, n.w, a, size);
    if w'.hist != n.w.hist {
      var rec := if a.Begin? then a.rec else a.torn;
      RecordKeepsReplies(n.w.hist, rec);
      OnceSnoc(n.w.hist, rec);
    }
    if n.w.proc.Up? && w'.proc.Up? { UnrelatedKeepsReplies(c, n.w, a, size); }
  }

  /** The node after a handler's result is on record, or was lost in a crash. */
  lemma RecordResult(n: Node, reply: Response, w': World)
    requires Consistent(n) && n.delivery.Handling? && n.delivery.id != ""
    requires n.delivery.id !in RememberedIds(n.w.hist)
    requires w'.hist == n.w.hist || w'.hist == n.w.hist + [RememberRecord(n.delivery.id, reply)]
    ensures var id := n.delivery.id;
            Consistent(n.(handled := n.handled + [(id, reply)], w := w', delivery := Waiting))
  {
    hide LastReply, RememberedIds, RemembersOnce;
    var rec := RememberRecord(n.delivery.id, reply);
    RecordKeepsReplies(n.w.hist, rec);
    OnceSnoc(n.w.hist, rec);
  }

  lemma UnknownIsUnrecorded(c: Codec, n: Node, size: nat)
    requires Inv(c, n.w, size) && |RememberedIds(n.w.hist)| <= size && Consistent(n)
    requires n.delivery.Handling? && n.delivery.id != ""
    ensures n.delivery.id !in RememberedIds(n.w.hist)
  {
    hide RememberedIds, Parse, LastReply;
  }

  lemma BeginEffect(c: Codec, w: World, id: string, reply: Response, compact: bool, size: nat)
    requires Idle(w.proc) && id != ""
    ensures var w' := Next(c, w, Begin(RememberRecord(id, reply), compact), size);
            w'.hist == w.hist + [RememberRecord(id, reply)] && w'.proc.Up?
  {}

  lemma TearEffect(c: Codec, w: World, rec: LogRecord, k: nat, size: nat)
    ensures var w' := Next(c, w, Tear(rec, k), size);
            w' == w || w'.proc.Down?
  {}

  lemma HandlerOkKeeps(c: Codec, n: Node, reply: Response, compact: bool, size: nat)
    requires Inv(c, n.w, size) && |RememberedIds(n.w.hist)| <= size
    requires Consistent(n)
    ensures Consistent(Step(c, n, HandlerOk(reply, compact), size))
  {
    hide Next, LastReply, RememberedIds, RemembersOnce, Inv, IsRemember, Loggable;
    if Idle(n.w.proc) && n.delivery.Handling? && n.delivery.id != "" {
      UnknownIsUnrecorded(c, n, size);
      var rec := RememberRecord(n.delivery.id, reply);
      BeginEffect(c, n.w, rec.id, reply, compact, size);
      LastReplySnoc(n.w.hist, rec, rec.id);
      RememberIsRemember(rec.id, reply);
      RecordResult(n, reply, Next(c, n.w, Begin(rec, compact), size));
    }
  }

  lemma RememberIsRemember(id: string, reply: Response)
    requires id != ""
    ensures IsRemember(RememberRecord(id, reply))
  {}

  lemma HandlerTornKeeps(c: Codec, n: Node, reply: Response, k: nat, size: nat)
    requires Inv(c, n.w, size) && |RememberedIds(n.w.hist)| <= size
    requires Consistent(n)
    ensures Consistent(Step(c, n, HandlerTorn(reply, k), size))
  {
    hide Next, LastReply, RememberedIds, RemembersOnce, Inv, IsRemember, Loggable;
    if Idle(n.w.proc) && n.delivery.Handling? && n.delivery.id != "" {
      UnknownIsUnrecorded(c, n, size);
      var rec := RememberRecord(n.delivery.id, reply);
      TearEffect(c, n.w, rec, k, size);
      NextHist(c, n.w, Tear(rec, k), size);
      RecordResult(n, reply, Next(c, n.w, Tear(rec, k), size));
    }
  }

  lemma DeliverKeeps(c: Codec, n: Node, id: string, size: nat)
    requires Inv(c, n.w, size) && Consistent(n)
    ensures Consistent(Step(c, n, Deliver(id), size))
  {
    hide LastReply, RememberedIds, RemembersOnce, Parse, DiskInv;
  }

  lemma {:induction false} LastReplySource(h: seq<LogRecord>, id: string) returns (i: nat)
    requires LastReply(h, id).Some?
    ensures i < |h| && IsRemember(h[i]) && h[i].id == id && h[i].reply == LastReply(h, id)
  {
    var rec := h[|h| - 1];
    if IsRemember(rec) && rec.id == id { i := |h| - 1; } else { i := LastReplySource(h[..|h| - 1], id); }
  }

  lemma StepKeeps(c: Codec, n: Node, m: Move, size: nat)
    requires Lawful(c) && Inv(c, n.w, size) && |RememberedIds(n.w.hist)| <= size && Consistent(n)
    ensures Consistent(Step(c, n, m, size))
  {
    hide Next, LastReply, RememberedIds, RemembersOnce, Inv;
    match m
    case StoreMove(a) => if Unrelated(a) { StoreMoveKeeps(c, n, a, size); }
    case Deliver(id) => DeliverKeeps(c, n, id, size);
    case HandlerOk(reply, compact) => HandlerOkKeeps(c, n, reply, compact, size);
    case HandlerTorn(reply, k) => HandlerTornKeeps(c, n, reply, k, size);
    case HandlerFails =>
    case RememberDone =>
    case Send =>
    case Refuse =>
  }

  lemma StepStore(c: Codec, n: Node, m: Move, size: nat)
    requires Lawful(c) && Inv(c, n.w, size)
    ensures Inv(c, Step(c, n, m, size).w, size)
    ensures n.w.hist <= Step(c, n, m, size).w.hist
  {
    hide Next, Inv;
    match m
    case StoreMove(a) => if Unrelated(a) { NextKeeps(c, n.w, a, size); NextHist(c, n.w, a, size); }
    case Deliver(id) => NextKeeps(c, n.w, Act.Recall(id), size); NextHist(c, n.w, Act.Recall(id), size);
    case HandlerOk(reply, compact) =>
      if n.delivery.Handling? {
        NextKeeps(c, n.w, Begin(RememberRecord(n.delivery.id, reply), compact), size);
        NextHist(c, n.w, Begin(RememberRecord(n.delivery.id, reply), compact), size);
      }
    case HandlerTorn(reply, k) =>
      if n.delivery.Handling? {
        NextKeeps(c, n.w, Tear(RememberRecord(n.delivery.id, reply), k), size);
        NextHist(c, n.w, Tear(RememberRecord(n.delivery.id, reply), k), size);
      }
    case _ =>
  }

  lemma {:induction false} RunStore(c: Codec, moves: seq<Move>, size: nat)
    requires Lawful(c)
    ensures Inv(c, Run(c, moves, size).w, size)
  {
    if moves == [] {
      ExecKeeps(c, [], size);
    } else {
      RunStore(c, moves[..|moves| - 1], size);
      StepStore(c, Run(c, moves[..|moves| - 1], size), moves[|moves| - 1], size);
    }
  }

  lemma OneMoreStep(c: Codec, front: seq<Move>, m: Move, size: nat)
    ensures Run(c, front + [m], size) == Step(c, Run(c, front, size), m, size)
  {
    assert (front + [m])[..|front|] == front;
  }

  lemma {:induction false} RunKeeps(c: Codec, moves: seq<Move>, size: nat)
    requires Lawful(c) && |RememberedIds(Run(c, moves, size).w.hist)| <= size
    ensures Consistent(Run(c, moves, size))
  {
    if moves != [] {
      hide *;
      var front, m := moves[..|moves| - 1], moves[|moves| - 1];
      assert moves == front + [m];
      OneMoreStep(c, front, m, size);
      var n, n' := Run(c, front, size), Run(c, moves, size);
      RunStore(c, front, size);
      StepStore(c, n, m, size);
      HoldsSubset(n'.w.hist, |n.w.hist|);
      assert n'.w.hist[..|n.w.hist|] == n.w.hist;
      RunKeeps(c, front, size);
      StepKeeps(c, n, m, size);
    }
  }

  // ---- where replies come from --------------------------------------------------

  lemma HeldIsHandled(c: Codec, n: Node, id: string, size: nat)
    requires Lawful(c) && Inv(c, n.w, size) && FromHandlers(n)
    ensures n.w.proc.Up? && id in n.w.proc.ram.cache.replies ==> (id, n.w.proc.ram.cache.replies[id]) in n.handled
    ensures var cache := Recovered(c, n.w.disk, size).cache;
            id in cache.replies ==> (id, cache.replies[id]) in n.handled
  {
    hide LastReply, Parse, DiskInv, Recovered, Lawful;
    RecoveredHolds(c, n.w, size);
    if LastReply(n.w.hist, id).Some? { var i := LastReplySource(n.w.hist, id); }
  }

  lemma StepFromHandlers(c: Codec, n: Node, m: Move, size: nat)
    requires Lawful(c) && Inv(c, n.w, size) && FromHandlers(n)
    ensures FromHandlers(Step(c, n, m, size))
  {
    hide Next, Inv, Loggable, Lawful;
    match m
    case StoreMove(a) => if Unrelated(a) { NextHist(c, n.w, a, size); }
    case Deliver(id) =>
      NextHist(c, n.w, Act.Recall(id), size);
      HeldIsHandled(c, n, id, size);
    case HandlerOk(reply, compact) =>
      if n.delivery.Handling? { NextHist(c, n.w, Begin(RememberRecord(n.delivery.id, reply), compact), size); }
    case HandlerTorn(reply, k) =>
      if n.delivery.Handling? { NextHist(c, n.w, Tear(RememberRecord(n.delivery.id, reply), k), size); }
    case _ =>
  }

  lemma {:induction false} RunFromHandlers(c: Codec, moves: seq<Move>, size: nat)
    requires Lawful(c)
    ensures FromHandlers(Run(c, moves, size))
  {
    if moves != [] {
      hide Step, Inv, FromHandlers;
      var front := moves[..|moves| - 1];
      RunStore(c, front, size);
      RunFromHandlers(c, front, size);
      StepFromHandlers(c, Run(c, front, size), moves[|moves| - 1], size);
    }
  }

  // ---- the guarantee ---------------------------------------------------------------

  /** While no more ids were ever recorded than the window holds, all 200 replies
      ever sent for one message id are the same, however often the process
      crashed, and every one of them is a result a handler returned. */
  lemma OneAnswerPerMessage(c: Codec, moves: seq<Move>, size: nat, i: nat, j: nat)
    requires Lawful(c) && |RememberedIds(Run(c, moves, size).w.hist)| <= size
    requires i < |Run(c, moves, size).sent| && j < |Run(c, moves, size).sent|
    ensures var sent := Run(c, moves, size).sent;
            && (sent[i].0 != "" && sent[i].0 == sent[j].0 ==> sent[i].1 == sent[j].1)
            && sent[i] in Run(c, moves, size).handled
    ensures RemembersOnce(Run(c, moves, size).w.hist)
  {
    RunKeeps(c, moves, size);
    RunFromHandlers(c, moves, size);
    var n := Run(c, moves, size);
    assert OnRecord(n.w.hist, n.sent[i].0, n.sent[i].1) && OnRecord(n.w.hist, n.sent[j].0, n.sent[j].1);
  }

  /** Only results handlers returned are ever held, in memory or on the volume, however
      many ids were recorded and evicted: an error leaves no record. */
  lemma ErrorsAreNeverCached(c: Codec, moves: seq<Move>, size: nat, id: string)
    requires Lawful(c)
    ensures var n := Run(c, moves, size);
            var cache := Recovered(c, n.w.disk, size).cache;
            && (id in cache.replies ==> (id, cache.replies[id]) in n.handled)
            && (n.w.proc.Up? && id in n.w.proc.ram.cache.replies ==>
                  (id, n.w.proc.ram.cache.replies[id]) in n.handled)
  {
    hide Inv, FromHandlers, Recovered, Run;
    RunStore(c, moves, size);
    RunFromHandlers(c, moves, size);
    HeldIsHandled(c, Run(c, moves, size), id, size);
  }

  // ---- one delivery against the store object -----------------------------------------

  /** The message handler from the dedup check on, with the handler's result given:
      None stands for an error. A reply that JSON cannot encode is answered with an
      error too, and never recorded. */
  method HandleMessage(store: Store, encodes: Response -> bool, id: string, result: Option<Response>, now: nat)
    returns (status: nat, body: Option<Response>)
    requires store.Valid() && store.disk.snapTime <= now
    modifies store
    ensures store.Valid() && store.kv == old(store.kv)
    ensures var known := id != "" && id in old(store.replies);
            var reply := if known then Some(old(store.replies)[id]) else result;
            && body == (if reply.Some? && encodes(reply.value) then reply else None)
            && status == (if body.Some? then 200 else 500)
            && store.Ram().cache ==
               (if known then Touch(old(store.Ram().cache), id)
                else if id != "" && body.Some? then Remember(old(store.Ram().cache), id, body.value, SIZE)
                else old(store.Ram().cache))
  {
    if id != "" {
      var cached := store.Recall(id);
      if cached.Some? {
        if !encodes(cached.value) { return 500, None; }
        return 200, cached;
      }
    }
    if result.None? || !encodes(result.value) { return 500, None; }
    if id != "" { store.RememberId(id, result.value, now); }
    return 200, result;
  }
}

/** The RAM state of the agent runtime's store (agentruntime/store.go): a
    key-value map and a bounded cache of delivered replies, and what one log
    record does to each. Raw JSON values and replies are opaque strings. */
module StoreState {
  import opened Prelude

  type RawValue = string
  type Response = string

  /** The redelivery window of the runtime contract. */
  const DEDUP_BUFFER_SIZE: nat := 1024

  /** One line of state.log, with every field the decoder may find or miss. */
  datatype LogRecord = LogRecord(
    op: string, id: string, reply: Option<Response>, key: string, value: Option<RawValue>)

  function RememberRecord(id: string, reply: Response): LogRecord {
    LogRecord("remember", id, Some(reply), "", None)
  }

  function SetRecord(key: string, value: RawValue): LogRecord {
    LogRecord("set", "", None, key, Some(value))
  }

  function DeleteRecord(key: string): LogRecord {
    LogRecord("delete", "", None, key, None)
  }

  /** The records a replay accepts; any other line stops it. */
  predicate Applicable(rec: LogRecord) {
    || IsRemember(rec)
    || ((rec.op == "set" || rec.op == "delete") && rec.key != "")
  }

  predicate IsRemember(rec: LogRecord) {
    rec.op == "remember" && rec.id != "" && rec.reply.Some?
  }

  /** Replies by message id, and the ids least recently delivered first. */
  datatype Cache = Cache(replies: map<string, Response>, order: seq<string>)

  datatype State = State(kv: map<string, RawValue>, cache: Cache)

  const EMPTY: State := State(map[], Cache(map[], []))

  // ---- one record ------------------------------------------------------

  /** What a record does to one key: nothing, or leave it with a value or without. */
  function KvEffect(rec: LogRecord, key: string): Option<Option<RawValue>> {
    if rec.key != key || rec.key == "" then None
    else if rec.op == "set" then Some(Some(if rec.value.Some? then rec.value.value else "null"))
    else if rec.op == "delete" then Some(None)
    else None
  }

  function ApplyKv(rec: LogRecord, kv: map<string, RawValue>): map<string, RawValue> {
    match KvEffect(rec, rec.key)
    case None => kv
    case Some(None) => kv - {rec.key}
    case Some(Some(v)) => kv[rec.key := v]
  }

  function Evict(c: Cache, size: nat): Cache
    decreases |c.order|
  {
    if |c.order| <= size then c
    else Evict(Cache(c.replies - {c.order[0]}, c.order[1..]), size)
  }

  /** A known id gets its reply replaced and keeps its place in the order. */
  function Remember(c: Cache, id: string, reply: Response, size: nat): Cache {
    Evict(Cache(c.replies[id := reply], if id in c.replies then c.order else c.order + [id]), size)
  }

  function ApplyCache(rec: LogRecord, c: Cache, size: nat): Cache {
    if IsRemember(rec) then Remember(c, rec.id, rec.reply.value, size) else c
  }

  function Apply(rec: LogRecord, s: State, size: nat): State {
    State(ApplyKv(rec, s.kv), ApplyCache(rec, s.cache, size))
  }

  /** Moves a known id to the most recent end. */
  function Touch(c: Cache, id: string): Cache {
    c.(order := TouchOrder(c.order, id))
  }

  function TouchOrder(order: seq<string>, id: string): seq<string> {
    if order == [] then []
    else if order[0] == id then order[1..] + [id]
    else [order[0]] + TouchOrder(order[1..], id)
  }

  // ---- replay ----------------------------------------------------------

  function ReplayKv(recs: seq<LogRecord>, kv: map<string, RawValue>): map<string, RawValue> {
    if recs == [] then kv
    else ApplyKv(recs[|recs| - 1], ReplayKv(recs[..|recs| - 1], kv))
  }

  function ReplayCache(recs: seq<LogRecord>, c: Cache, size: nat): Cache {
    if recs == [] then c
    else ApplyCache(recs[|recs| - 1], ReplayCache(recs[..|recs| - 1], c, size), size)
  }

  function Replay(recs: seq<LogRecord>, s: State, size: nat): State {
    State(ReplayKv(recs, s.kv), ReplayCache(recs, s.cache, size))
  }

  // ---- the cache invariant --------------------------------------------

  /** The order lists exactly the cached ids, once each, within the window. */
  predicate WfCache(c: Cache, size: nat) {
    NoDup(c.order) && Elems(c.order) == c.replies.Keys && |c.order| <= size
  }

  lemma EvictOne(c: Cache, size: nat)
    requires |c.order| <= size + 1
    ensures Evict(c, size) ==
            if |c.order| <= size then c else Cache(c.replies - {c.order[0]}, c.order[1..])
  {}

  lemma RememberKeepsWf(c: Cache, id: string, reply: Response, size: nat)
    requires WfCache(c, size)
    ensures WfCache(Remember(c, id, reply, size), size)
  {
    hide NoDup, Elems, Evict;
    var c1 := Cache(c.replies[id := reply], if id in c.replies then c.order else c.order + [id]);
    NoDupSnoc(c.order, id);
    EvictOne(c1, size);
    if |c1.order| > size { NoDupRest(c1.order); }
  }

  lemma {:induction false} ReplayKeepsWf(recs: seq<LogRecord>, c: Cache, size: nat)
    requires WfCache(c, size)
    ensures WfCache(ReplayCache(recs, c, size), size)
  {
    if recs != [] {
      var rec := recs[|recs| - 1];
      var before := ReplayCache(recs[..|recs| - 1], c, size);
      ReplayKeepsWf(recs[..|recs| - 1], c, size);
      if IsRemember(rec) { RememberKeepsWf(before, rec.id, rec.reply.value, size); }
    }
  }

  /** Touching is a permutation that ends with the touched id and keeps the
      relative order of all others. */
  lemma {:induction false} TouchOrderShape(order: seq<string>, id: string)
    requires NoDup(order) && id in order
    ensures exists i :: 0 <= i < |order| && order[i] == id
                        && TouchOrder(order, id) == order[..i] + order[i + 1..] + [id]
    ensures NoDup(TouchOrder(order, id)) && Elems(TouchOrder(order, id)) == Elems(order)
  {
    var i :| 0 <= i < |order| && order[i] == id;
    TouchOrderAt(order, id, i);
    var t := order[..i] + order[i + 1..] + [id];
    forall x ensures x in t <==> x in order {
      if x in order { var k :| 0 <= k < |order| && order[k] == x;
        assert k < i ==> t[k] == x;
        assert k > i ==> t[k - 1] == x;
        assert t[|t| - 1] == id; }
    }
  }

  lemma {:induction false} TouchOrderAt(order: seq<string>, id: string, i: nat)
    requires i < |order| && order[i] == id && id !in order[..i]
    ensures TouchOrder(order, id) == order[..i] + order[i + 1..] + [id]
  {
    if i > 0 {
      assert order[0] in order[..i];
      TouchOrderAt(order[1..], id, i - 1);
      assert order[1..][..i - 1] == order[1..i];
    }
  }

  lemma TouchKeepsWf(c: Cache, id: string, size: nat)
    requires WfCache(c, size)
    requires id in c.replies
    ensures WfCache(Touch(c, id), size) && Touch(c, id).replies == c.replies
  {
    TouchOrderShape(c.order, id);
  }
}

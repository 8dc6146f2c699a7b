/** The `store` object of agentruntime/store.go, updated in place. Its methods
    keep one promise: what a restart would recover from the volume is what the
    object holds in RAM. I/O succeeds; crashes between the writes of one call
    are the subject of StoreCrash. */
module StoreObject {
  import opened Prelude
  import opened StoreState
  import opened StoreLog
  import opened StoreCrash

  const COMPACT_LOG_MULTIPLE: nat := 4
  const COMPACT_LOG_MIN_BYTES: nat := 0x10_0000
  const SIZE: nat := DEDUP_BUFFER_SIZE

  /** The order lists each cached id once; a hand-edited file may exceed the window. */
  predicate Consistent(c: Cache) {
    NoDup(c.order) && Elems(c.order) == c.replies.Keys
  }

  lemma {:induction false} EvictKeepsConsistent(c: Cache, size: nat)
    requires Consistent(c)
    ensures Consistent(Evict(c, size)) && |Evict(c, size).order| <= size
    decreases |c.order|
  {
    if |c.order| > size {
      NoDupRest(c.order);
      EvictKeepsConsistent(Cache(c.replies - {c.order[0]}, c.order[1..]), size);
    }
  }

  /** The window is kept, and nothing is evicted while there is room. */
  lemma RememberFits(c: Cache, id: string, reply: Response, size: nat)
    requires Consistent(c)
    ensures |Remember(c, id, reply, size).order| <= size
    ensures |c.order| < size ==>
              Remember(c, id, reply, size).order == if id in c.replies then c.order else c.order + [id]
  {
    EvictKeepsConsistent(Cache(c.replies[id := reply], if id in c.replies then c.order else c.order + [id]), size);
  }

  lemma RememberIsConsistent(c: Cache, id: string, reply: Response, size: nat)
    requires Consistent(Evict(Cache(c.replies[id := reply], if id in c.replies then c.order else c.order + [id]), size))
    ensures Consistent(Remember(c, id, reply, size))
  {}

  lemma ReplaySnoc(recs: seq<LogRecord>, rec: LogRecord, s: State, size: nat)
    ensures Replay(recs + [rec], s, size) == Apply(rec, Replay(recs, s, size), size)
  {
    assert (recs + [rec])[..|recs|] == recs;
  }

  /** What the volume recovers to gains the record's effect. */
  lemma AppendRecovers(c: Codec, d: Disk, rec: LogRecord, now: nat, size: nat)
    requires Lawful(c) && Loggable(rec) && Clean(c, d.log) && !Discards(d) && d.snapTime <= now
    ensures var log := d.log + AppendBytes(c, rec, Parse(c, d.log).dangling);
            var d' := d.(log := log, logTime := now);
            && log != [] && Clean(c, log) && !Parse(c, log).dangling && !Discards(d')
            && Recovered(c, d', size) == Apply(rec, Recovered(c, d, size), size)
  {
    hide Parse, ReplayKv, ReplayCache, Apply;
    AppendAddsRecord(c, d.log, rec);
    EmptyLog(c);
    ReplayNothing(Load(d), size);
    ReplaySnoc(Parse(c, d.log).recs, rec, Load(d), size);
  }

  /** The listed ids that have a reply, in order. */
  function Known(from: seq<string>, known: set<string>): seq<string> {
    if from == [] then []
    else
      var front, id := Known(from[..|from| - 1], known), from[|from| - 1];
      if id in known then front + [id] else front
  }

  lemma {:induction false} KnownShape(from: seq<string>, known: set<string>)
    ensures Elems(Known(from, known)) == Elems(from) * known
    ensures NoDup(from) ==> NoDup(Known(from, known))
    ensures Elems(from) <= known ==> Known(from, known) == from
  {
    if from != [] {
      var front, id := from[..|from| - 1], from[|from| - 1];
      assert from == front + [id];
      KnownShape(front, known);
      NoDupSnoc(front, id);
      NoDupSnoc(Known(front, known), id);
    }
  }

  method KeepKnown(from: seq<string>, known: set<string>) returns (order: seq<string>)
    ensures order == Known(from, known)
    ensures Elems(order) == Elems(from) * known && (NoDup(from) ==> NoDup(order))
    ensures Elems(from) <= known ==> order == from
  {
    order := [];
    for n := 0 to |from|
      invariant order == Known(from[..n], known)
    {
      assert from[..n + 1][..n] == from[..n];
      if from[n] in known { order := order + [from[n]]; }
    }
    assert from[..|from|] == from;
    KnownShape(from, known);
  }

  /** Appends the ids that have a reply and no place yet, in any order. */
  method AddMissing(from: seq<string>, known: set<string>) returns (order: seq<string>)
    ensures Elems(order) == Elems(from) + known && from <= order && (NoDup(from) ==> NoDup(order))
  {
    hide NoDup, Elems;
    order := from;
    var missing := known - Elems(order);
    while missing != {}
      invariant (NoDup(from) ==> NoDup(order)) && missing !! Elems(order)
      invariant Elems(order) + missing == Elems(from) + known && from <= order
      decreases missing
    {
      var id :| id in missing;
      NoDupSnoc(order, id);
      missing := missing - {id};
      order := order + [id];
    }
  }

  method Reconciled(from: seq<string>, known: set<string>) returns (order: seq<string>)
    ensures Known(from, known) <= order
    ensures NoDup(from) ==> NoDup(order) && Elems(order) == known
    ensures NoDup(from) && Elems(from) == known ==> order == from
  {
    hide NoDup, Elems, Known;
    order := KeepKnown(from, known);
    OrderCovers(order, known);
    if |order| < |known| {
      order := AddMissing(order, known);
    }
  }

  lemma EmptyOrder(replies: map<string, Response>)
    ensures Known([], replies.Keys) == [] && NoDup<string>([]) && Elems<string>([]) == {}
  {}

  class Store {
    const codec: Codec
    const snapshotLen: State -> nat
    /** False when there is no usable volume; the store is then RAM only. */
    const persistent: bool

    var kv: map<string, RawValue>
    var replies: map<string, Response>
    var order: seq<string>

    var disk: Disk
    var logBytes: nat
    var dangling: bool
    var snapshotBytes: nat

    function Ram(): State
      reads this
    {
      State(kv, Cache(replies, order))
    }

    ghost predicate InStep()
      reads this
    {
      && Clean(codec, disk.log)
      && dangling == Parse(codec, disk.log).dangling
      && logBytes == |disk.log|
      && !Discards(disk)
    }

    /** Every write that returned survives a restart. */
    ghost predicate Durable()
      reads this
    {
      Recovered(codec, disk, SIZE).kv == kv
    }

    ghost predicate Valid()
      reads this
    {
      Lawful(codec) && Consistent(Ram().cache) && (persistent ==> InStep() && Durable())
    }

    // ---- RAM -------------------------------------------------------------

    method RememberLocked(id: string, reply: Response, size: nat)
      modifies `replies, `order
      ensures Ram().cache == Remember(old(Ram().cache), id, reply, size)
    {
      if id !in replies {
        order := order + [id];
      }
      replies := replies[id := reply];
      while |order| > size
        invariant Evict(Cache(replies, order), size) == Remember(old(Ram().cache), id, reply, size)
        decreases |order|
      {
        var oldest := order[0];
        order := order[1..];
        replies := replies - {oldest};
      }
    }

    method TouchLocked(id: string)
      modifies `order
      ensures order == TouchOrder(old(order), id) || (id !in old(order) && order == old(order))
    {
      var i := 0;
      while i < |order|
        invariant 0 <= i <= |order| && order == old(order) && id !in order[..i]
      {
        if order[i] == id {
          TouchOrderAt(order, id, i);
          order := order[..i] + order[i + 1..] + [id];
          return;
        }
        i := i + 1;
      }
    }

    /** A hit also makes the id the most recently delivered; nothing is logged. */
    method Recall(id: string) returns (reply: Option<Response>)
      requires Valid()
      modifies `order
      ensures Valid()
      ensures reply == Get(old(replies), id)
      ensures Ram() == if reply.Some? then old(Ram()).(cache := Touch(old(Ram().cache), id)) else old(Ram())
    {
      reply := Get(replies, id);
      if reply.Some? {
        TouchOrderShape(order, id);
        TouchLocked(id);
      }
    }

    method ApplyLocked(rec: LogRecord) returns (ok: bool)
      modifies `kv, `replies, `order
      ensures ok == if rec.op == "remember" then rec.id != "" && rec.reply.Some?
                    else (rec.op == "set" || rec.op == "delete") && rec.key != ""
      ensures ok && rec.op == "set" ==>
                Ram() == old(Ram()).(kv := old(kv)[rec.key := if rec.value.Some? then rec.value.value else "null"])
      ensures ok && rec.op == "delete" ==> Ram() == old(Ram()).(kv := old(kv) - {rec.key})
      ensures ok && rec.op == "remember" ==>
                Ram() == old(Ram()).(cache := Remember(old(Ram().cache), rec.id, rec.reply.value, SIZE))
      ensures ok == Applicable(rec)
      ensures Ram() == if ok then Apply(rec, old(Ram()), SIZE) else old(Ram())
    {
      if rec.op == "remember" {
        if rec.id == "" || rec.reply.None? { return false; }
        RememberLocked(rec.id, rec.reply.value, SIZE);
      } else if rec.op == "set" {
        if rec.key == "" { return false; }
        kv := kv[rec.key := if rec.value.Some? then rec.value.value else "null"];
      } else if rec.op == "delete" {
        if rec.key == "" { return false; }
        kv := kv - {rec.key};
      } else {
        return false;
      }
      ok := true;
    }

    // ---- start -----------------------------------------------------------

    /** Reads the snapshot. An order list out of step with the reply map is
        reconciled, though one that repeats an id is left so; one the store wrote
        comes back as it is. */
    method LoadSnapshot()
      modifies `kv, `replies, `order
      requires disk.snap.None? ==> Ram() == EMPTY
      ensures kv == Load(disk).kv && replies == Load(disk).cache.replies
      ensures Known(Load(disk).cache.order, replies.Keys) <= order
      ensures NoDup(Load(disk).cache.order) ==> Consistent(Ram().cache)
      ensures Consistent(Load(disk).cache) ==> Ram() == Load(disk)
    {
      hide NoDup, Elems, Known;
      if disk.snap.None? { EmptyOrder(replies); return; }
      var loaded := disk.snap.value;
      kv, replies := loaded.kv, loaded.cache.replies;
      order := Reconciled(loaded.cache.order, replies.Keys);
    }

    /** The line loop of the replay: stops at the first line that is neither
        blank nor a record. */
    method ReplayLines(lines: seq<Bytes>) returns (good: nat)
      modifies `kv, `replies, `order, `dangling
      requires |lines| >= 1 && !dangling
      ensures var scan := ScanLines(codec, lines);
              Ram() == Replay(scan.recs, old(Ram()), SIZE) && good == scan.good && dangling == scan.dangling
    {
      hide ReplayKv, ReplayCache, Apply;
      ghost var all := ScanLines(codec, lines);
      var i: nat, pos: nat := 0, 0;
      ghost var recs := [];
      ReplayNothing(Ram(), SIZE);
      good := 0;
      while i < |lines|
        invariant 0 <= i <= |lines|
        invariant Ram() == Replay(recs, old(Ram()), SIZE)
        invariant if i < |lines| then all == Before(recs, pos, ScanLines(codec, lines[i..])) && good == pos && !dangling
                  else all == Scan(recs, good, dangling)
      {
        var line := lines[i];
        var last := i == |lines| - 1;
        var end := pos + |line| + (if last then 0 else 1);
        assert lines[i..][1..] == lines[i + 1..];
        if codec.blank(line) {
          assert recs + [] == recs;
          if !last { good := end; }
        } else {
          var rec := codec.dec(line);
          var ok := false;
          if rec.Some? { ok := ApplyLocked(rec.value); }
          if !ok {
            assert recs + [] == recs;
            return;
          }
          ReplaySnoc(recs, rec.value, old(Ram()), SIZE);
          if !last { BeforeBefore(recs, pos, [rec.value], |line| + 1, ScanLines(codec, lines[i + 1..])); }
          recs := recs + [rec.value];
          good := end;
          dangling := last;
        }
        if !last { BeforeBefore(recs, pos, [], |line| + 1, ScanLines(codec, lines[i + 1..])); }
        pos := end;
        i := i + 1;
      }
    }

    /** Applies the log over the loaded snapshot and cuts it back to the records
        that applied. A log strictly older than the snapshot is dropped instead. */
    method ReplayLog(now: nat) returns (held: bool)
      modifies this
      requires Lawful(codec) && !dangling && disk.snapTime <= now
      ensures held == (old(disk).log != [] && (old(disk).snap.None? || old(disk).snapTime <= old(disk).logTime))
      ensures held ==> Ram() == Replay(Parse(codec, old(disk).log).recs, old(Ram()), SIZE)
      ensures !held ==> Ram() == old(Ram()) && disk.log == []
      ensures disk.snap == old(disk).snap && disk.snapTime == old(disk).snapTime
      ensures held ==> disk.log == old(disk).log[..Parse(codec, old(disk).log).good]
      ensures held ==> logBytes == |disk.log| && dangling == Parse(codec, old(disk).log).dangling && !Discards(disk)
      ensures !held ==> logBytes == old(logBytes) && !dangling
    {
      var raw := disk.log;
      if raw == [] { return false; }
      if disk.snap.Some? && disk.snapTime > disk.logTime {
        disk := disk.(log := [], logTime := now);
        return false;
      }
      ParseByLines(codec, raw);
      var good := ReplayLines(Lines(raw));
      logBytes := |raw|;
      if good < logBytes {
        disk := disk.(log := raw[..good], logTime := now);
        logBytes := good;
      } else {
        assert raw[..good] == raw;
      }
      held := true;
    }

    // ---- writes ----------------------------------------------------------

    /** Writes RAM as the snapshot and empties the log. */
    method CompactLocked(now: nat)
      modifies `disk, `snapshotBytes, `logBytes, `dangling
      requires Lawful(codec)
      ensures if !persistent then unchanged(this)
              else disk == Disk(Some(Ram()), now, [], now) && InStep() && Recovered(codec, disk, SIZE) == Ram()
    {
      if !persistent { return; }
      var tmp := Ram();
      disk := disk.(snap := Some(tmp), snapTime := now);
      snapshotBytes := snapshotLen(tmp);
      disk := disk.(log := [], logTime := now);
      logBytes := 0;
      dangling := false;
      EmptyLog(codec);
    }

    /** Appends one record, and compacts exactly when the log has outgrown the snapshot. */
    method AppendRecord(rec: LogRecord, now: nat)
      modifies `disk, `snapshotBytes, `logBytes, `dangling
      requires Lawful(codec) && Loggable(rec) && disk.snapTime <= now
      requires persistent ==> InStep() && ApplyKv(rec, Recovered(codec, disk, SIZE).kv) == kv
      ensures persistent ==> InStep() && Durable()
      ensures persistent ==>
                var bytes := AppendBytes(codec, rec, old(dangling));
                var grown := old(logBytes) + |bytes|;
                disk == if grown > 4 * old(snapshotBytes) && grown > 0x10_0000 then Disk(Some(Ram()), now, [], now)
                        else old(disk).(log := old(disk).log + bytes, logTime := now)
      ensures persistent ==>
                Recovered(codec, disk, SIZE) ==
                if disk.log == [] then Ram() else Apply(rec, old(Recovered(codec, disk, SIZE)), SIZE)
      ensures !persistent ==> unchanged(this)
    {
      hide Parse, LineEnd, ReplayCache, WfCache, Recovered, ApplyCache;
      if !persistent { return; }
      var raw := codec.enc(rec) + [NL];
      if dangling { raw := [NL] + raw; }
      assert raw == AppendBytes(codec, rec, dangling);
      AppendRecovers(codec, disk, rec, now, SIZE);
      disk := disk.(log := disk.log + raw, logTime := now);
      dangling := false;
      logBytes := logBytes + |raw|;
      if logBytes > Max(COMPACT_LOG_MULTIPLE * snapshotBytes, COMPACT_LOG_MIN_BYTES) {
        CompactLocked(now);
      }
    }

    /** The reply is held in RAM and recorded on the volume. */
    method RememberId(id: string, reply: Response, now: nat)
      requires Valid() && id != "" && disk.snapTime <= now
      modifies this
      ensures Valid()
      ensures Ram() == Apply(RememberRecord(id, reply), old(Ram()), SIZE)
      ensures |order| <= 1024
      ensures |old(order)| < 1024 ==> order == if id in old(replies) then old(order) else old(order) + [id]
      ensures persistent ==>
                || Recovered(codec, disk, SIZE) == Ram()
                || Recovered(codec, disk, SIZE)
                    == Apply(RememberRecord(id, reply), old(Recovered(codec, disk, SIZE)), SIZE)
    {
      hide Remember, Evict, Parse;
      RememberFits(Ram().cache, id, reply, SIZE);
      EvictKeepsConsistent(Cache(replies[id := reply], if id in replies then order else order + [id]), SIZE);
      RememberIsConsistent(Ram().cache, id, reply, SIZE);
      RememberLocked(id, reply, SIZE);
      AppendRecord(RememberRecord(id, reply), now);
    }

    method SetKV(key: string, raw: RawValue, now: nat)
      requires Valid() && key != "" && raw != "" && disk.snapTime <= now
      modifies this
      ensures Valid()
      ensures Ram() == old(Ram()).(kv := old(kv)[key := raw])
    {
      kv := kv[key := raw];
      AppendRecord(SetRecord(key, raw), now);
    }

    method DeleteKV(key: string, now: nat)
      requires Valid() && key != "" && disk.snapTime <= now
      modifies this
      ensures Valid()
      ensures Ram() == old(Ram()).(kv := old(kv) - {key})
    {
      kv := kv - {key};
      AppendRecord(DeleteRecord(key), now);
    }

    /** After a clean shutdown the snapshot alone is complete: it is what RAM holds,
        unless nothing was logged since it was written. */
    method CloseStore(now: nat)
      requires Valid()
      modifies `disk, `snapshotBytes, `logBytes, `dangling
      ensures Valid()
      ensures persistent ==> disk.log == [] && Load(disk).kv == kv
      ensures persistent ==> if old(disk).log == [] then disk == old(disk) else Load(disk) == Ram()
    {
      if persistent && logBytes > 0 {
        CompactLocked(now);
      }
    }

    /** Comes up with the keys the volume recovers to, the log sealed into the
        snapshot, and with exactly what it recovers to when the snapshot's order list
        is in step with its replies. */
    constructor (codec: Codec, snapshotLen: State -> nat, persistent: bool, disk: Disk, now: nat)
      requires Lawful(codec) && disk.snapTime <= now
      requires disk.snap.Some? ==> NoDup(disk.snap.value.cache.order)
      ensures this.codec == codec && this.persistent == persistent
      ensures Valid()
      ensures persistent ==> kv == Recovered(codec, disk, SIZE).kv && this.disk.log == []
      ensures persistent && Consistent(Load(disk).cache) ==> Ram() == Recovered(codec, disk, SIZE)
      ensures !persistent ==> Ram() == EMPTY
    {
      this.codec, this.snapshotLen, this.persistent := codec, snapshotLen, persistent;
      kv, replies, order := map[], map[], [];
      this.disk, logBytes, dangling, snapshotBytes := disk, 0, false, 0;
      new;
      if persistent {
        hide ReplayKv, ReplayCache, NoDup;
        LoadSnapshot();
        ghost var loaded := Ram();
        if disk.snap.Some? { snapshotBytes := snapshotLen(disk.snap.value); }
        var held := ReplayLog(now);
        EmptyLog(codec);
        if held {
          ReplayKeepsConsistent(Parse(codec, disk.log).recs, loaded.cache, SIZE);
          CompactLocked(now);
        }
      }
    }
  }

  function Max(a: nat, b: nat): nat {
    if a < b then b else a
  }

  lemma OrderCovers(order: seq<string>, known: set<string>)
    requires Elems(order) <= known
    ensures NoDup(order) ==> (|order| < |known| <==> Elems(order) != known)
  {
    if NoDup(order) {
      NoDupCard(order);
      SubsetCard(Elems(order), known);
      if |order| >= |known| { FullSubset(Elems(order), known); }
    }
  }

  lemma FullSubset(a: set<string>, b: set<string>)
    requires a <= b && |a| >= |b|
    ensures a == b
  {
    forall x | x in b ensures x in a {
      if x !in a { SubsetCard(a, b - {x}); }
    }
  }

  lemma {:induction false} ReplayKeepsConsistent(recs: seq<LogRecord>, c: Cache, size: nat)
    requires Consistent(c)
    ensures Consistent(ReplayCache(recs, c, size))
  {
    if recs != [] {
      var rec := recs[|recs| - 1];
      var before := ReplayCache(recs[..|recs| - 1], c, size);
      ReplayKeepsConsistent(recs[..|recs| - 1], c, size);
      if IsRemember(rec) {
        EvictKeepsConsistent(Cache(before.replies[rec.id := rec.reply.value],
                                   if rec.id in before.replies then before.order else before.order + [rec.id]), size);
      }
    }
  }
}

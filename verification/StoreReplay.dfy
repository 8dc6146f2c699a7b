/** What replaying a log over a snapshot that already holds part of it does.
    The snapshot holds the first `m` operations of a history and the log the
    operations from `l <= m` on, which is what a crash between the snapshot
    rename and the log truncation leaves behind. */
module StoreReplay {
  import opened Prelude
  import opened StoreState

  // ---- keys: replay is exact ------------------------------------------

  function LastEffect(recs: seq<LogRecord>, key: string): Option<Option<RawValue>> {
    if recs == [] then None
    else
      var e := KvEffect(recs[|recs| - 1], key);
      if e.Some? then e else LastEffect(recs[..|recs| - 1], key)
  }

  /** Only the last record on a key decides it. */
  lemma {:induction false} LastWriterDecides(recs: seq<LogRecord>, kv: map<string, RawValue>, key: string)
    ensures Get(ReplayKv(recs, kv), key) ==
            match LastEffect(recs, key) case Some(v) => v case None => Get(kv, key)
  {
    if recs != [] { LastWriterDecides(recs[..|recs| - 1], kv, key); }
  }

  lemma {:induction false} LastEffectConcat(a: seq<LogRecord>, b: seq<LogRecord>, key: string)
    ensures LastEffect(a + b, key) ==
            if LastEffect(b, key).Some? then LastEffect(b, key) else LastEffect(a, key)
  {
    if b == [] { assert a + b == a; } else {
      LastEffectConcat(a, b[..|b| - 1], key);
      assert (a + b)[..|a + b| - 1] == a + b[..|b| - 1];
    }
  }

  lemma LastEffectOverlap(h: seq<LogRecord>, l: nat, m: nat, key: string)
    requires l <= m <= |h|
    ensures LastEffect(h, key) ==
            if LastEffect(h[l..], key).Some? then LastEffect(h[l..], key) else LastEffect(h[..m], key)
  {
    hide LastEffect;
    assert h == h[..l] + h[l..] && h[..m] == h[..l] + h[l..m] && h[l..] == h[l..m] + h[m..];
    LastEffectConcat(h[..l], h[l..], key);
    LastEffectConcat(h[..l], h[l..m], key);
    LastEffectConcat(h[l..m], h[m..], key);
  }

  /** Records the snapshot already holds change no key when they are replayed. */
  lemma KvReplayIsExact(h: seq<LogRecord>, l: nat, m: nat, kv: map<string, RawValue>)
    requires l <= m <= |h|
    ensures ReplayKv(h[l..], ReplayKv(h[..m], kv)) == ReplayKv(h, kv)
  {
    hide ReplayKv, LastEffect;
    var got := ReplayKv(h[l..], ReplayKv(h[..m], kv));
    var want := ReplayKv(h, kv);
    forall key ensures Get(got, key) == Get(want, key) {
      LastWriterDecides(h[l..], ReplayKv(h[..m], kv), key);
      LastWriterDecides(h[..m], kv, key);
      LastWriterDecides(h, kv, key);
      LastEffectOverlap(h, l, m, key);
    }
    MapsEqual(got, want);
  }

  lemma MapsEqual<K, V>(a: map<K, V>, b: map<K, V>)
    requires forall k :: Get(a, k) == Get(b, k)
    ensures a == b
  {
    assert forall k :: k in a <==> Get(a, k).Some?;
    assert forall k :: k in b <==> Get(b, k).Some?;
    assert forall k | k in a :: Get(a, k) == Some(a[k]);
    assert forall k | k in b :: Get(b, k) == Some(b[k]);
  }

  // ---- replies: never stale -------------------------------------------

  function LastReply(recs: seq<LogRecord>, id: string): Option<Response> {
    if recs == [] then None
    else
      var rec := recs[|recs| - 1];
      if IsRemember(rec) && rec.id == id then rec.reply else LastReply(recs[..|recs| - 1], id)
  }

  lemma {:induction false} LastReplyConcat(a: seq<LogRecord>, b: seq<LogRecord>, id: string)
    ensures LastReply(a + b, id) ==
            if LastReply(b, id).Some? then LastReply(b, id) else LastReply(a, id)
  {
    if b == [] { assert a + b == a; } else {
      LastReplyConcat(a, b[..|b| - 1], id);
      assert (a + b)[..|a + b| - 1] == a + b[..|b| - 1];
    }
  }

  /** Every reply held is the last one the history gave its id. */
  ghost predicate Fresh(c: Cache, h: seq<LogRecord>) {
    forall id | id in c.replies :: LastReply(h, id) == Some(c.replies[id])
  }

  lemma {:induction false} EvictDropsOnly(c: Cache, size: nat)
    ensures Evict(c, size).replies.Keys <= c.replies.Keys
    ensures forall id | id in Evict(c, size).replies :: Evict(c, size).replies[id] == c.replies[id]
    decreases |c.order|
  {
    if |c.order| > size { EvictDropsOnly(Cache(c.replies - {c.order[0]}, c.order[1..]), size); }
  }

  lemma {:induction false} HeldReply(recs: seq<LogRecord>, c: Cache, size: nat, id: string)
    requires id in ReplayCache(recs, c, size).replies
    ensures ReplayCache(recs, c, size).replies[id] ==
            (match LastReply(recs, id) case Some(r) => r case None => if id in c.replies then c.replies[id] else "")
    ensures LastReply(recs, id).None? ==> id in c.replies
  {
    if recs != [] {
      var rec := recs[|recs| - 1];
      var before := ReplayCache(recs[..|recs| - 1], c, size);
      if IsRemember(rec) {
        EvictDropsOnly(Cache(before.replies[rec.id := rec.reply.value],
                             if rec.id in before.replies then before.order else before.order + [rec.id]), size);
        if rec.id != id { HeldReply(recs[..|recs| - 1], c, size, id); }
      } else {
        HeldReply(recs[..|recs| - 1], c, size, id);
      }
    }
  }

  /** Replaying a log over a snapshot that may hold part of it leaves no stale reply,
      whatever was evicted or reordered on the way. */
  lemma RepliesNeverStale(h: seq<LogRecord>, l: nat, m: nat, c: Cache, size: nat)
    requires l <= m <= |h|
    requires Fresh(c, h[..m])
    ensures Fresh(ReplayCache(h[l..], c, size), h)
  {
    forall id | id in ReplayCache(h[l..], c, size).replies
      ensures LastReply(h, id) == Some(ReplayCache(h[l..], c, size).replies[id])
    {
      HeldReply(h[l..], c, size, id);
      assert h == h[..l] + h[l..] == h[..m] + h[m..];
      assert h[l..] == h[l..m] + h[m..];
      LastReplyConcat(h[..l], h[l..], id);
      LastReplyConcat(h[..m], h[m..], id);
      LastReplyConcat(h[l..m], h[m..], id);
    }
  }

  // ---- completeness while the window is not exceeded --------------------

  function RememberedIds(recs: seq<LogRecord>): set<string> {
    set i | 0 <= i < |recs| && IsRemember(recs[i]) :: recs[i].id
  }

  lemma RememberedIdsSnoc(front: seq<LogRecord>, rec: LogRecord)
    ensures RememberedIds(front + [rec]) == RememberedIds(front) + (if IsRemember(rec) then {rec.id} else {})
  {
    var recs := front + [rec];
    assert forall i | 0 <= i < |front| :: recs[i] == front[i];
    assert recs[|front|] == rec;
  }

  lemma RememberFits(c: Cache, id: string, reply: Response, size: nat, ids: set<string>)
    requires WfCache(c, size)
    requires c.replies.Keys + {id} <= ids && |ids| <= size
    ensures Remember(c, id, reply, size).replies.Keys == c.replies.Keys + {id}
  {
    if id !in c.replies {
      NoDupCard(c.order);
      SubsetCard(c.replies.Keys + {id}, ids);
    }
  }

  /** While the history names at most `size` ids, no replay of any part of it evicts. */
  lemma {:induction false} ReplayEvictsNothing(recs: seq<LogRecord>, c: Cache, size: nat, ids: set<string>)
    requires WfCache(c, size)
    requires c.replies.Keys + RememberedIds(recs) <= ids && |ids| <= size
    ensures ReplayCache(recs, c, size).replies.Keys == c.replies.Keys + RememberedIds(recs)
  {
    if recs != [] {
      var rec := recs[|recs| - 1];
      var front := recs[..|recs| - 1];
      assert recs == front + [rec];
      RememberedIdsSnoc(front, rec);
      ReplayEvictsNothing(front, c, size, ids);
      ReplayKeepsWf(front, c, size);
      if IsRemember(rec) {
        RememberFits(ReplayCache(front, c, size), rec.id, rec.reply.value, size, ids);
      }
    }
  }

  lemma RepliesComplete(h: seq<LogRecord>, l: nat, m: nat, c: Cache, size: nat)
    requires l <= m <= |h|
    requires WfCache(c, size) && |RememberedIds(h)| <= size
    requires c.replies.Keys == RememberedIds(h[..m])
    ensures ReplayCache(h[l..], c, size).replies.Keys == RememberedIds(h)
  {
    assert RememberedIds(h) == RememberedIds(h[..m]) + RememberedIds(h[l..]) by {
      forall i | 0 <= i < |h| && IsRemember(h[i])
        ensures h[i].id in RememberedIds(h[..m]) + RememberedIds(h[l..])
      {
        if i < m { assert h[..m][i] == h[i]; } else { assert h[l..][i - l] == h[i]; }
      }
    }
    ReplayEvictsNothing(h[l..], c, size, RememberedIds(h));
  }
}

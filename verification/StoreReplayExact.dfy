/** Exactly when replaying a log over a cache leaves the cache, order included,
    as it was. Deliveries are the remember records of a log; their ids are
    pairwise distinct when every one of them answered a message the agent had
    not known before. */
module StoreReplayExact {
  import opened Prelude
  import opened StoreState
  import opened StoreReplay

  predicate AllRemember(l: seq<LogRecord>) {
    forall i | 0 <= i < |l| :: IsRemember(l[i])
  }

  function IdsOf(l: seq<LogRecord>): (r: seq<string>)
    ensures |r| == |l| && forall i | 0 <= i < |l| :: r[i] == l[i].id
  {
    seq(|l|, i requires 0 <= i < |l| => l[i].id)
  }

  function Deliveries(l: seq<LogRecord>): (d: seq<LogRecord>)
    ensures AllRemember(d) && |d| <= |l|
  {
    if l == [] then []
    else
      var d := Deliveries(l[..|l| - 1]);
      if IsRemember(l[|l| - 1]) then d + [l[|l| - 1]] else d
  }

  function DeliveredIds(l: seq<LogRecord>): seq<string> {
    IdsOf(Deliveries(l))
  }

  /** The cache holds, for each id it holds that was delivered at all, the reply
      delivered last. */
  predicate Agrees(l: seq<LogRecord>, c: Cache) {
    forall id | id in c.replies && LastReply(l, id).Some? :: LastReply(l, id) == Some(c.replies[id])
  }

  /** The ids that a first-in, first-out window starting from the order has to take
      in, because it does not hold them when their turn comes. */
  function Misses(ids: seq<string>, order: seq<string>, size: nat): seq<string> {
    if ids == [] then []
    else
      var m, id := Misses(ids[..|ids| - 1], order, size), ids[|ids| - 1];
      if id in Tail(order + m, size) then m else m + [id]
  }

  /** The window ends as it began: it takes in nothing, or all of itself again. */
  predicate Returns(m: seq<string>, order: seq<string>, size: nat) {
    m == [] || (|m| >= size && Tail(m, size) == order)
  }

  /** What that comes to when the ids are distinct: either none is missing from the
      window, or the window is exactly the last `size` of them. */
  predicate Replayable(ids: seq<string>, order: seq<string>, size: nat) {
    Elems(ids) <= Elems(order) || (|ids| >= size && Tail(ids, size) == order)
  }

  lemma {:induction false} OnlyDeliveriesCount(l: seq<LogRecord>, c: Cache, size: nat)
    ensures ReplayCache(Deliveries(l), c, size) == ReplayCache(l, c, size)
  {
    if l != [] {
      OnlyDeliveriesCount(l[..|l| - 1], c, size);
      var d, rec := Deliveries(l[..|l| - 1]), l[|l| - 1];
      if IsRemember(rec) { assert (d + [rec])[..|d|] == d; }
    }
  }

  // ---- the order after a replay ------------------------------------------

  lemma TailSnoc<T>(s: seq<T>, x: T, n: nat)
    ensures Tail(Tail(s, n) + [x], n) == Tail(s + [x], n)
  {}

  lemma TailDropsPrefix<T>(a: seq<T>, b: seq<T>, n: nat)
    requires |b| >= n
    ensures Tail(a + b, n) == Tail(b, n)
  {}

  lemma MissesSnoc(ids: seq<string>, id: string, order: seq<string>, size: nat)
    ensures var m := Misses(ids, order, size);
            Misses(ids + [id], order, size) == if id in Tail(order + m, size) then m else m + [id]
  {
    assert (ids + [id])[..|ids|] == ids;
  }

  lemma RememberOrder(c: Cache, id: string, reply: Response, size: nat)
    requires WfCache(c, size)
    ensures Remember(c, id, reply, size).order ==
            if id in c.order then c.order else Tail(c.order + [id], size)
  {
    EvictOne(Cache(c.replies[id := reply], if id in c.replies then c.order else c.order + [id]), size);
    assert id in Elems(c.order) <==> id in c.order;
  }

  lemma ReplayOrderStep(before: Cache, m: seq<string>, order: seq<string>, rec: LogRecord, size: nat)
    requires IsRemember(rec) && WfCache(before, size) && before.order == Tail(order + m, size)
    ensures ApplyCache(rec, before, size).order ==
            Tail(order + if rec.id in before.order then m else m + [rec.id], size)
  {
    hide Tail, WfCache, Remember;
    RememberOrder(before, rec.id, rec.reply.value, size);
    TailSnoc(order + m, rec.id, size);
    assert order + (m + [rec.id]) == order + m + [rec.id];
  }

  lemma {:induction false} ReplayOrder(l: seq<LogRecord>, c: Cache, size: nat)
    requires AllRemember(l) && WfCache(c, size)
    ensures ReplayCache(l, c, size).order == Tail(c.order + Misses(IdsOf(l), c.order, size), size)
  {
    if l == [] { assert c.order + [] == c.order; } else {
      hide Tail, WfCache, Misses, ApplyCache, IsRemember;
      var front, rec := l[..|l| - 1], l[|l| - 1];
      assert IdsOf(l) == IdsOf(front) + [rec.id];
      ReplayOrder(front, c, size);
      ReplayKeepsWf(front, c, size);
      MissesSnoc(IdsOf(front), rec.id, c.order, size);
      ReplayOrderStep(ReplayCache(front, c, size), Misses(IdsOf(front), c.order, size), c.order, rec, size);
    }
  }

  // ---- any log --------------------------------------------------------------

  lemma SameKeysSameReplies(l: seq<LogRecord>, c: Cache, size: nat)
    requires ReplayCache(l, c, size).replies.Keys == c.replies.Keys
    ensures ReplayCache(l, c, size).replies == c.replies <==> Agrees(l, c)
  {
    var r := ReplayCache(l, c, size).replies;
    forall id | id in r ensures r[id] == if LastReply(l, id).Some? then LastReply(l, id).value else c.replies[id] {
      HeldReply(l, c, size, id);
    }
    if r == c.replies {
      assert forall id | id in c.replies && LastReply(l, id).Some? :: r[id] == c.replies[id];
    }
  }

  /** A nonempty stretch of new ids brings a duplicate-free window back only
      when it fills the window. */
  lemma WindowReturns(order: seq<string>, added: seq<string>, size: nat)
    requires NoDup(order) && |order| <= size && added != []
    requires Tail(order + added, size) == order
    ensures |added| >= size == |order| && Tail(added, size) == order
  {
    var all := order + added;
    assert |all| > size;
    if size > 0 { assert order[0] == all[|all| - size]; }
  }

  lemma ReturnsIff(order: seq<string>, added: seq<string>, size: nat)
    requires NoDup(order) && |order| <= size
    ensures Tail(order + added, size) == order <==> Returns(added, order, size)
  {
    if added == [] { assert order + added == order; }
    else if Returns(added, order, size) { TailDropsPrefix(order, added, size); }
    else if Tail(order + added, size) == order { WindowReturns(order, added, size); }
  }

  /** Replaying any log, whatever else it records and however often it delivers an
      id, leaves a cache as it was exactly when the cache has the last reply of
      each id it shares with the log and the ids that a window of its order
      misses bring that order back. */
  lemma ReplayExactIff(l: seq<LogRecord>, c: Cache, size: nat)
    requires WfCache(c, size)
    ensures ReplayCache(l, c, size) == c <==>
      Agrees(l, c) && Returns(Misses(DeliveredIds(l), c.order, size), c.order, size)
  {
    hide Returns, Tail, ReplayCache, Agrees, Misses, NoDup;
    var d := Deliveries(l);
    OnlyDeliveriesCount(l, c, size);
    ReplayOrder(d, c, size);
    ReplayKeepsWf(l, c, size);
    ReturnsIff(c.order, Misses(IdsOf(d), c.order, size), size);
    if ReplayCache(l, c, size).order == c.order { SameKeysSameReplies(l, c, size); }
  }

  // ---- distinct ids -----------------------------------------------------------

  lemma {:induction false} KnownAreNotMissed(ids: seq<string>, order: seq<string>, size: nat)
    requires |order| <= size
    ensures Misses(ids, order, size) == [] <==> Elems(ids) <= Elems(order)
  {
    if ids != [] {
      var front, id := ids[..|ids| - 1], ids[|ids| - 1];
      assert ids == front + [id];
      hide Misses;
      KnownAreNotMissed(front, order, size);
      MissesSnoc(front, id, order, size);
      NoDupSnoc(front, id);
      assert order + [] == order;
    }
  }

  /** Of a longer run of distinct ids, the next one is not among the `size` before it,
      wrapping around. */
  lemma NextNotInWindow(ids: seq<string>, size: nat, j: nat)
    requires NoDup(ids) && |ids| > size && j < |ids|
    ensures ids[j] !in Tail(Tail(ids, size) + ids[..j], size)
  {
    var stream := Tail(ids, size) + ids[..j];
    forall k | j <= k < |stream| ensures stream[k] != ids[j] {
      assert k < size ==> stream[k] == ids[|ids| - size + k];
    }
    assert Tail(stream, size) == stream[j..];
  }

  /** The window is the last `size` of a longer run of ids: every one of them has
      been pushed out again by the time its turn comes. */
  lemma {:induction false} EachReturnsInTurn(ids: seq<string>, size: nat, i: nat)
    requires NoDup(ids) && |ids| > size && i <= |ids|
    ensures Misses(ids[..i], Tail(ids, size), size) == ids[..i]
  {
    if i > 0 {
      hide *;
      var front, id := ids[..i - 1], ids[i - 1];
      EachReturnsInTurn(ids, size, i - 1);
      NextNotInWindow(ids, size, i - 1);
      TurnReturns(front, id, Tail(ids, size), size);
      assert ids[..i] == front + [id];
    }
  }

  lemma TurnReturns(front: seq<string>, id: string, order: seq<string>, size: nat)
    requires Misses(front, order, size) == front && id !in Tail(order + front, size)
    ensures Misses(front + [id], order, size) == front + [id]
  {
    hide Misses, Tail;
    MissesSnoc(front, id, order, size);
  }

  lemma {:induction false} MissesAreIds(ids: seq<string>, order: seq<string>, size: nat)
    ensures forall x | x in Misses(ids, order, size) :: x in ids
  {
    if ids != [] {
      MissesAreIds(ids[..|ids| - 1], order, size);
    }
  }

  lemma TailIn<T>(s: seq<T>, n: nat, x: T)
    requires x in Tail(s, n)
    ensures x in s
  {}

  /** With distinct ids, one that is held at its turn was held from the start and is
      not taken in at any other turn; so when all held ids are taken in, all ids are. */
  lemma {:induction false} MissedOrHeld(ids: seq<string>, order: seq<string>, size: nat)
    requires NoDup(ids)
    ensures var m := Misses(ids, order, size); m == ids || exists x :: x in ids && x in order && x !in m
  {
    if ids != [] {
      var front, id := ids[..|ids| - 1], ids[|ids| - 1];
      var m0, m := Misses(front, order, size), Misses(ids, order, size);
      assert ids == front + [id] && NoDup(front) && id !in front;
      hide NoDup, Misses, Tail;
      MissesSnoc(front, id, order, size);
      MissedOrHeld(front, order, size);
      MissesAreIds(front, order, size);
      if id in Tail(order + m0, size) {
        TailIn(order + m0, size, id);
        assert id in ids && id in order && id !in m;
      } else if m0 != front {
        var x :| x in front && x in order && x !in m0;
        assert x in ids && x in order && x !in m;
      }
    }
  }

  /** For distinct ids the window returns exactly when it holds them all or is the
      last of them. */
  lemma DistinctReturnsIff(ids: seq<string>, order: seq<string>, size: nat)
    requires NoDup(ids) && NoDup(order) && |order| <= size
    ensures Returns(Misses(ids, order, size), order, size) <==> Replayable(ids, order, size)
  {
    var m := Misses(ids, order, size);
    KnownAreNotMissed(ids, order, size);
    if |ids| >= size && Tail(ids, size) == order {
      if |ids| == size { assert ids == order; } else {
        EachReturnsInTurn(ids, size, |ids|);
        assert ids[..|ids|] == ids;
      }
    }
    if m != [] && Returns(m, order, size) {
      MissedOrHeld(ids, order, size);
      if m != ids {
        var x :| x in ids && x in order && x !in m;
        TailIn(m, size, x);
      }
    }
  }

  /** The exact condition in its short form, for a log that delivers no id twice. */
  lemma DistinctReplayExactIff(l: seq<LogRecord>, c: Cache, size: nat)
    requires NoDup(DeliveredIds(l)) && WfCache(c, size)
    ensures ReplayCache(l, c, size) == c <==> Agrees(l, c) && Replayable(DeliveredIds(l), c.order, size)
  {
    hide ReplayCache, Agrees, Returns, Replayable, Misses;
    ReplayExactIff(l, c, size);
    DistinctReturnsIff(DeliveredIds(l), c.order, size);
  }

  // ---- runs without a recall satisfy it, runs with one need not ----------

  lemma {:induction false} UnknownAreMissed(l: seq<LogRecord>, c: Cache, size: nat)
    requires WfCache(c, size)
    requires forall i | 0 <= i < |l| && IsRemember(l[i]) :: l[i].id !in ReplayCache(l[..i], c, size).replies
    ensures Misses(DeliveredIds(l), c.order, size) == DeliveredIds(l)
  {
    if l != [] {
      var front, rec := l[..|l| - 1], l[|l| - 1];
      assert forall i | 0 <= i < |front| :: front[..i] == l[..i];
      UnknownAreMissed(front, c, size);
      if IsRemember(rec) {
        var d, ids := Deliveries(front), DeliveredIds(front);
        hide WfCache, Tail, Misses, Deliveries;
        assert Deliveries(l) == d + [rec] by { DeliveriesSnoc(l); }
        assert DeliveredIds(l) == ids + [rec.id];
        OnlyDeliveriesCount(front, c, size);
        ReplayOrder(d, c, size);
        ReplayKeepsWf(d, c, size);
        HeldIsListed(ReplayCache(d, c, size), rec.id, size);
        MissesSnoc(ids, rec.id, c.order, size);
      }
    }
  }

  lemma DeliveriesSnoc(l: seq<LogRecord>)
    requires l != [] && IsRemember(l[|l| - 1])
    ensures Deliveries(l) == Deliveries(l[..|l| - 1]) + [l[|l| - 1]]
  {}

  lemma HeldIsListed(c: Cache, id: string, size: nat)
    requires WfCache(c, size)
    ensures id in c.replies <==> id in c.order
  {
    assert id in Elems(c.order) <==> id in c.order;
  }

  /** Each delivery was unknown when it was remembered and nothing was recalled in
      between: a second replay of the log reproduces replies and order. */
  lemma UnknownDeliveriesReplayExactly(l: seq<LogRecord>, c: Cache, size: nat)
    requires NoDup(DeliveredIds(l)) && WfCache(c, size)
    requires forall i | 0 <= i < |l| && IsRemember(l[i]) :: l[i].id !in ReplayCache(l[..i], c, size).replies
    ensures ReplayCache(l, ReplayCache(l, c, size), size) == ReplayCache(l, c, size)
  {
    var t, ids := ReplayCache(l, c, size), DeliveredIds(l);
    hide ReplayCache, Misses, Deliveries, DeliveredIds, NoDup;
    UnknownAreMissed(l, c, size);
    OnlyDeliveriesCount(l, c, size);
    assert ids == IdsOf(Deliveries(l)) by { IdsAreDelivered(l); }
    ReplayOrder(Deliveries(l), c, size);
    ReplayKeepsWf(l, c, size);
    ReplayAgrees(l, c, size);
    if |ids| >= size { TailDropsPrefix(c.order, ids, size); }
    else { TailKeepsSuffix(c.order, ids, size); }
    DistinctReplayExactIff(l, t, size);
  }

  lemma IdsAreDelivered(l: seq<LogRecord>)
    ensures DeliveredIds(l) == IdsOf(Deliveries(l))
  {}

  lemma TailKeepsSuffix(a: seq<string>, b: seq<string>, n: nat)
    requires |b| <= n
    ensures Elems(b) <= Elems(Tail(a + b, n))
  {
    var t := Tail(a + b, n);
    forall k | 0 <= k < |b| ensures b[k] in t { assert t[|t| - |b| + k] == b[k]; }
  }

  lemma ReplayAgrees(l: seq<LogRecord>, c: Cache, size: nat)
    ensures Agrees(l, ReplayCache(l, c, size))
  {
    var t := ReplayCache(l, c, size);
    forall id | id in t.replies && LastReply(l, id).Some? ensures LastReply(l, id) == Some(t.replies[id]) {
      HeldReply(l, c, size, id);
    }
  }

  function Deliver(ids: seq<string>): (l: seq<LogRecord>)
    ensures |l| == |ids| && IdsOf(l) == ids
  {
    seq(|ids|, i requires 0 <= i < |ids| => RememberRecord(ids[i], ids[i]))
  }

  lemma FillWindow(ids: seq<string>, size: nat)
    requires |ids| == size && NoDup(ids) && "" !in ids
    ensures var full := ReplayCache(Deliver(ids), EMPTY.cache, size);
            WfCache(full, size) && full.order == ids
  {
    var empty, l := EMPTY.cache, Deliver(ids);
    assert AllRemember(l) by { assert forall i | 0 <= i < size :: ids[i] in ids; }
    MissedOrHeld(ids, empty.order, size);
    ReplayOrder(l, empty, size);
    ReplayKeepsWf(l, empty, size);
    assert empty.order + ids == ids;
  }

  /** The window after filling it, recalling the oldest id and delivering one more. */
  lemma RecallThenDeliver(ids: seq<string>, full: Cache, size: nat)
    requires size >= 2 && |ids| == size + 1 && NoDup(ids)
    requires WfCache(full, size) && full.order == ids[..size]
    ensures var c := Remember(Touch(full, ids[0]), ids[size], ids[size], size);
            WfCache(c, size) && c.order == ids[2..size] + [ids[0], ids[size]]
  {
    hide WfCache, NoDup, TouchOrder, Tail, Remember;
    var touched := Touch(full, ids[0]);
    TouchFirst(ids, full, size);
    TouchKeepsWf(full, ids[0], size);
    RememberKeepsWf(touched, ids[size], ids[size], size);
    RememberOrder(touched, ids[size], ids[size], size);
    HeldIsListed(touched, ids[size], size);
    assert touched.order + [ids[size]] == [ids[1]] + (ids[2..size] + [ids[0], ids[size]]);
    TailAllButFirst(ids[1], ids[2..size] + [ids[0], ids[size]], size);
  }

  lemma TouchFirst(ids: seq<string>, full: Cache, size: nat)
    requires size >= 2 && |ids| == size + 1 && NoDup(ids)
    requires WfCache(full, size) && full.order == ids[..size]
    ensures Touch(full, ids[0]).order == ids[1..size] + [ids[0]]
    ensures ids[0] in full.replies && ids[size] !in full.replies
  {
    assert full.order[0] == ids[0] && full.order[1..] == ids[1..size];
    assert full.order[0] in Elems(full.order);
    assert ids[size] !in Elems(full.order);
  }

  lemma TailAllButFirst(x: string, s: seq<string>, n: nat)
    requires |s| == n
    ensures Tail([x] + s, n) == s
  {}

  /** The comment at agentruntime/store.go:370 does not hold for the order:
      fill the window, recall the oldest id, deliver one more, and replaying
      the log over the resulting snapshot changes the cache. */
  lemma RecallBreaksReplay(ids: seq<string>, size: nat)
    requires size >= 2 && |ids| == size + 1 && NoDup(ids) && "" !in ids
    ensures var full := ReplayCache(Deliver(ids[..size]), EMPTY.cache, size);
            var c := Remember(Touch(full, ids[0]), ids[size], ids[size], size);
            ReplayCache(Deliver(ids), c, size) != c
  {
    FillWindow(ids[..size], size);
    var full := ReplayCache(Deliver(ids[..size]), EMPTY.cache, size);
    RecallThenDeliver(ids, full, size);
    var c := Remember(Touch(full, ids[0]), ids[size], ids[size], size);
    var all := Deliver(ids);
    assert AllRemember(all) by { assert forall i | 0 <= i <= size :: ids[i] in ids; }
    DroppedIdBlocksReplay(ids, c.order, size);
    AllDelivered(all);
    DistinctReplayExactIff(all, c, size);
  }

  lemma {:induction false} AllDelivered(l: seq<LogRecord>)
    requires AllRemember(l)
    ensures Deliveries(l) == l
  {
    if l != [] { AllDelivered(l[..|l| - 1]); }
  }

  lemma DroppedIdBlocksReplay(ids: seq<string>, order: seq<string>, size: nat)
    requires size >= 2 && |ids| == size + 1 && NoDup(ids)
    requires order == ids[2..size] + [ids[0], ids[size]]
    ensures !Replayable(ids, order, size)
  {
    assert ids[1] !in order && ids[1] in Elems(ids);
    assert Tail(ids, size)[0] == ids[1] && order[0] in order;
  }
}

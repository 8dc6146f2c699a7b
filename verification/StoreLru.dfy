/** The redelivery window within one process run, described by the deliveries
    alone: no list, no eviction, only who was used since whom. */
module StoreLru {
  import opened Prelude
  import opened StoreState

  /** A call of `remember`, or of `recall`. */
  datatype Call = Remembered(id: string, reply: Response) | Recalled(id: string)

  function Step(call: Call, c: Cache, size: nat): Cache {
    match call
    case Remembered(id, reply) => Remember(c, id, reply, size)
    case Recalled(id) => if id in c.replies then Touch(c, id) else c
  }

  function Run(calls: seq<Call>, size: nat): Cache {
    if calls == [] then Cache(map[], [])
    else Step(calls[|calls| - 1], Run(calls[..|calls| - 1], size), size)
  }

  /** The ids used, in time order: an unknown id remembered, or a known one recalled. */
  function Uses(calls: seq<Call>, size: nat): seq<string> {
    if calls == [] then []
    else
      var front, call := calls[..|calls| - 1], calls[|calls| - 1];
      var known := call.id in Run(front, size).replies;
      Uses(front, size) + (if known == call.Recalled? then [call.id] else [])
  }

  /** The distinct ids used since the last use of `id`. */
  function Since(uses: seq<string>, id: string): set<string> {
    if uses == [] || uses[|uses| - 1] == id then {}
    else Since(uses[..|uses| - 1], id) + {uses[|uses| - 1]}
  }

  /** The id at `p` was used, and exactly the ids behind it were used since. */
  ghost predicate Placed(uses: seq<string>, order: seq<string>, p: int)
    requires 0 <= p < |order|
  {
    order[p] in uses && Since(uses, order[p]) == Elems(order[p + 1..])
  }

  /** The order lists the held ids by last use, and whoever is not held was
      pushed out by a full window of others. */
  ghost predicate ByLastUse(c: Cache, uses: seq<string>, size: nat) {
    && WfCache(c, size)
    && (forall p | 0 <= p < |c.order| :: Placed(uses, c.order, p))
    && (forall id | id in uses && id !in c.replies :: |Since(uses, id)| >= size)
  }

  lemma SinceSnoc(uses: seq<string>, x: string, id: string)
    ensures Since(uses + [x], id) == if x == id then {} else Since(uses, id) + {x}
  {
    assert (uses + [x])[..|uses|] == uses;
  }

  lemma OthersStayOut(c: Cache, uses: seq<string>, x: string, size: nat)
    requires ByLastUse(c, uses, size)
    ensures forall id | id in uses && id !in c.replies && id != x :: |Since(uses + [x], id)| >= size
  {
    forall id | id in uses && id !in c.replies && id != x ensures |Since(uses + [x], id)| >= size {
      SinceSnoc(uses, x, id);
      SubsetCard(Since(uses, id), Since(uses + [x], id));
    }
  }

  lemma ElemsConcat<T>(a: seq<T>, b: seq<T>)
    ensures Elems(a + b) == Elems(a) + Elems(b)
  {}

  lemma RememberUnknownShape(c: Cache, id: string, reply: Response, size: nat) returns (d: nat)
    requires WfCache(c, size) && id !in c.replies && size > 0
    ensures d == if |c.order| < size then 0 else 1
    ensures Remember(c, id, reply, size).order == c.order[d..] + [id]
    ensures Remember(c, id, reply, size).replies.Keys == c.replies.Keys + {id} - Elems(c.order[..d])
  {
    EvictOne(Cache(c.replies[id := reply], c.order + [id]), size);
    d := if |c.order| < size then 0 else 1;
    assert (c.order + [id])[d..] == c.order[d..] + [id];
  }

  lemma AppendedPlaced(order: seq<string>, uses: seq<string>, id: string, d: nat, p: nat)
    requires d + p < |order| && id != order[d + p] && Placed(uses, order, d + p)
    ensures Placed(uses + [id], order[d..] + [id], p)
  {
    var order' := order[d..] + [id];
    SinceSnoc(uses, id, order'[p]);
    assert order'[p + 1..] == order[d + p + 1..] + [id];
    ElemsConcat(order[d + p + 1..], [id]);
  }

  lemma AppendedSuffixes(c: Cache, uses: seq<string>, id: string, d: nat, size: nat)
    requires ByLastUse(c, uses, size) && id !in c.replies && d <= |c.order|
    ensures var order' := c.order[d..] + [id];
            forall p | 0 <= p < |order'| :: Placed(uses + [id], order', p)
  {
    var order' := c.order[d..] + [id];
    forall p | 0 <= p < |order'| ensures Placed(uses + [id], order', p) {
      if p < |order'| - 1 {
        assert c.order[d + p] in c.order;
        AppendedPlaced(c.order, uses, id, d, p);
      } else {
        SinceSnoc(uses, id, id);
      }
    }
  }

  lemma EvictedAfterWindow(c: Cache, uses: seq<string>, id: string, size: nat)
    requires ByLastUse(c, uses, size) && id !in c.replies && |c.order| == size > 0
    ensures |Since(uses + [id], c.order[0])| >= size
  {
    SinceSnoc(uses, id, c.order[0]);
    assert Placed(uses, c.order, 0);
    NoDupCard(c.order[1..]);
    assert id !in Elems(c.order[1..]);
  }

  lemma UseUnknown(c: Cache, uses: seq<string>, id: string, reply: Response, size: nat)
    requires ByLastUse(c, uses, size) && id !in c.replies && size > 0
    ensures ByLastUse(Remember(c, id, reply, size), uses + [id], size)
  {
    RememberKeepsWf(c, id, reply, size);
    var d := RememberUnknownShape(c, id, reply, size);
    AppendedSuffixes(c, uses, id, d, size);
    OthersStayOut(c, uses, id, size);
    if d == 1 {
      EvictedAfterWindow(c, uses, id, size);
      assert c.order[..1] == [c.order[0]];
    } else {
      assert c.order[..0] == [];
    }
  }

  lemma TouchedPlaced(order: seq<string>, uses: seq<string>, i: nat, p: nat)
    requires i < |order| && p < |order| && NoDup(order)
    requires forall q | 0 <= q < |order| :: Placed(uses, order, q)
    ensures Placed(uses + [order[i]], order[..i] + order[i + 1..] + [order[i]], p)
  {
    hide Since, NoDup;
    var order' := order[..i] + order[i + 1..] + [order[i]];
    SinceSnoc(uses, order[i], order'[p]);
    if p < |order'| - 1 {
      TouchedSuffix(order, i, p);
      assert Placed(uses, order, if p < i then p else p + 1);
    } else {
      assert order'[p + 1..] == [];
    }
  }

  lemma UseKnown(c: Cache, uses: seq<string>, id: string, size: nat)
    requires ByLastUse(c, uses, size) && id in c.replies
    ensures ByLastUse(Touch(c, id), uses + [id], size)
  {
    hide Since, NoDup, Placed, TouchOrder;
    TouchKeepsWf(c, id, size);
    assert id in Elems(c.order);
    TouchOrderShape(c.order, id);
    var i :| 0 <= i < |c.order| && c.order[i] == id
             && TouchOrder(c.order, id) == c.order[..i] + c.order[i + 1..] + [id];
    forall p | 0 <= p < |c.order| ensures Placed(uses + [id], TouchOrder(c.order, id), p) {
      TouchedPlaced(c.order, uses, i, p);
    }
    OthersStayOut(c, uses, id, size);
  }

  lemma TouchedSuffix(order: seq<string>, i: nat, p: nat)
    requires i < |order| && p < |order| && NoDup(order)
    ensures var order' := order[..i] + order[i + 1..] + [order[i]];
            var q := if p < i then p else p + 1;
            p < |order| - 1 ==> order'[p] == order[q] && order[q] != order[i]
                                && Elems(order'[p + 1..]) == Elems(order[q + 1..]) + {order[i]}
  {
    var order' := order[..i] + order[i + 1..] + [order[i]];
    if p < i {
      assert order'[p + 1..] == order[p + 1..i] + order[i + 1..] + [order[i]];
      assert order[p + 1..] == order[p + 1..i] + [order[i]] + order[i + 1..];
    } else if p < |order| - 1 {
      assert order'[p + 1..] == order[p + 2..] + [order[i]];
    }
  }

  lemma ReplaceKnown(c: Cache, uses: seq<string>, id: string, reply: Response, size: nat)
    requires ByLastUse(c, uses, size) && id in c.replies
    ensures ByLastUse(Remember(c, id, reply, size), uses, size)
  {
    RememberKeepsWf(c, id, reply, size);
  }

  lemma StepByLastUse(call: Call, c: Cache, uses: seq<string>, size: nat)
    requires size > 0 && ByLastUse(c, uses, size)
    ensures var more := if (call.id in c.replies) == call.Recalled? then [call.id] else [];
            ByLastUse(Step(call, c, size), uses + more, size)
  {
    assert uses + [] == uses;
    match call
    case Remembered(id, reply) =>
      if id in c.replies { ReplaceKnown(c, uses, id, reply, size); } else { UseUnknown(c, uses, id, reply, size); }
    case Recalled(id) =>
      if id in c.replies { UseKnown(c, uses, id, size); }
  }

  lemma {:induction false} RunByLastUse(calls: seq<Call>, size: nat)
    requires size > 0
    ensures ByLastUse(Run(calls, size), Uses(calls, size), size)
  {
    if calls != [] {
      var front := calls[..|calls| - 1];
      RunByLastUse(front, size);
      StepByLastUse(calls[|calls| - 1], Run(front, size), Uses(front, size), size);
    }
  }

  /** An id is answered from the cache exactly while fewer than `size` distinct
      others were used since its own last use. */
  lemma HeldIff(calls: seq<Call>, size: nat, id: string)
    requires size > 0
    ensures id in Run(calls, size).replies <==>
            id in Uses(calls, size) && |Since(Uses(calls, size), id)| < size
    ensures WfCache(Run(calls, size), size)
  {
    RunByLastUse(calls, size);
    var c := Run(calls, size);
    if id in c.replies {
      var p :| 0 <= p < |c.order| && c.order[p] == id;
      assert Placed(Uses(calls, size), c.order, p);
      NoDupCard(c.order[p + 1..]);
    }
  }

  /** Of two held ids, the one used longer ago comes first and is evicted first. */
  lemma OrderIsByLastUse(calls: seq<Call>, size: nat, p: nat, q: nat)
    requires size > 0
    requires p < q < |Run(calls, size).order|
    ensures var order, uses := Run(calls, size).order, Uses(calls, size);
            order[q] in Since(uses, order[p]) && order[p] !in Since(uses, order[q])
  {
    RunByLastUse(calls, size);
    var order := Run(calls, size).order;
    assert Placed(Uses(calls, size), order, p) && Placed(Uses(calls, size), order, q);
    assert order[p + 1..][q - p - 1] == order[q];
  }
}

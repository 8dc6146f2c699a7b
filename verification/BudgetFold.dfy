/** The reducer over the per-replica spend partials
    (internal/controller/modelprovider_budget.go and
    modelprovider_agentspend.go): one walk over the keys of a ConfigMap, in
    whatever order the map yields them. Money is in cents; a value is what the
    gateway's parser makes of it. */
module BudgetFold {

  type Cents = nat
  type Spend = map<string, Cents>
  /** Periods of one scheme, numbered in time order; 0 is the empty key. */
  type Period = nat

  datatype Entry = Unreadable | Partial(period: Period, spend: Spend, margin: bool, uid: string)

  /** A replica's key, named after its Pod, or the reducer's own accumulator. */
  datatype Key = RetiredKey | Replica(pod: string)
  type Data = map<Key, Entry>

  /** The budget reducer keeps an unreadable _retired, the agent-spend reducer deletes it. */
  datatype Kind = Budget | AgentSpend

  datatype Ctx = Ctx(kind: Kind, live: set<Key>, period: Period, uid: string)

  // ---- money ------------------------------------------------------------------

  function At(s: Spend, ns: string): Cents {
    if ns in s then s[ns] else 0
  }

  function Plus(a: Spend, b: Spend): Spend {
    map ns | ns in a.Keys + b.Keys :: At(a, ns) + At(b, ns)
  }

  method AddInto(dst: Spend, src: Spend) returns (r: Spend)
    ensures r == Plus(dst, src)
  {
    r := dst;
    var todo := src.Keys;
    while todo != {}
      invariant todo <= src.Keys
      invariant r.Keys == dst.Keys + (src.Keys - todo)
      invariant forall ns | ns in r :: r[ns] == At(dst, ns) + (if ns in todo then 0 else At(src, ns))
      decreases todo
    {
      var ns :| ns in todo;
      r := r[ns := At(r, ns) + src[ns]];
      todo := todo - {ns};
    }
  }

  /** What the keys hold together, per namespace. */
  ghost function SpendOf(d: Data, k: Key): Spend {
    if k in d && d[k].Partial? then d[k].spend else map[]
  }

  ghost function Total(d: Data, keys: set<Key>): Spend {
    if keys == {} then map[]
    else
      var k :| k in keys;
      Plus(Total(d, keys - {k}), SpendOf(d, k))
  }

  lemma PlusZero(a: Spend)
    ensures Plus(a, map[]) == a && Plus(map[], a) == a
  {}

  lemma PlusComm(a: Spend, b: Spend)
    ensures Plus(a, b) == Plus(b, a)
  {}

  lemma PlusAssoc(a: Spend, b: Spend, c: Spend)
    ensures Plus(a, Plus(b, c)) == Plus(Plus(a, b), c)
  {
    var l, r := Plus(a, Plus(b, c)), Plus(Plus(a, b), c);
    assert l.Keys == r.Keys;
    forall ns | ns in l ensures l[ns] == r[ns] {
      assert At(Plus(b, c), ns) == At(b, ns) + At(c, ns);
      assert At(Plus(a, b), ns) == At(a, ns) + At(b, ns);
    }
  }

  lemma PlusSwap(a: Spend, b: Spend, c: Spend)
    ensures Plus(Plus(a, b), c) == Plus(Plus(a, c), b)
  {
    hide Plus;
    PlusAssoc(a, b, c);
    PlusAssoc(a, c, b);
    PlusComm(b, c);
  }

  lemma TotalOnce(d: Data, keys: set<Key>) returns (k: Key)
    requires keys != {}
    ensures k in keys && Total(d, keys) == Plus(Total(d, keys - {k}), SpendOf(d, k))
  {
    hide Plus, SpendOf;
    k :| k in keys && Total(d, keys) == Plus(Total(d, keys - {k}), SpendOf(d, k));
  }

  /** The total does not depend on the order the keys are taken in. */
  lemma {:induction false} TotalRemove(d: Data, keys: set<Key>, k: Key)
    requires k in keys
    ensures Total(d, keys) == Plus(Total(d, keys - {k}), SpendOf(d, k))
    decreases |keys|
  {
    hide Plus, Total, SpendOf;
    var x := TotalOnce(d, keys);
    if x != k {
      TotalRemove(d, keys - {x}, k);
      TotalRemove(d, keys - {k}, x);
      assert keys - {x} - {k} == keys - {k} - {x};
      PlusSwap(Total(d, keys - {x} - {k}), SpendOf(d, k), SpendOf(d, x));
    }
  }

  lemma TotalAdd(d: Data, keys: set<Key>, k: Key)
    requires k !in keys
    ensures Total(d, keys + {k}) == Plus(Total(d, keys), SpendOf(d, k))
  {
    TotalRemove(d, keys + {k}, k);
    assert keys + {k} - {k} == keys;
  }

  lemma {:induction false} TotalUnion(d: Data, a: set<Key>, b: set<Key>)
    requires a !! b
    ensures Total(d, a + b) == Plus(Total(d, a), Total(d, b))
    decreases |b|
  {
    hide Plus, SpendOf;
    if b == {} {
      PlusZero(Total(d, a));
      assert a + b == a;
    } else {
      var k :| k in b;
      TotalUnion(d, a, b - {k});
      assert a + b == a + (b - {k}) + {k} && b == b - {k} + {k};
      TotalAdd(d, a + (b - {k}), k);
      TotalAdd(d, b - {k}, k);
      PlusAssoc(Total(d, a), Total(d, b - {k}), SpendOf(d, k));
    }
  }

  /** Only what the keys hold matters. */
  lemma {:induction false} TotalSame(d: Data, e: Data, keys: set<Key>)
    requires forall k | k in keys :: SpendOf(d, k) == SpendOf(e, k)
    ensures Total(d, keys) == Total(e, keys)
    decreases |keys|
  {
    hide Plus;
    if keys != {} {
      var k :| k in keys;
      TotalSame(d, e, keys - {k});
      TotalRemove(d, keys, k);
      TotalRemove(e, keys, k);
    }
  }

  // ---- what a pass does with a key -----------------------------------------------

  /** Written for a deleted provider of the same name. */
  predicate Foreign(c: Ctx, e: Entry) {
    e.Partial? && e.uid != "" && e.uid != c.uid
  }

  predicate Now(c: Ctx, e: Entry) {
    e.Partial? && !Foreign(c, e) && e.period == c.period
  }

  predicate Old(c: Ctx, e: Entry) {
    e.Partial? && !Foreign(c, e) && e.period != c.period
  }

  /** A live replica's current-period figure. */
  predicate Counts(c: Ctx, k: Key, e: Entry) {
    k != RetiredKey && k in c.live && Now(c, e)
  }

  /** Spend of replicas that are gone: the accumulator and what joins it now. */
  predicate Joins(c: Ctx, k: Key, e: Entry) {
    (k == RetiredKey || k !in c.live) && Now(c, e)
  }

  predicate Doomed(c: Ctx, k: Key, e: Entry) {
    || Foreign(c, e)
    || (k == RetiredKey && (Old(c, e) || (c.kind.AgentSpend? && e.Unreadable?)))
    || (k != RetiredKey && (k !in c.live || Old(c, e)))
  }

  function Counting(c: Ctx, d: Data): set<Key> {
    set k | k in d && Counts(c, k, d[k])
  }

  function Joining(c: Ctx, d: Data): set<Key> {
    set k | k in d && Joins(c, k, d[k])
  }

  function Dooming(c: Ctx, d: Data): set<Key> {
    set k | k in d && Doomed(c, k, d[k])
  }

  function Raising(c: Ctx, d: Data): set<Key> {
    set k | k in d && Counts(c, k, d[k]) && d[k].margin
  }

  datatype Fold = Fold(
    data: Data, current: Spend, retired: Spend, stale: map<Key, (Period, Spend)>,
    changed: bool, retiredChanged: bool, marginRaised: bool)

  function Stale(c: Ctx, d: Data): map<Key, (Period, Spend)> {
    map k | k in d && Old(c, d[k]) :: (d[k].period, d[k].spend)
  }

  /** The walk with the keys `todo` still ahead, described without an order. */
  ghost predicate FoldedUpTo(c: Ctx, d: Data, todo: set<Key>, f: Fold) {
    var seen := Seen(d, todo);
    && f.data == d - Dooming(c, seen)
    && f.current == Total(d, Counting(c, seen))
    && f.retired == Total(d, Joining(c, seen))
    && f.changed == (Dooming(c, seen) != {})
    && f.retiredChanged == (Joining(c, seen) - {RetiredKey} != {})
    && (c.kind.Budget? ==> f.stale == Stale(c, seen))
    && (c.kind.Budget? ==> f.marginRaised == (Raising(c, seen) != {}))
  }

  ghost predicate IsFold(c: Ctx, d: Data, f: Fold) {
    FoldedUpTo(c, d, {}, f)
  }

  /** The part of the data the walk has passed. */
  function Seen(d: Data, todo: set<Key>): Data {
    map k | k in d && k !in todo :: d[k]
  }

  lemma SeenOneMore(c: Ctx, d: Data, todo: set<Key>, k: Key)
    requires k in d && k in todo
    ensures Counting(c, Seen(d, todo - {k})) == Counting(c, Seen(d, todo)) + (if Counts(c, k, d[k]) then {k} else {})
    ensures Joining(c, Seen(d, todo - {k})) == Joining(c, Seen(d, todo)) + (if Joins(c, k, d[k]) then {k} else {})
    ensures k !in Counting(c, Seen(d, todo)) && k !in Joining(c, Seen(d, todo))
    ensures Dooming(c, Seen(d, todo - {k})) == Dooming(c, Seen(d, todo)) + (if Doomed(c, k, d[k]) then {k} else {})
    ensures Raising(c, Seen(d, todo - {k})) == Raising(c, Seen(d, todo))
            + (if Counts(c, k, d[k]) && d[k].margin then {k} else {})
    ensures Stale(c, Seen(d, todo - {k})) ==
            var t := Stale(c, Seen(d, todo));
            if Old(c, d[k]) then t[k := (d[k].period, d[k].spend)] else t
  {}

  /** Adds a key's spend to a running total when the key belongs to it. */
  lemma RunningTotals(c: Ctx, d: Data, todo: set<Key>, k: Key)
    requires k in d && k in todo
    ensures Total(d, Counting(c, Seen(d, todo - {k}))) ==
            var t := Total(d, Counting(c, Seen(d, todo)));
            if Counts(c, k, d[k]) then Plus(t, d[k].spend) else t
    ensures Total(d, Joining(c, Seen(d, todo - {k}))) ==
            var t := Total(d, Joining(c, Seen(d, todo)));
            if Joins(c, k, d[k]) then Plus(t, d[k].spend) else t
  {
    hide Plus, Total, Counting, Joining, Seen;
    SeenOneMore(c, d, todo, k);
    TotalAdd(d, Counting(c, Seen(d, todo)), k);
    TotalAdd(d, Joining(c, Seen(d, todo)), k);
    assert Counting(c, Seen(d, todo)) + {} == Counting(c, Seen(d, todo));
    assert Joining(c, Seen(d, todo)) + {} == Joining(c, Seen(d, todo));
  }

  // ---- the walk ---------------------------------------------------------------------

  /** What the walk owes a key: delete it, add its spend somewhere, archive it. */
  ghost predicate Visited(c: Ctx, f: Fold, k: Key, e: Entry, g: Fold) {
    && g.data == (if Doomed(c, k, e) then f.data - {k} else f.data)
    && g.current == (if Counts(c, k, e) then Plus(f.current, e.spend) else f.current)
    && g.retired == (if Joins(c, k, e) then Plus(f.retired, e.spend) else f.retired)
    && g.changed == (f.changed || Doomed(c, k, e))
    && g.retiredChanged == (f.retiredChanged || (k != RetiredKey && Joins(c, k, e)))
    && (c.kind.Budget? ==> g.stale == if Old(c, e) then f.stale[k := (e.period, e.spend)] else f.stale)
    && (c.kind.Budget? ==> g.marginRaised == (f.marginRaised || (Counts(c, k, e) && e.margin)))
  }

  lemma VisitKeeps(c: Ctx, d: Data, todo: set<Key>, k: Key, f: Fold, g: Fold)
    requires k in d && k in todo && todo <= d.Keys
    requires FoldedUpTo(c, d, todo, f) && Visited(c, f, k, d[k], g)
    ensures FoldedUpTo(c, d, todo - {k}, g)
  {
    hide Total, Plus, Counting, Joining, Dooming, Raising, Stale, Seen, Counts, Joins, Doomed, Old;
    RunningTotals(c, d, todo, k);
    SeenOneMore(c, d, todo, k);
    DropOneMore(d, Dooming(c, Seen(d, todo)), k);
    SetOneMore(Dooming(c, Seen(d, todo)), k);
    SetOneMore(Joining(c, Seen(d, todo)), k);
    SetOneMore(Raising(c, Seen(d, todo)), k);
  }

  lemma DropOneMore(d: Data, gone: set<Key>, k: Key)
    ensures d - gone - {k} == d - (gone + {k})
  {}

  lemma SetOneMore(a: set<Key>, k: Key)
    ensures a + {} == a && a + {k} != {}
    ensures (a + {k} - {RetiredKey} != {}) <==> (a - {RetiredKey} != {} || k != RetiredKey)
  {
    assert k in a + {k};
    if k != RetiredKey { assert k in a + {k} - {RetiredKey}; }
    if k == RetiredKey { assert a + {k} - {RetiredKey} == a - {RetiredKey}; }
    if x :| x in a - {RetiredKey} { assert x in a + {k} - {RetiredKey}; }
  }

  /** The reducer's own accumulator: carried while current, archived at rollover. */
  method VisitRetired(f: Fold, e: Entry, kind: Kind, ghost live: set<Key>, period: Period, uid: string)
      returns (g: Fold)
    requires !Foreign(Ctx(kind, live, period, uid), e)
    ensures Visited(Ctx(kind, live, period, uid), f, RetiredKey, e, g)
  {
    hide Plus;
    g := f;
    if e.Partial? && e.period == period {
      var sum := AddInto(g.retired, e.spend);
      g := g.(retired := sum);
    } else if e.Partial? {
      g := g.(stale := g.stale[RetiredKey := (e.period, e.spend)], data := g.data - {RetiredKey}, changed := true);
    } else if kind.AgentSpend? {
      g := g.(data := g.data - {RetiredKey}, changed := true);
    }
  }

  /** A replica whose Pod is gone: its current figure joins the accumulator. */
  method VisitGone(f: Fold, k: Key, e: Entry, ghost kind: Kind, ghost live: set<Key>, period: Period, uid: string)
    returns (g: Fold)
    requires k.Replica? && k !in live && !Foreign(Ctx(kind, live, period, uid), e)
    ensures Visited(Ctx(kind, live, period, uid), f, k, e, g)
  {
    hide Plus;
    g := f.(data := f.data - {k}, changed := true);
    if e.Partial? && e.period == period {
      var sum := AddInto(g.retired, e.spend);
      g := g.(retired := sum, retiredChanged := true);
    } else if e.Partial? {
      g := g.(stale := g.stale[k := (e.period, e.spend)]);
    }
  }

  /** A live replica: its current figure counts; an old one makes room for the next publish. */
  method VisitLive(f: Fold, k: Key, e: Entry, ghost kind: Kind, ghost live: set<Key>, period: Period, uid: string)
    returns (g: Fold)
    requires k.Replica? && k in live && !Foreign(Ctx(kind, live, period, uid), e)
    ensures Visited(Ctx(kind, live, period, uid), f, k, e, g)
  {
    hide Plus;
    g := f;
    if e.Partial? && e.period == period {
      var sum := AddInto(g.current, e.spend);
      g := g.(current := sum, marginRaised := g.marginRaised || e.margin);
    } else if e.Partial? {
      g := g.(stale := g.stale[k := (e.period, e.spend)], data := g.data - {k}, changed := true);
    }
  }

  /** One key of a walk. The agent-spend walk keeps neither archive nor margin,
      so what this collects for them is dropped there. */
  method VisitKey(f: Fold, k: Key, e: Entry, kind: Kind, live: set<Key>, period: Period, uid: string) returns (g: Fold)
    ensures Visited(Ctx(kind, live, period, uid), f, k, e, g)
    ensures e.Partial? && e.uid != "" && e.uid != uid ==> g == f.(data := f.data - {k}, changed := true)
  {
    if e.Partial? && e.uid != "" && e.uid != uid {
      g := f.(data := f.data - {k}, changed := true);
    } else if k.RetiredKey? {
      g := VisitRetired(f, e, kind, live, period, uid);
    } else if k !in live {
      g := VisitGone(f, k, e, kind, live, period, uid);
    } else {
      g := VisitLive(f, k, e, kind, live, period, uid);
    }
  }

  lemma StartFold(c: Ctx, d: Data)
    ensures FoldedUpTo(c, d, d.Keys, Fold(d, map[], map[], map[], false, false, false))
  {
    var seen := Seen(d, d.Keys);
    assert seen == map[];
    assert Counting(c, seen) == Joining(c, seen) == Dooming(c, seen) == Raising(c, seen) == {};
  }

  /** Both walks, in any order, are the fold. */
  method FoldKeys(d: Data, kind: Kind, live: set<Key>, period: Period, uid: string) returns (f: Fold)
    ensures IsFold(Ctx(kind, live, period, uid), d, f)
  {
    hide FoldedUpTo, Visited;
    ghost var c := Ctx(kind, live, period, uid);
    f := Fold(d, map[], map[], map[], false, false, false);
    StartFold(c, d);
    var todo := d.Keys;
    while todo != {}
      invariant todo <= d.Keys && FoldedUpTo(c, d, todo, f)
      decreases todo
    {
      var k :| k in todo;
      var g := VisitKey(f, k, d[k], kind, live, period, uid);
      VisitKeeps(c, d, todo, k, f, g);
      f, todo := g, todo - {k};
    }
    IsFoldWhenDone(c, d, f);
  }

  lemma IsFoldWhenDone(c: Ctx, d: Data, f: Fold)
    requires FoldedUpTo(c, d, {}, f)
    ensures IsFold(c, d, f)
  {}

  // ---- what a pass makes of each key ---------------------------------------------------

  /** What a pass keeps, counts, joins and archives, key by key and by the entries' own
      fields: a partial is this provider's when it carries its uid or none. */
  lemma KeyFates(c: Ctx, d: Data, f: Fold)
    requires IsFold(c, d, f)
    ensures forall k :: k in f.data <==>
              && k in d
              && (match d[k]
                  case Unreadable => if k.RetiredKey? then c.kind.Budget? else k in c.live
                  case Partial(period, _, _, uid) =>
                    period == c.period && (uid == "" || uid == c.uid) && (k.RetiredKey? || k in c.live))
    ensures forall k | k in f.data :: f.data[k] == d[k]
    ensures f.current == Total(d, set k | k in d && k.Replica? && k in c.live && d[k].Partial?
                                         && d[k].period == c.period && (d[k].uid == "" || d[k].uid == c.uid))
    ensures f.retired == Total(d, set k | k in d && (k.RetiredKey? || k !in c.live) && d[k].Partial?
                                         && d[k].period == c.period && (d[k].uid == "" || d[k].uid == c.uid))
    ensures f.retiredChanged <==> exists k | k in d :: k.Replica? && k !in c.live && d[k].Partial?
                                         && d[k].period == c.period && (d[k].uid == "" || d[k].uid == c.uid)
    ensures f.changed <==> f.data != d
  {
    hide Total, Plus;
    assert Seen(d, {}) == d;
    assert Counting(c, d) == set k | k in d && k.Replica? && k in c.live && d[k].Partial?
                                     && d[k].period == c.period && (d[k].uid == "" || d[k].uid == c.uid);
    assert Joining(c, d) == set k | k in d && (k.RetiredKey? || k !in c.live) && d[k].Partial?
                                    && d[k].period == c.period && (d[k].uid == "" || d[k].uid == c.uid);
    if f.retiredChanged { var k :| k in Joining(c, d) - {RetiredKey}; }
    if f.changed { var k :| k in Dooming(c, d); }
  }

  /** What a budget pass archives, and when a live replica raises the margin. */
  lemma ArchivedKeys(c: Ctx, d: Data, f: Fold)
    requires IsFold(c, d, f) && c.kind.Budget?
    ensures forall k :: k in f.stale <==>
              k in d && d[k].Partial? && d[k].period != c.period && (d[k].uid == "" || d[k].uid == c.uid)
    ensures forall k | k in f.stale :: f.stale[k] == (d[k].period, d[k].spend)
    ensures f.marginRaised <==> exists k | k in d :: k.Replica? && k in c.live && d[k].Partial? && d[k].margin
                                         && d[k].period == c.period && (d[k].uid == "" || d[k].uid == c.uid)
  {
    hide Total, Plus;
    assert Seen(d, {}) == d;
    if f.marginRaised { var k :| k in Raising(c, d); }
  }

  lemma ForeignSets(c: Ctx, d: Data, k: Key)
    requires k in d && d[k].Partial? && d[k].uid != "" && d[k].uid != c.uid
    ensures var e := d - {k};
            && Counting(c, d) == Counting(c, e) && Joining(c, d) == Joining(c, e) && Raising(c, d) == Raising(c, e)
            && Dooming(c, d) == Dooming(c, e) + {k} && Stale(c, d) == Stale(c, e)
            && k !in Counting(c, d) && k !in Joining(c, d)
  {}

  /** A key written for a deleted provider of the same name is gone after the pass, and
      the pass does in everything else as if it had never been there. */
  lemma ForeignKeyIgnored(c: Ctx, d: Data, k: Key, f: Fold, g: Fold)
    requires k in d && d[k].Partial? && d[k].uid != "" && d[k].uid != c.uid
    requires IsFold(c, d, f) && IsFold(c, d - {k}, g)
    ensures k !in f.data && f.changed
    ensures f.data == g.data && f.current == g.current && f.retired == g.retired
    ensures f.retiredChanged == g.retiredChanged
    ensures c.kind.Budget? ==> f.stale == g.stale && f.marginRaised == g.marginRaised
  {
    hide Total, Plus, Counting, Joining, Dooming, Raising, Stale, Seen, IsFold, FoldedUpTo;
    FoldParts(c, d, f);
    FoldParts(c, d - {k}, g);
    ForeignSets(c, d, k);
    DropFirst(d, Dooming(c, d - {k}), k);
    SetOneMore(Dooming(c, d - {k}), k);
    SpendSame(d, k, Counting(c, d));
    SpendSame(d, k, Joining(c, d));
  }

  lemma FoldParts(c: Ctx, d: Data, f: Fold)
    requires IsFold(c, d, f)
    ensures f.data == d - Dooming(c, d) && f.changed == (Dooming(c, d) != {})
    ensures f.current == Total(d, Counting(c, d)) && f.retired == Total(d, Joining(c, d))
    ensures f.retiredChanged == (Joining(c, d) - {RetiredKey} != {})
    ensures c.kind.Budget? ==> f.stale == Stale(c, d) && f.marginRaised == (Raising(c, d) != {})
  {
    assert Seen(d, {}) == d;
    hide Total, Counting, Joining, Dooming, Raising, Stale, Seen;
  }

  lemma DropFirst(d: Data, gone: set<Key>, k: Key)
    ensures d - (gone + {k}) == d - {k} - gone && k !in d - (gone + {k})
  {}

  lemma SpendSame(d: Data, k: Key, keys: set<Key>)
    requires k !in keys
    ensures Total(d, keys) == Total(d - {k}, keys)
  {
    hide Total;
    TotalSame(d, d - {k}, keys);
  }
}

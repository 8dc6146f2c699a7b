/** Spend conservation over whole runs of one period: replicas publish their
    cumulative figure, Pods come and go, and the reducer folds the figures of
    Pods that are gone into its accumulator. A pass lists the Pods before it reads
    the figures, from a cache, so its list may be any. `last`, `folded` and `extra`
    are history variables: the last figure each replica published this period, the
    replicas folded in since then, and what was folded in of replicas that
    published again. */
module BudgetRuns {
  import opened BudgetFold

  // ---- one pass over the ConfigMap ------------------------------------------

  /** The replicas a pass folds in. */
  function Leaving(c: Ctx, d: Data): set<Key> {
    Joining(c, d) - {RetiredKey}
  }

  ghost function ReducedData(c: Ctx, d: Data): Data {
    var kept := d - Dooming(c, d);
    if Leaving(c, d) == {} then kept
    else kept[RetiredKey := Partial(c.period, Total(d, Joining(c, d)), false, c.uid)]
  }

  /** The period's spend everyone must see. */
  ghost function Canonical(c: Ctx, d: Data): Spend {
    Plus(Total(d, Counting(c, d)), Total(d, Joining(c, d)))
  }

  lemma FoldReduces(c: Ctx, d: Data, f: Fold)
    requires IsFold(c, d, f)
    ensures ReducedData(c, d) ==
            if f.retiredChanged then f.data[RetiredKey := Partial(c.period, f.retired, false, c.uid)] else f.data
    ensures Canonical(c, d) == Plus(f.current, f.retired)
  {
    hide Plus, Total;
    assert Seen(d, {}) == d;
  }

  // ---- runs ----------------------------------------------------------------------

  datatype World = World(
    data: Data, canonical: Spend, live: set<Key>, ever: set<Key>, last: Data, folded: set<Key>, extra: Spend)

  datatype Act =
    | PodStart(pod: Key)
    | PodGone(gone: Key)
    | Publish(from: Key, spend: Spend, margin: bool, tagged: bool)
    | PublishOther(late: Key, entry: Entry)
    | Reduce(listed: set<Key>)

  /** What one provider's reducer works with for a whole period. */
  datatype Setup = Setup(kind: Kind, period: Period, uid: string)

  function CtxOf(s: Setup, listed: set<Key>): Ctx {
    Ctx(s.kind, listed, s.period, s.uid)
  }

  /** An entry of this period that carries the provider's uid or none. */
  predicate OfPeriod(s: Setup, e: Entry) {
    e.Partial? && e.period == s.period && (e.uid == "" || e.uid == s.uid)
  }

  /** The period begins: whatever the ConfigMap holds is of another period, or was
      written for a deleted provider of the same name, or cannot be read. */
  ghost predicate Fresh(s: Setup, w: World) {
    && (forall k | k in w.data :: !OfPeriod(s, w.data[k]))
    && w.last == map[] && w.folded == {} && w.extra == map[] && w.live <= w.ever && RetiredKey !in w.ever
  }

  ghost function Published(w: World, k: Key, e: Entry): World {
    w.(data := w.data[k := e], last := w.last[k := e], folded := w.folded - {k},
       extra := if k in w.folded then Plus(w.extra, SpendOf(w.last, k)) else w.extra)
  }

  ghost function Reduced(c: Ctx, w: World): World {
    w.(data := ReducedData(c, w.data), canonical := Canonical(c, w.data), folded := w.folded + Leaving(c, w.data))
  }

  /** A Pod publishes only while it lives, and its name is never used again. What a
      replica publishes of the old period or for a deleted provider of the same name
      comes before its first figure of this period. */
  ghost function Step(s: Setup, w: World, a: Act): World {
    match a
    case PodStart(k) =>
      if k.Replica? && k !in w.ever then w.(live := w.live + {k}, ever := w.ever + {k}) else w
    case PodGone(k) => w.(live := w.live - {k})
    case Publish(k, spend, margin, tagged) =>
      if k !in w.live then w else Published(w, k, Partial(s.period, spend, margin, if tagged then s.uid else ""))
    case PublishOther(k, e) =>
      if k !in w.live || k in w.last || OfPeriod(s, e) then w else w.(data := w.data[k := e])
    case Reduce(listed) => Reduced(CtxOf(s, listed), w)
  }

  ghost function Run(s: Setup, w: World, acts: seq<Act>): World {
    if acts == [] then w else Step(s, Run(s, w, acts[..|acts| - 1]), acts[|acts| - 1])
  }

  /** What every replica that ever existed last said, together. */
  ghost function Owed(w: World): Spend {
    Total(w.last, w.last.Keys)
  }

  // ---- the invariant ----------------------------------------------------------------

  ghost predicate SetsInv(w: World) {
    w.live <= w.ever && w.last.Keys <= w.ever && w.folded <= w.last.Keys && RetiredKey !in w.ever
  }

  /** A replica not folded in holds its last figure, and nobody else a current one. */
  ghost predicate KeyInv(c: Ctx, w: World, k: Key) {
    && (k in w.last ==> w.last[k].Partial?)
    && (k.Replica? ==> ((k in w.data && Now(c, w.data[k])) <==> (k in w.last && k !in w.folded)))
    && (k in w.last && k !in w.folded ==> SpendOf(w.data, k) == SpendOf(w.last, k))
  }

  ghost predicate KeysInv(c: Ctx, w: World) {
    forall k :: KeyInv(c, w, k)
  }

  /** The accumulator holds the last figures of the replicas folded in, and once more
      those of replicas that published again. */
  ghost predicate HeldInv(c: Ctx, w: World) {
    if HasHeld(c, w.data) then Held(c, w.data) == Plus(Total(w.last, w.folded), w.extra)
    else w.folded == {} && w.extra == map[]
  }

  ghost predicate Inv(s: Setup, w: World) {
    SetsInv(w) && KeysInv(CtxOf(s, {}), w) && HeldInv(CtxOf(s, {}), w)
  }

  /** Whom a pass lists does not matter to what is of this period. */
  lemma AnyList(s: Setup, w: World, listed: set<Key>)
    requires Inv(s, w)
    ensures KeysInv(CtxOf(s, listed), w) && HeldInv(CtxOf(s, listed), w)
  {
    hide Plus, Total;
    forall k ensures KeyInv(CtxOf(s, listed), w, k) { assert KeyInv(CtxOf(s, {}), w, k); }
  }

  /** The accumulator as it stands. */
  predicate HasHeld(c: Ctx, d: Data) {
    RetiredKey in d && Now(c, d[RetiredKey])
  }

  function Held(c: Ctx, d: Data): Spend {
    if HasHeld(c, d) then d[RetiredKey].spend else map[]
  }

  lemma JoinedTotal(c: Ctx, d: Data)
    ensures Total(d, Joining(c, d)) == Plus(Total(d, Leaving(c, d)), Held(c, d))
  {
    hide Plus;
    if HasHeld(c, d) {
      assert Joining(c, d) == Leaving(c, d) + {RetiredKey};
      TotalAdd(d, Leaving(c, d), RetiredKey);
    } else {
      assert Joining(c, d) == Leaving(c, d);
      PlusZero(Total(d, Leaving(c, d)));
    }
  }

  lemma HeldIsFolded(c: Ctx, w: World)
    requires KeysInv(c, w) && HeldInv(c, w) && SetsInv(w)
    ensures Held(c, w.data) == Plus(Total(w.last, w.folded), w.extra)
    ensures Counting(c, w.data) + Leaving(c, w.data) == w.last.Keys - w.folded
    ensures Counting(c, w.data) !! Leaving(c, w.data)
  {
    hide Plus;
    assert Total(w.last, {}) == map[];
    PlusZero(map[]);
    forall k: Key ensures k in Counting(c, w.data) + Leaving(c, w.data) <==> k in w.last && k !in w.folded {
      assert KeyInv(c, w, k);
    }
  }

  /** Live partials and the accumulator together are what the replicas last said, and
      what was counted twice. */
  lemma Conserved(c: Ctx, w: World)
    requires KeysInv(c, w) && HeldInv(c, w) && SetsInv(w)
    ensures Canonical(c, w.data) == Plus(Owed(w), w.extra)
    ensures Total(w.data, Joining(c, w.data)) == Plus(Total(w.last, w.folded + Leaving(c, w.data)), w.extra)
  {
    HeldIsFolded(c, w);
    hide Plus, Total, Counting, Joining, Now, HeldInv;
    var live, gone := Counting(c, w.data), Leaving(c, w.data);
    var tl, tg, tf := Total(w.last, live), Total(w.last, gone), Total(w.last, w.folded);
    JoinedTotal(c, w.data);
    assert forall k | k in live + gone :: KeyInv(c, w, k) && SpendOf(w.data, k) == SpendOf(w.last, k);
    TotalSame(w.data, w.last, live);
    TotalSame(w.data, w.last, gone);
    TotalUnion(w.last, w.folded, gone);
    PlusComm(tf, tg);
    PlusAssoc(tg, tf, w.extra);
    TotalUnion(w.last, live, w.folded + gone);
    assert live + (w.folded + gone) == w.last.Keys;
    PlusAssoc(tl, Plus(tg, tf), w.extra);
  }

  // ---- preservation --------------------------------------------------------------------

  lemma PublishKeepsHeld(c: Ctx, w: World, k: Key, e: Entry)
    requires HeldInv(c, w) && k != RetiredKey
    ensures HeldInv(c, Published(w, k, e))
  {
    hide Total, Plus;
    var w' := Published(w, k, e);
    assert forall x | x in w.folded - {k} :: SpendOf(w.last, x) == SpendOf(w'.last, x);
    TotalSame(w.last, w'.last, w.folded - {k});
    if k in w.folded {
      TotalRemove(w.last, w.folded, k);
      var t, f := Total(w.last, w.folded - {k}), SpendOf(w.last, k);
      PlusAssoc(t, f, w.extra);
      PlusComm(f, w.extra);
    } else {
      assert w.folded - {k} == w.folded;
    }
  }

  lemma PublishKeeps(s: Setup, w: World, k: Key, e: Entry)
    requires Inv(s, w) && k in w.live && Now(CtxOf(s, {}), e)
    ensures Inv(s, Published(w, k, e))
  {
    hide Total, Plus, HeldInv;
    var c, w' := CtxOf(s, {}), Published(w, k, e);
    PublishKeepsHeld(c, w, k, e);
    forall x ensures KeyInv(c, w', x) { assert KeyInv(c, w, x); }
  }

  lemma ReduceData(c: Ctx, d: Data)
    ensures var d' := ReducedData(c, d);
            && (forall k: Key | k.Replica? :: (k in d' && Now(c, d'[k])) <==> k in Counting(c, d))
            && (forall k | k in Counting(c, d) :: k in d && d'[k] == d[k])
            && (if Leaving(c, d) == {} then
                  Held(c, d') == Held(c, d) && (HasHeld(c, d') <==> HasHeld(c, d))
                else
                  HasHeld(c, d') && Held(c, d') == Total(d, Joining(c, d)))
  {
    hide Total, Plus;
  }

  lemma ReduceKeepsHeld(c: Ctx, w: World)
    requires KeysInv(c, w) && HeldInv(c, w) && SetsInv(w)
    ensures HeldInv(c, Reduced(c, w)) && SetsInv(Reduced(c, w))
  {
    Conserved(c, w);
    ReduceData(c, w.data);
    HeldIsFolded(c, w);
    hide Total, Plus, ReducedData, Canonical, Counting, Joining, Leaving, Now, HasHeld, Held, KeysInv;
    if Leaving(c, w.data) == {} { assert w.folded + {} == w.folded; }
  }

  lemma ReduceKeepsKeys(c: Ctx, w: World)
    requires KeysInv(c, w) && HeldInv(c, w) && SetsInv(w)
    ensures KeysInv(c, Reduced(c, w))
  {
    ReduceData(c, w.data);
    HeldIsFolded(c, w);
    hide Total, Plus, ReducedData, Canonical, Counting, Joining, Leaving, Now, HasHeld, Held, HeldInv;
    forall k ensures KeyInv(c, Reduced(c, w), k) {
      assert KeyInv(c, w, k);
      OneKeyReduced(c, w, k);
    }
  }

  lemma OneKeyReduced(c: Ctx, w: World, k: Key)
    requires KeyInv(c, w, k)
    requires k.Replica? ==>
               ((k in ReducedData(c, w.data) && Now(c, ReducedData(c, w.data)[k])) <==> k in Counting(c, w.data))
    requires k in Counting(c, w.data) ==>
               k in w.data && k in ReducedData(c, w.data) && ReducedData(c, w.data)[k] == w.data[k]
    requires (k in Counting(c, w.data) || k in Leaving(c, w.data)) <==> (k in w.last && k !in w.folded)
    requires !(k in Counting(c, w.data) && k in Leaving(c, w.data))
    ensures KeyInv(c, Reduced(c, w), k)
  {
    hide ReducedData, Canonical, Counting, Leaving, Now;
  }

  lemma ReduceKeeps(s: Setup, w: World, listed: set<Key>)
    requires Inv(s, w)
    ensures Inv(s, Step(s, w, Reduce(listed)))
  {
    var c, w' := CtxOf(s, listed), Step(s, w, Reduce(listed));
    AnyList(s, w, listed);
    hide ReducedData, Canonical, Leaving, KeysInv, HeldInv;
    ReduceKeepsHeld(c, w);
    ReduceKeepsKeys(c, w);
    SameOfPeriod(s, w', listed);
  }

  lemma SameOfPeriod(s: Setup, w: World, listed: set<Key>)
    requires KeysInv(CtxOf(s, listed), w) && HeldInv(CtxOf(s, listed), w)
    ensures KeysInv(CtxOf(s, {}), w) && HeldInv(CtxOf(s, {}), w)
  {
    hide Plus, Total;
    forall k ensures KeyInv(CtxOf(s, {}), w, k) { assert KeyInv(CtxOf(s, listed), w, k); }
  }

  lemma LiveDoesNotMatter(s: Setup, w: World, w': World)
    requires Inv(s, w) && w' == w.(live := w'.live, ever := w'.ever) && SetsInv(w')
    ensures Inv(s, w')
  {
    hide Total, Plus;
    forall x ensures KeyInv(CtxOf(s, {}), w', x) { assert KeyInv(CtxOf(s, {}), w, x); }
  }

  lemma StepKeeps(s: Setup, w: World, a: Act)
    requires Inv(s, w)
    ensures Inv(s, Step(s, w, a))
  {
    hide Total, Plus, ReducedData, Canonical;
    match a
    case Publish(k, spend, margin, tagged) =>
      if k in w.live { PublishKeeps(s, w, k, Partial(s.period, spend, margin, if tagged then s.uid else "")); }
    case Reduce(listed) => ReduceKeeps(s, w, listed);
    case PodStart(k) => LiveDoesNotMatter(s, w, Step(s, w, a));
    case PodGone(k) => LiveDoesNotMatter(s, w, Step(s, w, a));
    case PublishOther(k, e) =>
      var w' := Step(s, w, a);
      forall x ensures KeyInv(CtxOf(s, {}), w', x) { assert KeyInv(CtxOf(s, {}), w, x); }
  }

  lemma FreshInv(s: Setup, w: World)
    requires Fresh(s, w)
    ensures Inv(s, w)
  {}

  lemma {:induction false} RunKeeps(s: Setup, w: World, acts: seq<Act>)
    requires Fresh(s, w)
    ensures Inv(s, Run(s, w, acts))
  {
    hide Inv, Fresh, Step;
    if acts == [] { FreshInv(s, w); } else {
      RunKeeps(s, w, acts[..|acts| - 1]);
      StepKeeps(s, Run(s, w, acts[..|acts| - 1]), acts[|acts| - 1]);
    }
  }

  // ---- the guarantees --------------------------------------------------------------------

  ghost predicate Zero(a: Spend) {
    forall ns | ns in a :: a[ns] == 0
  }

  /** Whomever a pass folds in and publishes again later had said nothing yet. */
  ghost predicate FoldsForGood(s: Setup, w: World, acts: seq<Act>) {
    acts != [] ==>
      var front, a := acts[..|acts| - 1], acts[|acts| - 1];
      var v := Run(s, w, front);
      && FoldsForGood(s, w, front)
      && (a.Publish? && a.from in v.live && a.from in v.folded ==> Zero(SpendOf(v.last, a.from)))
  }

  /** However publishes, Pod starts, Pod removals and passes on whatever lists
      interleave, live partials plus the accumulator equal the sum of every replica's
      last figure and of the figures folded in before their replica published again. */
  lemma SpendAccounted(s: Setup, w: World, acts: seq<Act>, listed: set<Key>)
    requires Fresh(s, w)
    ensures var v := Run(s, w, acts);
            Canonical(CtxOf(s, listed), v.data) == Plus(Owed(v), v.extra)
  {
    hide Canonical, Plus, Owed, Fresh, Run;
    RunKeeps(s, w, acts);
    AnyList(s, Run(s, w, acts), listed);
    Conserved(CtxOf(s, listed), Run(s, w, acts));
  }

  lemma ZeroPlus(a: Spend, b: Spend)
    ensures Zero(Plus(a, b)) <==> Zero(a) && Zero(b)
  {
    var p := Plus(a, b);
    assert forall ns | ns in a :: ns in p && p[ns] == At(a, ns) + At(b, ns);
    assert forall ns | ns in b :: ns in p && p[ns] == At(a, ns) + At(b, ns);
  }

  lemma {:induction false} ExtraIff(s: Setup, w: World, acts: seq<Act>)
    requires Fresh(s, w)
    ensures Zero(Run(s, w, acts).extra) <==> FoldsForGood(s, w, acts)
  {
    if acts != [] {
      hide Plus, ReducedData, Canonical, Leaving, Zero;
      var front, a := acts[..|acts| - 1], acts[|acts| - 1];
      var v := Run(s, w, front);
      ExtraIff(s, w, front);
      if a.Publish? && a.from in v.live && a.from in v.folded { ZeroPlus(v.extra, SpendOf(v.last, a.from)); }
    }
  }

  lemma SameAmountsIff(a: Spend, b: Spend)
    ensures (forall ns :: At(Plus(a, b), ns) == At(a, ns)) <==> Zero(b)
  {
    forall ns ensures At(Plus(a, b), ns) == At(a, ns) + At(b, ns) {}
    if forall ns :: At(Plus(a, b), ns) == At(a, ns) {
      forall ns | ns in b ensures b[ns] == 0 { assert At(Plus(a, b), ns) == At(a, ns) + At(b, ns); }
    }
  }

  /** Spend is conserved, namespace by namespace, if and only if no pass of the run
      folds in the figure of a replica that publishes again: then no rollout loses or
      double-counts spend. */
  lemma SpendConservedIff(s: Setup, w: World, acts: seq<Act>, listed: set<Key>)
    requires Fresh(s, w)
    ensures var v := Run(s, w, acts);
            (forall ns :: At(Canonical(CtxOf(s, listed), v.data), ns) == At(Owed(v), ns))
            <==> FoldsForGood(s, w, acts)
  {
    hide Canonical, Plus, Owed, Run, Zero, FoldsForGood, Fresh, At;
    SpendAccounted(s, w, acts, listed);
    ExtraIff(s, w, acts);
    SameAmountsIff(Owed(Run(s, w, acts)), Run(s, w, acts).extra);
  }

  // ---- lists in step -------------------------------------------------------------------------

  /** Every pass lists at least the Pods that live when it reads the figures. */
  ghost predicate InStep(s: Setup, w: World, acts: seq<Act>) {
    acts != [] ==>
      var front, a := acts[..|acts| - 1], acts[|acts| - 1];
      InStep(s, w, front) && (a.Reduce? ==> Run(s, w, front).live <= a.listed)
  }

  lemma LeavingIsGone(c: Ctx, d: Data)
    ensures Leaving(c, d) !! c.live
  {}

  lemma {:induction false} NoneComesBack(s: Setup, w: World, acts: seq<Act>)
    requires Fresh(s, w) && InStep(s, w, acts)
    ensures Run(s, w, acts).folded !! Run(s, w, acts).live && Run(s, w, acts).extra == map[]
  {
    if acts != [] {
      hide Plus, ReducedData, Canonical, Leaving, Inv, Fresh;
      var front, a := acts[..|acts| - 1], acts[|acts| - 1];
      var v := Run(s, w, front);
      NoneComesBack(s, w, front);
      RunKeeps(s, w, front);
      assert v.folded <= v.ever by { FoldedEver(s, v); }
      if a.Reduce? { LeavingIsGone(CtxOf(s, a.listed), v.data); }
    } else {
      hide Inv;
    }
  }

  lemma FoldedEver(s: Setup, w: World)
    requires Inv(s, w)
    ensures w.folded <= w.ever
  {}

  /** Then conservation is exact in every run. */
  lemma SpendConserved(s: Setup, w: World, acts: seq<Act>, listed: set<Key>)
    requires Fresh(s, w) && InStep(s, w, acts)
    ensures Canonical(CtxOf(s, listed), Run(s, w, acts).data) == Owed(Run(s, w, acts))
  {
    hide Canonical, Plus, Owed, Run, Fresh, InStep;
    SpendAccounted(s, w, acts, listed);
    NoneComesBack(s, w, acts);
    PlusZero(Owed(Run(s, w, acts)));
  }

  /** What a pass writes as the canonical figures is exactly that sum. */
  lemma CanonicalIsOwed(s: Setup, w: World, acts: seq<Act>, listed: set<Key>)
    requires Fresh(s, w) && InStep(s, w, acts)
    ensures var w' := Run(s, w, acts + [Reduce(listed)]);
            w'.canonical == Owed(w') && Owed(w') == Owed(Run(s, w, acts))
  {
    hide Canonical, Owed, Fresh, InStep;
    assert (acts + [Reduce(listed)])[..|acts|] == acts;
    SpendConserved(s, w, acts, listed);
    SameOwed(Run(s, w, acts), Run(s, w, acts + [Reduce(listed)]));
  }

  lemma SameOwed(w: World, w': World)
    requires w.last == w'.last
    ensures Owed(w) == Owed(w')
  {}

  /** Running the pass again on the same list changes nothing. */
  lemma ReduceTwice(s: Setup, w: World, listed: set<Key>)
    requires Inv(s, w)
    ensures Step(s, Step(s, w, Reduce(listed)), Reduce(listed)) == Step(s, w, Reduce(listed))
  {
    hide Inv, Owed, Canonical, Leaving, ReducedData, Plus;
    var c, w' := CtxOf(s, listed), Step(s, w, Reduce(listed));
    ReduceKeeps(s, w, listed);
    AnyListConserved(s, w, listed);
    AnyListConserved(s, w', listed);
    SameOwed(w, w');
    NothingLeft(c, w.data);
    assert w'.folded + {} == w'.folded;
  }

  lemma AnyListConserved(s: Setup, w: World, listed: set<Key>)
    requires Inv(s, w)
    ensures Canonical(CtxOf(s, listed), w.data) == Plus(Owed(w), w.extra)
  {
    AnyList(s, w, listed);
    hide Canonical, Plus, Owed, KeysInv, HeldInv;
    Conserved(CtxOf(s, listed), w);
  }

  lemma NothingLeft(c: Ctx, d: Data)
    ensures var d' := ReducedData(c, d);
            Leaving(c, d') == {} && ReducedData(c, d') == d'
  {
    hide Total, Plus;
    var d' := ReducedData(c, d);
    assert Dooming(c, d') == {};
    assert d' - {} == d';
  }

  // ---- a pass on a list that misses a Pod -----------------------------------------------------

  /** A live replica the list misses is folded in and counted again when it next
      publishes. */
  lemma MissedPodCountsTwice(s: Setup, k: Key, ns: string)
    requires k.Replica?
    ensures var start := World(map[], map[], {k}, {k}, map[], {}, map[]);
            var first, next := Publish(k, map[ns := 5], false, true), Publish(k, map[ns := 7], false, true);
            var v := Run(s, start, [first, Reduce({}), next]);
            && Fresh(s, start) && At(Owed(v), ns) == 7
            && forall listed :: At(Canonical(CtxOf(s, listed), v.data), ns) == 12
  {
    var start := World(map[], map[], {k}, {k}, map[], {}, map[]);
    var first, next := Publish(k, map[ns := 5], false, true), Publish(k, map[ns := 7], false, true);
    var acts := [first, Reduce({}), next];
    var v2, v := Run(s, start, [first, Reduce({})]), Run(s, start, acts);
    FirstFolded(s, k, ns);
    RunSnoc(s, start, [first, Reduce({})], next);
    assert [first, Reduce({})] + [next] == acts;
    hide Run, Canonical, Total, Plus, ReducedData, Leaving;
    assert v.last.Keys == {k} && SpendOf(v.last, k) == map[ns := 7] && v.extra == Plus(map[], map[ns := 5]);
    PlusZero(map[ns := 5]);
    OneTotal(v.last, k);
    TwelveInAll(ns);
    forall listed ensures At(Canonical(CtxOf(s, listed), v.data), ns) == 12 { SpendAccounted(s, start, acts, listed); }
  }

  lemma RunSnoc(s: Setup, w: World, acts: seq<Act>, a: Act)
    ensures Run(s, w, acts + [a]) == Step(s, Run(s, w, acts), a)
  {
    assert (acts + [a])[..|acts|] == acts;
  }

  lemma FirstFolded(s: Setup, k: Key, ns: string)
    requires k.Replica?
    ensures var start := World(map[], map[], {k}, {k}, map[], {}, map[]);
            var v := Run(s, start, [Publish(k, map[ns := 5], false, true), Reduce({})]);
            && v.live == {k} && v.folded == {k} && v.extra == map[]
            && v.last.Keys == {k} && SpendOf(v.last, k) == map[ns := 5]
  {
    var start := World(map[], map[], {k}, {k}, map[], {}, map[]);
    var first := Publish(k, map[ns := 5], false, true);
    RunSnoc(s, start, [], first);
    RunSnoc(s, start, [first], Reduce({}));
    assert [] + [first] == [first] && [first] + [Reduce({})] == [first, Reduce({})];
    hide Canonical, Total, Plus, ReducedData, Leaving;
    assert Run(s, start, []) == start;
    AloneLeaves(s, k, Partial(s.period, map[ns := 5], false, s.uid));
  }

  lemma AloneLeaves(s: Setup, k: Key, e: Entry)
    requires k.Replica? && Now(CtxOf(s, {}), e)
    ensures Leaving(CtxOf(s, {}), map[k := e]) == {k} && map[][k := e] == map[k := e]
  {}

  lemma OneTotal(d: Data, k: Key)
    ensures Total(d, {k}) == SpendOf(d, k)
  {
    assert {} + {k} == {k};
    TotalAdd(d, {}, k);
    PlusZero(SpendOf(d, k));
  }

  lemma TwelveInAll(ns: string)
    ensures At(Plus(map[ns := 7], map[ns := 5]), ns) == 12
  {}
}

/** The _previous archive of internal/controller/modelprovider_budget.go: the
    newest old period's spend per source, merged pass by pass, and the
    reducer's whole write to its ConfigMap. */
module BudgetArchive {
  import opened Prelude
  import opened BudgetFold
  import opened BudgetRuns

  type Sources = map<Key, Spend>
  type StaleKeys = map<Key, (Period, Spend)>

  datatype Archive = Archive(period: Period, archivedIn: Period, uid: string, sources: Sources)

  // ---- the merge ------------------------------------------------------------

  /** An archive of another rollover or another provider is not this one's. */
  predicate Kept(a: Archive, period: Period, uid: string) {
    a.archivedIn == period && (a.uid == "" || a.uid == uid)
  }

  function KeptOnly(stored: Option<Archive>, period: Period, uid: string): Option<Archive> {
    if stored.Some? && Kept(stored.value, period, uid) then stored else None
  }

  function Max(a: nat, b: nat): nat {
    if a < b then b else a
  }

  function Larger(a: Spend, b: Spend): Spend {
    map ns | ns in a.Keys + b.Keys :: Max(At(a, ns), At(b, ns))
  }

  function SourceOf(sources: Sources, k: Key): Spend {
    if k in sources then sources[k] else map[]
  }

  /** A source's figures of this period are raised to what the pass met. */
  function Merged(sources: Sources, stale: StaleKeys, period: Period): Sources {
    map k | k in sources.Keys + stale.Keys && (k in sources || stale[k].0 == period) ::
      Larger(SourceOf(sources, k), if k in stale && stale[k].0 == period then stale[k].1 else map[])
  }

  predicate IsNewest(stale: StaleKeys, n: Period) {
    && (forall k | k in stale :: stale[k].0 <= n)
    && (n == 0 || exists k | k in stale :: stale[k].0 == n)
  }

  /** The stored archive, or a fresh one when the pass met a newer period. */
  function Base(kept: Option<Archive>, n: Period, period: Period, uid: string): Option<Archive> {
    if n != 0 && (kept.None? || n > kept.value.period) then Some(Archive(n, period, uid, map[])) else kept
  }

  function Merge(kept: Option<Archive>, stale: StaleKeys, n: Period, period: Period, uid: string): Option<Archive> {
    match Base(kept, n, period, uid)
    case None => None
    case Some(b) => Some(b.(sources := Merged(b.sources, stale, b.period)))
  }

  /** The figure kept for a source and namespace. */
  function Figure(a: Option<Archive>, k: Key, ns: string): Option<Cents> {
    if a.Some? then Get(SourceOf(a.value.sources, k), ns) else None
  }

  ghost predicate SameFigures(a: Option<Archive>, b: Option<Archive>) {
    && (a.None? <==> b.None?)
    && (a.Some? ==> a.value.(sources := map[]) == b.value.(sources := map[]))
    && forall k, ns :: Figure(a, k, ns) == Figure(b, k, ns)
  }

  /** One pass: the merge is written, or the stored archive stays when the merge
      changes no figure. */
  ghost predicate Passes(a: Option<Archive>, stale: StaleKeys, period: Period, uid: string, a': Option<Archive>) {
    exists n ::
      && IsNewest(stale, n)
      && var merged := Merge(KeptOnly(a, period, uid), stale, n, period, uid);
         a' == merged || (a' == a && SameFigures(a, merged))
  }

  // ---- the merge in place ------------------------------------------------------

  method NewestPeriod(stale: StaleKeys) returns (newest: Period)
    ensures IsNewest(stale, newest)
  {
    newest := 0;
    var todo := stale.Keys;
    while todo != {}
      invariant todo <= stale.Keys
      invariant forall k | k in stale && k !in todo :: stale[k].0 <= newest
      invariant newest == 0 || exists k | k in stale :: stale[k].0 == newest
      decreases todo
    {
      var k :| k in todo;
      if stale[k].0 > newest { newest := stale[k].0; }
      todo := todo - {k};
    }
  }

  method RaiseSource(dst: Spend, spend: Spend) returns (r: Spend, changed: bool)
    ensures r == Larger(dst, spend)
    ensures !changed ==> r == dst
  {
    r, changed := dst, false;
    var todo := spend.Keys;
    while todo != {}
      invariant todo <= spend.Keys
      invariant r.Keys == dst.Keys + (spend.Keys - todo)
      invariant forall ns | ns in r ::
                  r[ns] == if ns in spend && ns !in todo then Max(At(dst, ns), spend[ns]) else At(dst, ns)
      invariant !changed ==> r == dst
      decreases todo
    {
      var ns :| ns in todo;
      todo := todo - {ns};
      if !(ns in r && r[ns] >= spend[ns]) {
        r := r[ns := spend[ns]];
        changed := true;
      }
    }
  }

  function Passed(stale: StaleKeys, todo: set<Key>): StaleKeys {
    map k | k in stale && k !in todo :: stale[k]
  }

  lemma LargerNothing(s: Spend)
    ensures Larger(s, map[]) == s
  {}

  lemma MergedAt(sources: Sources, stale: StaleKeys, period: Period, k: Key)
    ensures var met := k in stale && stale[k].0 == period;
            var m := Merged(sources, stale, period);
            && (k in m <==> k in sources || met)
            && (k in m ==> m[k] == Larger(SourceOf(sources, k), if met then stale[k].1 else map[]))
  {
    hide Larger;
  }

  lemma MergedOneMore(sources: Sources, stale: StaleKeys, todo: set<Key>, k: Key, period: Period)
    requires k in stale && k in todo
    ensures var m := Merged(sources, Passed(stale, todo), period);
            Merged(sources, Passed(stale, todo - {k}), period) ==
            if stale[k].0 == period then m[k := Larger(SourceOf(m, k), stale[k].1)] else m
  {
    hide Larger, Merged;
    LargerNothing(SourceOf(sources, k));
    var before, after := Passed(stale, todo), Passed(stale, todo - {k});
    var m, m' := Merged(sources, before, period), Merged(sources, after, period);
    MergedAt(sources, before, period, k);
    var want := if stale[k].0 == period then m[k := Larger(SourceOf(m, k), stale[k].1)] else m;
    forall x ensures (x in m' <==> x in want) && (x in m' ==> m'[x] == want[x]) {
      MergedAt(sources, before, period, x);
      MergedAt(sources, after, period, x);
    }
  }

  /** Raises every source the pass met; a source with nothing to raise may be
      added empty without counting as a change. */
  method MergeSources(from: Sources, stale: StaleKeys, period: Period) returns (sources: Sources, changed: bool)
    ensures sources == Merged(from, stale, period)
    ensures !changed ==> forall k :: SourceOf(sources, k) == SourceOf(from, k)
  {
    hide Merged, Larger;
    sources, changed := from, false;
    var todo := stale.Keys;
    MergedNothing(from, stale, period);
    while todo != {}
      invariant todo <= stale.Keys
      invariant sources == Merged(from, Passed(stale, todo), period)
      invariant !changed ==> forall k :: SourceOf(sources, k) == SourceOf(from, k)
      decreases todo
    {
      var k :| k in todo;
      MergedOneMore(from, stale, todo, k, period);
      todo := todo - {k};
      if stale[k].0 == period {
        var raised, did := RaiseSource(SourceOf(sources, k), stale[k].1);
        sources, changed := sources[k := raised], changed || did;
      }
    }
    assert Passed(stale, {}) == stale;
  }

  lemma MergedNothing(from: Sources, stale: StaleKeys, period: Period)
    ensures Merged(from, Passed(stale, stale.Keys), period) == from
  {
    assert Passed(stale, stale.Keys) == map[];
    forall s: Spend ensures Larger(s, map[]) == s {}
  }

  /** mergeBudgetArchive. */
  method MergeArchive(stored: Option<Archive>, stale: StaleKeys, period: Period, uid: string)
    returns (archive: Option<Archive>, changed: bool)
    ensures Passes(stored, stale, period, uid, if changed then archive else stored)
  {
    hide Merged, IsNewest;
    archive, changed := stored, false;
    if archive.Some? && (archive.value.archivedIn != period || (archive.value.uid != "" && archive.value.uid != uid)) {
      archive, changed := None, true;
    }
    var newest := NewestPeriod(stale);
    if newest != 0 && (archive.None? || newest > archive.value.period) {
      archive, changed := Some(Archive(newest, period, uid, map[])), true;
    }
    if archive.Some? {
      var sources, did := MergeSources(archive.value.sources, stale, archive.value.period);
      archive, changed := Some(archive.value.(sources := sources)), changed || did;
    }
    assert archive == Merge(KeptOnly(stored, period, uid), stale, newest, period, uid);
  }

  // ---- the archive is a join ------------------------------------------------------

  /** One old-period figure a pass met: a source's cumulative spend for a period. */
  datatype Sighting = Sighting(period: Period, source: Key, spend: Spend)

  function StaleSightings(stale: StaleKeys): set<Sighting> {
    set k | k in stale :: Sighting(stale[k].0, k, stale[k].1)
  }

  function ArchiveSightings(a: Option<Archive>): set<Sighting> {
    if a.None? then {} else set k | k in a.value.sources :: Sighting(a.value.period, k, a.value.sources[k])
  }

  predicate Tells(s: Sighting, p: Period, k: Key, ns: string) {
    s.period == p && s.source == k && ns in s.spend
  }

  /** The largest figure sighted for a source and namespace in a period. */
  ghost predicate IsLargest(obs: set<Sighting>, p: Period, k: Key, ns: string, v: Option<Cents>) {
    match v
    case None => forall s | s in obs :: !Tells(s, p, k, ns)
    case Some(c) =>
      && (exists s | s in obs :: Tells(s, p, k, ns) && s.spend[ns] == c)
      && (forall s | s in obs && Tells(s, p, k, ns) :: s.spend[ns] <= c)
  }

  ghost predicate IsNewestSighted(obs: set<Sighting>, p: Period) {
    && (forall s | s in obs :: s.period <= p)
    && (exists s | s in obs :: s.period == p)
  }

  /** The archive holds the newest period sighted and, per source and namespace,
      the largest figure sighted for it. */
  ghost predicate IsJoin(a: Option<Archive>, obs: set<Sighting>) {
    match a
    case None => forall s | s in obs :: s.period == 0
    case Some(v) =>
      && v.period != 0 && IsNewestSighted(obs, v.period)
      && forall k, ns :: IsLargest(obs, v.period, k, ns, Figure(a, k, ns))
  }

  /** What was sighted determines the archive: neither the order of passes nor
      the order of keys within one matters. */
  lemma JoinIsUnique(a: Option<Archive>, b: Option<Archive>, obs: set<Sighting>)
    requires IsJoin(a, obs) && IsJoin(b, obs)
    ensures a.None? <==> b.None?
    ensures a.Some? ==> a.value.period == b.value.period
    ensures forall k, ns :: Figure(a, k, ns) == Figure(b, k, ns)
  {
    if a.Some? && b.Some? {
      var p := a.value.period;
      forall k, ns ensures Figure(a, k, ns) == Figure(b, k, ns) {
        assert IsLargest(obs, p, k, ns, Figure(a, k, ns)) && IsLargest(obs, p, k, ns, Figure(b, k, ns));
      }
    }
  }

  lemma LargerFigure(x: Spend, y: Spend, ns: string)
    ensures Get(Larger(x, y), ns) ==
            if ns !in x then Get(y, ns) else if ns !in y then Get(x, ns) else Some(Max(x[ns], y[ns]))
  {}

  /** A source's figure after the merge. */
  lemma MergedFigure(sources: Sources, stale: StaleKeys, p: Period, k: Key, ns: string)
    ensures Get(SourceOf(Merged(sources, stale, p), k), ns) ==
            var x, y := SourceOf(sources, k), if k in stale && stale[k].0 == p then stale[k].1 else map[];
            if ns !in x then Get(y, ns) else if ns !in y then Get(x, ns) else Some(Max(x[ns], y[ns]))
  {
    LargerFigure(SourceOf(sources, k), if k in stale && stale[k].0 == p then stale[k].1 else map[], ns);
  }

  /** The largest of what was sighted before and what one pass met. */
  lemma LargestGrows(obs: set<Sighting>, stale: StaleKeys, sources: Sources, p: Period, k: Key, ns: string)
    requires IsLargest(obs, p, k, ns, Get(SourceOf(sources, k), ns))
    ensures IsLargest(obs + StaleSightings(stale), p, k, ns, Get(SourceOf(Merged(sources, stale, p), k), ns))
  {
    MergedFigure(sources, stale, p, k, ns);
    hide Merged;
    var all := obs + StaleSightings(stale);
    if k in stale {
      var s := Sighting(stale[k].0, k, stale[k].1);
      assert s in all;
      assert forall t | t in StaleSightings(stale) && t.source == k :: t == s;
    } else {
      assert forall t | t in StaleSightings(stale) :: t.source != k;
    }
  }

  lemma NewestGrows(obs: set<Sighting>, stale: StaleKeys, n: Period, a: Option<Archive>, period: Period, uid: string)
    requires IsNewest(stale, n) && IsJoin(a, obs)
    ensures var b := Base(a, n, period, uid);
            if b.None? then forall s | s in obs + StaleSightings(stale) :: s.period == 0
            else b.value.period != 0 && IsNewestSighted(obs + StaleSightings(stale), b.value.period)
                 && forall k, ns :: IsLargest(obs, b.value.period, k, ns, Figure(b, k, ns))
  {
    var all := obs + StaleSightings(stale);
    assert forall s | s in StaleSightings(stale) :: s.period <= n;
    if n != 0 {
      var k :| k in stale && stale[k].0 == n;
      assert Sighting(n, k, stale[k].1) in all;
    }
    if a.Some? { var s :| s in obs && s.period == a.value.period; assert s in all; }
    var b := Base(a, n, period, uid);
    if b.Some? && b != a {
      forall k, ns ensures IsLargest(obs, n, k, ns, Figure(b, k, ns)) {
        assert Figure(b, k, ns) == None;
      }
    }
  }

  lemma MergeJoins(a: Option<Archive>, obs: set<Sighting>, stale: StaleKeys, n: Period, period: Period, uid: string)
    requires IsJoin(a, obs) && IsNewest(stale, n)
    ensures IsJoin(Merge(a, stale, n, period, uid), obs + StaleSightings(stale))
  {
    NewestGrows(obs, stale, n, a, period, uid);
    var b := Base(a, n, period, uid);
    if b.Some? {
      hide Merged, IsLargest, IsNewestSighted, IsNewest;
      var merged := Merge(a, stale, n, period, uid);
      forall k, ns ensures IsLargest(obs + StaleSightings(stale), b.value.period, k, ns, Figure(merged, k, ns)) {
        assert IsLargest(obs, b.value.period, k, ns, Figure(b, k, ns));
        LargestGrows(obs, stale, b.value.sources, b.value.period, k, ns);
      }
    }
  }

  lemma SameFiguresSameJoin(a: Option<Archive>, b: Option<Archive>, obs: set<Sighting>)
    requires SameFigures(a, b) && IsJoin(b, obs)
    ensures IsJoin(a, obs)
  {
    hide IsLargest;
    if a.Some? {
      forall k, ns ensures IsLargest(obs, a.value.period, k, ns, Figure(a, k, ns)) {
        assert IsLargest(obs, b.value.period, k, ns, Figure(b, k, ns));
      }
    }
  }

  /** What the passes met, with what was archived before them in this period. */
  function Sighted(start: Option<Archive>, passes: seq<StaleKeys>, period: Period, uid: string): set<Sighting> {
    if passes == [] then ArchiveSightings(KeptOnly(start, period, uid))
    else Sighted(start, passes[..|passes| - 1], period, uid) + StaleSightings(passes[|passes| - 1])
  }

  ghost predicate IsRun(archives: seq<Option<Archive>>, passes: seq<StaleKeys>, period: Period, uid: string) {
    && |archives| == |passes| + 1
    && forall i | 0 <= i < |passes| :: Passes(archives[i], passes[i], period, uid, archives[i + 1])
  }

  /** An archive as the reducer writes them: of a real period, with a source. */
  predicate WellFormed(a: Option<Archive>) {
    a.Some? ==> a.value.period != 0 && a.value.sources != map[]
  }

  lemma StartIsJoin(start: Option<Archive>, period: Period, uid: string)
    requires WellFormed(start)
    ensures IsJoin(KeptOnly(start, period, uid), ArchiveSightings(KeptOnly(start, period, uid)))
  {
    var a := KeptOnly(start, period, uid);
    if a.Some? {
      var k :| k in a.value.sources;
      var obs := ArchiveSightings(a);
      assert Sighting(a.value.period, k, a.value.sources[k]) in obs;
      forall k, ns ensures IsLargest(obs, a.value.period, k, ns, Figure(a, k, ns)) {
        if k in a.value.sources {
          var s := Sighting(a.value.period, k, a.value.sources[k]);
          assert s in obs;
          assert forall t | t in obs && t.source == k :: t == s;
        }
      }
    }
  }

  lemma PassKeeps(a: Option<Archive>, obs: set<Sighting>, stale: StaleKeys, period: Period, uid: string,
      a': Option<Archive>)
    requires IsJoin(KeptOnly(a, period, uid), obs) && Passes(a, stale, period, uid, a')
    ensures IsJoin(a', obs + StaleSightings(stale)) && KeptOnly(a', period, uid) == a'
  {
    var kept := KeptOnly(a, period, uid);
    var n :| IsNewest(stale, n) &&
             var merged := Merge(kept, stale, n, period, uid);
             a' == merged || (a' == a && SameFigures(a, merged));
    var merged := Merge(kept, stale, n, period, uid);
    MergeJoins(kept, obs, stale, n, period, uid);
    if a' != merged { SameFiguresSameJoin(a', merged, obs + StaleSightings(stale)); }
  }

  /** One pass, by the stored archive's own fields: an archive of another rollover or of
      another provider counts for nothing, any other is joined with what the pass met. */
  lemma OnePassJoins(a: Option<Archive>, stale: StaleKeys, period: Period, uid: string, a': Option<Archive>)
    requires WellFormed(a) && Passes(a, stale, period, uid, a')
    ensures if a.Some? && a.value.archivedIn == period && (a.value.uid == "" || a.value.uid == uid) then
              IsJoin(a', ArchiveSightings(a) + StaleSightings(stale))
            else IsJoin(a', StaleSightings(stale))
    ensures a'.Some? ==> a'.value.archivedIn == period && (a'.value.uid == "" || a'.value.uid == uid)
  {
    StartIsJoin(a, period, uid);
    hide IsJoin, Passes;
    PassKeeps(a, ArchiveSightings(KeptOnly(a, period, uid)), stale, period, uid, a');
    assert {} + StaleSightings(stale) == StaleSightings(stale);
  }

  /** After any number of passes within one period the archive is the join of
      everything sighted; an archive of another rollover or provider is dropped
      by the first of them. */
  lemma {:induction false} ArchiveIsJoin(archives: seq<Option<Archive>>, passes: seq<StaleKeys>, period: Period,
      uid: string)
    requires IsRun(archives, passes, period, uid) && WellFormed(archives[0])
    ensures IsJoin(KeptOnly(archives[|passes|], period, uid), Sighted(archives[0], passes, period, uid))
    ensures passes != [] ==> KeptOnly(archives[|passes|], period, uid) == archives[|passes|]
  {
    hide IsJoin, Passes;
    if passes == [] {
      StartIsJoin(archives[0], period, uid);
    } else {
      var m := |passes| - 1;
      ArchiveIsJoin(archives[..m + 1], passes[..m], period, uid);
      PassKeeps(archives[m], Sighted(archives[0], passes[..m], period, uid), passes[m], period, uid, archives[m + 1]);
    }
  }

  // ---- the reducer's write -----------------------------------------------------------

  class SpendConfigMap {
    var data: Data
    var canonical: Spend
    var previous: Option<Archive>

    /** The budget reducer's pass: fold, accumulator, canonical figures, archive. */
    method ReconcileBudget(live: set<Key>, period: Period, uid: string)
      modifies this
      ensures var c := Ctx(Budget, live, period, uid);
              && data == ReducedData(c, old(data)) && canonical == Canonical(c, old(data))
              && Passes(old(previous), Stale(c, old(data)), period, uid, previous)
    {
      hide Plus, Total, Passes, Stale;
      ghost var c := Ctx(Budget, live, period, uid);
      var f := FoldKeys(data, Budget, live, period, uid);
      FoldReduces(c, data, f);
      assert Seen(data, {}) == data;
      var sum := AddInto(f.current, f.retired);
      data := if f.retiredChanged then f.data[RetiredKey := Partial(period, f.retired, false, uid)] else f.data;
      canonical := sum;
      var archive, changed := MergeArchive(previous, f.stale, period, uid);
      if changed { previous := archive; }
    }

    /** The agent-spend reducer's pass: the same fold, and no archive. */
    method ReconcileAgentSpend(live: set<Key>, period: Period, uid: string)
      modifies `data, `canonical
      ensures var c := Ctx(AgentSpend, live, period, uid);
              data == ReducedData(c, old(data)) && canonical == Canonical(c, old(data))
    {
      hide Plus, Total;
      var f := FoldKeys(data, AgentSpend, live, period, uid);
      FoldReduces(Ctx(AgentSpend, live, period, uid), data, f);
      var sum := AddInto(f.current, f.retired);
      data := if f.retiredChanged then f.data[RetiredKey := Partial(period, f.retired, false, uid)] else f.data;
      canonical := sum;
    }
  }
}

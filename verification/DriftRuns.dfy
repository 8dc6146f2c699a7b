/** The drift-slot cap over whole runs: several reconciles at once, a cache that
    lags the API server, failed status writes, restarts. A grant is followed by
    a status write that succeeds only from the stored version the pass read. */
module DriftRuns {
  import opened Prelude
  import opened DriftSlots

  datatype Obj = Obj(reason: Reason, idle: bool, at: int)

  /** A granted slot whose status write is on its way: the version read, and when. */
  datatype Grant = Grant(read: nat, at: int)

  /** One Agent: everything stored for it, one entry per write; how far the cache
      has come in that; its reservation; its grant under way. */
  datatype View = View(objs: seq<Obj>, seen: nat, reserved: Option<int>, grant: Option<Grant>)

  datatype World = World(now: int, views: map<Agent, View>)

  /** How long a grant's write and the cache may take, and whether a restart cuts off
      the writes under way. */
  datatype Bounds = Bounds(write: nat, lag: nat, cut: bool)

  /** Together they stay below the reservation's lifetime, and no write outlives the
      process that reserved for it. */
  predicate Prompt(b: Bounds) {
    b.write + b.lag < RESERVATION_TTL && b.cut
  }

  /** The class's Agents, listed in some order, and its cap. */
  datatype Class = Class(roster: seq<Agent>, limit: Option<Limit>)

  function Cap(c: Class): nat {
    MaxUnavailable(c.limit, |c.roster|)
  }

  datatype Act =
    | Tick(t: int)
    | Sync(x: Agent, upTo: nat)
    | Ask(self: Agent, read: nat)
    | Persist(granted: Agent)
    | WriteFails(failed: Agent)
    | Write(y: Agent, reason: Reason, idle: bool)
    | Restart

  // ---- one Agent -----------------------------------------------------------------

  predicate Wf(v: View) {
    v.seen < |v.objs|
  }

  function Stored(v: View): Obj
    requires Wf(v)
  {
    v.objs[|v.objs| - 1]
  }

  function Cached(v: View): Obj
    requires Wf(v)
  {
    v.objs[v.seen]
  }

  /** A grant whose write can still succeed: nothing was stored since its read. */
  predicate Live(v: View) {
    v.grant.Some? && v.grant.value.read + 1 == |v.objs|
  }

  /** Replacing in the API server, or granted and about to be. */
  predicate Busy(v: View)
    requires Wf(v)
  {
    Stored(v).reason == Replacing || Live(v)
  }

  /** Time has not outrun the cache or a live grant's write. */
  predicate InTime(b: Bounds, v: View, t: int) {
    && (v.seen + 1 < |v.objs| ==> t <= v.objs[v.seen + 1].at + b.lag)
    && (Live(v) ==> t <= v.grant.value.at + b.write)
  }

  /** A busy Agent holds a slot in the eyes of everyone else: the cache shows it,
      or its reservation outlives the time the cache needs. */
  predicate Covered(b: Bounds, v: View)
    requires Wf(v)
  {
    && (Stored(v).reason == Replacing ==>
          && (forall i | v.seen < i < |v.objs| :: v.objs[i].reason == Replacing)
          && (Cached(v).reason != Replacing ==>
                v.reserved.Some? && v.objs[v.seen + 1].at <= v.reserved.value + b.write))
    && (Live(v) ==> v.reserved == Some(v.grant.value.at))
    && (v.grant.Some? ==> v.grant.value.read <= v.seen && v.objs[v.grant.value.read].reason != Replacing)
  }

  predicate Dated(v: View, now: int) {
    && (forall i, j | 0 <= i < j < |v.objs| :: v.objs[i].at <= v.objs[j].at)
    && (forall i | 0 <= i < |v.objs| :: v.objs[i].at <= now)
  }

  ghost predicate AgentInv(b: Bounds, v: View, now: int) {
    Wf(v) && InTime(b, v, now) && Covered(b, v) && Dated(v, now)
  }

  // ---- the class -------------------------------------------------------------------

  ghost predicate Shape(c: Class, w: World) {
    && NoDup(c.roster) && w.views.Keys == Elems(c.roster)
    && forall x | x in w.views :: Wf(w.views[x])
  }

  function ItemOf(x: Agent, v: View): Item
    requires Wf(v)
  {
    Item(x, Cached(v).reason, Cached(v).idle)
  }

  function Listing(c: Class, w: World): (items: seq<Item>)
    requires Shape(c, w)
    ensures |items| == |c.roster|
    ensures forall i | 0 <= i < |items| ::
              c.roster[i] in w.views && items[i] == ItemOf(c.roster[i], w.views[c.roster[i]])
  {
    assert forall i | 0 <= i < |c.roster| :: c.roster[i] in Elems(c.roster);
    seq(|c.roster|, i requires 0 <= i < |c.roster| && c.roster[i] in w.views =>
      ItemOf(c.roster[i], w.views[c.roster[i]]))
  }

  function Reserved(w: World): map<Agent, int> {
    map x | x in w.views && w.views[x].reserved.Some? :: w.views[x].reserved.value
  }

  // ---- steps ---------------------------------------------------------------------

  function Update(w: World, x: Agent, v: View): World {
    w.(views := w.views[x := v])
  }

  ghost function AskStep(c: Class, w: World, x: Agent, read: nat): World
    requires Shape(c, w) && x in w.views && read <= w.views[x].seen
  {
    var items := Listing(c, w);
    var yes := Granted(items, x, w.views[x].objs[read].idle, Cap(c), Reserved(w), w.now);
    var reserved := ReservedAfter(items, x, yes, Reserved(w), w.now);
    w.(views := map y | y in w.views ::
      w.views[y].(reserved := Get(reserved, y),
                  grant := if yes && y == x then Some(Grant(read, w.now)) else w.views[y].grant))
  }

  ghost function Step(c: Class, b: Bounds, w: World, a: Act): World
    requires Shape(c, w)
  {
    match a
    case Tick(t) => if t >= w.now && (forall x | x in w.views :: InTime(b, w.views[x], t)) then w.(now := t) else w
    case Sync(x, n) =>
      if x in w.views && w.views[x].seen <= n < |w.views[x].objs| then Update(w, x, w.views[x].(seen := n)) else w
    case Ask(x, read) =>
      // A pass asks only when the copy it read does not already hold a slot.
      if x !in w.views || w.views[x].grant.Some? || read > w.views[x].seen
         || w.views[x].objs[read].reason == Replacing then w
      else AskStep(c, w, x, read)
    case Persist(x) => if x in w.views then Update(w, x, Persisted(w.views[x], w.now)) else w
    case WriteFails(x) => if x in w.views then Update(w, x, w.views[x].(grant := None)) else w
    case Write(x, reason, idle) =>
      // Only a granted slot makes an Agent Replacing.
      if x !in w.views || (reason == Replacing && Stored(w.views[x]).reason != Replacing) then w
      else Update(w, x, w.views[x].(objs := w.views[x].objs + [Obj(reason, idle, w.now)]))
    case Restart =>
      w.(views := map x | x in w.views :: Restarted(b, w.views[x]))
  }

  function Restarted(b: Bounds, v: View): View
    requires Wf(v)
  {
    View(v.objs, |v.objs| - 1, None, if b.cut then None else v.grant)
  }

  function Persisted(v: View, now: int): View
    requires Wf(v)
  {
    if Live(v) then v.(objs := v.objs + [Obj(Replacing, Stored(v).idle, now)], grant := None) else v.(grant := None)
  }

  // ---- the invariant ----------------------------------------------------------------

  ghost function BusyAgents(w: World): set<Agent>
    requires forall x | x in w.views :: Wf(w.views[x])
  {
    set x | x in w.views && Busy(w.views[x])
  }

  ghost predicate Inv(c: Class, b: Bounds, w: World) {
    && Shape(c, w)
    && (forall x | x in w.views :: AgentInv(b, w.views[x], w.now))
    && |BusyAgents(w)| <= Cap(c)
  }

  /** A busy Agent shows in the cache or holds a reservation that has not expired. */
  lemma BusyHoldsSlot(b: Bounds, v: View, now: int)
    requires Prompt(b) && AgentInv(b, v, now) && Busy(v)
    ensures Cached(v).reason == Replacing || (v.reserved.Some? && now - v.reserved.value < RESERVATION_TTL)
  {}

  lemma Listed(c: Class, w: World, x: Agent)
    requires Shape(c, w) && x in w.views
    ensures ItemOf(x, w.views[x]) in Listing(c, w)
  {
    hide NoDup, Wf, Cached;
    assert x in Elems(c.roster);
    var i :| 0 <= i < |c.roster| && c.roster[i] == x;
    assert Listing(c, w)[i] == ItemOf(x, w.views[x]);
  }

  /** A busy Agent other than the asker counts against the cap. */
  lemma BusyIsInUse(c: Class, b: Bounds, w: World, self: Agent, x: Agent)
    requires Prompt(b) && Inv(c, b, w) && x in BusyAgents(w) && x != self
    ensures x in InUse(Listing(c, w), self, Unexpired(Reserved(w), w.now))
  {
    assert AgentInv(b, w.views[x], w.now);
    hide AgentInv, Busy, Cap, Prompt, NoDup, Listing;
    BusyHoldsSlot(b, w.views[x], w.now);
    Listed(c, w, x);
    var it := ItemOf(x, w.views[x]);
    assert it.reason == Replacing || x in Unexpired(Reserved(w), w.now);
    assert it in Listing(c, w) && it.key == x;
  }

  lemma ShownAreCached(c: Class, w: World, self: Agent, x: Agent)
    requires Shape(c, w) && x in Shown(Listing(c, w), self)
    ensures x in w.views && Cached(w.views[x]).reason == Replacing && x != self
  {
    var items := Listing(c, w);
    var it :| it in items && it.key == x && it.key != self && it.reason == Replacing;
    var i :| 0 <= i < |items| && items[i] == it;
    assert items[i] == ItemOf(c.roster[i], w.views[c.roster[i]]);
  }

  // ---- preservation, one Agent at a time -----------------------------------------------

  /** Asking drops only reservations the asker no longer needs to count. */
  lemma AskedOther(b: Bounds, v: View, now: int, reserved: Option<int>)
    requires Prompt(b) && AgentInv(b, v, now)
    requires reserved == v.reserved
             || (reserved.None? && (Cached(v).reason == Replacing
                 || (v.reserved.Some? && now - v.reserved.value >= RESERVATION_TTL)))
    ensures AgentInv(b, v.(reserved := reserved), now)
  {}

  lemma AskedSelf(b: Bounds, v: View, now: int, read: nat)
    requires AgentInv(b, v, now) && v.grant.None? && read <= v.seen && v.objs[read].reason != Replacing
    ensures AgentInv(b, v.(reserved := Some(now), grant := Some(Grant(read, now))), now)
  {
  }

  lemma PersistedKeeps(b: Bounds, v: View, now: int)
    requires AgentInv(b, v, now)
    ensures AgentInv(b, Persisted(v, now), now)
    ensures Busy(Persisted(v, now)) ==> Busy(v)
  {}

  lemma WrittenKeeps(b: Bounds, v: View, now: int, o: Obj)
    requires AgentInv(b, v, now) && o.at == now
    requires o.reason == Replacing ==> Stored(v).reason == Replacing
    ensures var v' := v.(objs := v.objs + [o]);
            AgentInv(b, v', now) && (Busy(v') ==> Busy(v))
  {}

  lemma SyncedKeeps(b: Bounds, v: View, now: int, n: nat)
    requires AgentInv(b, v, now) && v.seen <= n < |v.objs|
    ensures var v' := v.(seen := n);
            AgentInv(b, v', now) && Busy(v') == Busy(v)
  {}

  // ---- preservation -----------------------------------------------------------------------

  /** A step that makes nobody else busy keeps the cap. */
  lemma KeepsCap(c: Class, b: Bounds, w: World, w': World)
    requires Inv(c, b, w) && w'.views.Keys == w.views.Keys
    requires forall x | x in w'.views :: AgentInv(b, w'.views[x], w'.now) && (Busy(w'.views[x]) ==> Busy(w.views[x]))
    ensures Inv(c, b, w')
  {
    hide AgentInv, Busy, Cap;
    WfAll(b, w);
    WfAll(b, w');
    assert BusyAgents(w') <= BusyAgents(w);
    SubsetCard(BusyAgents(w'), BusyAgents(w));
  }

  lemma WfAll(b: Bounds, w: World)
    ensures forall x | x in w.views && AgentInv(b, w.views[x], w.now) :: Wf(w.views[x])
  {}

  lemma OneChanges(c: Class, b: Bounds, w: World, x: Agent, v: View)
    requires Inv(c, b, w) && x in w.views && AgentInv(b, v, w.now) && (Busy(v) ==> Busy(w.views[x]))
    ensures Inv(c, b, Update(w, x, v))
  {
    hide AgentInv, Busy, Cap;
    KeepsCap(c, b, w, Update(w, x, v));
  }

  lemma ReservedAfterAsk(w: World, items: seq<Item>, self: Agent, yes: bool, x: Agent)
    requires x in w.views
    ensures Get(ReservedAfter(items, self, yes, Reserved(w), w.now), x) ==
            var r := w.views[x].reserved;
            if yes && x == self then Some(w.now)
            else if x in Shown(items, self) || (r.Some? && w.now - r.value >= RESERVATION_TTL) then None
            else r
  {
    hide Shown;
  }

  predicate MayAsk(w: World, self: Agent, read: nat) {
    && self in w.views && w.views[self].grant.None? && read <= w.views[self].seen < |w.views[self].objs|
    && w.views[self].objs[read].reason != Replacing
  }

  ghost predicate Answer(c: Class, w: World, self: Agent, read: nat)
    requires Shape(c, w) && MayAsk(w, self, read)
  {
    Granted(Listing(c, w), self, w.views[self].objs[read].idle, Cap(c), Reserved(w), w.now)
  }

  lemma ListedOnly(c: Class, w: World, it: Item)
    requires Shape(c, w) && it in Listing(c, w)
    ensures it.key in w.views && it == ItemOf(it.key, w.views[it.key])
  {
    var i :| 0 <= i < |c.roster| && Listing(c, w)[i] == it;
  }

  /** An ask is granted exactly when fewer of the other Agents than the cap are shown
      replacing or hold a reservation of the last 30 seconds, and no other idle Agent
      is shown waiting unless the asker is idle. */
  lemma AskGrantedIff(c: Class, b: Bounds, w: World, self: Agent, read: nat)
    requires Shape(c, w) && MayAsk(w, self, read)
    ensures self in Step(c, b, w, Ask(self, read)).views
    ensures var taken := set x | x in w.views && x != self
                           && (Cached(w.views[x]).reason == Replacing
                               || (w.views[x].reserved.Some? && w.now - w.views[x].reserved.value < 30_000));
            Step(c, b, w, Ask(self, read)).views[self].grant.Some? <==>
              && |taken| < Cap(c)
              && (w.views[self].objs[read].idle
                  || forall x | x in w.views && x != self && Cached(w.views[x]).reason == ReplacementPending ::
                       !Cached(w.views[x]).idle)
  {
    AnswerGrants(c, b, w, self, read);
    hide Step, Listing, Cap;
    var items, r := Listing(c, w), Unexpired(Reserved(w), w.now);
    var taken := set x | x in w.views && x != self
                   && (Cached(w.views[x]).reason == Replacing
                       || (w.views[x].reserved.Some? && w.now - w.views[x].reserved.value < 30_000));
    forall x ensures x in InUse(items, self, r) <==> x in taken {
      if x in w.views { Listed(c, w, x); }
      if it :| it in items && Holds(it, self, r) && it.key == x { ListedOnly(c, w, it); }
    }
    assert InUse(items, self, r) == taken;
    IdleShown(c, w, self);
  }

  lemma AnswerGrants(c: Class, b: Bounds, w: World, self: Agent, read: nat)
    requires Shape(c, w) && MayAsk(w, self, read)
    ensures self in Step(c, b, w, Ask(self, read)).views
    ensures Step(c, b, w, Ask(self, read)).views[self].grant.Some? <==> Answer(c, w, self, read)
  {
    hide Granted, ReservedAfter, Listing, Cap;
  }

  lemma IdleShown(c: Class, w: World, self: Agent)
    requires Shape(c, w)
    ensures IdleWaiting(Listing(c, w), self) <==>
            exists x | x in w.views :: x != self && Cached(w.views[x]).reason == ReplacementPending
                                       && Cached(w.views[x]).idle
  {
    var items := Listing(c, w);
    if it :| it in items && it.key != self && it.reason == ReplacementPending && it.idle { ListedOnly(c, w, it); }
    if x :| x in w.views && x != self && Cached(w.views[x]).reason == ReplacementPending && Cached(w.views[x]).idle {
      Listed(c, w, x);
      assert ItemOf(x, w.views[x]) in items;
    }
  }

  lemma AskedView(c: Class, b: Bounds, w: World, self: Agent, read: nat, x: Agent)
    requires Prompt(b) && Shape(c, w) && x in w.views && MayAsk(w, self, read) && AgentInv(b, w.views[x], w.now)
    ensures x in AskStep(c, w, self, read).views
    ensures var v := AskStep(c, w, self, read).views[x];
            && AgentInv(b, v, w.now)
            && (x != self || !Answer(c, w, self, read) ==> v == w.views[x].(reserved := v.reserved))
  {
    var items := Listing(c, w);
    var yes := Answer(c, w, self, read);
    ReservedAfterAsk(w, items, self, yes, x);
    hide ReservedAfter, Reserved, Granted, Cap, AgentInv, Shown, Listing;
    var v := AskStep(c, w, self, read).views[x];
    if x == self && yes {
      AskedSelf(b, w.views[x], w.now, read);
      assert v == w.views[x].(reserved := Some(w.now), grant := Some(Grant(read, w.now)));
    } else {
      if x in Shown(items, self) { ShownAreCached(c, w, self, x); }
      AskedOther(b, w.views[x], w.now, v.reserved);
      assert v == w.views[x].(reserved := v.reserved);
    }
  }

  lemma ReservationIsNotBusy(v: View, reserved: Option<int>)
    requires Wf(v)
    ensures Wf(v.(reserved := reserved)) && Busy(v.(reserved := reserved)) == Busy(v)
  {}

  lemma AskedAgent(c: Class, b: Bounds, w: World, self: Agent, read: nat, x: Agent)
    requires Prompt(b) && Inv(c, b, w) && x in w.views && MayAsk(w, self, read)
    ensures x in AskStep(c, w, self, read).views
    ensures var v := AskStep(c, w, self, read).views[x];
            && AgentInv(b, v, w.now) && Wf(v)
            && (x != self || !Answer(c, w, self, read) ==> Busy(v) == Busy(w.views[x]))
  {
    hide AskStep, Answer, Busy, BusyAgents;
    AskedView(c, b, w, self, read, x);
    ReservationIsNotBusy(w.views[x], AskStep(c, w, self, read).views[x].reserved);
  }

  lemma AskKeys(c: Class, w: World, self: Agent, read: nat)
    requires Shape(c, w) && MayAsk(w, self, read)
    ensures AskStep(c, w, self, read).views.Keys == w.views.Keys && AskStep(c, w, self, read).now == w.now
  {
    hide Granted, ReservedAfter, Reserved, Listing;
  }

  lemma AnswerLeavesRoom(c: Class, w: World, self: Agent, read: nat)
    requires Shape(c, w) && MayAsk(w, self, read) && Answer(c, w, self, read)
    ensures |InUse(Listing(c, w), self, Unexpired(Reserved(w), w.now))| < Cap(c)
  {}

  /** A grant adds one Agent to those in use, and there was room for it. */
  lemma AskKeepsCap(c: Class, b: Bounds, w: World, self: Agent, read: nat)
    requires Prompt(b) && Inv(c, b, w) && MayAsk(w, self, read)
    ensures Inv(c, b, AskStep(c, w, self, read))
  {
    hide AgentInv, Busy, AskStep, Cap, InUse, Unexpired, Reserved, Answer, Listing, Wf;
    var w' := AskStep(c, w, self, read);
    AskKeys(c, w, self, read);
    forall x | x in w'.views
      ensures AgentInv(b, w'.views[x], w'.now) && Wf(w'.views[x])
      ensures x != self || !Answer(c, w, self, read) ==> Busy(w'.views[x]) == Busy(w.views[x])
    {
      AskedAgent(c, b, w, self, read, x);
    }
    if Answer(c, w, self, read) {
      AnswerLeavesRoom(c, w, self, read);
      var used := InUse(Listing(c, w), self, Unexpired(Reserved(w), w.now));
      forall x | x in BusyAgents(w') && x != self ensures x in used { BusyIsInUse(c, b, w, self, x); }
      assert BusyAgents(w') <= used + {self};
      SubsetCard(BusyAgents(w'), used + {self});
    } else {
      KeepsCap(c, b, w, w');
    }
  }

  lemma TimePasses(b: Bounds, v: View, now: int, t: int)
    requires AgentInv(b, v, now) && t >= now && InTime(b, v, t)
    ensures AgentInv(b, v, t)
  {}

  lemma RestartedKeeps(b: Bounds, v: View, now: int)
    requires AgentInv(b, v, now) && b.cut
    ensures AgentInv(b, Restarted(b, v), now) && (Busy(Restarted(b, v)) ==> Busy(v))
  {}

  lemma GrantDropped(b: Bounds, v: View, now: int)
    requires AgentInv(b, v, now)
    ensures AgentInv(b, v.(grant := None), now) && (Busy(v.(grant := None)) ==> Busy(v))
  {}

  lemma ClockKeeps(c: Class, b: Bounds, w: World, t: int)
    requires Inv(c, b, w) && t >= w.now && forall x | x in w.views :: InTime(b, w.views[x], t)
    ensures Inv(c, b, w.(now := t))
  {
    hide AgentInv, Busy, Cap, InTime;
    forall x | x in w.views ensures AgentInv(b, w.views[x], t) { TimePasses(b, w.views[x], w.now, t); }
    KeepsCap(c, b, w, w.(now := t));
  }

  lemma RestartKeeps(c: Class, b: Bounds, w: World)
    requires Inv(c, b, w) && b.cut
    ensures Inv(c, b, Step(c, b, w, Restart))
  {
    hide AgentInv, Busy, Cap;
    var w' := Step(c, b, w, Restart);
    forall x | x in w.views ensures AgentInv(b, w'.views[x], w.now) && (Busy(w'.views[x]) ==> Busy(w.views[x])) {
      RestartedKeeps(b, w.views[x], w.now);
    }
    KeepsCap(c, b, w, w');
  }

  lemma StepKeeps(c: Class, b: Bounds, w: World, a: Act)
    requires Prompt(b) && Inv(c, b, w)
    ensures Inv(c, b, Step(c, b, w, a))
  {
    hide AskStep, Cap, AgentInv, Busy, InTime, BusyAgents, Persisted;
    match a
    case Tick(t) =>
      if t >= w.now && (forall x | x in w.views :: InTime(b, w.views[x], t)) { ClockKeeps(c, b, w, t); }
    case Sync(x, n) =>
      if x in w.views && w.views[x].seen <= n < |w.views[x].objs| {
        SyncedKeeps(b, w.views[x], w.now, n);
        OneChanges(c, b, w, x, w.views[x].(seen := n));
      }
    case Ask(x, read) => if MayAsk(w, x, read) { AskKeepsCap(c, b, w, x, read); }
    case Persist(x) =>
      if x in w.views { PersistedKeeps(b, w.views[x], w.now); OneChanges(c, b, w, x, Persisted(w.views[x], w.now)); }
    case WriteFails(x) =>
      if x in w.views { GrantDropped(b, w.views[x], w.now); OneChanges(c, b, w, x, w.views[x].(grant := None)); }
    case Write(x, reason, idle) =>
      if x in w.views && (reason == Replacing ==> Stored(w.views[x]).reason == Replacing) {
        var o := Obj(reason, idle, w.now);
        WrittenKeeps(b, w.views[x], w.now, o);
        OneChanges(c, b, w, x, w.views[x].(objs := w.views[x].objs + [o]));
      }
    case Restart => RestartKeeps(c, b, w);
  }

  // ---- runs -----------------------------------------------------------------------------------

  /** A class with no replacement under way and an up-to-date cache. */
  ghost predicate Calm(c: Class, w: World) {
    && Shape(c, w)
    && forall x | x in w.views ::
         var v := w.views[x];
         |v.objs| == 1 && v.objs[0].reason != Replacing && v.objs[0].at <= w.now && v.reserved.None? && v.grant.None?
  }

  ghost predicate IsRun(c: Class, b: Bounds, worlds: seq<World>, acts: seq<Act>) {
    && |worlds| == |acts| + 1 && Calm(c, worlds[0])
    && forall i | 0 <= i < |acts| :: Shape(c, worlds[i]) && worlds[i + 1] == Step(c, b, worlds[i], acts[i])
  }

  lemma CalmInv(c: Class, b: Bounds, w: World)
    requires Calm(c, w)
    ensures Inv(c, b, w)
  {
    assert BusyAgents(w) == {};
  }

  lemma {:induction false} RunKeeps(c: Class, b: Bounds, worlds: seq<World>, acts: seq<Act>, n: nat)
    requires Prompt(b) && IsRun(c, b, worlds, acts) && n <= |acts|
    ensures Inv(c, b, worlds[n])
  {
    hide Inv, Step, Calm;
    if n == 0 { CalmInv(c, b, worlds[0]); } else {
      RunKeeps(c, b, worlds, acts, n - 1);
      StepKeeps(c, b, worlds[n - 1], acts[n - 1]);
    }
  }

  /** At every moment of every run, the Agents replacing their Pod or about to
      are no more than the class allows. */
  lemma CapHolds(c: Class, b: Bounds, worlds: seq<World>, acts: seq<Act>, n: nat)
    requires Prompt(b) && IsRun(c, b, worlds, acts) && n <= |acts|
    ensures Shape(c, worlds[n]) && |BusyAgents(worlds[n])| <= Cap(c)
  {
    RunKeeps(c, b, worlds, acts, n);
  }

  /** No Agent that is not idle is granted a slot while the cache shows another,
      idle, Agent of the class waiting for one. */
  lemma IdleFirst(c: Class, b: Bounds, w: World, self: Agent, read: nat, other: Agent)
    requires Shape(c, w) && self in w.views && other in w.views && other != self
    requires read <= w.views[self].seen && !w.views[self].objs[read].idle
    requires Cached(w.views[other]).reason == ReplacementPending && Cached(w.views[other]).idle
    ensures self in Step(c, b, w, Ask(self, read)).views
    ensures Step(c, b, w, Ask(self, read)).views[self].grant == w.views[self].grant
  {
    Listed(c, w, other);
    hide Listing;
    assert IdleWaiting(Listing(c, w), self);
  }
}

/** The cap rests on the reservation outliving a grant's write and the cache's
    lag, and on no write outliving the process. It cannot rest on less: for any
    slower bounds, or writes that land after a restart, two Agents of a class
    capped at one both get a slot. */
module DriftBounds {
  import opened Prelude
  import opened DriftSlots
  import opened DriftRuns

  const P: Agent := "p"
  const Q: Agent := "q"
  const FRESH := View([Obj(Other, false, 0)], 0, None, None)
  const GRANTED := FRESH.(reserved := Some(0), grant := Some(Grant(0, 0)))
  const LATE := FRESH.(reserved := Some(RESERVATION_TTL), grant := Some(Grant(0, RESERVATION_TTL)))

  /** A class of two Agents that may lose one at a time. */
  function Duo(p: Agent, q: Agent): Class {
    Class([p, q], Some(Count(1)))
  }

  function Pair(p: Agent, q: Agent, now: int, u: View, v: View): World {
    World(now, map[p := u, q := v])
  }

  lemma PairListing(p: Agent, q: Agent, now: int, u: View, v: View)
    requires p != q && Wf(u) && Wf(v)
    ensures Shape(Duo(p, q), Pair(p, q, now, u, v))
    ensures Listing(Duo(p, q), Pair(p, q, now, u, v)) == [ItemOf(p, u), ItemOf(q, v)]
  {
    assert Elems([p, q]) == {p, q};
    var items := Listing(Duo(p, q), Pair(p, q, now, u, v));
    assert items[0] == ItemOf(p, u) && items[1] == ItemOf(q, v);
  }

  /** Nobody else holds a slot in this list. */
  lemma NoHolder(items: seq<Item>, self: Agent, reserved: map<Agent, int>)
    requires forall it | it in items :: it.reason == Other && (it.key == self || it.key !in reserved)
    ensures InUse(items, self, reserved) == {} && Shown(items, self) == {} && !IdleWaiting(items, self)
  {}

  /** With no holder in sight the asker is granted the slot. */
  lemma AskIsGranted(c: Class, w: World, self: Agent)
    requires Shape(c, w) && MayAsk(w, self, 0) && c.limit == Some(Count(1))
    requires forall it | it in Listing(c, w) ::
               it.reason == Other && (it.key == self || it.key !in Unexpired(Reserved(w), w.now))
    ensures Answer(c, w, self, 0) && Shown(Listing(c, w), self) == {}
  {
    NoHolder(Listing(c, w), self, Unexpired(Reserved(w), w.now));
    hide InUse, Shown, IdleWaiting, Listing, Reserved, Unexpired;
  }

  /** What a granted ask leaves of one Agent when the list shows nobody replacing. */
  lemma GrantedView(c: Class, w: World, self: Agent, x: Agent)
    requires Shape(c, w) && MayAsk(w, self, 0) && x in w.views
    requires Answer(c, w, self, 0) && Shown(Listing(c, w), self) == {}
    ensures x in AskStep(c, w, self, 0).views
    ensures AskStep(c, w, self, 0).views[x] ==
            var v := w.views[x];
            if x == self then v.(reserved := Some(w.now), grant := Some(Grant(0, w.now)))
            else if v.reserved.Some? && w.now - v.reserved.value >= RESERVATION_TTL then v.(reserved := None)
            else v
  {
    ReservedAfterAsk(w, Listing(c, w), self, true, x);
    hide ReservedAfter, Reserved, Granted, Cap, Shown, Listing;
  }

  lemma PairMayAsk(b: Bounds, p: Agent, q: Agent, now: int, u: View, v: View, self: Agent)
    requires p != q && Wf(u) && Wf(v) && self in {p, q} && Shape(Duo(p, q), Pair(p, q, now, u, v))
    requires Unseen(u, now) && Unseen(v, now) && (if self == p then u else v).grant.None?
    ensures var c, w := Duo(p, q), Pair(p, q, now, u, v);
            MayAsk(w, self, 0) && Step(c, b, w, Ask(self, 0)) == AskStep(c, w, self, 0)
  {
    hide Shape, AskStep;
  }

  /** A class of two where nobody holds a slot that can be seen: the asker is granted
      one, and a reservation of the other's that has expired is dropped. */
  lemma PairAsk(b: Bounds, p: Agent, q: Agent, now: int, u: View, v: View, self: Agent)
    requires p != q && Wf(u) && Wf(v) && self in {p, q}
    requires Unseen(u, now) && Unseen(v, now) && (if self == p then u else v).grant.None?
    ensures var u', v' := Asked(u, now, self == p), Asked(v, now, self == q);
            && Shape(Duo(p, q), Pair(p, q, now, u, v))
            && Step(Duo(p, q), b, Pair(p, q, now, u, v), Ask(self, 0)) == Pair(p, q, now, u', v')
  {
    var c, w := Duo(p, q), Pair(p, q, now, u, v);
    PairListing(p, q, now, u, v);
    NoReservation(p, q, now, u, v);
    hide Listing, Reserved, Unexpired, AskStep, Answer, Shown, Shape, Step, MayAsk, InTime;
    PairMayAsk(b, p, q, now, u, v, self);
    AskIsGranted(c, w, self);
    GrantedView(c, w, self, p);
    GrantedView(c, w, self, q);
    AskKeys(c, w, self, 0);
    PairOf(AskStep(c, w, self, 0), p, q);
  }

  /** The cache shows the Agent as it began, and its reservation is gone or has expired. */
  predicate Unseen(v: View, now: int)
    requires Wf(v)
  {
    && Cached(v) == Obj(Other, false, 0) && v.objs[0] == Obj(Other, false, 0)
    && (v.reserved.Some? ==> now - v.reserved.value >= RESERVATION_TTL)
  }

  function Asked(v: View, now: int, asks: bool): View {
    if asks then v.(reserved := Some(now), grant := Some(Grant(0, now))) else v.(reserved := None)
  }

  lemma NoReservation(p: Agent, q: Agent, now: int, u: View, v: View)
    requires p != q && Wf(u) && Wf(v) && Unseen(u, now) && Unseen(v, now)
    ensures Unexpired(Reserved(Pair(p, q, now, u, v)), now) == map[]
  {}

  lemma PairOf(w: World, p: Agent, q: Agent)
    requires w.views.Keys == {p, q}
    ensures w == Pair(p, q, w.now, w.views[p], w.views[q])
  {
    assert w.views == map[p := w.views[p], q := w.views[q]];
  }

  lemma PairTick(b: Bounds, p: Agent, q: Agent, now: int, u: View, t: int)
    requires p != q && Wf(u) && t >= now && InTime(b, u, t)
    ensures Shape(Duo(p, q), Pair(p, q, now, u, FRESH))
    ensures Step(Duo(p, q), b, Pair(p, q, now, u, FRESH), Tick(t)) == Pair(p, q, t, u, FRESH)
  {
    PairListing(p, q, now, u, FRESH);
    hide AskStep, Listing, Shape;
  }

  lemma PairPersist(b: Bounds, p: Agent, q: Agent, now: int, u: View)
    requires p != q && Wf(u)
    ensures Shape(Duo(p, q), Pair(p, q, now, u, FRESH))
    ensures Step(Duo(p, q), b, Pair(p, q, now, u, FRESH), Persist(p)) == Pair(p, q, now, Persisted(u, now), FRESH)
  {
    PairListing(p, q, now, u, FRESH);
    hide AskStep, Listing, Shape, Persisted;
    var w := Step(Duo(p, q), b, Pair(p, q, now, u, FRESH), Persist(p));
    PairOf(w, p, q);
  }

  lemma PairRestart(b: Bounds, p: Agent, q: Agent, now: int, u: View)
    requires p != q && Wf(u)
    ensures Shape(Duo(p, q), Pair(p, q, now, u, FRESH))
    ensures Step(Duo(p, q), b, Pair(p, q, now, u, FRESH), Restart) == Pair(p, q, now, Restarted(b, u), FRESH)
  {
    PairListing(p, q, now, u, FRESH);
    hide AskStep, Listing, Shape;
    var w := Step(Duo(p, q), b, Pair(p, q, now, u, FRESH), Restart);
    PairOf(w, p, q);
  }

  lemma FirstAsk(b: Bounds, p: Agent, q: Agent)
    requires p != q
    ensures Shape(Duo(p, q), Pair(p, q, 0, FRESH, FRESH))
    ensures Step(Duo(p, q), b, Pair(p, q, 0, FRESH, FRESH), Ask(p, 0)) == Pair(p, q, 0, GRANTED, FRESH)
  {
    hide Step, Shape, Pair;
    PairAsk(b, p, q, 0, FRESH, FRESH, p);
  }

  /** Once the first reservation has expired unseen, the second Agent is granted too. */
  lemma SecondAsk(b: Bounds, p: Agent, q: Agent, u: View)
    requires p != q && Wf(u) && u.objs[0] == Cached(u) == Obj(Other, false, 0) && u.reserved == Some(0)
    ensures Shape(Duo(p, q), Pair(p, q, RESERVATION_TTL, u, FRESH))
    ensures Step(Duo(p, q), b, Pair(p, q, RESERVATION_TTL, u, FRESH), Ask(q, 0)) ==
            Pair(p, q, RESERVATION_TTL, u.(reserved := None), LATE)
  {
    hide Step, Shape, Pair;
    PairAsk(b, p, q, RESERVATION_TTL, u, FRESH, q);
  }

  /** So is it when a restart has lost the reservation of a write that still lands. */
  lemma AskAfterRestart(b: Bounds, p: Agent, q: Agent)
    requires p != q
    ensures var u := GRANTED.(reserved := None);
            && Shape(Duo(p, q), Pair(p, q, 0, u, FRESH))
            && Step(Duo(p, q), b, Pair(p, q, 0, u, FRESH), Ask(q, 0)) == Pair(p, q, 0, u, GRANTED)
  {
    hide Step, Shape, Pair;
    PairAsk(b, p, q, 0, GRANTED.(reserved := None), FRESH, q);
  }

  lemma BothBusy(p: Agent, q: Agent, now: int, u: View, v: View)
    requires p != q && Wf(u) && Wf(v) && Busy(u) && Busy(v)
    ensures !Capped(Duo(p, q), Pair(p, q, now, u, v))
  {
    PairListing(p, q, now, u, v);
    assert BusyAgents(Pair(p, q, now, u, v)) == {p, q};
  }

  ghost predicate Capped(c: Class, w: World) {
    Shape(c, w) && |BusyAgents(w)| <= Cap(c)
  }

  // ---- runs of the two -------------------------------------------------------

  /** Some run of the class comes to this world. */
  ghost predicate Reached(c: Class, b: Bounds, w: World) {
    exists worlds, acts :: IsRun(c, b, worlds, acts) && worlds[|acts|] == w
  }

  lemma ReachedStart(b: Bounds, p: Agent, q: Agent)
    requires p != q
    ensures Reached(Duo(p, q), b, Pair(p, q, 0, FRESH, FRESH))
  {
    PairListing(p, q, 0, FRESH, FRESH);
    var worlds := [Pair(p, q, 0, FRESH, FRESH)];
    var acts: seq<Act> := [];
    assert IsRun(Duo(p, q), b, worlds, acts) && worlds[|acts|] == worlds[0];
  }

  lemma ReachedNext(c: Class, b: Bounds, w: World, a: Act)
    requires Reached(c, b, w) && Shape(c, w)
    ensures Reached(c, b, Step(c, b, w, a))
  {
    hide Step, Calm, Shape;
    var worlds, acts :| IsRun(c, b, worlds, acts) && worlds[|acts|] == w;
    var w' := Step(c, b, w, a);
    var more, steps := worlds + [w'], acts + [a];
    assert IsRun(c, b, more, steps) && more[|steps|] == w';
  }

  lemma GrantedFacts(b: Bounds, t: int)
    requires 0 <= t <= b.write
    ensures Wf(GRANTED) && InTime(b, GRANTED, t) && Cached(GRANTED) == Obj(Other, false, 0)
    ensures Busy(GRANTED.(reserved := None)) && Busy(GRANTED) && Wf(LATE) && Busy(LATE)
  {}

  lemma PersistedFacts(b: Bounds)
    requires RESERVATION_TTL <= b.write + b.lag
    ensures var done := Persisted(GRANTED, b.write);
            && Wf(done) && InTime(b, done, RESERVATION_TTL) && done.objs[0] == Cached(done) == Obj(Other, false, 0)
            && done.reserved == Some(0) && Busy(done.(reserved := None))
  {}

  /** The write itself outlasts the reservation. */
  lemma SlowWrite(b: Bounds, p: Agent, q: Agent)
    requires p != q && b.write >= RESERVATION_TTL
    ensures Reached(Duo(p, q), b, Pair(p, q, RESERVATION_TTL, GRANTED.(reserved := None), LATE))
  {
    hide Step, Pair, Reached, Shape, InTime, Duo;
    var c := Duo(p, q);
    GrantedFacts(b, RESERVATION_TTL);
    ReachedStart(b, p, q);
    FirstAsk(b, p, q);
    ReachedNext(c, b, Pair(p, q, 0, FRESH, FRESH), Ask(p, 0));
    PairTick(b, p, q, 0, GRANTED, RESERVATION_TTL);
    ReachedNext(c, b, Pair(p, q, 0, GRANTED, FRESH), Tick(RESERVATION_TTL));
    SecondAsk(b, p, q, GRANTED);
    ReachedNext(c, b, Pair(p, q, RESERVATION_TTL, GRANTED, FRESH), Ask(q, 0));
  }

  /** The cache does not show the write before the reservation is gone. */
  lemma SlowCache(b: Bounds, p: Agent, q: Agent)
    requires p != q && b.write < RESERVATION_TTL <= b.write + b.lag
    ensures Reached(Duo(p, q), b, Pair(p, q, RESERVATION_TTL, Persisted(GRANTED, b.write).(reserved := None), LATE))
  {
    hide Step, Pair, Reached, Shape, InTime, Persisted, Duo;
    var c := Duo(p, q);
    GrantedFacts(b, b.write);
    PersistedFacts(b);
    var done := Persisted(GRANTED, b.write);
    ReachedStart(b, p, q);
    FirstAsk(b, p, q);
    ReachedNext(c, b, Pair(p, q, 0, FRESH, FRESH), Ask(p, 0));
    PairTick(b, p, q, 0, GRANTED, b.write);
    ReachedNext(c, b, Pair(p, q, 0, GRANTED, FRESH), Tick(b.write));
    PairPersist(b, p, q, b.write, GRANTED);
    ReachedNext(c, b, Pair(p, q, b.write, GRANTED, FRESH), Persist(p));
    PairTick(b, p, q, b.write, done, RESERVATION_TTL);
    ReachedNext(c, b, Pair(p, q, b.write, done, FRESH), Tick(RESERVATION_TTL));
    SecondAsk(b, p, q, done);
    ReachedNext(c, b, Pair(p, q, RESERVATION_TTL, done, FRESH), Ask(q, 0));
  }

  /** A restart loses the reservation of a write that lands all the same. */
  lemma WriteOutlivesRestart(b: Bounds, p: Agent, q: Agent)
    requires p != q && !b.cut
    ensures Reached(Duo(p, q), b, Pair(p, q, 0, GRANTED.(reserved := None), GRANTED))
  {
    hide Step, Pair, Reached, Shape, InTime, Duo;
    var c := Duo(p, q);
    GrantedFacts(b, 0);
    ReachedStart(b, p, q);
    FirstAsk(b, p, q);
    ReachedNext(c, b, Pair(p, q, 0, FRESH, FRESH), Ask(p, 0));
    PairRestart(b, p, q, 0, GRANTED);
    ReachedNext(c, b, Pair(p, q, 0, GRANTED, FRESH), Restart);
    AskAfterRestart(b, p, q);
    ReachedNext(c, b, Pair(p, q, 0, GRANTED.(reserved := None), FRESH), Ask(q, 0));
  }

  /** Slower bounds, or writes that outlive a restart, let both Agents replace their
      Pods at once. */
  lemma SlowBreaksCap(b: Bounds, p: Agent, q: Agent) returns (w: World)
    requires p != q && !Prompt(b)
    ensures Reached(Duo(p, q), b, w) && !Capped(Duo(p, q), w)
  {
    hide Reached, Pair, Capped, Persisted, InTime, Duo;
    if !b.cut {
      GrantedFacts(b, 0);
      WriteOutlivesRestart(b, p, q);
      BothBusy(p, q, 0, GRANTED.(reserved := None), GRANTED);
      w := Pair(p, q, 0, GRANTED.(reserved := None), GRANTED);
    } else if b.write >= RESERVATION_TTL {
      GrantedFacts(b, RESERVATION_TTL);
      SlowWrite(b, p, q);
      BothBusy(p, q, RESERVATION_TTL, GRANTED.(reserved := None), LATE);
      w := Pair(p, q, RESERVATION_TTL, GRANTED.(reserved := None), LATE);
    } else {
      GrantedFacts(b, 0);
      PersistedFacts(b);
      SlowCache(b, p, q);
      var done := Persisted(GRANTED, b.write);
      BothBusy(p, q, RESERVATION_TTL, done.(reserved := None), LATE);
      w := Pair(p, q, RESERVATION_TTL, done.(reserved := None), LATE);
    }
  }

  lemma PromptIsCapped(c: Class, b: Bounds, w: World)
    requires Prompt(b) && Reached(c, b, w)
    ensures Capped(c, w)
  {
    var worlds, acts :| IsRun(c, b, worlds, acts) && worlds[|acts|] == w;
    CapHolds(c, b, worlds, acts, |acts|);
  }

  /** The cap holds in every run of every class exactly when a grant's write and the
      cache together are faster than a reservation expires, and a restart cuts off the
      writes under way. */
  lemma CapNeedsPromptness(b: Bounds)
    ensures Prompt(b) <==> forall c, w | Reached(c, b, w) :: Capped(c, w)
  {
    hide Reached, Capped;
    if Prompt(b) {
      forall c, w | Reached(c, b, w) ensures Capped(c, w) { PromptIsCapped(c, b, w); }
    } else {
      assert P != Q by { assert P[0] != Q[0]; }
      var w := SlowBreaksCap(b, P, Q);
    }
  }
}

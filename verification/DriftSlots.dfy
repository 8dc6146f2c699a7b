/** The drift-slot admission of internal/controller/agent_drift_slots.go: at
    most a capped number of a class's Agents replace a drifted Pod at once.
    Listing the cache and taking the lock are one step here. Times are in
    milliseconds. */
module DriftSlots {
  import opened Prelude

  type Agent = string

  /** The reason of an Agent's PodUpToDate condition, as far as slots care. */
  datatype Reason = Other | ReplacementPending | Replacing

  /** An Agent as the cache lists it. */
  datatype Item = Item(key: Agent, reason: Reason, idle: bool)

  const RESERVATION_TTL: nat := 30_000

  // ---- the cap --------------------------------------------------------------

  /** lifecycle.maxUnavailableOnDrift: a count, a percentage, or a value no rule allows. */
  datatype Limit = Count(n: int) | Percent(p: int) | Malformed

  const DEFAULT_LIMIT := Percent(25)

  /** A percentage of the class rounds up; floor division here is exact for any sign. */
  function Scaled(limit: Limit, total: nat): int
    requires !limit.Malformed?
  {
    match limit
    case Count(n) => n
    case Percent(p) => (p * total + 99) / 100
  }

  function MaxUnavailable(limit: Option<Limit>, total: nat): (cap: nat)
    ensures cap >= 1
  {
    var l := if limit.Some? then limit.value else DEFAULT_LIMIT;
    var n := Scaled(if l.Malformed? then DEFAULT_LIMIT else l, total);
    if n < 1 then 1 else n
  }

  /** The cap is the least number of Agents that is at least the percentage, and never none. */
  lemma CapIsCeiling(p: nat, total: nat)
    ensures var cap := MaxUnavailable(Some(Percent(p)), total);
            100 * cap >= p * total && (cap > 1 ==> 100 * (cap - 1) < p * total)
  {
    var x := p * total;
    assert (x + 99) / 100 * 100 <= x + 99 < (x + 99) / 100 * 100 + 100;
  }

  /** A count is taken as it is, an unset or unreadable limit as a quarter of the class. */
  lemma CapCases(n: int, total: nat)
    ensures MaxUnavailable(Some(Count(n)), total) == if n > 0 then n else 1
    ensures n <= 0 ==> MaxUnavailable(Some(Percent(n)), total) == 1
    ensures var quarter := MaxUnavailable(Some(Percent(25)), total);
            MaxUnavailable(None, total) == quarter && MaxUnavailable(Some(Malformed), total) == quarter
  {
    if n <= 0 {
      assert n * total <= 0;
      assert (n * total + 99) / 100 <= 0;
    }
  }

  // ---- one acquire ------------------------------------------------------------

  function Unexpired(reserved: map<Agent, int>, now: int): map<Agent, int> {
    map k | k in reserved && now - reserved[k] < RESERVATION_TTL :: reserved[k]
  }

  /** The other Agents the list shows replacing. */
  function Shown(items: seq<Item>, self: Agent): set<Agent> {
    set it | it in items && it.key != self && it.reason == Replacing :: it.key
  }

  predicate Holds(it: Item, self: Agent, reserved: map<Agent, int>) {
    it.key != self && (it.reason == Replacing || it.key in reserved)
  }

  /** The other Agents of the class that hold a slot: shown replacing, or reserved. */
  function InUse(items: seq<Item>, self: Agent, reserved: map<Agent, int>): set<Agent> {
    set it | it in items && Holds(it, self, reserved) :: it.key
  }

  predicate IdleWaiting(items: seq<Item>, self: Agent) {
    exists it | it in items :: it.key != self && it.reason == ReplacementPending && it.idle
  }

  predicate Distinct(items: seq<Item>) {
    forall i, j | 0 <= i < j < |items| :: items[i].key != items[j].key
  }

  predicate Granted(items: seq<Item>, self: Agent, idle: bool, cap: nat, reserved: map<Agent, int>, now: int) {
    && |InUse(items, self, Unexpired(reserved, now))| < cap
    && (IdleWaiting(items, self) ==> idle)
  }

  function ReservedAfter(items: seq<Item>, self: Agent, granted: bool, reserved: map<Agent, int>, now: int)
    : map<Agent, int>
  {
    var kept := Unexpired(reserved, now) - Shown(items, self);
    if granted then kept[self := now] else kept
  }

  class Slots {
    var reserved: map<Agent, int>

    constructor ()
      ensures reserved == map[]
    {
      reserved := map[];
    }

    method DropExpired(now: int)
      modifies `reserved
      ensures reserved == Unexpired(old(reserved), now)
    {
      var todo := reserved.Keys;
      while todo != {}
        invariant todo <= reserved.Keys
        invariant reserved ==
                  map k | k in old(reserved) && (k in todo || now - old(reserved)[k] < RESERVATION_TTL) ::
                    old(reserved)[k]
        decreases todo
      {
        var k :| k in todo;
        if now - reserved[k] >= RESERVATION_TTL { reserved := reserved - {k}; }
        todo := todo - {k};
      }
    }

    /** Counts the other holders of a slot, forgetting the reservations the list
        already shows. */
    method CountInUse(items: seq<Item>, self: Agent) returns (inUse: nat, idleWaiting: bool)
      requires Distinct(items)
      modifies `reserved
      ensures inUse == |InUse(items, self, old(reserved))|
      ensures idleWaiting == IdleWaiting(items, self)
      ensures reserved == old(reserved) - Shown(items, self)
    {
      hide InUse, IdleWaiting, Shown, Distinct;
      inUse, idleWaiting := 0, false;
      NoneYet(items[..0], self, reserved);
      ghost var start := reserved;
      for n := 0 to |items|
        invariant inUse == |InUse(items[..n], self, start)|
        invariant idleWaiting == IdleWaiting(items[..n], self)
        invariant reserved == start - Shown(items[..n], self)
      {
        OneMore(items, n, self, start);
        var other := items[n];
        if other.key != self {
          if other.reason == Replacing {
            inUse := inUse + 1;
            reserved := reserved - {other.key};
          } else {
            if other.reason == ReplacementPending && other.idle { idleWaiting := true; }
            if other.key in reserved { inUse := inUse + 1; }
          }
        }
      }
      assert items[..|items|] == items;
    }

    /** Whether the Agent may replace its Pod now. A grant reserves a slot. */
    method Acquire(items: seq<Item>, self: Agent, idle: bool, limit: Option<Limit>, now: int) returns (granted: bool)
      requires Distinct(items)
      modifies `reserved
      ensures granted == Granted(items, self, idle, MaxUnavailable(limit, |items|), old(reserved), now)
      ensures reserved == ReservedAfter(items, self, granted, old(reserved), now)
      ensures granted <==>
                && |set it | it in items && it.key != self
                             && (it.reason == Replacing
                                 || (it.key in old(reserved) && now - old(reserved)[it.key] < 30_000)) :: it.key|
                   < MaxUnavailable(limit, |items|)
                && (idle || forall it | it in items && it.key != self && it.reason == ReplacementPending :: !it.idle)
      ensures forall k :: k in reserved <==>
                || (granted && k == self)
                || (k in old(reserved) && now - old(reserved)[k] < 30_000
                    && forall it | it in items && it.key == k && k != self :: it.reason != Replacing)
    {
      SlotRule(items, self, idle, MaxUnavailable(limit, |items|), reserved, now);
      hide Unexpired, InUse, IdleWaiting, Shown;
      DropExpired(now);
      var inUse, idleWaiting := CountInUse(items, self);
      if inUse >= MaxUnavailable(limit, |items|) { return false; }
      if idleWaiting && !idle { return false; }
      reserved := reserved[self := now];
      granted := true;
    }
  }

  /** Who counts against the cap, who goes first, and whose reservation stays. */
  lemma SlotRule(items: seq<Item>, self: Agent, idle: bool, cap: nat, reserved: map<Agent, int>, now: int)
    ensures Granted(items, self, idle, cap, reserved, now) <==>
              && |set it | it in items && it.key != self
                           && (it.reason == Replacing || (it.key in reserved && now - reserved[it.key] < 30_000))
                   :: it.key| < cap
              && (idle || forall it | it in items && it.key != self && it.reason == ReplacementPending :: !it.idle)
    ensures forall granted, k :: k in ReservedAfter(items, self, granted, reserved, now) <==>
              || (granted && k == self)
              || (k in reserved && now - reserved[k] < 30_000
                  && forall it | it in items && it.key == k && k != self :: it.reason != Replacing)
  {
    assert InUse(items, self, Unexpired(reserved, now)) ==
           set it | it in items && it.key != self
                    && (it.reason == Replacing || (it.key in reserved && now - reserved[it.key] < 30_000)) :: it.key;
    assert forall k :: k in Shown(items, self) <==>
             exists it | it in items :: it.key == k && k != self && it.reason == Replacing;
  }

  lemma NoneYet(items: seq<Item>, self: Agent, reserved: map<Agent, int>)
    requires items == []
    ensures InUse(items, self, reserved) == {} && Shown(items, self) == {} && !IdleWaiting(items, self)
  {}

  lemma OneMore(items: seq<Item>, n: nat, self: Agent, reserved: map<Agent, int>)
    requires n < |items| && Distinct(items)
    ensures var before, it := items[..n], items[n];
            && InUse(items[..n + 1], self, reserved) ==
               InUse(before, self, reserved) + (if Holds(it, self, reserved) then {it.key} else {})
            && Shown(items[..n + 1], self) ==
               Shown(before, self) + (if it.key != self && it.reason == Replacing then {it.key} else {})
            && (IdleWaiting(items[..n + 1], self) <==>
                IdleWaiting(before, self) || (it.key != self && it.reason == ReplacementPending && it.idle))
            && it.key !in InUse(before, self, reserved) && it.key !in Shown(before, self)
  {
    var before, it := items[..n], items[n];
    assert items[..n + 1] == before + [it];
    assert forall x :: x in before + [it] <==> x in before || x == it;
    assert forall x | x in before :: x.key != it.key;
  }
}

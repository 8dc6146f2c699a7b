/** The filter that drops the event a reconciler's own status write raises
    (internal/controller/own_status_write.go:50-109). */
module OwnWrites {
  import opened Prelude

  type Key = string
  type Version = string

  /** What happens to the filter: a status write returned, a pass read the object,
      the object is gone, an update event arrived. */
  datatype Act =
    | Wrote(key: Key, v: Version)
    | Read(key: Key, v: Version)
    | Gone(key: Key)
    | Update(key: Key, from: Version, to: Version)

  /** An absent record reads as the empty version. */
  function Recorded(rv: map<Key, Version>, k: Key): Version {
    if k in rv then rv[k] else ""
  }

  predicate Admits(rv: map<Key, Version>, e: Act)
    requires e.Update?
  {
    e.to == e.from || Recorded(rv, e.key) != e.to
  }

  function Step(rv: map<Key, Version>, a: Act): map<Key, Version> {
    match a
    case Wrote(k, v) => rv[k := v]
    case Read(k, v) => if k in rv && rv[k] != v then rv - {k} else rv
    case Gone(k) => rv - {k}
    case Update(k, _, _) => if Admits(rv, a) then rv else rv - {k}
  }

  function Run(h: seq<Act>): map<Key, Version> {
    if h == [] then map[] else Step(Run(h[..|h| - 1]), h[|h| - 1])
  }

  /** An act that leaves the record of the write v to k standing. */
  predicate Spares(a: Act, k: Key, v: Version) {
    a.key == k ==>
      match a
      case Wrote(_, _) => false
      case Read(_, u) => u == v
      case Gone(_) => false
      case Update(_, from, to) => to != v || from == v
  }

  /** The version v of k was written, and nothing since then has touched its record. */
  ghost predicate StandsSince(h: seq<Act>, k: Key, v: Version, i: nat) {
    i < |h| && h[i] == Wrote(k, v) && forall j | i < j < |h| :: Spares(h[j], k, v)
  }

  lemma StepKeepsIff(rv: map<Key, Version>, a: Act, k: Key, v: Version)
    requires v != ""
    ensures Get(Step(rv, a), k) == Some(v) <==> a == Wrote(k, v) || (Get(rv, k) == Some(v) && Spares(a, k, v))
  {}

  /** A record is held exactly while it stands. */
  lemma {:induction false} HeldIff(h: seq<Act>, k: Key, v: Version)
    requires v != ""
    ensures Get(Run(h), k) == Some(v) <==> exists i: nat :: StandsSince(h, k, v, i)
  {
    hide Step, Spares;
    if h != [] {
      var front, a := h[..|h| - 1], h[|h| - 1];
      HeldIff(front, k, v);
      StepKeepsIff(Run(front), a, k, v);
      if i: nat :| StandsSince(front, k, v, i) && Spares(a, k, v) {
        assert StandsSince(h, k, v, i);
      }
      if a == Wrote(k, v) { assert StandsSince(h, k, v, |h| - 1); }
      if i: nat :| StandsSince(h, k, v, i) {
        if i < |front| { StandsBefore(h, k, v, i); }
      }
    }
  }

  lemma StandsBefore(h: seq<Act>, k: Key, v: Version, i: nat)
    requires StandsSince(h, k, v, i) && i < |h| - 1
    ensures StandsSince(h[..|h| - 1], k, v, i) && Spares(h[|h| - 1], k, v)
  {
    hide Spares;
    assert forall j | i < j < |h| - 1 :: h[..|h| - 1][j] == h[j];
  }

  /** An update event is dropped exactly when it is that of the reconciler's own last
      write, every pass since the write read precisely that version, the object was
      not found gone, and the event is seen for the first time. */
  lemma DroppedIff(h: seq<Act>, k: Key, from: Version, to: Version)
    requires to != ""
    ensures !Admits(Run(h), Update(k, from, to)) <==> from != to && exists i: nat :: StandsSince(h, k, to, i)
  {
    hide Run, StandsSince;
    HeldIff(h, k, to);
  }

  /** A pass that read another copy is always followed by another pass: the event of
      the write is let through, whatever else happened between, unless that very
      version was written again. */
  lemma StaleReadRunsAgain(h: seq<Act>, k: Key, u: Version, after: seq<Act>, from: Version, to: Version)
    requires to != "" && u != to && Wrote(k, to) !in after
    ensures Admits(Run(h + [Read(k, u)] + after), Update(k, from, to))
  {
    hide Run, Admits, Step;
    var all := h + [Read(k, u)] + after;
    DroppedIff(all, k, from, to);
    assert all[|h|] == Read(k, u);
    assert forall i | |h| < i < |all| :: all[i] == after[i - |h| - 1];
    assert forall i: nat :: !StandsSince(all, k, to, i);
  }

  // ---- the filter itself -------------------------------------------------------------

  class Filter {
    var rv: map<Key, Version>

    constructor ()
      ensures rv == Run([])
    {
      rv := map[];
    }

    method Record(k: Key, v: Version)
      modifies this
      ensures rv == Step(old(rv), Wrote(k, v))
    {
      rv := rv[k := v];
    }

    method ReadStale(k: Key, v: Version)
      modifies this
      ensures rv == Step(old(rv), Read(k, v))
    {
      if k in rv && rv[k] != v { rv := rv - {k}; }
    }

    method Forget(k: Key)
      modifies this
      ensures rv == Step(old(rv), Gone(k))
    {
      rv := rv - {k};
    }

    /** skipOwn's answer to an update event. */
    method SkipOwn(k: Key, from: Version, to: Version) returns (admit: bool)
      modifies this
      ensures rv == Step(old(rv), Update(k, from, to))
      ensures admit == Admits(old(rv), Update(k, from, to))
    {
      if to == from { return true; }
      var recorded := if k in rv then rv[k] else "";
      if recorded != to { return true; }
      rv := rv - {k};
      return false;
    }
  }
}

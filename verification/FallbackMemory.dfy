/** What the reconciler remembers of each provider's last recorded findings, so
    that it announces each new finding once
    (internal/controller/modelprovider_fallback_eligibility.go:193-219, 304-389).
    A note is the set of findings it names; passes over one provider do not
    overlap, passes over different ones may. */
module FallbackMemory {
  import opened Prelude
  import opened FallbackScan

  type Name = string
  type Uid = string
  type Keys = set<Finding>

  datatype Entry = Entry(uid: Uid, keys: Keys, note: Keys)

  /** The steps of passes: one scans the provider of that name and UID, whose stored
      condition does or does not list findings; it ends with its status stored or
      not; the provider is found gone; the process starts anew. */
  datatype Act =
    | Scan(name: Name, uid: Uid, found: Keys, listed: bool)
    | End(name: Name, stored: bool)
    | Gone(name: Name)
    | Restart

  // ---- the memory ------------------------------------------------------------------

  class Memory {
    var known: map<Name, Entry>
    var pending: map<Name, Entry>

    function Contents(): Mem
      reads this
    {
      Mem(known, pending)
    }

    constructor ()
      ensures Contents() == Run([])
    {
      known, pending := map[], map[];
    }

    method Lookup(name: Name, uid: Uid) returns (keys: Keys, remembered: bool)
      ensures (if remembered then Some(keys) else None) == Remembered(Contents(), name, uid)
    {
      if name !in known || known[name].uid != uid { return {}, false; }
      return known[name].keys, true;
    }

    method Stage(name: Name, uid: Uid, found: Keys, note: Keys)
      modifies this
      ensures known == old(known) && pending == old(pending)[name := Entry(uid, found, note)]
    {
      pending := pending[name := Entry(uid, found, note)];
    }

    /** setFallbackEligibility's use of the memory. */
    method SetEligibility(name: Name, uid: Uid, found: Keys, listed: bool)
      modifies this
      ensures Contents() == Step(old(Contents()), Scan(name, uid, found, listed))
    {
      var keys, remembered := Lookup(name, uid);
      if !remembered && !listed { keys, remembered := {}, true; }
      assert found - {} == found;
      if remembered { Stage(name, uid, found, found - keys); } else { Stage(name, uid, found, {}); }
    }

    method Settle(name: Name, stored: bool) returns (note: Keys)
      modifies this
      ensures Contents() == Step(old(Contents()), End(name, stored))
      ensures note == Sent(old(Contents()), End(name, stored))
    {
      if name !in pending { return {}; }
      var s := pending[name];
      pending := pending - {name};
      if !stored { return {}; }
      known := known[name := s.(note := {})];
      return s.note;
    }

    method Forget(name: Name)
      modifies this
      ensures Contents() == Step(old(Contents()), Gone(name))
    {
      known, pending := known - {name}, pending - {name};
    }
  }

  // ---- its runs ----------------------------------------------------------------------

  datatype Mem = Mem(known: map<Name, Entry>, pending: map<Name, Entry>)

  function Remembered(s: Mem, name: Name, uid: Uid): Option<Keys> {
    if name in s.known && s.known[name].uid == uid then Some(s.known[name].keys) else None
  }

  function Step(s: Mem, a: Act): Mem {
    match a
    case Scan(n, u, found, listed) =>
      var before := Remembered(s, n, u);
      var note := if before.Some? then found - before.value else if listed then {} else found;
      s.(pending := s.pending[n := Entry(u, found, note)])
    case End(n, stored) =>
      if n !in s.pending then s
      else if stored then Mem(s.known[n := s.pending[n].(note := {})], s.pending - {n})
      else s.(pending := s.pending - {n})
    case Gone(n) => Mem(s.known - {n}, s.pending - {n})
    case Restart => Mem(map[], map[])
  }

  /** The note a step sends. */
  function Sent(s: Mem, a: Act): Keys {
    if a.End? && a.stored && a.name in s.pending then s.pending[a.name].note else {}
  }

  function Run(h: seq<Act>): Mem {
    if h == [] then Mem(map[], map[]) else Step(Run(h[..|h| - 1]), h[|h| - 1])
  }

  /** The scan of the pass over the provider that is still under way. */
  function Open(h: seq<Act>, name: Name): Option<Act> {
    if h == [] then None
    else
      var a := h[|h| - 1];
      if a.Restart? then None
      else if a.name != name then Open(h[..|h| - 1], name) else if a.Scan? then Some(a) else None
  }

  /** What the last pass of this process to have been stored over a provider of this
      name found, with the UID it had. */
  function LastStored(h: seq<Act>, name: Name): Option<(Uid, Keys)> {
    if h == [] then None
    else
      var front, a := h[..|h| - 1], h[|h| - 1];
      if a.Restart? then None
      else if a.name != name || a.Scan? then LastStored(front, name)
      else if a.Gone? then None
      else
        var scan := Open(front, name);
        if a.stored && scan.Some? && scan.value.Scan? then Some((scan.value.uid, scan.value.found))
            else LastStored(front, name)
  }

  /** Passes over one provider do not overlap. */
  ghost predicate Serial(h: seq<Act>) {
    forall k | 0 <= k < |h| && h[k].Scan? :: Open(h[..k], h[k].name) == None
  }

  /** What a scan is compared with: what the last stored pass over the same provider found. */
  function Before(h: seq<Act>, name: Name, uid: Uid): Option<Keys> {
    var l := LastStored(h, name);
    if l.Some? && l.value.0 == uid then Some(l.value.1) else None
  }

  function NoteOf(h: seq<Act>, a: Act): Keys
    requires a.Scan?
  {
    var before := Before(h, a.name, a.uid);
    if before.Some? then a.found - before.value else if a.listed then {} else a.found
  }

  ghost predicate Tracks(h: seq<Act>, name: Name) {
    var s := Run(h);
    && (match LastStored(h, name)
        case None => name !in s.known
        case Some((u, keys)) => name in s.known && s.known[name] == Entry(u, keys, {}))
    && (match Open(h, name)
        case None => name !in s.pending
        case Some(scan) =>
          scan.Scan? && scan.name == name && name in s.pending
          && s.pending[name] == Entry(scan.uid, scan.found, NoteOf(h, scan)))
  }

  /** The memory follows the history of every provider. */
  lemma {:induction false} MemoryTracks(h: seq<Act>, name: Name)
    requires Serial(h)
    ensures Tracks(h, name)
  {
    if h != [] {
      var front, a := h[..|h| - 1], h[|h| - 1];
      assert Serial(front) by {
        forall k | 0 <= k < |front| && front[k].Scan? ensures Open(front[..k], front[k].name) == None {
          assert front[..k] == h[..k] && h[k] == front[k];
        }
      }
      MemoryTracks(front, name);
      if a.Scan? { assert Open(h[..|h| - 1], a.name) == None; }
    }
  }

  lemma EndStores(h: seq<Act>, name: Name, stored: bool)
    ensures LastStored(h + [End(name, stored)], name) ==
            var scan := Open(h, name);
            if stored && scan.Some? && scan.value.Scan? then Some((scan.value.uid, scan.value.found))
            else LastStored(h, name)
  {
    hide Open;
    assert (h + [End(name, stored)])[..|h|] == h;
  }

  /** A pass whose status is stored announces what it found beyond the last stored
      pass over the same provider, and is compared with next; one whose status is
      not stored announces nothing and changes nothing. */
  lemma Announces(h: seq<Act>, name: Name)
    requires Serial(h) && Open(h, name).Some?
    ensures var scan, last := Open(h, name).value, LastStored(h, name);
            && scan.Scan?
            && Sent(Run(h), End(name, true)) ==
               (if last.Some? && last.value.0 == scan.uid then scan.found - last.value.1
                else if scan.listed then {} else scan.found)
            && Before(h + [End(name, true)], name, scan.uid) == Some(scan.found)
            && (forall u | u != scan.uid :: Before(h + [End(name, true)], name, u) == None)
            && Sent(Run(h), End(name, false)) == {}
            && LastStored(h + [End(name, false)], name) == LastStored(h, name)
  {
    hide Run, Open, LastStored;
    MemoryTracks(h, name);
    EndStores(h, name, true);
    EndStores(h, name, false);
  }

  /** No restart, and no step over the provider but passes that find it still. */
  predicate GoesOn(a: Act, name: Name, uid: Uid, f: Finding) {
    !a.Restart? && (a.name == name ==> !a.Gone? && (a.Scan? ==> a.uid == uid && f in a.found))
  }

  /** While every pass over a provider goes on finding it, a finding that has been
      recorded is not announced again, however many of the passes fail. */
  lemma {:induction false} SteadyFindingIsSilent(h: seq<Act>, more: seq<Act>, name: Name, uid: Uid, f: Finding,
      stored: bool)
    requires Serial(h + more) && Open(h, name) == None
    requires Before(h, name, uid).Some? && f in Before(h, name, uid).value
    requires forall a | a in more :: GoesOn(a, name, uid, f)
    ensures f !in Sent(Run(h + more), End(name, stored))
  {
    hide Run;
    Steady(h, more, name, uid, f);
    MemoryTracks(h + more, name);
  }

  lemma {:induction false} Steady(h: seq<Act>, more: seq<Act>, name: Name, uid: Uid, f: Finding)
    requires Open(h, name) == None
    requires Before(h, name, uid).Some? && f in Before(h, name, uid).value
    requires forall a | a in more :: GoesOn(a, name, uid, f)
    ensures Before(h + more, name, uid).Some? && f in Before(h + more, name, uid).value
    ensures var o := Open(h + more, name);
            o.Some? ==> o.value.Scan? && o.value.name == name && o.value.uid == uid && f in o.value.found
  {
    if more == [] { assert h + more == h; } else {
      var front, a := more[..|more| - 1], more[|more| - 1];
      assert forall b | b in front :: b in more;
      assert a in more;
      Steady(h, front, name, uid, f);
      assert (h + more)[..|h + more| - 1] == h + front && (h + more)[|h + more| - 1] == a;
    }
  }
}

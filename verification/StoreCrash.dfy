/** The store as a crash-prone process over a disk: every write to the volume
    is a step of its own and the process may stop between any two of them, or
    in the middle of an append. Faults are crashes only; the clock never goes
    back. `hist`, `logFrom` and `snapTo` are history variables: the operations
    whose record reached the disk, where in them the log starts, and how many
    of them the snapshot holds. `stale` says that an older runtime, which knows
    no log, has since rewritten state.json and left the log behind. */
module StoreCrash {
  import opened Prelude
  import opened StoreState
  import opened StoreReplay
  import opened StoreLog

  /** state.json (absent before the first compaction) and state.log, with their mtimes. */
  datatype Disk = Disk(snap: Option<State>, snapTime: nat, log: Bytes, logTime: nat)

  /** How far a compaction has come: not running, asked for, the temporary file
      written and synced (its mtime is kept by the rename), renamed. */
  datatype Stage = Ready | MustCompact | TmpWritten(at: nat) | Renamed

  datatype Proc = Down | Up(ram: State, stage: Stage, dangling: bool, pending: Option<LogRecord>)

  /** What a caller sees: a call returned, or the process went down during one. */
  datatype Event = Acked(rec: LogRecord) | Crashed(inFlight: Option<LogRecord>)

  datatype World = World(
    now: nat, disk: Disk, proc: Proc, events: seq<Event>,
    hist: seq<LogRecord>, logFrom: nat, snapTo: nat, stale: bool)

  datatype Act =
    | Tick(t: nat)
    | Start
    | Begin(rec: LogRecord, compact: bool)
    | Tear(torn: LogRecord, k: nat)
    | WriteTmp
    | Rename
    | Truncate
    | Return
    | Recall(id: string)
    | Close
    | Crash
    | Downlevel(ops: seq<LogRecord>)

  const INIT: World := World(0, Disk(None, 0, [], 0), Down, [], [], 0, 0, false)

  // ---- recovery ------------------------------------------------------------

  function Load(d: Disk): State {
    if d.snap.Some? then d.snap.value else EMPTY
  }

  /** The log is strictly older than the snapshot. */
  predicate Discards(d: Disk) {
    d.log != [] && d.snap.Some? && d.snapTime > d.logTime
  }

  /** The state a start from this disk comes up with. */
  function Recovered(c: Codec, d: Disk, size: nat): State {
    if d.log == [] || Discards(d) then Load(d) else Replay(Parse(c, d.log).recs, Load(d), size)
  }

  function Boot(c: Codec, w: World, size: nat): World {
    if w.disk.log == [] then
      w.(proc := Up(Load(w.disk), Ready, false, None), stale := false)
    else if Discards(w.disk) then
      w.(disk := w.disk.(log := [], logTime := w.now),
         proc := Up(Load(w.disk), Ready, false, None), logFrom := |w.hist|, stale := false)
    else
      var scan := Parse(c, w.disk.log);
      var cut := if scan.good < |w.disk.log| then w.disk.(log := w.disk.log[..scan.good], logTime := w.now) else w.disk;
      w.(disk := cut, proc := Up(Recovered(c, w.disk, size), MustCompact, scan.dangling, None))
  }

  // ---- steps -----------------------------------------------------------------

  predicate Idle(p: Proc) {
    p.Up? && p.stage == Ready && p.pending.None?
  }

  function Appended(c: Codec, w: World, bytes: Bytes, complete: seq<LogRecord>): World {
    w.(disk := w.disk.(log := w.disk.log + bytes, logTime := if bytes == [] then w.disk.logTime else w.now),
       hist := w.hist + complete)
  }

  function Acks(h: seq<LogRecord>): seq<Event> {
    seq(|h|, i requires 0 <= i < |h| => Acked(h[i]))
  }

  /** An older runtime serves `ops` from the snapshot alone and rewrites state.json
      after the log's last append. What was only in the log is out of its sight: from
      here on, the operations on record are those its file holds. */
  function Rewritten(w: World, ops: seq<LogRecord>, size: nat): World
    requires w.snapTo <= |w.hist|
  {
    var h := w.hist[..w.snapTo] + ops;
    w.(disk := w.disk.(snap := Some(Replay(ops, Load(w.disk), size)), snapTime := w.now),
       events := Acks(h), hist := h, logFrom := |h|, snapTo := |h|, stale := true)
  }

  /** One step; an action that does not apply leaves the world as it is. */
  function Next(c: Codec, w: World, a: Act, size: nat): World {
    var p := w.proc;
    match a
    case Tick(t) => if t >= w.now then w.(now := t) else w
    case Start => if p.Down? then Boot(c, w, size) else w
    case Begin(rec, compact) =>
      if !Idle(p) || !Loggable(rec) then w
      else Appended(c, w, AppendBytes(c, rec, p.dangling), [rec]).(
        proc := Up(Apply(rec, p.ram, size), if compact then MustCompact else Ready, false, Some(rec)))
    case Tear(rec, k) =>
      if !Idle(p) || !Loggable(rec) || k > |AppendBytes(c, rec, p.dangling)| then w
      else
        var bytes := AppendBytes(c, rec, p.dangling);
        Appended(c, w, bytes[..k], if k >= |bytes| - 1 then [rec] else []).(
          proc := Down, events := w.events + [Crashed(Some(rec))])
    case WriteTmp => if p.Up? && p.stage == MustCompact then w.(proc := p.(stage := TmpWritten(w.now))) else w
    case Rename =>
      if p.Up? && p.stage.TmpWritten? then
        w.(disk := w.disk.(snap := Some(p.ram), snapTime := p.stage.at),
           proc := p.(stage := Renamed), snapTo := |w.hist|)
      else w
    case Truncate =>
      if p.Up? && p.stage == Renamed then
        w.(disk := w.disk.(log := [], logTime := w.now),
           proc := p.(stage := Ready, dangling := false), logFrom := |w.hist|)
      else w
    case Return =>
      if p.Up? && p.stage == Ready && p.pending.Some? then
        w.(proc := p.(pending := None), events := w.events + [Acked(p.pending.value)])
      else w
    case Recall(id) =>
      if Idle(p) && id in p.ram.cache.replies then
        w.(proc := p.(ram := p.ram.(cache := Touch(p.ram.cache, id))))
      else w
    case Close => if Idle(p) && w.disk.log != [] then w.(proc := p.(stage := MustCompact)) else w
    case Crash => if p.Up? then w.(proc := Down, events := w.events + [Crashed(p.pending)]) else w
    case Downlevel(ops) =>
      if p.Down? && w.disk.logTime < w.now && w.snapTo <= |w.hist| then Rewritten(w, ops, size) else w
  }

  function Exec(c: Codec, acts: seq<Act>, size: nat): World {
    if acts == [] then INIT
    else Next(c, Exec(c, acts[..|acts| - 1], size), acts[|acts| - 1], size)
  }

  // ---- what callers were told, against what happened ---------------------------

  /** `h` holds every acknowledged operation, in order, and of each operation in
      flight at a crash either nothing or all. */
  ghost predicate Explains(events: seq<Event>, h: seq<LogRecord>) {
    if events == [] then h == []
    else
      var front := events[..|events| - 1];
      match events[|events| - 1]
      case Acked(rec) => h != [] && h[|h| - 1] == rec && Explains(front, h[..|h| - 1])
      case Crashed(None) => Explains(front, h)
      case Crashed(Some(rec)) =>
        Explains(front, h) || (h != [] && h[|h| - 1] == rec && Explains(front, h[..|h| - 1]))
  }

  /** The events as they would stand if the process went down now. */
  function IfCrashedNow(w: World): seq<Event> {
    if w.proc.Up? then w.events + [Crashed(w.proc.pending)] else w.events
  }

  // ---- the invariant ------------------------------------------------------------

  /** A state that holds exactly the operations `h`. */
  ghost predicate Holds(s: State, h: seq<LogRecord>, size: nat) {
    && s.kv == ReplayKv(h, map[])
    && WfCache(s.cache, size)
    && Fresh(s.cache, h)
    && (|RememberedIds(h)| <= size ==> s.cache.replies.Keys == RememberedIds(h))
  }

  ghost predicate DiskInv(c: Codec, w: World, size: nat) {
    && w.logFrom <= w.snapTo <= |w.hist|
    && (if w.stale then w.logFrom == |w.hist| && w.proc.Down? && w.disk.snap.Some? && w.disk.logTime < w.disk.snapTime
        else Parse(c, w.disk.log).recs == w.hist[w.logFrom..])
    && Holds(Load(w.disk), w.hist[..w.snapTo], size)
    && w.disk.snapTime <= w.now
    && (w.disk.snap.Some? && w.snapTo < |w.hist| ==> w.disk.snapTime <= w.disk.logTime)
  }

  ghost predicate ProcInv(c: Codec, w: World, size: nat) {
    var p := w.proc;
    p.Up? ==>
      && Holds(p.ram, w.hist, size)
      && Clean(c, w.disk.log) && p.dangling == Parse(c, w.disk.log).dangling
      && (p.stage == Renamed ==> w.snapTo == |w.hist|)
      && (p.stage.TmpWritten? ==> p.stage.at <= w.now)
  }

  ghost predicate HistInv(w: World) {
    if w.proc.Up? && w.proc.pending.Some? then
      w.hist != [] && w.hist[|w.hist| - 1] == w.proc.pending.value && Explains(w.events, w.hist[..|w.hist| - 1])
    else Explains(w.events, w.hist)
  }

  ghost predicate Inv(c: Codec, w: World, size: nat) {
    DiskInv(c, w, size) && ProcInv(c, w, size) && HistInv(w)
  }

  // ---- preservation ----------------------------------------------------------------

  lemma HoldsSubset(h: seq<LogRecord>, m: nat)
    requires m <= |h|
    ensures |RememberedIds(h[..m])| <= |RememberedIds(h)|
  {
    assert RememberedIds(h[..m]) <= RememberedIds(h) by {
      assert forall i | 0 <= i < m :: h[..m][i] == h[i];
    }
    SubsetCard(RememberedIds(h[..m]), RememberedIds(h));
  }

  /** Replaying the log over the snapshot gives exactly the recorded history. */
  lemma ReplayHolds(h: seq<LogRecord>, l: nat, m: nat, s: State, size: nat)
    requires l <= m <= |h| && Holds(s, h[..m], size)
    ensures Holds(Replay(h[l..], s, size), h, size)
  {
    KvReplayIsExact(h, l, m, map[]);
    ReplayKeepsWf(h[l..], s.cache, size);
    RepliesNeverStale(h, l, m, s.cache, size);
    if |RememberedIds(h)| <= size {
      HoldsSubset(h, m);
      RepliesComplete(h, l, m, s.cache, size);
    }
  }

  lemma RecoveredHolds(c: Codec, w: World, size: nat)
    requires Lawful(c) && DiskInv(c, w, size)
    ensures Holds(Recovered(c, w.disk, size), w.hist, size)
    ensures Discards(w.disk) ==> w.snapTo == |w.hist|
  {
    if w.disk.log == [] {
      EmptyLog(c);
      assert w.hist[..w.snapTo] == w.hist;
    } else if w.stale || Discards(w.disk) {
      assert w.hist[..w.snapTo] == w.hist;
    } else {
      ReplayHolds(w.hist, w.logFrom, w.snapTo, Load(w.disk), size);
    }
  }

  lemma ReplayNothing(s: State, size: nat)
    ensures Replay([], s, size) == s
  {}

  lemma EmptyLog(c: Codec)
    requires Lawful(c)
    ensures Parse(c, []).recs == [] && Parse(c, []).good == 0 && !Parse(c, []).dangling
  {}

  lemma ApplyHolds(s: State, h: seq<LogRecord>, rec: LogRecord, size: nat)
    requires Holds(s, h, size)
    ensures Holds(Apply(rec, s, size), h + [rec], size)
  {
    var h' := h + [rec];
    assert h'[..|h|] == h && h'[|h|..] == [rec];
    ReplayHolds(h', |h|, |h|, s, size);
    assert ReplayKv([rec], s.kv) == ApplyKv(rec, s.kv) by { assert [rec][..0] == []; }
    assert ReplayCache([rec], s.cache, size) == ApplyCache(rec, s.cache, size) by { assert [rec][..0] == []; }
  }

  lemma ExplainsSnoc(events: seq<Event>, e: Event, h: seq<LogRecord>, rec: LogRecord)
    requires Explains(events, h)
    ensures e == Acked(rec) || e == Crashed(Some(rec)) ==> Explains(events + [e], h + [rec])
    ensures e.Crashed? ==> Explains(events + [e], h)
  {
    assert (events + [e])[..|events|] == events;
    assert (h + [rec])[..|h|] == h;
  }

  lemma {:induction false} AcksExplain(h: seq<LogRecord>)
    ensures Explains(Acks(h), h)
  {
    if h != [] {
      AcksExplain(h[..|h| - 1]);
      assert Acks(h)[..|h| - 1] == Acks(h[..|h| - 1]);
    }
  }

  lemma RewrittenKeeps(c: Codec, w: World, ops: seq<LogRecord>, size: nat)
    requires Inv(c, w, size) && w.proc.Down? && w.disk.logTime < w.now
    ensures Inv(c, Rewritten(w, ops, size), size)
  {
    hide Parse, ReplayKv, ReplayCache, RememberedIds, Fresh, WfCache, Explains;
    var h := w.hist[..w.snapTo] + ops;
    assert h[..w.snapTo] == w.hist[..w.snapTo] && h[w.snapTo..] == ops && h[..|h|] == h;
    ReplayHolds(h, w.snapTo, w.snapTo, Load(w.disk), size);
    AcksExplain(h);
  }

  lemma BootKeeps(c: Codec, w: World, size: nat)
    requires Lawful(c) && Inv(c, w, size) && w.proc.Down?
    ensures Inv(c, Boot(c, w, size), size)
  {
    hide ReplayKv, RememberedIds, Fresh, WfCache, Parse, LineEnd;
    RecoveredHolds(c, w, size);
    EmptyLog(c);
    CutKeepsRecords(c, w.disk.log);
    if Discards(w.disk) { assert w.hist[|w.hist|..] == []; }
  }

  /** The log grew by bytes that parse as `more`. */
  lemma LogGrows(c: Codec, w: World, bytes: Bytes, more: seq<LogRecord>, size: nat)
    requires DiskInv(c, w, size) && !w.stale
    requires Parse(c, w.disk.log + bytes).recs == Parse(c, w.disk.log).recs + more
    requires bytes == [] ==> more == []
    ensures DiskInv(c, Appended(c, w, bytes, more), size)
  {
    hide Parse, ReplayKv, RememberedIds, Fresh, WfCache;
    var h' := w.hist + more;
    assert h'[..w.snapTo] == w.hist[..w.snapTo];
    assert h'[w.logFrom..] == w.hist[w.logFrom..] + more;
  }

  lemma BeginKeeps(c: Codec, w: World, rec: LogRecord, compact: bool, size: nat)
    requires Lawful(c) && Inv(c, w, size) && Idle(w.proc) && Loggable(rec)
    ensures Inv(c, Next(c, w, Begin(rec, compact), size), size)
  {
    hide Parse, ReplayKv, RememberedIds, Fresh, WfCache, Lines, LineEnd;
    AppendAddsRecord(c, w.disk.log, rec);
    ApplyHolds(w.proc.ram, w.hist, rec, size);
    LogGrows(c, w, AppendBytes(c, rec, w.proc.dangling), [rec], size);
    assert (w.hist + [rec])[..|w.hist|] == w.hist;
  }

  lemma TearKeeps(c: Codec, w: World, rec: LogRecord, k: nat, size: nat)
    requires Lawful(c) && Inv(c, w, size) && Idle(w.proc) && Loggable(rec)
    requires k <= |AppendBytes(c, rec, w.proc.dangling)|
    ensures Inv(c, Next(c, w, Tear(rec, k), size), size)
  {
    hide Parse, ReplayKv, RememberedIds, Fresh, WfCache, Lines, LineEnd;
    TornAppend(c, w.disk.log, rec, k);
    var bytes := AppendBytes(c, rec, w.proc.dangling);
    var more := if k >= |bytes| - 1 then [rec] else [];
    assert c.enc(rec) != [];
    LogGrows(c, w, bytes[..k], more, size);
    ExplainsSnoc(w.events, Crashed(Some(rec)), w.hist, rec);
    assert w.hist + [] == w.hist;
  }

  lemma CompactionKeeps(c: Codec, w: World, a: Act, size: nat)
    requires Lawful(c) && Inv(c, w, size)
    requires a.WriteTmp? || a.Rename? || a.Truncate? || a.Close?
    ensures Inv(c, Next(c, w, a, size), size)
  {
    hide Parse, LineEnd, ReplayKv, RememberedIds, Fresh, WfCache, Explains;
    EmptyLog(c);
    assert w.hist[..|w.hist|] == w.hist;
    assert w.hist[|w.hist|..] == [];
  }

  lemma EventKeeps(c: Codec, w: World, a: Act, size: nat)
    requires Inv(c, w, size)
    requires a.Return? || a.Crash?
    ensures Inv(c, Next(c, w, a, size), size)
  {
    hide Parse, LineEnd, ReplayKv, RememberedIds, Fresh, WfCache, Explains;
    if w.proc.Up? {
      var e := if a.Return? && w.proc.pending.Some? then Acked(w.proc.pending.value) else Crashed(w.proc.pending);
      if w.proc.pending.Some? {
        ExplainsSnoc(w.events, e, w.hist[..|w.hist| - 1], w.proc.pending.value);
        assert w.hist[..|w.hist| - 1] + [w.proc.pending.value] == w.hist;
      } else {
        ExplainsSnoc(w.events, e, w.hist, DeleteRecord(""));
      }
    }
  }

  lemma NextKeeps(c: Codec, w: World, a: Act, size: nat)
    requires Lawful(c) && Inv(c, w, size)
    ensures Inv(c, Next(c, w, a, size), size)
  {
    hide Parse, ReplayKv, RememberedIds, Lines, LineEnd, Boot, Recovered;
    match a
    case Tick(t) =>
    case Start => if w.proc.Down? { BootKeeps(c, w, size); }
    case Begin(rec, compact) => if Idle(w.proc) && Loggable(rec) { BeginKeeps(c, w, rec, compact, size); }
    case Tear(rec, k) =>
      if Idle(w.proc) && Loggable(rec) && k <= |AppendBytes(c, rec, w.proc.dangling)| { TearKeeps(c, w, rec, k, size); }
    case WriteTmp => CompactionKeeps(c, w, a, size);
    case Rename => CompactionKeeps(c, w, a, size);
    case Truncate => CompactionKeeps(c, w, a, size);
    case Close => CompactionKeeps(c, w, a, size);
    case Return => EventKeeps(c, w, a, size);
    case Crash => EventKeeps(c, w, a, size);
    case Downlevel(ops) => if w.proc.Down? && w.disk.logTime < w.now { RewrittenKeeps(c, w, ops, size); }
    case Recall(id) =>
      if Idle(w.proc) && id in w.proc.ram.cache.replies { TouchKeepsWf(w.proc.ram.cache, id, size); }
  }

  lemma {:induction false} ExecKeeps(c: Codec, acts: seq<Act>, size: nat)
    requires Lawful(c)
    ensures Inv(c, Exec(c, acts, size), size)
  {
    if acts == [] {
      EmptyLog(c);
    } else {
      ExecKeeps(c, acts[..|acts| - 1], size);
      NextKeeps(c, Exec(c, acts[..|acts| - 1], size), acts[|acts| - 1], size);
    }
  }

  // ---- the guarantees ------------------------------------------------------------------

  /** Crash now, after any run with any number of earlier crashes: the keys that
      come back are those of a history holding every acknowledged operation and,
      of the one in flight at each crash, all or nothing. */
  lemma CrashSafety(c: Codec, acts: seq<Act>, size: nat)
    requires Lawful(c)
    ensures var w := Exec(c, acts, size);
            && Recovered(c, w.disk, size).kv == ReplayKv(w.hist, map[])
            && Explains(IfCrashedNow(w), w.hist)
  {
    ExecKeeps(c, acts, size);
    var w := Exec(c, acts, size);
    RecoveredHolds(c, w, size);
    if w.proc.Up? {
      EventKeeps(c, w, Crash, size);
    }
  }

  /** Every reply that comes back is the last one the recovered history gave its id. */
  lemma RecoveredRepliesFresh(c: Codec, acts: seq<Act>, size: nat)
    requires Lawful(c)
    ensures var w := Exec(c, acts, size);
            && Fresh(Recovered(c, w.disk, size).cache, w.hist)
            && WfCache(Recovered(c, w.disk, size).cache, size)
            && (|RememberedIds(w.hist)| <= size ==>
                  Recovered(c, w.disk, size).cache.replies.Keys == RememberedIds(w.hist))
  {
    ExecKeeps(c, acts, size);
    RecoveredHolds(c, Exec(c, acts, size), size);
  }

  /** What comes up, by the files' times alone: the snapshot whenever it is strictly
      newer than the log, and otherwise the log's records over it. */
  lemma NewerSnapshotWins(c: Codec, w: World, size: nat)
    requires Lawful(c) && w.proc.Down?
    ensures var d, up := w.disk, Next(c, w, Start, size);
            && up.proc.Up?
            && (d.snap.Some? && d.logTime < d.snapTime ==> up.proc.ram == d.snap.value && up.disk.log == [])
            && (d.snap.None? || d.snapTime <= d.logTime ==>
                  up.proc.ram == Replay(Parse(c, d.log).recs, if d.snap.Some? then d.snap.value else EMPTY, size))
  {
    EmptyLog(c);
    hide Parse, ReplayKv, ReplayCache;
    ReplayNothing(Load(w.disk), size);
  }

  /** Where this runtime alone wrote the volume, a log strictly older than the snapshot
      holds nothing the snapshot lacks: replaying it would change no key. */
  lemma DiscardIsSafe(c: Codec, acts: seq<Act>, size: nat)
    requires Lawful(c)
    requires var w := Exec(c, acts, size);
             !w.stale && w.disk.snap.Some? && w.disk.logTime < w.disk.snapTime
    ensures var d := Exec(c, acts, size).disk;
            Replay(Parse(c, d.log).recs, d.snap.value, size).kv == d.snap.value.kv
  {
    ExecKeeps(c, acts, size);
    var w := Exec(c, acts, size);
    assert w.snapTo == |w.hist|;
    assert w.hist[..|w.hist|] == w.hist;
    KvReplayIsExact(w.hist, w.logFrom, |w.hist|, map[]);
  }

  lemma HistGrows(c: Codec, w: World, a: Act, size: nat)
    requires !a.Downlevel?
    ensures w.hist <= Next(c, w, a, size).hist
  {}

  lemma {:induction false} HistOnlyGrows(c: Codec, acts: seq<Act>, more: seq<Act>, size: nat)
    requires forall i | 0 <= i < |more| :: !more[i].Downlevel?
    ensures Exec(c, acts, size).hist <= Exec(c, acts + more, size).hist
  {
    hide Next;
    if more == [] {
      assert acts + more == acts;
    } else {
      var front, a := more[..|more| - 1], more[|more| - 1];
      HistOnlyGrows(c, acts, front, size);
      assert (acts + more)[..|acts + more| - 1] == acts + front;
      HistGrows(c, Exec(c, acts + front, size), a, size);
    }
  }

  /** The records an older runtime left behind never come back: after its rewriting,
      whatever is done next, the keys recovered are its file's under the operations
      since. */
  lemma RewriteSurvives(c: Codec, acts: seq<Act>, ops: seq<LogRecord>, more: seq<Act>, size: nat)
    requires Lawful(c)
    requires Exec(c, acts, size).proc.Down? && Exec(c, acts, size).disk.logTime < Exec(c, acts, size).now
    requires forall i | 0 <= i < |more| :: !more[i].Downlevel?
    ensures var file := Replay(ops, Load(Exec(c, acts, size).disk), size);
            var before := Exec(c, acts + [Downlevel(ops)], size).hist;
            var w := Exec(c, acts + [Downlevel(ops)] + more, size);
            before <= w.hist && Recovered(c, w.disk, size).kv == ReplayKv(w.hist[|before|..], file.kv)
  {
    hide *;
    var rewrite := acts + [Downlevel(ops)];
    var w0, w1, w := Exec(c, acts, size), Exec(c, rewrite, size), Exec(c, rewrite + more, size);
    ExecSnoc(c, acts, Downlevel(ops), size);
    ExecKeeps(c, acts, size);
    RewriteStep(c, w0, ops, size);
    HistOnlyGrows(c, rewrite, more, size);
    CrashSafety(c, rewrite + more, size);
    KvReplayIsExact(w.hist, |w1.hist|, |w1.hist|, map[]);
    assert w.hist[..|w1.hist|] == w1.hist;
  }

  lemma ExecSnoc(c: Codec, acts: seq<Act>, a: Act, size: nat)
    ensures Exec(c, acts + [a], size) == Next(c, Exec(c, acts, size), a, size)
  {
    assert (acts + [a])[..|acts|] == acts;
  }

  lemma RewriteStep(c: Codec, w: World, ops: seq<LogRecord>, size: nat)
    requires Inv(c, w, size) && w.proc.Down? && w.disk.logTime < w.now
    ensures ReplayKv(Next(c, w, Downlevel(ops), size).hist, map[]) == Replay(ops, Load(w.disk), size).kv
  {
    hide Parse, ReplayKv, ReplayCache, RememberedIds, Fresh, WfCache, Explains;
    RewrittenKeeps(c, w, ops, size);
    var w' := Rewritten(w, ops, size);
    assert w'.hist[..w'.snapTo] == w'.hist;
  }
}

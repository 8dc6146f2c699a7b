/** state.log as bytes: one record per line, read back line by line up to the
    first line that is neither blank nor a record, or to a torn last line. */
module StoreLog {
  import opened Prelude
  import opened StoreState

  newtype byte = x: int | 0 <= x < 256
  type Bytes = seq<byte>
  const NL: byte := 10

  /** The JSON encoder and decoder, and the whitespace test, as the log uses them. */
  datatype Codec = Codec(enc: LogRecord -> Bytes, dec: Bytes -> Option<LogRecord>, blank: Bytes -> bool)

  /** The records the store writes. An empty value would be dropped by the encoder. */
  predicate Loggable(rec: LogRecord) {
    || (rec == RememberRecord(rec.id, if rec.reply.Some? then rec.reply.value else "") && rec.id != "")
    || (rec.value.Some? && rec.value.value != "" && rec == SetRecord(rec.key, rec.value.value) && rec.key != "")
    || (rec == DeleteRecord(rec.key) && rec.key != "")
  }

  /** A compact JSON object holds no raw newline (section 7 of RFC 8259 has them
      escaped), is not blank, and no proper prefix of it is a JSON value. */
  ghost predicate Lawful(c: Codec) {
    && c.blank([])
    && (forall rec | Loggable(rec) ::
          && c.dec(c.enc(rec)) == Some(rec)
          && NL !in c.enc(rec)
          && !c.blank(c.enc(rec)))
    && (forall rec, k | Loggable(rec) && 0 <= k < |c.enc(rec)| :: c.dec(c.enc(rec)[..k]).None?)
  }

  // ---- lines -------------------------------------------------------------

  function LineEnd(raw: Bytes): (n: nat)
    ensures n <= |raw| && NL !in raw[..n]
    ensures n < |raw| ==> raw[n] == NL
  {
    if raw == [] || raw[0] == NL then 0 else 1 + LineEnd(raw[1..])
  }

  /** Splits at every newline; the last line may be empty. */
  function Lines(raw: Bytes): (ls: seq<Bytes>)
    ensures |ls| >= 1
    decreases |raw|
  {
    var n := LineEnd(raw);
    if n == |raw| then [raw] else [raw[..n]] + Lines(raw[n + 1..])
  }

  predicate Readable(c: Codec, line: Bytes) {
    c.dec(line).Some? && Applicable(c.dec(line).value)
  }

  predicate Accepted(c: Codec, line: Bytes) {
    c.blank(line) || Readable(c, line)
  }

  function RecordsIn(c: Codec, line: Bytes): seq<LogRecord> {
    if !c.blank(line) && Readable(c, line) then [c.dec(line).value] else []
  }

  /** The records read, how many bytes hold them, and whether the last of them
      lacks its newline. */
  datatype Scan = Scan(recs: seq<LogRecord>, good: nat, dangling: bool)

  function ScanLines(c: Codec, ls: seq<Bytes>): Scan
    requires |ls| >= 1
  {
    var line := ls[0];
    if |ls| == 1 then
      if RecordsIn(c, line) == [] then Scan([], 0, false) else Scan(RecordsIn(c, line), |line|, true)
    else if !Accepted(c, line) then Scan([], 0, false)
    else Before(RecordsIn(c, line), |line| + 1, ScanLines(c, ls[1..]))
  }

  function Before(recs: seq<LogRecord>, len: nat, rest: Scan): Scan {
    Scan(recs + rest.recs, len + rest.good, rest.dangling)
  }

  /** The scan of a file, one line after another. */
  function Parse(c: Codec, raw: Bytes): (s: Scan)
    ensures s.good <= |raw|
    decreases |raw|
  {
    var n := LineEnd(raw);
    if n == |raw| then
      if RecordsIn(c, raw) == [] then Scan([], 0, false) else Scan(RecordsIn(c, raw), |raw|, true)
    else if !Accepted(c, raw[..n]) then Scan([], 0, false)
    else Before(RecordsIn(c, raw[..n]), n + 1, Parse(c, raw[n + 1..]))
  }

  /** Every byte of the file belongs to a line that was read. */
  predicate Clean(c: Codec, raw: Bytes) {
    Parse(c, raw).good == |raw|
  }

  // ---- what the scan keeps, line by line ---------------------------------

  function Leading(c: Codec, ls: seq<Bytes>): (k: nat)
    ensures k <= |ls| && (forall i | 0 <= i < k :: Accepted(c, ls[i]))
    ensures k < |ls| ==> !Accepted(c, ls[k])
  {
    if ls == [] || !Accepted(c, ls[0]) then 0 else 1 + Leading(c, ls[1..])
  }

  function AllRecords(c: Codec, ls: seq<Bytes>): seq<LogRecord> {
    if ls == [] then [] else RecordsIn(c, ls[0]) + AllRecords(c, ls[1..])
  }

  function Span(ls: seq<Bytes>): nat {
    if ls == [] then 0 else |ls[0]| + 1 + Span(ls[1..])
  }

  /** Replay stops at the first line that is neither blank nor a record and keeps
      exactly the records before it; the kept bytes end with the last such line. */
  lemma {:induction false} ScanStopsAtFirstBadLine(c: Codec, ls: seq<Bytes>)
    requires |ls| >= 1
    ensures var k := Leading(c, ls);
            var s := ScanLines(c, ls);
            && s.recs == AllRecords(c, ls[..k])
            && (s.dangling <==> k == |ls| && RecordsIn(c, ls[k - 1]) != [])
            && s.good == if s.dangling then Span(ls) - 1
                         else if k == |ls| then Span(ls[..k - 1]) else Span(ls[..k])
  {
    var k := Leading(c, ls);
    if |ls| == 1 {
      assert k == 1 ==> ls[..1] == ls && ls[..0] == [];
      assert AllRecords(c, []) == [] && ls[1..] == [];
    } else if k > 0 {
      ScanStopsAtFirstBadLine(c, ls[1..]);
      assert Leading(c, ls[1..]) == k - 1;
      assert ls[..k][1..] == ls[1..][..k - 1];
      if k == |ls| { assert ls[..k - 1][1..] == ls[1..][..k - 2]; }
    }
  }

  // ---- cutting the file back ----------------------------------------------

  lemma {:induction false} LineEndAt(raw: Bytes, n: nat)
    requires n <= |raw| && NL !in raw[..n] && (n < |raw| ==> raw[n] == NL)
    ensures LineEnd(raw) == n
  {
    if n > 0 {
      assert raw[0] == raw[..n][0];
      assert raw[1..][..n - 1] == raw[..n][1..];
      LineEndAt(raw[1..], n - 1);
    }
  }

  lemma {:induction false} ParseByLines(c: Codec, raw: Bytes)
    ensures Parse(c, raw) == ScanLines(c, Lines(raw))
    decreases |raw|
  {
    var n := LineEnd(raw);
    if n < |raw| {
      ParseByLines(c, raw[n + 1..]);
      assert Lines(raw)[1..] == Lines(raw[n + 1..]);
    }
  }

  lemma ParseStep(c: Codec, raw: Bytes, n: nat)
    requires n < |raw| && raw[n] == NL && NL !in raw[..n] && Accepted(c, raw[..n])
    ensures Parse(c, raw) == Before(RecordsIn(c, raw[..n]), n + 1, Parse(c, raw[n + 1..]))
  {
    LineEndAt(raw, n);
  }

  lemma CutStep(c: Codec, raw: Bytes, n: nat, g: nat)
    requires n < |raw| && raw[n] == NL && NL !in raw[..n] && Accepted(c, raw[..n])
    requires g <= |raw| - n - 1
    ensures Parse(c, raw[..n + 1 + g]) == Before(RecordsIn(c, raw[..n]), n + 1, Parse(c, raw[n + 1..][..g]))
  {
    hide Parse;
    var part := raw[..n + 1 + g];
    assert part[..n] == raw[..n] && part[n + 1..] == raw[n + 1..][..g];
    ParseStep(c, part, n);
  }

  /** Cutting the log back to its good prefix loses no record, and leaves a file
      every byte of which was read. */
  lemma {:induction false} CutKeepsRecords(c: Codec, raw: Bytes)
    requires Lawful(c)
    ensures Parse(c, raw[..Parse(c, raw).good]) == Parse(c, raw)
    decreases |raw|
  {
    var n := LineEnd(raw);
    if n == |raw| {
      assert raw[..|raw|] == raw && Parse(c, []) == Scan([], 0, false);
    } else if Accepted(c, raw[..n]) {
      hide Parse;
      ParseStep(c, raw, n);
      CutKeepsRecords(c, raw[n + 1..]);
      CutStep(c, raw, n, Parse(c, raw[n + 1..]).good);
    } else {
      assert Parse(c, []) == Scan([], 0, false) == Parse(c, raw);
    }
  }

  // ---- appending ------------------------------------------------------------

  lemma BeforeBefore(a: seq<LogRecord>, m: nat, b: seq<LogRecord>, n: nat, s: Scan)
    ensures Before(a, m, Before(b, n, s)) == Before(a + b, m + n, s)
  {
    assert a + (b + s.recs) == a + b + s.recs;
  }

  /** A clean file whose last line is complete is a prefix of any continuation's parse. */
  lemma {:induction false} ParseConcat(c: Codec, pre: Bytes, x: Bytes)
    requires Clean(c, pre) && !Parse(c, pre).dangling
    ensures Parse(c, pre + x) == Before(Parse(c, pre).recs, |pre|, Parse(c, x))
    decreases |pre|
  {
    var n := LineEnd(pre);
    if pre == [] {
      assert pre + x == x;
    } else {
      var first := RecordsIn(c, pre[..n]);
      var rest := pre[n + 1..];
      assert (pre + x)[..n] == pre[..n] && (pre + x)[n + 1..] == rest + x;
      ParseStep(c, pre + x, n);
      ParseStep(c, pre, n);
      ParseConcat(c, rest, x);
      BeforeBefore(first, n + 1, Parse(c, rest).recs, |rest|, Parse(c, x));
    }
  }

  /** Ending the last record's line completes the file. */
  lemma {:induction false} TerminateLine(c: Codec, pre: Bytes)
    requires Lawful(c) && Clean(c, pre) && Parse(c, pre).dangling
    ensures Parse(c, pre + [NL]) == Scan(Parse(c, pre).recs, |pre| + 1, false)
    decreases |pre|
  {
    var n := LineEnd(pre);
    var all := pre + [NL];
    assert all[..n] == pre[..n];
    LineEndAt(all, n);
    if n == |pre| {
      assert pre[..n] == pre && all[n + 1..] == [];
    } else {
      assert all[n + 1..] == pre[n + 1..] + [NL];
      TerminateLine(c, pre[n + 1..]);
    }
  }

  /** What one append writes: the record and its newline, on a line of its own. */
  function AppendBytes(c: Codec, rec: LogRecord, dangling: bool): Bytes {
    Separator(dangling) + c.enc(rec) + [NL]
  }

  lemma ParseOneRecord(c: Codec, rec: LogRecord)
    requires Lawful(c) && Loggable(rec)
    ensures Parse(c, c.enc(rec) + [NL]) == Scan([rec], |c.enc(rec)| + 1, false)
  {
    var e := c.enc(rec);
    var all := e + [NL];
    assert all[..|e|] == e && all[|e| + 1..] == [];
    LineEndAt(all, |e|);
  }

  lemma ParseTornRecord(c: Codec, rec: LogRecord, k: nat)
    requires Lawful(c) && Loggable(rec) && k <= |c.enc(rec)|
    ensures Parse(c, c.enc(rec)[..k]).recs == if k == |c.enc(rec)| then [rec] else []
  {
    var e := c.enc(rec);
    var torn := e[..k];
    assert NL !in torn;
    assert torn[..k] == torn;
    LineEndAt(torn, k);
    if k == |e| { assert torn == e; }
  }

  function Separator(dangling: bool): Bytes {
    if dangling then [NL] else []
  }

  lemma ClosedPrefix(c: Codec, raw: Bytes)
    requires Lawful(c) && Clean(c, raw)
    ensures var pre := raw + Separator(Parse(c, raw).dangling);
            Parse(c, pre) == Scan(Parse(c, raw).recs, |pre|, false)
  {
    if Parse(c, raw).dangling { TerminateLine(c, raw); } else { assert raw + [] == raw; }
  }

  /** Whatever is written after the separator is parsed on its own. */
  lemma ParseAfterSeparator(c: Codec, raw: Bytes, x: Bytes)
    requires Lawful(c) && Clean(c, raw)
    ensures var pre := raw + Separator(Parse(c, raw).dangling);
            Parse(c, pre + x) == Before(Parse(c, raw).recs, |pre|, Parse(c, x))
  {
    ClosedPrefix(c, raw);
    ParseConcat(c, raw + Separator(Parse(c, raw).dangling), x);
  }

  lemma AppendSplits(c: Codec, raw: Bytes, rec: LogRecord, dangling: bool, k: nat)
    requires |Separator(dangling)| <= k <= |AppendBytes(c, rec, dangling)|
    ensures raw + AppendBytes(c, rec, dangling)[..k] ==
            (raw + Separator(dangling)) + (c.enc(rec) + [NL])[..k - |Separator(dangling)|]
  {}

  /** An append to a clean file adds exactly its record, whatever ended the file. */
  lemma AppendAddsRecord(c: Codec, raw: Bytes, rec: LogRecord)
    requires Lawful(c) && Loggable(rec) && Clean(c, raw)
    ensures var file := raw + AppendBytes(c, rec, Parse(c, raw).dangling);
            Parse(c, file) == Scan(Parse(c, raw).recs + [rec], |file|, false)
  {
    var dangling := Parse(c, raw).dangling;
    var bytes, line := AppendBytes(c, rec, dangling), c.enc(rec) + [NL];
    ParseOneRecord(c, rec);
    ParseAfterSeparator(c, raw, line);
    AppendSplits(c, raw, rec, dangling, |bytes|);
    assert bytes[..|bytes|] == bytes && line[..|line|] == line;
  }

  /** A crash in the middle of the append leaves the old records, or those and
      the new one: the new one exactly when all of its bytes but the newline arrived. */
  lemma TornAppend(c: Codec, raw: Bytes, rec: LogRecord, k: nat)
    requires Lawful(c) && Loggable(rec) && Clean(c, raw)
    requires k <= |AppendBytes(c, rec, Parse(c, raw).dangling)|
    ensures var bytes := AppendBytes(c, rec, Parse(c, raw).dangling);
            Parse(c, raw + bytes[..k]).recs ==
            Parse(c, raw).recs + (if k >= |bytes| - 1 then [rec] else [])
  {
    var dangling := Parse(c, raw).dangling;
    var bytes := AppendBytes(c, rec, dangling);
    var d := if dangling then 1 else 0;
    if k < d {
      assert raw + bytes[..k] == raw;
    } else if k == |bytes| {
      assert bytes[..k] == bytes;
      AppendAddsRecord(c, raw, rec);
    } else {
      var torn := c.enc(rec)[..k - d];
      ParseTornRecord(c, rec, k - d);
      ParseAfterSeparator(c, raw, torn);
      AppendSplits(c, raw, rec, dangling, k);
      assert (c.enc(rec) + [NL])[..k - d] == torn;
    }
  }
}

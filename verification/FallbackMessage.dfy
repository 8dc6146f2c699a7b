/** The condition message that lists the fallback findings, and reading it back
    (internal/controller/modelprovider_fallback_eligibility.go:391-432,
    internal/controller/problem_list.go:65-117). Of quoting only the escapes of
    quotes and backslashes matter here, and long values are not cut. */
module FallbackMessage {
  import opened Prelude
  import opened FallbackText
  import opened FallbackScan

  const MAX_LISTED := 10

  // ---- quoting ---------------------------------------------------------------------

  function Quote(s: string): string {
    if s == "" then "" else (if s[0] == '"' || s[0] == '\\' then ['\\', s[0]] else [s[0]]) + Quote(s[1..])
  }

  /** No quote in it is bare, and no escape is incomplete. */
  predicate Escaped(b: string) {
    if b == "" then true
    else if b[0] == '\\' then |b| > 1 && Escaped(b[2..])
    else b[0] != '"' && Escaped(b[1..])
  }

  lemma {:induction false} QuoteIsEscaped(s: string)
    ensures Escaped(Quote(s))
  {
    if s != "" {
      QuoteIsEscaped(s[1..]);
      var b, n := Quote(s), if s[0] == '"' || s[0] == '\\' then 2 else 1;
      assert b[n..] == Quote(s[1..]);
    }
  }

  datatype Piece = Text(s: string) | Quoted(v: string)

  function Shape(p: Piece): string {
    match p case Text(s) => s case Quoted(v) => "\"" + Quote(v) + "\""
  }

  function Render(ps: seq<Piece>): string {
    if ps == [] then "" else Shape(ps[0]) + Render(ps[1..])
  }

  predicate Plain(s: string) {
    forall c | c in s :: c != '"' && c != ';'
  }

  lemma {:induction false} PlainOutside(t: string, rest: string)
    requires Plain(t)
    ensures Whole(t + rest, false) == Whole(rest, false)
  {
    if t == "" { assert t + rest == rest; } else {
      assert t[0] in t && forall c | c in t[1..] :: c in t;
      assert (t + rest)[1..] == t[1..] + rest;
      PlainOutside(t[1..], rest);
    }
  }

  lemma {:induction false} EscapedInside(b: string, rest: string)
    requires Escaped(b)
    ensures Whole(b + "\"" + rest, true) == Whole(rest, false)
  {
    var s := b + "\"" + rest;
    if b == "" { assert s[1..] == rest; }
    else if b[0] == '\\' {
      assert s[2..] == b[2..] + "\"" + rest;
      EscapedInside(b[2..], rest);
    } else {
      assert s[1..] == b[1..] + "\"" + rest;
      EscapedInside(b[1..], rest);
    }
  }

  lemma QuotedInside(v: string, rest: string)
    ensures Whole("\"" + Quote(v) + "\"" + rest, false) == Whole(rest, false)
  {
    hide Quote;
    QuoteIsEscaped(v);
    EscapedInside(Quote(v), rest);
    var s := "\"" + Quote(v) + "\"" + rest;
    assert s[0] == '"' && s[1..] == Quote(v) + "\"" + rest;
  }

  lemma RenderOne(ps: seq<Piece>)
    requires ps != []
    ensures Render(ps) == Shape(ps[0]) + Render(ps[1..])
  {}

  /** A text made of plain words and quoted values is whole, whatever the values are. */
  lemma {:induction false} RenderIsWhole(ps: seq<Piece>)
    requires forall p | p in ps :: p.Text? ==> Plain(p.s)
    ensures Whole(Render(ps), false)
  {
    if ps != [] {
      hide Whole, Quote, Plain, Render;
      RenderOne(ps);
      RenderIsWhole(ps[1..]);
      match ps[0]
      case Text(s) => PlainOutside(s, Render(ps[1..]));
      case Quoted(v) => QuotedInside(v, Render(ps[1..]));
    }
  }

  // ---- findings --------------------------------------------------------------------------

  const WORD := "fallback "
  const ADMIT := " does not admit namespace "
  const OFFER := " does not offer model "
  const PRIMARY := " (primary model "
  const CLOSE := ")"

  function Words(f: Finding): seq<Piece> {
    match f
    case NamespaceFinding(child, ns) =>
      [Text(WORD), Quoted(child), Text(ADMIT), Quoted(ns)]
    case ModelFinding(child, model, m) =>
      [Text(WORD), Quoted(child), Text(OFFER), Quoted(model), Text(PRIMARY), Quoted(m), Text(CLOSE)]
  }

  function Message(f: Finding): string {
    Render(Words(f))
  }

  lemma PlainWords()
    ensures Plain(WORD) && Plain(ADMIT) && Plain(OFFER) && Plain(PRIMARY) && Plain(CLOSE)
  {}

  lemma MessageIsWhole(f: Finding)
    ensures Whole(Message(f), false)
  {
    hide Plain, Whole, Render, Quote, WORD, ADMIT, OFFER, PRIMARY, CLOSE;
    PlainWords();
    RenderIsWhole(Words(f));
  }

  /** A finding goes on with a quote where the count goes on with a word. */
  lemma MessageStarts(f: Finding)
    ensures |Message(f)| > 10 && Message(f)[9] == '"'
  {
    var ps := Words(f);
    assert |WORD| == 9;
    assert Message(f) == WORD + Render(ps[1..]);
    assert Render(ps[1..])[0] == '"' && |Render(ps[1..])| >= 2;
  }

  // ---- a message names its finding ------------------------------------------------------

  /** A quoted value ends where its closing quote is, so what was quoted can be told. */
  lemma {:induction false} QuoteEnds(a: string, b: string, x: string, y: string)
    requires Quote(a) + "\"" + x == Quote(b) + "\"" + y
    ensures a == b && x == y
  {
    var s, t := Quote(a) + "\"" + x, Quote(b) + "\"" + y;
    if a == "" || b == "" {
      assert s[0] == t[0];
      assert a == b;
      assert x == s[1..] && y == t[1..];
    } else {
      var n := if a[0] == '"' || a[0] == '\\' then 2 else 1;
      assert s[n - 1] == a[0] && t[n - 1] == s[n - 1];
      assert s[0] == t[0];
      assert a[0] == b[0];
      assert s[n..] == Quote(a[1..]) + "\"" + x && t[n..] == Quote(b[1..]) + "\"" + y;
      QuoteEnds(a[1..], b[1..], x, y);
      assert a == [a[0]] + a[1..] && b == [b[0]] + b[1..];
    }
  }

  /** The same word, or a quoted value each. */
  predicate Alike(p: Piece, q: Piece) {
    if p.Text? then q == p else q.Quoted?
  }

  lemma SameHead(t: string, x: string, y: string)
    requires t + x == t + y
    ensures x == y
  {
    assert x == (t + x)[|t|..] && y == (t + y)[|t|..];
  }

  lemma SameQuoted(v: string, u: string, x: string, y: string)
    requires "\"" + Quote(v) + "\"" + x == "\"" + Quote(u) + "\"" + y
    ensures v == u && x == y
  {
    hide Quote;
    var s, t := "\"" + Quote(v) + "\"" + x, "\"" + Quote(u) + "\"" + y;
    assert s[1..] == Quote(v) + "\"" + x && t[1..] == Quote(u) + "\"" + y;
    QuoteEnds(v, u, x, y);
  }

  lemma RenderTells(ps: seq<Piece>, qs: seq<Piece>)
    requires ps != [] && qs != [] && Alike(ps[0], qs[0]) && Render(ps) == Render(qs)
    ensures ps[0] == qs[0] && Render(ps[1..]) == Render(qs[1..])
  {
    hide Render, Quote;
    RenderOne(ps);
    RenderOne(qs);
    var x, y := Render(ps[1..]), Render(qs[1..]);
    match ps[0]
    case Text(t) => SameHead(t, x, y);
    case Quoted(v) => SameQuoted(v, qs[0].v, x, y);
  }

  lemma {:induction false} AlikeTells(ps: seq<Piece>, qs: seq<Piece>)
    requires |ps| == |qs| && (forall k | 0 <= k < |ps| :: Alike(ps[k], qs[k])) && Render(ps) == Render(qs)
    ensures ps == qs
  {
    if ps != [] {
      hide Render, Alike;
      RenderTells(ps, qs);
      AlikeTells(ps[1..], qs[1..]);
      assert ps == [ps[0]] + ps[1..] && qs == [qs[0]] + qs[1..];
    }
  }

  /** The words that follow the name say which kind of finding it is. */
  lemma KindTells(child: string, ns: string, other: string, model: string, m: string)
    ensures Message(NamespaceFinding(child, ns)) != Message(ModelFinding(other, model, m))
  {
    var ps, qs := Words(NamespaceFinding(child, ns)), Words(ModelFinding(other, model, m));
    if Render(ps) == Render(qs) {
      RenderTells(ps, qs);
      RenderTells(ps[1..], qs[1..]);
      WordTells(ps[1..][1..], qs[1..][1..]);
      assert false;
    }
  }

  lemma WordTells(ps: seq<Piece>, qs: seq<Piece>)
    requires ps != [] && qs != [] && ps[0] == Text(ADMIT) && qs[0] == Text(OFFER)
    ensures Render(ps) != Render(qs)
  {
    assert Render(ps)[10] == 'a' && Render(qs)[10] == 'o';
  }

  /** Two findings with one message are one finding: a message says which. */
  lemma MessageNamesFinding(f: Finding, g: Finding)
    ensures Message(f) == Message(g) ==> f == g
  {
    hide Render;
    if Message(f) == Message(g) {
      match (f, g)
      case (NamespaceFinding(a, ns), ModelFinding(b, model, m)) => KindTells(a, ns, b, model, m);
      case (ModelFinding(b, model, m), NamespaceFinding(a, ns)) => KindTells(a, ns, b, model, m);
      case (NamespaceFinding(_, _), NamespaceFinding(_, _)) =>
        AlikeTells(Words(f), Words(g));
        assert Words(f)[1] == Words(g)[1] && Words(f)[3] == Words(g)[3];
      case (ModelFinding(_, _, _), ModelFinding(_, _, _)) =>
        AlikeTells(Words(f), Words(g));
        assert Words(f)[1] == Words(g)[1] && Words(f)[3] == Words(g)[3] && Words(f)[5] == Words(g)[5];
    }
  }

  // ---- the count ---------------------------------------------------------------------------

  function Digit(d: nat): char
    requires d < 10
  {
    ('0' as nat + d) as char
  }

  predicate IsDigit(c: char) {
    '0' as nat <= c as nat <= '9' as nat
  }

  function Decimal(n: nat): (s: string)
    ensures s != "" && forall c | c in s :: IsDigit(c)
  {
    if n < 10 then [Digit(n)] else Decimal(n / 10) + [Digit(n % 10)]
  }

  function Value(s: string): nat
    requires forall c | c in s :: IsDigit(c)
  {
    if s == "" then 0
    else
      assert IsDigit(s[|s| - 1]);
      Value(s[..|s| - 1]) * 10 + (s[|s| - 1] as nat - '0' as nat)
  }

  lemma {:induction false} ValueOfDecimal(n: nat)
    ensures Value(Decimal(n)) == n
  {
    if n >= 10 {
      ValueOfDecimal(n / 10);
      var s := Decimal(n);
      assert s[..|s| - 1] == Decimal(n / 10);
    } else {
      assert Decimal(n)[..0] == "";
    }
  }

  function LeadingDigits(s: string): (k: nat)
    ensures k <= |s| && (forall c | c in s[..k] :: IsDigit(c)) && (k < |s| ==> !IsDigit(s[k]))
  {
    if s == "" || !IsDigit(s[0]) then 0
    else
      var k := LeadingDigits(s[1..]);
      assert s[..k + 1] == [s[0]] + s[1..][..k];
      k + 1
  }

  lemma {:induction false} LeadingDigitsOf(d: string, tail: string)
    requires (forall c | c in d :: IsDigit(c)) && tail != "" && !IsDigit(tail[0])
    ensures LeadingDigits(d + tail) == |d|
  {
    if d == "" { assert d + tail == tail; } else {
      assert d[0] in d && forall c | c in d[1..] :: c in d;
      LeadingDigitsOf(d[1..], tail);
      assert (d + tail)[1..] == d[1..] + tail;
    }
  }

  const HAS := "fallback eligibility scan has "
  const ONE := " more finding, not listed"
  const MANY := " more findings, not listed"

  function MoreText(n: nat): string {
    HAS + Decimal(n) + if n == 1 then ONE else MANY
  }

  function ParseMore(part: string): Option<nat> {
    if !(HAS <= part) then None
    else
      var rest := part[|HAS|..];
      var k := LeadingDigits(rest);
      if k > 0 && (rest[k..] == ONE || rest[k..] == MANY) then Some(Value(rest[..k])) else None
  }

  lemma MoreRoundTrip(n: nat)
    ensures ParseMore(MoreText(n)) == Some(n)
  {
    hide Decimal, Value;
    var d, tail := Decimal(n), if n == 1 then ONE else MANY;
    var part := MoreText(n);
    var rest := part[|HAS|..];
    assert rest == d + tail;
    var k := LeadingDigits(rest);
    assert tail[0] == ' ';
    LeadingDigitsOf(d, tail);
    assert rest[..k] == d && rest[k..] == tail;
    ValueOfDecimal(n);
  }

  lemma MessageIsNoCount(f: Finding)
    ensures ParseMore(Message(f)) == None
  {
    hide Message;
    MessageStarts(f);
    assert HAS[9] == 'e';
  }

  lemma MoreIsPlain(n: nat)
    ensures Plain(MoreText(n))
  {
    hide Decimal;
    PlainTexts();
    forall c | c in MoreText(n) ensures c != '"' && c != ';' {
      assert c in HAS || c in Decimal(n) || c in ONE || c in MANY;
    }
  }

  lemma PlainTexts()
    ensures Plain(HAS) && Plain(ONE) && Plain(MANY)
  {}

  // ---- the message -------------------------------------------------------------------------

  /** The first findings as they are listed, and a count of the rest. */
  function Lines(findings: seq<Finding>): seq<string> {
    var n := if |findings| < MAX_LISTED then |findings| else MAX_LISTED;
    var listed := seq(n, k requires 0 <= k < |findings| => Message(findings[k]));
    if |findings| > MAX_LISTED then listed + [MoreText(|findings| - MAX_LISTED)] else listed
  }

  /** fallbackFindingsMessage, on findings that the scan keeps distinct. */
  method FindingsMessage(findings: seq<Finding>) returns (msg: string)
    requires NoDup(findings)
    ensures msg == Join(Lines(findings))
  {
    hide Message, MoreText, Join;
    var seen: set<Finding>, listed: seq<string>, more := {}, [], 0;
    for k := 0 to |findings|
      invariant seen == Elems(findings[..k])
      invariant listed ==
                seq(if k < MAX_LISTED then k else MAX_LISTED, j requires 0 <= j < |findings| => Message(findings[j]))
      invariant more == if k > MAX_LISTED then k - MAX_LISTED else 0
    {
      assert findings[..k + 1] == findings[..k] + [findings[k]];
      if findings[k] !in seen {
        seen := seen + {findings[k]};
        if |listed| < MAX_LISTED { listed := listed + [Message(findings[k])]; } else { more := more + 1; }
      }
    }
    msg := Join(if more > 0 then listed + [MoreText(more)] else listed);
  }

  /** What a message lists and how many findings it speaks of in all. */
  function Listed(parts: seq<string>): (seq<string>, nat) {
    if parts == [] then ([], 0)
    else
      var front, p := Listed(parts[..|parts| - 1]), parts[|parts| - 1];
      match ParseMore(p)
      case Some(n) => (front.0, n)
      case None => (front.0 + [p], front.1)
  }

  method ListedFindings(msg: string) returns (entries: seq<string>, total: nat)
    ensures msg == "" ==> entries == [] && total == 0
    ensures msg != "" ==> var l := Listed(Parts(msg, false)); entries == l.0 && total == |l.0| + l.1
  {
    hide Parts, ParseMore;
    if msg == "" { return [], 0; }
    var parts := SplitFindings(msg);
    var more := 0;
    entries := [];
    for k := 0 to |parts|
      invariant (entries, more) == Listed(parts[..k])
    {
      assert parts[..k + 1][..k] == parts[..k];
      match ParseMore(parts[k]) {
        case Some(n) => more := n;
        case None => entries := entries + [parts[k]];
      }
    }
    assert parts[..|parts|] == parts;
    total := |entries| + more;
  }

  lemma {:induction false} ListedEntries(parts: seq<string>)
    requires forall p | p in parts :: ParseMore(p) == None
    ensures Listed(parts) == (parts, 0)
  {
    if parts != [] {
      var front := parts[..|parts| - 1];
      assert forall p | p in front :: p in parts;
      ListedEntries(front);
      assert parts == front + [parts[|parts| - 1]];
    }
  }

  lemma LinesSplit(findings: seq<Finding>)
    requires findings != []
    ensures Parts(Join(Lines(findings)), false) == Lines(findings)
  {
    hide Message, Parts, Join, Whole, MoreText;
    var lines := Lines(findings);
    forall k | 0 <= k < |lines| ensures Whole(lines[k], false) {
      if k < MAX_LISTED { MessageIsWhole(findings[k]); } else { CountIsWhole(|findings| - MAX_LISTED); }
    }
    WholeIsUnsplit(lines[|lines| - 1], false);
    SplitOfJoinIff(lines);
  }

  lemma CountIsWhole(n: nat)
    ensures Whole(MoreText(n), false)
  {
    hide MoreText;
    MoreIsPlain(n);
    PlainOutside(MoreText(n), "");
    assert MoreText(n) + "" == MoreText(n);
  }

  lemma {:induction false} WholeIsUnsplit(s: string, q: bool)
    requires Whole(s, q)
    ensures Unsplit(s, q)
  {
    if s == "" {
    } else if q && s[0] == '\\' { WholeIsUnsplit(s[2..], q); }
    else if s[0] == '"' { WholeIsUnsplit(s[1..], !q); }
    else { WholeIsUnsplit(s[1..], q); }
  }

  /** Reading a message back gives the listed findings and the number of all of
      them, whatever names, namespaces and model ids the findings quote. */
  lemma ReadBack(findings: seq<Finding>)
    requires findings != []
    ensures var msg := Join(Lines(findings));
            var listed := Lines(findings)[..if |findings| < 10 then |findings| else 10];
            && msg != ""
            && var l := Listed(Parts(msg, false)); l.0 == listed && |l.0| + l.1 == |findings|
  {
    hide Message, Parts, Join, MoreText, ParseMore;
    var lines := Lines(findings);
    var n := if |findings| < MAX_LISTED then |findings| else MAX_LISTED;
    LinesSplit(findings);
    forall p | p in lines[..n] ensures ParseMore(p) == None {
      var k :| 0 <= k < n && p == lines[k];
      MessageIsNoCount(findings[k]);
    }
    ListedEntries(lines[..n]);
    if |findings| > MAX_LISTED {
      MoreRoundTrip(|findings| - MAX_LISTED);
      assert lines[..|lines| - 1] == lines[..n];
    } else {
      assert lines[..n] == lines;
    }
    JoinNotEmpty(lines, findings[0]);
  }

  lemma JoinNotEmpty(lines: seq<string>, f: Finding)
    requires lines != [] && lines[0] == Message(f)
    ensures Join(lines) != ""
  {
    hide Message;
    MessageStarts(f);
  }

  // ---- after a restart ----------------------------------------------------------------------

  /** The entries that are not among those listed before, in order. */
  function Added(before: seq<string>, entries: seq<string>): seq<string> {
    if entries == [] then []
    else
      var front, e := Added(before, entries[..|entries| - 1]), entries[|entries| - 1];
      if e in before then front else front + [e]
  }

  lemma {:induction false} AddedNothingIff(before: seq<string>, entries: seq<string>)
    ensures Added(before, entries) == [] <==> forall e | e in entries :: e in before
  {
    if entries != [] {
      var front, e := entries[..|entries| - 1], entries[|entries| - 1];
      assert entries == front + [e];
      AddedNothingIff(before, front);
    }
  }

  /** fallbackListedNote: what is newly listed, and whether there is anything to say. */
  method ListedNote(prev: string, msg: string) returns (added: seq<string>, grows: bool)
    requires prev != "" && msg != ""
    ensures var p, c := Listed(Parts(prev, false)), Listed(Parts(msg, false));
            added == Added(p.0, c.0) && grows == (|c.0| + c.1 > |p.0| + p.1)
  {
    hide Parts, Listed;
    var prevEntries, prevTotal := ListedFindings(prev);
    var curEntries, curTotal := ListedFindings(msg);
    added := [];
    for k := 0 to |curEntries|
      invariant added == Added(prevEntries, curEntries[..k])
    {
      assert curEntries[..k + 1][..k] == curEntries[..k];
      if curEntries[k] !in prevEntries { added := added + [curEntries[k]]; }
    }
    assert curEntries[..|curEntries|] == curEntries;
    grows := curTotal > prevTotal;
  }

  function Shown(findings: seq<Finding>): nat {
    if |findings| < MAX_LISTED then |findings| else MAX_LISTED
  }

  /** The first pass after a restart has only the stored message to go by: it stays
      silent exactly when every finding it lists was listed before and there are no more
      findings than there were. */
  lemma RestartIsSilentIff(before: seq<Finding>, found: seq<Finding>)
    requires before != [] && found != []
    ensures var p := Listed(Parts(Join(Lines(before)), false));
            var c := Listed(Parts(Join(Lines(found)), false));
            (Added(p.0, c.0) == [] && !(|c.0| + c.1 > |p.0| + p.1)) <==>
            && |found| <= |before|
            && forall k | 0 <= k < Shown(found) :: found[k] in before[..Shown(before)]
  {
    hide Message, Parts, Join, MoreText, Listed;
    ReadBack(before);
    ReadBack(found);
    var p, c := Listed(Parts(Join(Lines(before)), false)).0, Listed(Parts(Join(Lines(found)), false)).0;
    assert |p| == Shown(before) && forall j | 0 <= j < |p| :: p[j] == Message(before[j]);
    assert |c| == Shown(found) && forall k | 0 <= k < |c| :: c[k] == Message(found[k]);
    AddedNothingIff(p, c);
    SameWordsIff(p, c, before, found);
  }

  lemma SameWordsIff(p: seq<string>, c: seq<string>, before: seq<Finding>, found: seq<Finding>)
    requires |p| <= |before| && |c| <= |found|
    requires forall j | 0 <= j < |p| :: p[j] == Message(before[j])
    requires forall k | 0 <= k < |c| :: c[k] == Message(found[k])
    ensures (forall e | e in c :: e in p) <==> forall k | 0 <= k < |c| :: found[k] in before[..|p|]
  {
    hide Message;
    if forall e | e in c :: e in p {
      forall k | 0 <= k < |c| ensures found[k] in before[..|p|] {
        assert c[k] in c;
        var j :| 0 <= j < |p| && p[j] == c[k];
        MessageNamesFinding(found[k], before[j]);
        assert before[..|p|][j] == before[j];
      }
    }
    if forall k | 0 <= k < |c| :: found[k] in before[..|p|] {
      forall e | e in c ensures e in p {
        var k :| 0 <= k < |c| && c[k] == e;
        var j :| 0 <= j < |p| && before[..|p|][j] == found[k];
        assert p[j] == e;
      }
    }
  }
}

/** The text of the fallback findings: joining the listed findings into a
    condition message and reading them back
    (internal/controller/modelprovider_fallback_eligibility.go:391-454,
    internal/controller/problem_list.go:83-117). */
module FallbackText {

  const SEPARATOR := "; "

  // ---- splitting -----------------------------------------------------------------

  predicate AtSeparator(s: string) {
    |s| >= 2 && s[0] == ';' && s[1] == ' '
  }

  function Prepend(x: string, parts: seq<string>): (r: seq<string>)
    requires parts != []
    ensures r != []
  {
    [x + parts[0]] + parts[1..]
  }

  /** The parts of a text between separators that are not inside a quoted value;
      `q` says whether the text starts inside one. */
  function Parts(s: string, q: bool): (r: seq<string>)
    ensures r != []
  {
    if s == "" then [""]
    else if q && s[0] == '\\' then
      if |s| == 1 then [s] else Prepend(s[..2], Parts(s[2..], q))
    else if s[0] == '"' then Prepend(s[..1], Parts(s[1..], !q))
    else if !q && AtSeparator(s) then [""] + Parts(s[2..], false)
    else Prepend(s[..1], Parts(s[1..], q))
  }

  lemma PrependTwice(x: string, y: string, parts: seq<string>)
    requires parts != []
    ensures Prepend(x, Prepend(y, parts)) == Prepend(x + y, parts)
    ensures Prepend("", parts) == parts
  {
    assert x + (y + parts[0]) == x + y + parts[0];
    assert "" + parts[0] == parts[0];
  }

  /** What is left to read: nothing once an escape has run past the end. */
  function Rest(msg: string, i: nat): string {
    if i < |msg| then msg[i..] else ""
  }

  function Upto(msg: string, start: nat, i: nat): string
    requires start <= |msg|
  {
    if i < start then "" else if i < |msg| then msg[start..i] else msg[start..]
  }

  /** One turn of the loop adds the character it passes to the part being read. */
  lemma Advance(msg: string, start: nat, i: nat, n: nat, parts: seq<string>)
    requires start <= i < |msg| && n > 0 && parts != []
    ensures Prepend(Upto(msg, start, i), Prepend(Upto(Rest(msg, i), 0, n), parts))
            == Prepend(Upto(msg, start, i + n), parts)
  {
    PrependTwice(Upto(msg, start, i), Upto(Rest(msg, i), 0, n), parts);
    assert Upto(msg, start, i) + Upto(Rest(msg, i), 0, n) == Upto(msg, start, i + n);
  }

  /** The parts still to come, the one being read included. */
  function Ahead(msg: string, start: nat, i: nat, q: bool): seq<string>
    requires start <= |msg|
  {
    Prepend(Upto(msg, start, i), Parts(Rest(msg, i), q))
  }

  /** splitFindings: the index loop with its quote flag. */
  method SplitFindings(msg: string) returns (parts: seq<string>)
    ensures parts == Parts(msg, false)
  {
    hide Parts, Ahead;
    parts := [];
    var inQuote, start, i := false, 0, 0;
    AheadAtEnds(msg, start);
    while i < |msg|
      invariant start <= |msg| && start <= i
      invariant parts + Ahead(msg, start, i, inQuote) == Parts(msg, false)
      decreases |msg| - i
    {
      if inQuote && msg[i] == '\\' {
        Escape(msg, start, i);
        i := i + 1;
      } else if msg[i] == '"' {
        Pass(msg, start, i, inQuote);
        inQuote := !inQuote;
      } else if !inQuote && AtSeparator(msg[i..]) {
        Cut(msg, start, i);
        parts := parts + [msg[start..i]];
        i := i + 1;
        start := i + 1;
      } else {
        Pass(msg, start, i, inQuote);
      }
      i := i + 1;
    }
    AheadAtEnds(msg, start);
    parts := parts + [msg[start..]];
  }

  lemma AheadAtEnds(msg: string, start: nat)
    requires start <= |msg|
    ensures Ahead(msg, 0, 0, false) == Parts(msg, false)
    ensures forall i, q | i >= |msg| && i >= start :: Ahead(msg, start, i, q) == [msg[start..]]
  {
    PrependTwice("", "", Parts(msg, false));
    assert Rest(msg, 0) == msg;
    assert msg[start..] + "" == msg[start..];
  }

  lemma Escape(msg: string, start: nat, i: nat)
    requires start <= i < |msg| && msg[i] == '\\'
    ensures Ahead(msg, start, i, true) == Ahead(msg, start, i + 2, true)
  {
    var s := Rest(msg, i);
    Advance(msg, start, i, 2, Parts(Rest(msg, i + 2), true));
    if |s| == 1 {
      assert Prepend(s, [""]) == [s] by { assert s + "" == s; }
    } else {
      assert s[2..] == Rest(msg, i + 2) && s[..2] == Upto(s, 0, 2);
    }
  }

  lemma Pass(msg: string, start: nat, i: nat, q: bool)
    requires start <= i < |msg| && !(q && msg[i] == '\\') && (msg[i] == '"' || q || !AtSeparator(msg[i..]))
    ensures Ahead(msg, start, i, q) == Ahead(msg, start, i + 1, if msg[i] == '"' then !q else q)
  {
    var s := Rest(msg, i);
    var q' := if msg[i] == '"' then !q else q;
    Advance(msg, start, i, 1, Parts(Rest(msg, i + 1), q'));
    assert s[1..] == Rest(msg, i + 1) && s[..1] == Upto(s, 0, 1);
  }

  lemma Cut(msg: string, start: nat, i: nat)
    requires start <= i < |msg| && AtSeparator(msg[i..])
    ensures Ahead(msg, start, i, false) == [msg[start..i]] + Ahead(msg, i + 2, i + 2, false)
  {
    var s := Rest(msg, i);
    assert s[2..] == Rest(msg, i + 2);
    assert msg[start..i] + "" == msg[start..i];
    PrependTwice("", "", Parts(Rest(msg, i + 2), false));
    assert Upto(msg, i + 2, i + 2) == "";
  }

  // ---- joining ------------------------------------------------------------------------

  function Join(list: seq<string>): string {
    if list == [] then "" else if |list| == 1 then list[0] else list[0] + SEPARATOR + Join(list[1..])
  }

  /** Quotes are closed, escapes complete, and no separator stands outside quotes. */
  predicate Whole(s: string, q: bool) {
    if s == "" then !q
    else if q && s[0] == '\\' then |s| > 1 && Whole(s[2..], q)
    else if s[0] == '"' then Whole(s[1..], !q)
    else if !q && AtSeparator(s) then false
    else Whole(s[1..], q)
  }

  /** No separator stands outside quotes; a quote may be left open. */
  predicate Unsplit(s: string, q: bool) {
    if s == "" then true
    else if q && s[0] == '\\' then |s| == 1 || Unsplit(s[2..], q)
    else if s[0] == '"' then Unsplit(s[1..], !q)
    else if !q && AtSeparator(s) then false
    else Unsplit(s[1..], q)
  }

  /** A whole entry before a separator is the first part. */
  lemma {:induction false} WholeFirst(e: string, q: bool, rest: string)
    requires Whole(e, q)
    ensures Parts(e + SEPARATOR + rest, q) == [e] + Parts(rest, false)
  {
    var s := e + SEPARATOR + rest;
    if e == "" {
      assert s[2..] == rest;
    } else if q && e[0] == '\\' {
      WholeFirst(e[2..], q, rest);
      assert s[2..] == e[2..] + SEPARATOR + rest && s[..2] + e[2..] == e;
    } else {
      assert s[1..] == e[1..] + SEPARATOR + rest && s[..1] + e[1..] == e;
      if e[0] == '"' { WholeFirst(e[1..], !q, rest); } else { WholeFirst(e[1..], q, rest); }
    }
  }

  lemma {:induction false} UnsplitIff(s: string, q: bool)
    ensures Unsplit(s, q) <==> Parts(s, q) == [s]
    ensures Unsplit(s, q) <==> |Parts(s, q)| == 1
  {
    if s == "" {
    } else if q && s[0] == '\\' {
      if |s| > 1 { UnsplitIff(s[2..], q); assert s[..2] + s[2..] == s; }
    } else {
      assert s[..1] + s[1..] == s;
      if s[0] == '"' { UnsplitIff(s[1..], !q); } else { UnsplitIff(s[1..], q); }
    }
  }

  /** The first of several parts is whole and ends at a separator. */
  lemma {:induction false} FirstIsWhole(s: string, q: bool)
    requires |Parts(s, q)| > 1
    ensures var p := Parts(s, q)[0];
            && Whole(p, q) && |p| + 2 <= |s| && s == p + SEPARATOR + s[|p| + 2..]
            && Parts(s, q)[1..] == Parts(s[|p| + 2..], false)
  {
    var p := Parts(s, q)[0];
    if q && s[0] == '\\' {
      FirstIsWhole(s[2..], q);
      FirstGrows(s, 2, Parts(s[2..], q)[0]);
    } else if s[0] != '"' && !q && AtSeparator(s) {
      assert s == "" + SEPARATOR + s[2..];
    } else {
      var q' := if s[0] == '"' then !q else q;
      FirstIsWhole(s[1..], q');
      FirstGrows(s, 1, Parts(s[1..], q')[0]);
      assert p[0] == s[0] && p[1..] == Parts(s[1..], q')[0];
      assert AtSeparator(p) ==> AtSeparator(s);
    }
  }

  lemma FirstGrows(s: string, n: nat, p: string)
    requires n <= |s| && |p| + 2 <= |s[n..]| && s[n..] == p + SEPARATOR + s[n..][|p| + 2..]
    ensures var p' := s[..n] + p;
            && |p'| + 2 <= |s| && s == p' + SEPARATOR + s[|p'| + 2..] && s[|p'| + 2..] == s[n..][|p| + 2..]
            && p'[..n] == s[..n] && p'[n..] == p
  {
    assert s == s[..n] + s[n..];
  }

  /** Splitting a joined list gives the list back exactly when every entry but the
      last is whole and the last has no separator outside quotes. */
  lemma {:induction false} SplitOfJoinIff(list: seq<string>)
    requires list != []
    ensures Parts(Join(list), false) == list <==>
      && (forall k | 0 <= k < |list| - 1 :: Whole(list[k], false))
      && Unsplit(list[|list| - 1], false)
  {
    hide Parts, Whole, Unsplit;
    if |list| == 1 {
      UnsplitIff(list[0], false);
      assert list == [list[0]];
    } else {
      var e, rest, s := list[0], list[1..], Join(list);
      assert list == [e] + rest;
      SplitOfJoinIff(rest);
      assert forall k | 0 <= k < |rest| - 1 :: rest[k] == list[k + 1];
      assert forall k | 1 <= k < |list| - 1 :: list[k] == rest[k - 1];
      if Whole(e, false) {
        WholeFirst(e, false, Join(rest));
      } else if Parts(s, false) == list {
        FirstIsWhole(s, false);
        assert false;
      }
    }
  }

  /** Nothing is lost: joining the parts of any text gives the text back. */
  lemma {:induction false} JoinOfSplit(s: string)
    ensures Join(Parts(s, false)) == s
    decreases |s|
  {
    var parts := Parts(s, false);
    UnsplitIff(s, false);
    if |parts| > 1 {
      FirstIsWhole(s, false);
      JoinOfSplit(s[|parts[0]| + 2..]);
    } else {
      assert parts == [parts[0]];
    }
  }
}

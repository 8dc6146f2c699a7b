/** The laws asked of the log's encoder can be met: a plain encoding that writes
    every text with its own end does. */
module StoreCodec {
  import opened Prelude
  import opened StoreState
  import opened StoreLog

  function Unary(n: nat): (r: Bytes)
    ensures NL !in r && r != []
  {
    if n == 0 then [2] else [1] + Unary(n - 1)
  }

  function Text(s: string): (r: Bytes)
    ensures NL !in r && r != []
  {
    if s == "" then [3] else Unary(s[0] as nat) + Text(s[1..])
  }

  function Encode(rec: LogRecord): (r: Bytes)
    ensures NL !in r && r != []
  {
    Text(rec.op) + (Text(rec.id) + (Text(if rec.reply.Some? then rec.reply.value else "")
                    + (Text(rec.key) + Text(if rec.value.Some? then rec.value.value else ""))))
  }

  lemma {:induction false} UnaryEnds(n: nat, x: Bytes, m: nat, y: Bytes)
    requires Unary(n) + x <= Unary(m) + y
    ensures n == m && x <= y
  {
    var a, b := Unary(n) + x, Unary(m) + y;
    assert a[0] == Unary(n)[0] && b[0] == Unary(m)[0] && a[0] == b[0];
    assert a[1..] <= b[1..];
    if n > 0 {
      assert a[1..] == Unary(n - 1) + x && b[1..] == Unary(m - 1) + y;
      UnaryEnds(n - 1, x, m - 1, y);
    } else {
      assert a[1..] == x && b[1..] == y;
    }
  }

  lemma UnaryStarts(n: nat)
    ensures Unary(n)[0] in {1, 2}
  {}

  lemma {:induction false} TextEnds(s: string, x: Bytes, t: string, y: Bytes)
    requires Text(s) + x <= Text(t) + y
    ensures s == t && x <= y
  {
    var a, b := Text(s) + x, Text(t) + y;
    assert a[0] == Text(s)[0] && b[0] == Text(t)[0] && a[0] == b[0];
    if s != "" { UnaryStarts(s[0] as nat); }
    if t != "" { UnaryStarts(t[0] as nat); }
    if s != "" {
      var x', y' := Text(s[1..]) + x, Text(t[1..]) + y;
      assert a == Unary(s[0] as nat) + x' && b == Unary(t[0] as nat) + y';
      UnaryEnds(s[0] as nat, x', t[0] as nat, y');
      TextEnds(s[1..], x, t[1..], y);
      assert s == [s[0]] + s[1..] && t == [t[0]] + t[1..];
    } else {
      assert a[1..] == x && b[1..] == y;
    }
  }

  /** No encoding of a record is the beginning of another's. */
  lemma EncodeEnds(a: LogRecord, b: LogRecord)
    requires Loggable(a) && Loggable(b) && Encode(a) <= Encode(b)
    ensures a == b
  {
    hide Text;
    var va, vb := if a.value.Some? then a.value.value else "", if b.value.Some? then b.value.value else "";
    var ra, rb := if a.reply.Some? then a.reply.value else "", if b.reply.Some? then b.reply.value else "";
    var a4, b4 := Text(a.key) + Text(va), Text(b.key) + Text(vb);
    var a3, b3 := Text(ra) + a4, Text(rb) + b4;
    var a2, b2 := Text(a.id) + a3, Text(b.id) + b3;
    TextEnds(a.op, a2, b.op, b2);
    TextEnds(a.id, a3, b.id, b3);
    TextEnds(ra, a4, rb, b4);
    TextEnds(a.key, Text(va), b.key, Text(vb));
    assert Text(va) + [] == Text(va) && Text(vb) + [] == Text(vb);
    TextEnds(va, [], vb, []);
  }

  lemma LawfulExists()
    ensures exists c :: Lawful(c)
  {
    hide Encode, Loggable;
    var dec: Bytes -> Option<LogRecord> := b =>
      if exists rec :: Loggable(rec) && Encode(rec) == b then
        (var rec :| Loggable(rec) && Encode(rec) == b; Some(rec))
      else None;
    var c := Codec(Encode, dec, b => b == []);
    forall rec | Loggable(rec) ensures c.dec(c.enc(rec)) == Some(rec) {
      var rec' := dec(Encode(rec)).value;
      EncodeEnds(rec', rec);
    }
    forall rec, k | Loggable(rec) && 0 <= k < |c.enc(rec)| ensures c.dec(c.enc(rec)[..k]).None? {
      if dec(Encode(rec)[..k]).Some? { EncodeEnds(dec(Encode(rec)[..k]).value, rec); }
    }
    assert Lawful(c);
  }
}

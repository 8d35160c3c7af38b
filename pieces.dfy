/**
 * The `PieceOfPi` record handed from producer to consumer, its rendering by
 * `PieceOfPi::ToString`, the line a consumer appends to `toPrint`, and the
 * reading back of both, which shows that a rendering determines the record.
 */
module Pieces {
  import opened Wrappers
  import opened SizeT
  import opened Decimal

  /** A digit of pi with the ids of the producer that wrote it and of the consumer that read it last. */
  datatype PieceOfPi = PieceOfPi(producerId: Size, consumerId: Size, digit: char)

  /** The default-initialised record: both ids 0 and the digit the NUL character. */
  const DEFAULT_PIECE: PieceOfPi := PieceOfPi(0, 0, 0 as char)

  const RECORD_OPEN: string := "{ digit: "
  const PRODUCER_LABEL: string := "; producerId: "
  const CONSUMER_LABEL: string := "; consumerId: "
  const RECORD_CLOSE: string := " }"
  /** What every consumer writes in front of a record (the spelling is the source's). */
  const LINE_PREFIX: string := "Consumer has recieved the buffer: "
  const LINE_END: string := "\n"

  /** `PieceOfPi::ToString`: the digit itself, then both ids in decimal. */
  function ToString(p: PieceOfPi): (r: string)
  {
    RECORD_OPEN + [p.digit] + PRODUCER_LABEL + Dec(p.producerId)
      + CONSUMER_LABEL + Dec(p.consumerId) + RECORD_CLOSE
  }

  /** The line a consumer appends to `toPrint` for the record it has read. */
  function Line(p: PieceOfPi): (r: string)
  {
    LINE_PREFIX + ToString(p) + LINE_END
  }

  /** The log that a sequence of consumed records leaves, oldest first. */
  function Render(rs: seq<PieceOfPi>): (r: string)
  {
    if rs == [] then "" else Line(rs[0]) + Render(rs[1..])
  }

  /** `s` with the literal `lit` taken off its front, or None when `s` does not start with it. */
  function Expect(lit: string, s: string): (r: Option<string>)
    ensures r.Some? <==> lit <= s
    ensures r.Some? ==> s == lit + r.value
  {
    if lit <= s then Some(s[|lit|..]) else None
  }

  /** A decimal id that fits in a `size_t`. */
  function ParseSize(s: string): (r: Option<(Size, string)>)
    ensures r.Some? ==> |r.value.1| < |s|
  {
    var (n, rest) :- ParseDec(s);
    if n < SIZE_LIMIT then Some((n as Size, rest)) else None
  }

  /** Reads `tag` followed by a decimal id off the front of `s`. */
  function ParseField(tag: string, s: string): (r: Option<(Size, string)>)
    ensures r.Some? ==> |r.value.1| < |s|
  {
    var s1 :- Expect(tag, s);
    ParseSize(s1)
  }

  /** Reads one `ToString` rendering off the front of `s`. */
  function ParseRecord(s: string): (r: Option<(PieceOfPi, string)>)
    ensures r.Some? ==> |r.value.1| < |s|
  {
    var s1 :- Expect(RECORD_OPEN, s);
    if s1 == [] then None
    else
      var (pid, s2) :- ParseField(PRODUCER_LABEL, s1[1..]);
      var (cid, s3) :- ParseField(CONSUMER_LABEL, s2);
      var rest :- Expect(RECORD_CLOSE, s3);
      Some((PieceOfPi(pid, cid, s1[0]), rest))
  }

  /** Reads one consumer line off the front of `s`. */
  function ParseLine(s: string): (r: Option<(PieceOfPi, string)>)
    ensures r.Some? ==> |r.value.1| < |s|
  {
    var s1 :- Expect(LINE_PREFIX, s);
    var (p, s2) :- ParseRecord(s1);
    var rest :- Expect(LINE_END, s2);
    Some((p, rest))
  }

  /** Reads a whole log back into its records, or None when it is not a sequence of consumer lines. */
  function ParseLog(s: string): (r: Option<seq<PieceOfPi>>)
    ensures s == [] ==> r == Some([])
    decreases |s|
  {
    if s == [] then Some([])
    else
      var (p, rest) :- ParseLine(s);
      var ps :- ParseLog(rest);
      Some([p] + ps)
  }

  /** Concatenation regrouped: kept generic so that the regrouping does not unfold the literals. */
  lemma Assoc4<T>(a: seq<T>, b: seq<T>, c: seq<T>, d: seq<T>)
    ensures a + b + c + d == a + (b + (c + d))
  {
  }

  lemma ExpectOf(lit: string, rest: string)
    ensures Expect(lit, lit + rest) == Some(rest)
  {
    assert lit <= lit + rest;
    assert (lit + rest)[|lit|..] == rest;
  }

  lemma FieldOf(tag: string, n: Size, rest: string)
    requires rest == [] || !IsDigit(rest[0])
    ensures ParseField(tag, tag + Dec(n) + rest) == Some((n, rest))
  {
    assert tag + Dec(n) + rest == tag + (Dec(n) + rest);
    ExpectOf(tag, Dec(n) + rest);
    ParseDecOf(n, rest);
  }

  /** ToString's rendering is read back as the same record, and the reading stops right after it. */
  lemma RecordRoundTrip(p: PieceOfPi, rest: string)
    ensures ParseRecord(ToString(p) + rest) == Some((p, rest))
  {
    var t3 := RECORD_CLOSE + rest;
    var t2 := CONSUMER_LABEL + Dec(p.consumerId) + t3;
    var t1 := PRODUCER_LABEL + Dec(p.producerId) + t2;
    var t0 := [p.digit] + t1;
    calc {
      ToString(p) + rest;
      RECORD_OPEN + [p.digit] + PRODUCER_LABEL + Dec(p.producerId)
        + CONSUMER_LABEL + Dec(p.consumerId) + RECORD_CLOSE + rest;
      { assert CONSUMER_LABEL + Dec(p.consumerId) + RECORD_CLOSE + rest == t2; }
      RECORD_OPEN + [p.digit] + PRODUCER_LABEL + Dec(p.producerId) + t2;
      RECORD_OPEN + t0;
    }
    ExpectOf(RECORD_OPEN, t0);
    assert t0[1..] == t1;
    FieldOf(PRODUCER_LABEL, p.producerId, t2);
    FieldOf(CONSUMER_LABEL, p.consumerId, t3);
    ExpectOf(RECORD_CLOSE, rest);
  }

  lemma LineRoundTrip(p: PieceOfPi, rest: string)
    ensures ParseLine(Line(p) + rest) == Some((p, rest))
  {
    var t := ToString(p) + (LINE_END + rest);
    assert Line(p) + rest == LINE_PREFIX + t by {
      Assoc4(LINE_PREFIX, ToString(p), LINE_END, rest);
    }
    ExpectOf(LINE_PREFIX, t);
    RecordRoundTrip(p, LINE_END + rest);
    ExpectOf(LINE_END, rest);
  }

  /** A log is read back as exactly the records that were rendered into it. */
  lemma {:induction false} LogRoundTrip(rs: seq<PieceOfPi>)
    ensures ParseLog(Render(rs)) == Some(rs)
  {
    if rs != [] {
      LineRoundTrip(rs[0], Render(rs[1..]));
      LogRoundTrip(rs[1..]);
      assert [rs[0]] + rs[1..] == rs;
    }
  }

  /** Two records with the same rendering are the same record. */
  lemma ToStringInjective(p: PieceOfPi, q: PieceOfPi)
    requires ToString(p) == ToString(q)
    ensures p == q
  {
    RecordRoundTrip(p, "");
    RecordRoundTrip(q, "");
    assert ToString(p) + "" == ToString(p);
    assert ToString(q) + "" == ToString(q);
  }

  /** One more consumed record appends one more line and changes nothing before it. */
  lemma {:induction false} RenderSnoc(rs: seq<PieceOfPi>, p: PieceOfPi)
    ensures Render(rs + [p]) == Render(rs) + Line(p)
  {
    if rs == [] {
      assert rs + [p] == [p];
      assert [p][1..] == [];
    } else {
      assert (rs + [p])[1..] == rs[1..] + [p];
      RenderSnoc(rs[1..], p);
    }
  }
}

/** pkg/net/coap/incrementalChanges.go: packing ETags into `incChanges=` URI queries.

    A query is a `string`; an ETag is a sequence of bytes. The encoder is the
    loop of the source over a string builder; the decoder is what a receiver
    does with the queries, and the two are connected by a round trip. */
module IncrementalChanges {

  import opened Strings

  type Byte = b: int | 0 <= b < 256
  type ETag = seq<Byte>

  const MAX_URI_QUERY_LEN: nat := 255
  const MAX_ETAG_LEN: nat := 8
  const PREFIX: string := "incChanges="

  // ---------------------------------------------------------------- base64url

  /** Section 5 of RFC 4648: the URL-safe alphabet A-Z a-z 0-9 - _ in this order. */
  function Sextet(i: nat): (c: char)
    requires i < 64
    ensures c != ',' && SextetValue(c) == i
  {
    if i < 26 then ('A' as int + i) as char
    else if i < 52 then ('a' as int + i - 26) as char
    else if i < 62 then ('0' as int + i - 52) as char
    else if i == 62 then '-'
    else '_'
  }

  /** The value of a base64url character, 64 for a character outside the alphabet. */
  function SextetValue(c: char): nat {
    if 'A' <= c <= 'Z' then c as int - 'A' as int
    else if 'a' <= c <= 'z' then 26 + (c as int - 'a' as int)
    else if '0' <= c <= '9' then 52 + (c as int - '0' as int)
    else if c == '-' then 62
    else if c == '_' then 63
    else 64
  }

  const UPPER: string := "ABCDEFGHIJKLMNOPQRSTUVWXYZ"
  const LOWER: string := "abcdefghijklmnopqrstuvwxyz"
  const OTHERS: string := "0123456789-_"

  lemma AlphabetOfSextets(i: nat)
    requires i < 64
    ensures |UPPER + LOWER + OTHERS| == 64 && Sextet(i) == (UPPER + LOWER + OTHERS)[i]
  {
    if i < 26 {
      UpperCase(i);
    } else if i < 52 {
      LowerCase(i - 26);
    }
  }

  lemma UpperCase(i: nat)
    requires i < 26
    ensures UPPER[i] == 'A' + i as char
  {
  }

  lemma LowerCase(i: nat)
    requires i < 26
    ensures LOWER[i] == 'a' + i as char
  {
  }

  type Six = v: int | 0 <= v < 64

  // Two bits are one digit to the base 4: a byte has four of them and a sextet three.
  type Digit = v: int | 0 <= v < 4

  function Power(k: nat): nat {
    if k == 0 then 1 else 4 * Power(k - 1)
  }

  function Digits(x: nat, k: nat): (q: seq<Digit>)
    ensures |q| == k
  {
    if k == 0 then [] else Digits(x / 4, k - 1) + [x % 4]
  }

  function Value(q: seq<Digit>): (x: nat)
    ensures x < Power(|q|)
  {
    if q == [] then 0 else 4 * Value(q[..|q|-1]) + q[|q|-1]
  }

  lemma Join(hi: nat, lo: Digit)
    ensures (4 * hi + lo) / 4 == hi && (4 * hi + lo) % 4 == lo
  {
  }

  lemma {:induction false} DigitsOfValue(q: seq<Digit>)
    ensures Digits(Value(q), |q|) == q
  {
    if q != [] {
      DigitsOfValue(q[..|q|-1]);
      Join(Value(q[..|q|-1]), q[|q|-1]);
    }
  }

  lemma {:induction false} ValueOfDigits(x: nat, k: nat)
    requires x < Power(k)
    ensures Value(Digits(x, k)) == x
  {
    if k > 0 {
      ValueOfDigits(x / 4, k - 1);
      assert Digits(x, k)[..k-1] == Digits(x / 4, k - 1);
    }
  }

  function ToByte(q: seq<Digit>): Byte
    requires |q| == 4
  {
    assert Power(4) == 256;
    Value(q)
  }

  function ToSix(q: seq<Digit>): Six
    requires |q| == 3
  {
    assert Power(3) == 64;
    Value(q)
  }

  function Bits(s: ETag): (bits: seq<Digit>)
    ensures |bits| == 4 * |s|
  {
    if s == [] then [] else Digits(s[0], 4) + Bits(s[1..])
  }

  /** Zero bits that fill the last group of `n` digits. */
  function Filling(n: nat): seq<Digit> {
    if n % 3 == 0 then [] else if n % 3 == 1 then [0, 0] else [0]
  }

  /** Section 4 of RFC 4648: the input bits in groups of six; the last group is
      filled with zero bits and, by section 3.2, nothing is padded. */
  function Group(bits: seq<Digit>): (v: seq<Six>)
    ensures |v| == (|bits| + 2) / 3
  {
    if bits == [] then []
    else if |bits| < 3 then [ToSix(bits + Filling(|bits|))]
    else [ToSix(bits[..3])] + Group(bits[3..])
  }

  function Ungroup(v: seq<Six>): seq<Digit> {
    if v == [] then [] else Digits(v[0], 3) + Ungroup(v[1..])
  }

  /** Whole bytes only: what is left over is the filling. */
  function Bytes(bits: seq<Digit>): ETag {
    if |bits| < 4 then [] else [ToByte(bits[..4])] + Bytes(bits[4..])
  }

  function ToSextets(s: ETag): (r: seq<Six>)
    ensures |r| == (4 * |s| + 2) / 3
  {
    Group(Bits(s))
  }

  function FromSextets(v: seq<Six>): ETag {
    Bytes(Ungroup(v))
  }

  lemma {:induction false} UngroupOfGroup(bits: seq<Digit>)
    ensures Ungroup(Group(bits)) == bits + Filling(|bits|)
  {
    if |bits| == 0 {
    } else if |bits| < 3 {
      UngroupStep(bits + Filling(|bits|), []);
      assert [ToSix(bits + Filling(|bits|))] + [] == [ToSix(bits + Filling(|bits|))];
    } else {
      UngroupOfGroup(bits[3..]);
      UngroupStep(bits[..3], Group(bits[3..]));
      FillingStep(|bits|);
      assert bits == bits[..3] + bits[3..];
    }
  }

  lemma FillingStep(n: nat)
    requires n >= 3
    ensures Filling(n) == Filling(n - 3)
  {
  }

  lemma UngroupStep(q: seq<Digit>, v: seq<Six>)
    requires |q| == 3
    ensures Ungroup([ToSix(q)] + v) == q + Ungroup(v)
  {
    DigitsOfValue(q);
    assert ([ToSix(q)] + v)[1..] == v;
  }

  lemma {:induction false} BytesOfBits(s: ETag, rest: seq<Digit>)
    requires |rest| < 4
    ensures Bytes(Bits(s) + rest) == s
  {
    if s == [] {
      assert Bits(s) + rest == rest;
    } else {
      BytesOfBits(s[1..], rest);
      BytesStep(s[0], Bits(s[1..]) + rest);
      assert Bits(s) + rest == Digits(s[0], 4) + (Bits(s[1..]) + rest);
      assert s == [s[0]] + s[1..];
    }
  }

  lemma BytesStep(x: Byte, bits: seq<Digit>)
    ensures Bytes(Digits(x, 4) + bits) == [x] + Bytes(bits)
  {
    assert Power(4) == 256;
    ValueOfDigits(x, 4);
    var all := Digits(x, 4) + bits;
    assert all[..4] == Digits(x, 4) && all[4..] == bits;
  }

  lemma SextetsRoundTrip(s: ETag)
    ensures FromSextets(ToSextets(s)) == s
  {
    UngroupOfGroup(Bits(s));
    BytesOfBits(s, Filling(|Bits(s)|));
  }

  /** A string of bytes as one number, the first byte being the most significant. */
  function Number(s: ETag): nat {
    if s == [] then 0 else 256 * Number(s[..|s|-1]) + s[|s|-1]
  }

  /** The same for sextets. */
  function SextetNumber(v: seq<Six>): nat {
    if v == [] then 0 else 64 * SextetNumber(v[..|v|-1]) + v[|v|-1]
  }

  /** x with 2k zero bits appended. */
  function Shifted(x: nat, k: nat): nat {
    if k == 0 then x else 4 * Shifted(x, k - 1)
  }

  lemma ShiftedBy(x: nat)
    ensures Shifted(x, 3) == 64 * x && Shifted(x, 4) == 256 * x
  {
    assert Shifted(x, 1) == 4 * x;
    assert Shifted(x, 2) == 16 * x;
    assert Shifted(x, 3) == 64 * x;
  }

  lemma {:induction false} ValueAppend(p: seq<Digit>, q: seq<Digit>)
    ensures Value(p + q) == Shifted(Value(p), |q|) + Value(q)
  {
    if q == [] {
      assert p + q == p;
    } else {
      ValueAppend(p, q[..|q|-1]);
      assert (p + q)[..|p + q|-1] == p + q[..|q|-1];
    }
  }

  lemma {:induction false} BitsAppend(s: ETag, x: Byte)
    ensures Bits(s + [x]) == Bits(s) + Digits(x, 4)
  {
    if s == [] {
      assert s + [x] == [x] && [x][1..] == [];
    } else {
      BitsAppend(s[1..], x);
      assert (s + [x])[1..] == s[1..] + [x];
    }
  }

  lemma {:induction false} UngroupAppend(v: seq<Six>, x: Six)
    ensures Ungroup(v + [x]) == Ungroup(v) + Digits(x, 3)
  {
    if v == [] {
      assert v + [x] == [x] && [x][1..] == [];
    } else {
      UngroupAppend(v[1..], x);
      assert (v + [x])[1..] == v[1..] + [x];
    }
  }

  lemma {:induction false} NumberOfBits(s: ETag)
    ensures Value(Bits(s)) == Number(s)
  {
    if s != [] {
      var init, last := s[..|s|-1], s[|s|-1];
      NumberOfBits(init);
      BitsAppend(init, last);
      assert s == init + [last] && Power(4) == 256;
      ShiftedBy(Number(init));
      ValueAppend(Bits(init), Digits(last, 4));
      ValueOfDigits(last, 4);
    }
  }

  lemma {:induction false} NumberOfUngrouped(v: seq<Six>)
    ensures Value(Ungroup(v)) == SextetNumber(v)
  {
    if v != [] {
      var init, last := v[..|v|-1], v[|v|-1];
      NumberOfUngrouped(init);
      UngroupAppend(init, last);
      assert v == init + [last] && Power(3) == 64;
      ShiftedBy(SextetNumber(init));
      ValueAppend(Ungroup(init), Digits(last, 3));
      ValueOfDigits(last, 3);
    }
  }

  /** The sextets are the number of the bytes to the base 64, after 0, 2 or 4 more zero bits. */
  lemma SextetsOfNumber(s: ETag)
    ensures SextetNumber(ToSextets(s)) ==
            if |s| % 3 == 0 then Number(s) else if |s| % 3 == 1 then 16 * Number(s) else 4 * Number(s)
  {
    var filling := FillingOf(|s|);
    GroupNumber(Bits(s));
    NumberOfBits(s);
    FilledValue(Bits(s), filling);
  }

  lemma GroupNumber(bits: seq<Digit>)
    ensures SextetNumber(Group(bits)) == Value(bits + Filling(|bits|))
  {
    UngroupOfGroup(bits);
    NumberOfUngrouped(Group(bits));
  }

  /** What fills the last group of n bytes. */
  lemma FillingOf(n: nat) returns (filling: seq<Digit>)
    ensures filling == Filling(4 * n)
    ensures filling == if n % 3 == 0 then [] else if n % 3 == 1 then [0, 0] else [0]
  {
    assert 4 * n == 3 * n + n;
    filling := Filling(4 * n);
  }

  lemma FilledValue(bits: seq<Digit>, zeros: seq<Digit>)
    requires zeros == [] || zeros == [0] || zeros == [0, 0]
    ensures Value(bits + zeros) == if |zeros| == 0 then Value(bits)
                                   else if |zeros| == 1 then 4 * Value(bits) else 16 * Value(bits)
  {
    AppendZero(bits);
    AppendZero(bits + [0]);
    assert bits + [] == bits;
    assert [0] + [0] == [0, 0];
    assert bits + [0] + [0] == bits + ([0] + [0]);
  }

  lemma AppendZero(bits: seq<Digit>)
    ensures Value(bits + [0]) == 4 * Value(bits)
  {
    assert (bits + [0])[..|bits|] == bits;
  }

  function ToChars(v: seq<Six>): (t: string)
    ensures |t| == |v|
  {
    if v == [] then "" else [Sextet(v[0])] + ToChars(v[1..])
  }

  /** The value of a base64url character; a receiver never sees another one. */
  function ToSextet(c: char): Six {
    var x := SextetValue(c);
    if x < 64 then x else 0
  }

  function FromChars(t: string): seq<Six> {
    if t == "" then [] else [ToSextet(t[0])] + FromChars(t[1..])
  }

  lemma {:induction false} CharsRoundTrip(v: seq<Six>)
    ensures FromChars(ToChars(v)) == v
    ensures ',' !in ToChars(v)
  {
    if v != [] {
      CharsRoundTrip(v[1..]);
      assert ToChars(v)[1..] == ToChars(v[1..]);
      assert v == [v[0]] + v[1..];
    }
  }

  function Encode(s: ETag): (r: string)
    ensures |r| == (4 * |s| + 2) / 3
  {
    ToChars(ToSextets(s))
  }

  function Decode(t: string): ETag {
    FromSextets(FromChars(t))
  }

  lemma EncodeDecode(s: ETag)
    ensures Decode(Encode(s)) == s
    ensures ',' !in Encode(s)
  {
    SextetsRoundTrip(s);
    CharsRoundTrip(ToSextets(s));
  }

  // ------------------------------------------------------- what a receiver does

  function DecodeAll(parts: seq<string>): seq<ETag> {
    if parts == [] then [] else [Decode(parts[0])] + DecodeAll(parts[1..])
  }

  /** Strips the prefix, splits on commas and decodes each part. */
  function DecodeQuery(q: string): seq<ETag>
    requires PREFIX <= q
  {
    DecodeAll(Split(q[|PREFIX|..], ','))
  }

  ghost predicate Queries(qs: seq<string>) {
    forall i | 0 <= i < |qs| :: PREFIX <= qs[i]
  }

  function DecodeQueries(qs: seq<string>): seq<ETag>
    requires Queries(qs)
  {
    if qs == [] then [] else DecodeQueries(qs[..|qs|-1]) + DecodeQuery(qs[|qs|-1])
  }

  /** The ETags the source keeps: the ones of at most eight bytes, in order. */
  function Short(etags: seq<ETag>): seq<ETag> {
    if etags == [] then []
    else
      var last := etags[|etags|-1];
      Short(etags[..|etags|-1]) + if |last| > MAX_ETAG_LEN then [] else [last]
  }

  lemma {:induction false} DecodeAllAppend(parts: seq<string>, p: string)
    ensures DecodeAll(parts + [p]) == DecodeAll(parts) + [Decode(p)]
  {
    if parts != [] {
      DecodeAllAppend(parts[1..], p);
      assert (parts + [p])[1..] == parts[1..] + [p];
    } else {
      assert parts + [p] == [p];
    }
  }

  /** The builder's text after one more ETag. */
  function Extend(b: string, e: ETag): string {
    (if b == "" then PREFIX else b + ",") + Encode(e)
  }

  /** `b` is a query under construction that carries the ETags `es`. */
  ghost predicate Carries(b: string, es: seq<ETag>) {
    if es == [] then b == ""
    else PREFIX <= b && DecodeQuery(b) == es && |b| <= 10 + 12 * |es|
  }

  lemma FirstPart(part: string)
    requires ',' !in part
    ensures DecodeQuery(PREFIX + part) == [Decode(part)]
  {
    assert (PREFIX + part)[|PREFIX|..] == part;
    SplitOne(part, ',');
    DecodeAllAppend([], part);
    assert [] + [part] == [part];
  }

  lemma NextPart(b: string, part: string)
    requires PREFIX <= b && ',' !in part
    ensures PREFIX <= b + "," + part && DecodeQuery(b + "," + part) == DecodeQuery(b) + [Decode(part)]
  {
    var t := b[|PREFIX|..];
    assert (b + "," + part)[|PREFIX|..] == t + ([','] + part);
    SplitAppend(t, ',', part);
    DecodeAllAppend(Split(t, ','), part);
  }

  lemma ExtendCarries(b: string, es: seq<ETag>, e: ETag)
    requires Carries(b, es) && |e| <= MAX_ETAG_LEN
    ensures Carries(Extend(b, e), es + [e])
    ensures |Extend(b, e)| <= |b| + (if es == [] then 22 else 12)
  {
    EncodeDecode(e);
    var part := Encode(e);
    if es == [] {
      FirstPart(part);
    } else {
      NextPart(b, part);
    }
  }

  // ------------------------------------------------------------------ the encoder

  /** Every flushed query is a query of at most 250 characters that holds at least 20 ETags. */
  ghost predicate Flushed(qs: seq<string>) {
    forall k | 0 <= k < |qs| :: PREFIX <= qs[k] && |qs[k]| <= 250 && |DecodeQuery(qs[k])| >= 20
  }

  /** What the loop has achieved after the ETags `done`: the flushed queries and
      the builder together carry exactly the short ones. */
  ghost predicate Packed(qs: seq<string>, es: seq<ETag>, done: seq<ETag>) {
    && Flushed(qs)
    && DecodeQueries(qs) + es == Short(done)
    && 20 * |qs| + |es| <= |Short(done)| <= |done|
  }

  lemma SkipStep(qs: seq<string>, es: seq<ETag>, etags: seq<ETag>, i: nat)
    requires i < |etags| && Packed(qs, es, etags[..i]) && |etags[i]| > MAX_ETAG_LEN
    ensures Packed(qs, es, etags[..i+1])
  {
    assert etags[..i+1][..i] == etags[..i];
  }

  lemma AppendStep(qs: seq<string>, es: seq<ETag>, etags: seq<ETag>, i: nat)
    requires i < |etags| && Packed(qs, es, etags[..i]) && |etags[i]| <= MAX_ETAG_LEN
    ensures Packed(qs, es + [etags[i]], etags[..i+1])
  {
    assert etags[..i+1][..i] == etags[..i];
    assert DecodeQueries(qs) + (es + [etags[i]]) == (DecodeQueries(qs) + es) + [etags[i]];
  }

  lemma FlushStep(qs: seq<string>, b: string, es: seq<ETag>, done: seq<ETag>)
    requires Packed(qs, es, done) && Carries(b, es) && |b| <= 250 && |es| >= 20
    ensures Packed(qs + [b], [], done)
  {
    DecodeQueriesAppend(qs, b);
  }

  lemma DecodeQueriesAppend(qs: seq<string>, q: string)
    requires Queries(qs) && PREFIX <= q
    ensures Queries(qs + [q])
    ensures DecodeQueries(qs + [q]) == DecodeQueries(qs) + DecodeQuery(q)
  {
    assert (qs + [q])[..|qs|] == qs;
  }

  /** What the queries are for, and the limits they keep: a receiver gets back
      every ETag of at most eight bytes in order, no query is longer than a
      Uri-Query option may be, every query but the last holds at least 20 ETags
      and none is empty, so they are at most one more than a twentieth of the ETags. */
  ghost predicate Encodes(qs: seq<string>, etags: seq<ETag>) {
    && Queries(qs) && DecodeQueries(qs) == Short(etags)
    && (forall i | 0 <= i < |qs| :: |qs[i]| <= 250 <= MAX_URI_QUERY_LEN && DecodeQuery(qs[i]) != [])
    && (forall i | 0 <= i < |qs| - 1 :: |DecodeQuery(qs[i])| >= 20)
    && 20 * |qs| <= |Short(etags)| + 20 <= |etags| + 20
  }

  lemma LastStep(qs: seq<string>, b: string, es: seq<ETag>, etags: seq<ETag>)
    requires Packed(qs, es, etags) && Carries(b, es) && |b| <= 250
    ensures Encodes(if |b| > 0 then qs + [b] else qs, etags)
  {
    if |b| > 0 {
      DecodeQueriesAppend(qs, b);
    }
  }

  /** What the loop writes to the builder for one ETag. */
  method Write(b: string, etag: ETag, ghost es: seq<ETag>) returns (r: string)
    requires Carries(b, es) && |etag| <= MAX_ETAG_LEN
    ensures Carries(r, es + [etag]) && |r| <= |b| + (if es == [] then 22 else 12)
  {
    ExtendCarries(b, es, etag);
    r := b;
    if |r| == 0 {
      r := r + PREFIX;
    } else {
      r := r + ",";
    }
    r := r + Encode(etag);
    assert r == Extend(b, etag);
  }

  method EncodeETagsForIncrementalChanges(etags: seq<ETag>) returns (etagsStr: seq<string>)
    ensures Encodes(etagsStr, etags)
    ensures forall i | 0 <= i < |etagsStr| :: "incChanges=" <= etagsStr[i]
  {
    if |etags| < 1 {
      return [];
    }
    etagsStr := [];
    var b := "";
    ghost var es := [];
    for i := 0 to |etags|
      invariant Packed(etagsStr, es, etags[..i])
      invariant Carries(b, es) && |b| < 239
    {
      var etag := etags[i];
      if |etag| > MAX_ETAG_LEN {
        SkipStep(etagsStr, es, etags, i);
        continue;
      }
      AppendStep(etagsStr, es, etags, i);
      b := Write(b, etag, es);
      es := es + [etag];
      if |b| >= MAX_URI_QUERY_LEN - MAX_ETAG_LEN * 2 {
        FlushStep(etagsStr, b, es, etags[..i+1]);
        etagsStr := etagsStr + [b];
        b, es := "", [];
      }
    }
    assert etags[..|etags|] == etags;
    LastStep(etagsStr, b, es, etags);
    if |b| > 0 {
      etagsStr := etagsStr + [b];
    }
  }
}

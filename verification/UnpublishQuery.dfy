/** bridge/device/cloud/publishResources.go: the query of an unpublish request.

    The CRC-32 that numbers a resource is any function to 32-bit numbers. */
module UnpublishQuery {

  import opened Strings

  const MAX_URI_QUERY_LEN: nat := 255   // section 5.10 of RFC 7252
  const UUID_LEN: nat := 36

  type Uint32 = x: int | 0 <= x < 0x1_0000_0000

  function Digit(d: nat): char
    requires d < 10
  {
    '0' + d as char
  }

  /** strconv.FormatInt of a number that is not negative. */
  function Decimal(n: nat): string {
    if n < 10 then [Digit(n)] else Decimal(n / 10) + [Digit(n % 10)]
  }

  function Value(s: string): int {
    if s == "" then 0 else 10 * Value(s[..|s|-1]) + (s[|s|-1] as int - '0' as int)
  }

  lemma {:induction false} DecimalRoundTrip(n: nat)
    ensures Value(Decimal(n)) == n && '&' !in Decimal(n)
  {
    if n < 10 {
      assert Decimal(n)[..0] == "";
    } else {
      DecimalRoundTrip(n / 10);
      assert Decimal(n)[..|Decimal(n)|-1] == Decimal(n / 10);
    }
  }

  function Power(k: nat): nat {
    if k == 0 then 1 else 10 * Power(k - 1)
  }

  lemma {:induction false} DecimalLength(n: nat, k: nat)
    requires k > 0 && n < Power(k)
    ensures 1 <= |Decimal(n)| <= k
  {
    if n >= 10 {
      DecimalLength(n / 10, k - 1);
    }
  }

  /** Ten digits are enough for 32 bits. */
  lemma Uint32Length(n: Uint32)
    ensures 1 <= |Decimal(n)| <= 10
  {
    assert Power(5) == 100000;
    assert Power(10) == 100000 * Power(5);
    DecimalLength(n, 10);
  }

  /** The query of these hrefs. */
  function Query(deviceID: string, hrefs: seq<string>, crc: string -> Uint32): string {
    if hrefs == [] then "di=" + deviceID
    else Query(deviceID, hrefs[..|hrefs|-1], crc) + ("&ins=" + Decimal(crc(hrefs[|hrefs|-1])))
  }

  method ToQuery(deviceID: string, hrefs: seq<string>, crc: string -> Uint32) returns (query: string)
    ensures query == Query(deviceID, hrefs, crc)
  {
    query := "di=";
    query := query + deviceID;
    for i := 0 to |hrefs|
      invariant query == Query(deviceID, hrefs[..i], crc)
    {
      assert hrefs[..i+1][..i] == hrefs[..i];
      ghost var before := query;
      query := query + "&ins=";
      query := query + Decimal(crc(hrefs[i]));
      assert query == before + ("&ins=" + Decimal(crc(hrefs[i])));
    }
    assert hrefs[..|hrefs|] == hrefs;
  }

  lemma {:induction false} QueryLength(deviceID: string, hrefs: seq<string>, crc: string -> Uint32)
    ensures |Query(deviceID, hrefs, crc)| <= 3 + |deviceID| + 15 * |hrefs|
  {
    if hrefs != [] {
      QueryLength(deviceID, hrefs[..|hrefs|-1], crc);
      Uint32Length(crc(hrefs[|hrefs|-1]));
    }
  }

  /** The query of a batch fits. */
  lemma BatchFits(deviceID: string, hrefs: seq<string>, crc: string -> Uint32)
    requires |deviceID| == UUID_LEN && |hrefs| <= 10
    ensures |Query(deviceID, hrefs, crc)| <= 189 <= MAX_URI_QUERY_LEN
  {
    QueryLength(deviceID, hrefs, crc);
  }

  // ------------------------------------------------------------------ what it carries

  /** The instance numbers in the parts of a query. */
  function Instances(parts: seq<string>): seq<int> {
    if parts == [] then []
    else
      var last := parts[|parts|-1];
      Instances(parts[..|parts|-1]) + if "ins=" <= last then [Value(last[4..])] else []
  }

  /** The query can be read back: the device, and the number of each href in order. */
  lemma {:induction false} QueryCarries(deviceID: string, hrefs: seq<string>, crc: string -> Uint32)
    requires '&' !in deviceID
    ensures var parts := Split(Query(deviceID, hrefs, crc), '&');
            && parts[0] == "di=" + deviceID
            && Instances(parts) == seq(|hrefs|, i requires 0 <= i < |hrefs| => crc(hrefs[i]) as int)
  {
    if hrefs == [] {
      SplitOne("di=" + deviceID, '&');
      assert !("ins=" <= "di=" + deviceID) by { assert ("di=" + deviceID)[0] == 'd'; }
      assert Instances(["di=" + deviceID]) == Instances([]) + [];
    } else {
      var init, last := hrefs[..|hrefs|-1], crc(hrefs[|hrefs|-1]);
      QueryCarries(deviceID, init, crc);
      DecimalRoundTrip(last);
      var part := "ins=" + Decimal(last);
      assert "&ins=" + Decimal(last) == ['&'] + part;
      SplitAppend(Query(deviceID, init, crc), '&', part);
      var parts := Split(Query(deviceID, init, crc), '&');
      assert (parts + [part])[..|parts|] == parts && part[4..] == Decimal(last);
    }
  }
}

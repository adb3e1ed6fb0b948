/** pkg/security/generateCertificate/config.go: key usages as an ASN.1 BIT STRING.

    In an ASN.1 BIT STRING bit 0 is the most significant bit of the first byte
    (section 8.6.2 of X.690); in the bit mask of Go's x509 package usage i is
    bit i counted from the least significant one. */
module KeyUsage {

  datatype Result<T> = Ok(value: T) | InvalidKeyUsage(name: string)

  datatype BitString = BitString(bytes: seq<bv8>, bitLength: nat)

  /** The usage names in the order of section 4.2.1.3 of RFC 5280. */
  const NAMES: seq<string> := [
    "digitalSignature", "contentCommitment", "keyEncipherment", "dataEncipherment",
    "keyAgreement", "certSign", "crlSign", "encipherOnly", "decipherOnly"]

  /** Bit `k` of a byte, counted from the least significant one. */
  predicate Bit(b: bv8, k: nat)
    requires k < 8
  {
    (b >> k) & 1 == 1
  }

  /** The x509 mask with only usage `i`. */
  function Single(i: nat): bv16
    requires i < 9
  {
    match i
    case 0 => 0x1
    case 1 => 0x2
    case 2 => 0x4
    case 3 => 0x8
    case 4 => 0x10
    case 5 => 0x20
    case 6 => 0x40
    case 7 => 0x80
    case _ => 0x100
  }

  predicate MaskBit(m: bv16, i: nat)
    requires i < 9
  {
    match i
    case 0 => m & 0x1 != 0
    case 1 => m & 0x2 != 0
    case 2 => m & 0x4 != 0
    case 3 => m & 0x8 != 0
    case 4 => m & 0x10 != 0
    case 5 => m & 0x20 != 0
    case 6 => m & 0x40 != 0
    case 7 => m & 0x80 != 0
    case _ => m & 0x100 != 0
  }

  /** Bit `k` of a byte string in ASN.1 order. */
  predicate AsnBit(s: seq<bv8>, k: nat)
    requires k < 8 * |s|
  {
    Bit(s[k / 8], 7 - k % 8)
  }

  // ------------------------------------------------------------- bit reversal

  function ReverseBitsInAByte(b: bv8): bv8 {
    var b1 := (b >> 4) | (b << 4);
    var b2 := ((b1 >> 2) & 0x33) | ((b1 << 2) & 0xcc);
    ((b2 >> 1) & 0x55) | ((b2 << 1) & 0xaa)
  }

  lemma ReversedBit(b: bv8, k: nat)
    requires k < 8
    ensures Bit(ReverseBitsInAByte(b), 7 - k) == Bit(b, k)
  {
    var r := ReverseBitsInAByte(b);
    if k == 0 { assert ((r >> 7) & 1) == ((b >> 0) & 1); }
    else if k == 1 { assert ((r >> 6) & 1) == ((b >> 1) & 1); }
    else if k == 2 { assert ((r >> 5) & 1) == ((b >> 2) & 1); }
    else if k == 3 { assert ((r >> 4) & 1) == ((b >> 3) & 1); }
    else if k == 4 { assert ((r >> 3) & 1) == ((b >> 4) & 1); }
    else if k == 5 { assert ((r >> 2) & 1) == ((b >> 5) & 1); }
    else if k == 6 { assert ((r >> 1) & 1) == ((b >> 6) & 1); }
    else { assert ((r >> 0) & 1) == ((b >> 7) & 1); }
  }

  // --------------------------------------------------------------- bit length

  /** `n` is the index after the last set bit in ASN.1 order, 0 if there is none. */
  ghost predicate IsBitLength(s: seq<bv8>, n: nat) {
    && n <= 8 * |s|
    && (n > 0 ==> AsnBit(s, n - 1))
    && forall k | n <= k < 8 * |s| :: !AsnBit(s, k)
  }

  method Asn1BitLength(bitString: seq<bv8>) returns (n: nat)
    ensures IsBitLength(bitString, n)
  {
    var bitLen := |bitString| * 8;
    for i := 0 to |bitString|
      invariant bitLen == 8 * (|bitString| - i)
      invariant forall k | bitLen <= k < 8 * |bitString| :: !AsnBit(bitString, k)
    {
      var b := bitString[|bitString| - i - 1];
      for bit := 0 to 8
        invariant bitLen == 8 * (|bitString| - i) - bit
        invariant forall k | bitLen <= k < 8 * |bitString| :: !AsnBit(bitString, k)
      {
        assert (bitLen - 1) / 8 == |bitString| - i - 1 && 7 - (bitLen - 1) % 8 == bit;
        assert AsnBit(bitString, bitLen - 1) == Bit(b, bit);
        if (b >> bit) & 1 == 1 {
          return bitLen;
        }
        bitLen := bitLen - 1;
      }
    }
    return 0;
  }

  // --------------------------------------------------------------- key usages

  /** The position of a usage name in NAMES, -1 for any other string. */
  function UsageIndex(name: string): (r: int)
    ensures -1 <= r < 9
    ensures r >= 0 ==> NAMES[r] == name
    ensures r == -1 ==> name !in NAMES
  {
    if name == NAMES[0] then 0 else if name == NAMES[1] then 1 else if name == NAMES[2] then 2
    else if name == NAMES[3] then 3 else if name == NAMES[4] then 4 else if name == NAMES[5] then 5
    else if name == NAMES[6] then 6 else if name == NAMES[7] then 7 else if name == NAMES[8] then 8 else -1
  }

  lemma NamesAreDistinct(i: nat, j: nat)
    requires i < j < 9
    ensures NAMES[i] != NAMES[j]
  {
    assert NAMES[0][1] == 'i' && NAMES[3][1] == 'a';
    assert NAMES[4][0] == 'k' && NAMES[7][0] == 'e' && NAMES[8][0] == 'd';
    assert |NAMES[0]| == 16 && |NAMES[1]| == 17 && |NAMES[2]| == 15 && |NAMES[3]| == 16 && |NAMES[4]| == 12;
    assert |NAMES[5]| == 8 && |NAMES[6]| == 7 && |NAMES[7]| == 12 && |NAMES[8]| == 12;
  }

  ghost predicate Known(name: string) {
    name == "" || name in NAMES
  }

  lemma SetBit(m: bv16, i: nat, k: nat)
    requires i < 9 && k < 9
    ensures MaskBit(m | Single(i), k) == (k == i || MaskBit(m, k))
    ensures m < 0x200 ==> m | Single(i) < 0x200
  {
    match i
    case 0 => case 1 => case 2 => case 3 => case 4 => case 5 => case 6 => case 7 => case _ =>
  }

  method X509KeyUsages(keyUsages: seq<string>) returns (r: Result<bv16>)
    ensures r.Ok? <==> forall name | name in keyUsages :: Known(name)
    ensures r.Ok? ==> r.value < 0x200 && forall i | 0 <= i < 9 :: MaskBit(r.value, i) <==> NAMES[i] in keyUsages
    ensures r.InvalidKeyUsage? ==> r.name in keyUsages && !Known(r.name)
  {
    var ku: bv16 := 0;
    for n := 0 to |keyUsages|
      invariant forall j | 0 <= j < n :: Known(keyUsages[j])
      invariant ku < 0x200 && forall i | 0 <= i < 9 :: MaskBit(ku, i) <==> NAMES[i] in keyUsages[..n]
    {
      var k := keyUsages[n];
      var u := UsageIndex(k);
      assert keyUsages[..n+1] == keyUsages[..n] + [k];
      ghost var before := ku;
      if u >= 0 {
        SetBit(ku, u, u);
        ku := ku | Single(u);
        forall i | 0 <= i < 9 ensures MaskBit(ku, i) <==> NAMES[i] in keyUsages[..n+1] {
          SetBit(before, u, i);
          if i < u { NamesAreDistinct(i, u); } else if u < i { NamesAreDistinct(u, i); }
        }
      } else if k != "" {
        assert k in keyUsages && !Known(k);
        return InvalidKeyUsage(k);
      } else {
        assert forall i | 0 <= i < 9 :: NAMES[i] != "";
      }
    }
    return Ok(ku);
  }

  /** The first byte of the BIT STRING carries the low eight usages in reverse. */
  lemma LowByte(ku: bv16, i: nat)
    requires i < 8
    ensures Bit(ReverseBitsInAByte((ku & 0xff) as bv8), 7 - i) == MaskBit(ku, i)
  {
    ReversedBit((ku & 0xff) as bv8, i);
    LowByteBit(ku, i);
  }

  lemma LowByteBit(ku: bv16, i: nat)
    requires i < 8
    ensures Bit((ku & 0xff) as bv8, i) == MaskBit(ku, i)
  {
  }

  lemma HighByte(ku: bv16)
    requires ku < 0x200
    ensures ReverseBitsInAByte((ku >> 8) as bv8) == if MaskBit(ku, 8) then 0x80 else 0
  {
  }

  lemma HighByteBit(k: nat)
    requires k < 8
    ensures Bit(0x80, k) == (k == 7) && !Bit(0, k)
  {
  }

  /** The one or two bytes that carry a mask. */
  function MaskBytes(ku: bv16): (r: seq<bv8>)
    ensures 1 <= |r| <= 2
  {
    var a := [ReverseBitsInAByte((ku & 0xff) as bv8), ReverseBitsInAByte((ku >> 8) as bv8)];
    if a[1] != 0 then a else a[..1]
  }

  lemma MaskBytesLength(ku: bv16)
    requires ku < 0x200
    ensures |MaskBytes(ku)| == if MaskBit(ku, 8) then 2 else 1
  {
    HighByte(ku);
  }

  lemma MaskBytesLow(ku: bv16, k: nat)
    requires k < 8
    ensures AsnBit(MaskBytes(ku), k) == MaskBit(ku, k)
  {
    LowByte(ku, k);
    assert k / 8 == 0 && k % 8 == k;
  }

  lemma MaskBytesHigh(ku: bv16, k: nat)
    requires ku < 0x200 && 8 <= k < 8 * |MaskBytes(ku)|
    ensures AsnBit(MaskBytes(ku), k) == (k == 8)
  {
    HighByte(ku);
    HighByteBit(15 - k);
    assert k / 8 == 1 && k % 8 == k - 8;
  }

  /** Usage i of the mask is at ASN.1 position i, and nothing else is set. */
  lemma MaskBytesCarry(ku: bv16, n: nat)
    requires ku < 0x200 && IsBitLength(MaskBytes(ku), n)
    ensures n <= 9
    ensures forall i | 0 <= i < 9 :: MaskBit(ku, i) <==> i < n && AsnBit(MaskBytes(ku), i)
  {
    MaskBytesLength(ku);
    if n > 9 { MaskBytesHigh(ku, n - 1); }
    forall i | 0 <= i < 9 ensures MaskBit(ku, i) <==> i < n && AsnBit(MaskBytes(ku), i) {
      if i < 8 { MaskBytesLow(ku, i); } else if |MaskBytes(ku)| == 2 { MaskBytesHigh(ku, 8); }
    }
  }

  method AsnKeyUsages(keyUsages: seq<string>) returns (r: Result<BitString>)
    ensures r.Ok? <==> forall name | name in keyUsages :: Known(name)
    ensures r.Ok? ==> IsBitLength(r.value.bytes, r.value.bitLength)
    ensures r.Ok? ==> forall i | 0 <= i < 9 ::
                        NAMES[i] in keyUsages <==> i < r.value.bitLength && AsnBit(r.value.bytes, i)
    ensures r.Ok? ==> r.value.bitLength <= 9 && |r.value.bytes| == if NAMES[8] in keyUsages then 2 else 1
  {
    var x := X509KeyUsages(keyUsages);
    if x.InvalidKeyUsage? {
      return InvalidKeyUsage(x.name);
    }
    var ku := x.value;
    var a := [ReverseBitsInAByte((ku & 0xff) as bv8), ReverseBitsInAByte((ku >> 8) as bv8)];
    var l := 1;
    if a[1] != 0 {
      l := 2;
    }
    var bitString := a[..l];
    assert bitString == MaskBytes(ku);
    var n := Asn1BitLength(bitString);
    MaskBytesCarry(ku, n);
    MaskBytesLength(ku);
    return Ok(BitString(bitString, n));
  }
}

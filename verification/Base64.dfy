// Unpadded base64 with the URL-safe alphabet, section 5 of RFC 4648, over byte
// strings of any length.
module Base64 {
  import opened Net

  type Sextet = x: int | 0 <= x < 64

  function CharOf(x: Sextet): char {
    if x < 26 then ('A' as int + x) as char
    else if x < 52 then ('a' as int + x - 26) as char
    else if x < 62 then ('0' as int + x - 52) as char
    else if x == 62 then '-'
    else '_'
  }

  function SextetOf(c: char): Option<Sextet> {
    if 'A' <= c <= 'Z' then Some(c as int - 'A' as int)
    else if 'a' <= c <= 'z' then Some(c as int - 'a' as int + 26)
    else if '0' <= c <= '9' then Some(c as int - '0' as int + 52)
    else if c == '-' then Some(62)
    else if c == '_' then Some(63)
    else None
  }

  lemma SextetRoundTrip(x: Sextet, c: char)
    ensures SextetOf(CharOf(x)) == Some(x)
    ensures SextetOf(c).Some? ==> CharOf(SextetOf(c).value) == c
    ensures CharOf(x) != '/'
  {
  }

  // The alphabet of the standard: letters, digits, and the two URL-safe signs.
  lemma AlphabetIsUrlSafe(x: Sextet)
    ensures CharOf(0) == 'A' && CharOf(25) == 'Z' && CharOf(26) == 'a' && CharOf(51) == 'z'
    ensures CharOf(52) == '0' && CharOf(61) == '9' && CharOf(62) == '-' && CharOf(63) == '_'
    ensures x < 61 && x != 25 && x != 51 ==> CharOf(x + 1) as int == CharOf(x) as int + 1
  {
  }

  // Three bytes are four sextets; a shorter end keeps the sextets it needs.
  function EncodeGroup(b: seq<Byte>): (r: seq<Sextet>)
    requires 1 <= |b| <= 3
    ensures |r| == |b| + 1
  {
    if |b| == 1 then [b[0] / 4, b[0] % 4 * 16]
    else if |b| == 2 then [b[0] / 4, b[0] % 4 * 16 + b[1] / 16, b[1] % 16 * 4]
    else [b[0] / 4, b[0] % 4 * 16 + b[1] / 16, b[1] % 16 * 4 + b[2] / 64, b[2] % 64]
  }

  function EncodeSextets(b: seq<Byte>): seq<Sextet> {
    if b == [] then []
    else if |b| <= 3 then EncodeGroup(b)
    else EncodeGroup(b[..3]) + EncodeSextets(b[3..])
  }

  function Chars(x: seq<Sextet>): (r: string)
    ensures |r| == |x|
  {
    if x == [] then "" else [CharOf(x[0])] + Chars(x[1..])
  }

  function Encode(b: seq<Byte>): string {
    Chars(EncodeSextets(b))
  }

  function DecodeGroup(x: seq<Sextet>): (r: seq<Byte>)
    requires 2 <= |x| <= 4
    ensures |r| == |x| - 1
  {
    var b0: Byte := x[0] as int * 4 + x[1] / 16;
    if |x| == 2 then [b0]
    else
      var b1: Byte := x[1] as int % 16 * 16 + x[2] / 4;
      if |x| == 3 then [b0, b1]
      else
        var b2: Byte := x[2] as int % 4 * 64 + x[3];
        [b0, b1, b2]
  }

  // Bits of an incomplete last group that belong to no byte.
  predicate TrailingBits(x: seq<Sextet>)
    requires 2 <= |x| <= 4
  {
    (|x| == 2 && x[1] % 16 != 0) || (|x| == 3 && x[2] % 4 != 0)
  }

  // A `strict` decoder refuses trailing bits that are not zero.
  function DecodeSextets(x: seq<Sextet>, strict: bool): Option<seq<Byte>> {
    if x == [] then Some([])
    else if |x| == 1 then None
    else if |x| <= 4 then (if strict && TrailingBits(x) then None else Some(DecodeGroup(x)))
    else match DecodeSextets(x[4..], strict)
      case Some(rest) => Some(DecodeGroup(x[..4]) + rest)
      case None => None
  }

  function SextetsOf(s: string): Option<seq<Sextet>> {
    if s == "" then Some([])
    else if SextetOf(s[0]).Some? && SextetsOf(s[1..]).Some? then
      Some([SextetOf(s[0]).value] + SextetsOf(s[1..]).value)
    else None
  }

  function Decode(s: string, strict: bool): Option<seq<Byte>> {
    match SextetsOf(s)
    case Some(x) => DecodeSextets(x, strict)
    case None => None
  }

  // The sextets are the bits of the bytes in order, filled up with zero bits.
  lemma GroupBits(b: seq<Byte>)
    requires 1 <= |b| <= 3
    ensures var x := EncodeGroup(b);
      if |b| == 1 then x[0] as int * 64 + x[1] == b[0] as int * 16
      else if |b| == 2 then (x[0] as int * 64 + x[1]) * 64 + x[2] == (b[0] as int * 256 + b[1]) * 4
      else ((x[0] as int * 64 + x[1]) * 64 + x[2]) * 64 + x[3]
             == (b[0] as int * 256 + b[1]) * 256 + b[2]
  {
  }

  lemma GroupRoundTrip(b: seq<Byte>)
    requires 1 <= |b| <= 3
    ensures DecodeGroup(EncodeGroup(b)) == b && !TrailingBits(EncodeGroup(b))
  {
    var x := EncodeGroup(b);
    assert x[0] as int * 4 + x[1] / 16 == b[0];
    if |b| > 1 {
      assert x[1] as int % 16 * 16 + x[2] / 4 == b[1];
    }
    if |b| > 2 {
      assert x[2] as int % 4 * 64 + x[3] == b[2];
    }
  }

  lemma GroupExact(x: seq<Sextet>)
    requires 2 <= |x| <= 4 && !TrailingBits(x)
    ensures EncodeGroup(DecodeGroup(x)) == x
  {
    var b := DecodeGroup(x);
    assert b[0] / 4 == x[0] && b[0] % 4 == x[1] / 16;
    if |x| > 2 {
      assert b[1] / 16 == x[1] % 16 && b[1] % 16 == x[2] / 4;
    }
    if |x| > 3 {
      assert b[2] / 64 == x[2] % 4 && b[2] % 64 == x[3];
    }
  }

  lemma {:induction false} SextetsLength(b: seq<Byte>)
    ensures |EncodeSextets(b)| == (4 * |b| + 2) / 3
    ensures b != [] ==> |EncodeSextets(b)| >= 2
  {
    if |b| > 3 {
      SextetsLength(b[3..]);
    }
  }

  lemma {:induction false} SextetsRoundTrip(b: seq<Byte>, strict: bool)
    ensures DecodeSextets(EncodeSextets(b), strict) == Some(b)
  {
    if b == [] {
    } else if |b| <= 3 {
      GroupRoundTrip(b);
    } else {
      GroupRoundTrip(b[..3]);
      SextetsRoundTrip(b[3..], strict);
      SextetsLength(b[3..]);
      var x := EncodeSextets(b);
      assert x[..4] == EncodeGroup(b[..3]) && x[4..] == EncodeSextets(b[3..]);
      assert b == b[..3] + b[3..];
    }
  }

  lemma {:induction false} SextetsExact(x: seq<Sextet>, b: seq<Byte>)
    requires DecodeSextets(x, true) == Some(b)
    ensures EncodeSextets(b) == x
  {
    if x == [] {
    } else if |x| <= 4 {
      GroupExact(x);
    } else {
      GroupExact(x[..4]);
      var rest := DecodeSextets(x[4..], true).value;
      SextetsExact(x[4..], rest);
      assert b[..3] == DecodeGroup(x[..4]) && b[3..] == rest;
      assert x == x[..4] + x[4..];
    }
  }

  lemma {:induction false} CharsRoundTrip(x: seq<Sextet>)
    ensures SextetsOf(Chars(x)) == Some(x)
    ensures forall k :: 0 <= k < |x| ==> Chars(x)[k] != '/'
  {
    if x != [] {
      SextetRoundTrip(x[0], 'A');
      CharsRoundTrip(x[1..]);
      assert Chars(x)[1..] == Chars(x[1..]);
      assert x == [x[0]] + x[1..];
    }
  }

  lemma {:induction false} CharsExact(s: string, x: seq<Sextet>)
    requires SextetsOf(s) == Some(x)
    ensures Chars(x) == s
  {
    if s != "" {
      SextetRoundTrip(0, s[0]);
      CharsExact(s[1..], x[1..]);
      assert s == [s[0]] + s[1..];
    }
  }

  // Decoding what was encoded gives the bytes back, whatever their number, with
  // either kind of decoder; the strict decoder accepts nothing else.
  lemma DecodeEncode(b: seq<Byte>, s: string, strict: bool)
    ensures Decode(Encode(b), strict) == Some(b)
    ensures Decode(s, true) == Some(b) <==> s == Encode(b)
  {
    SextetsRoundTrip(b, strict);
    SextetsRoundTrip(b, true);
    CharsRoundTrip(EncodeSextets(b));
    if Decode(s, true) == Some(b) {
      SextetsExact(SextetsOf(s).value, b);
      CharsExact(s, SextetsOf(s).value);
    }
  }

  // The text of an id is 43 characters of the alphabet, none of them a slash.
  lemma IdText(b: Bytes32)
    ensures |Encode(b)| == 43 && forall k :: 0 <= k < 43 ==> Encode(b)[k] != '/'
  {
    SextetsLength(b);
    CharsRoundTrip(EncodeSextets(b));
  }

  // The text of a byte string is that of its groups of three, in order, with one
  // character for each sextet.
  lemma {:induction false} EncodeAppend(a: seq<Byte>, b: seq<Byte>)
    requires |a| % 3 == 0
    ensures EncodeSextets(a + b) == EncodeSextets(a) + EncodeSextets(b)
    decreases |a|
  {
    if |a| < 3 {
      assert a + b == b;
    } else {
      EncodeAppend(a[3..], b);
      EncodeNext(a, b);
    }
  }

  lemma EncodeNext(a: seq<Byte>, b: seq<Byte>)
    requires |a| >= 3 && EncodeSextets(a[3..] + b) == EncodeSextets(a[3..]) + EncodeSextets(b)
    ensures EncodeSextets(a + b) == EncodeSextets(a) + EncodeSextets(b)
  {
    EncodeFirst(a);
    EncodeFirst(a + b);
    assert (a + b)[..3] == a[..3] && (a + b)[3..] == a[3..] + b;
    Regroup(EncodeGroup(a[..3]), EncodeSextets(a[3..]), EncodeSextets(b));
  }

  lemma Regroup(x: seq<Sextet>, y: seq<Sextet>, z: seq<Sextet>)
    ensures x + (y + z) == x + y + z
  {
  }

  lemma EncodeFirst(b: seq<Byte>)
    requires |b| >= 3
    ensures EncodeSextets(b) == EncodeGroup(b[..3]) + EncodeSextets(b[3..])
  {
    if |b| == 3 {
      assert b[..3] == b && EncodeGroup(b) + EncodeSextets(b[3..]) == EncodeGroup(b);
    }
  }

  lemma {:induction false} CharAt(x: seq<Sextet>, k: nat)
    requires k < |x|
    ensures Chars(x)[k] == CharOf(x[k])
  {
    if k > 0 {
      CharAt(x[1..], k - 1);
    }
  }
}

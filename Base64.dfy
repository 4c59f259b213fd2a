/** Base64 as defined in section 4 of RFC 4648, and the browser's `btoa`/`atob`
  * built on it (a string is taken as Latin-1 bytes, one byte per character). */
module Base64 {
  import opened Wrappers

  newtype byte = x: int | 0 <= x < 256

  /** The character for a 6-bit value, from the alphabet of RFC 4648, table 1. */
  function EncodeSextet(v: int): (c: char)
    requires 0 <= v < 64
  {
    if v < 26 then ('A' as int + v) as char
    else if v < 52 then ('a' as int + (v - 26)) as char
    else if v < 62 then ('0' as int + (v - 52)) as char
    else if v == 62 then '+'
    else '/'
  }

  /** The 6-bit value of an alphabet character; `None` for anything else (`=` included). */
  function DecodeSextet(c: char): (r: Option<int>)
    ensures r.Some? ==> 0 <= r.value < 64 && EncodeSextet(r.value) == c
  {
    if 'A' <= c <= 'Z' then Some(c as int - 'A' as int)
    else if 'a' <= c <= 'z' then Some(c as int - 'a' as int + 26)
    else if '0' <= c <= '9' then Some(c as int - '0' as int + 52)
    else if c == '+' then Some(62)
    else if c == '/' then Some(63)
    else None
  }

  lemma SextetRoundTrip(v: int)
    requires 0 <= v < 64
    ensures DecodeSextet(EncodeSextet(v)) == Some(v)
  {
  }

  /** Three octets as four characters. */
  function EncodeTriple(b0: byte, b1: byte, b2: byte): (s: string)
    ensures |s| == 4
  {
    var x0, x1, x2 := b0 as int, b1 as int, b2 as int;
    [EncodeSextet(x0 / 4), EncodeSextet(x0 % 4 * 16 + x1 / 16),
     EncodeSextet(x1 % 16 * 4 + x2 / 64), EncodeSextet(x2 % 64)]
  }

  /** The encoding of `bs`, padded with `=` to a multiple of four characters. */
  function Encode(bs: seq<byte>): (s: string)
    ensures |s| == (|bs| + 2) / 3 * 4
    decreases |bs|
  {
    if |bs| == 0 then ""
    else if |bs| == 1 then
      var x0 := bs[0] as int;
      [EncodeSextet(x0 / 4), EncodeSextet(x0 % 4 * 16), '=', '=']
    else if |bs| == 2 then
      var x0, x1 := bs[0] as int, bs[1] as int;
      [EncodeSextet(x0 / 4), EncodeSextet(x0 % 4 * 16 + x1 / 16), EncodeSextet(x1 % 16 * 4), '=']
    else EncodeTriple(bs[0], bs[1], bs[2]) + Encode(bs[3..])
  }

  /** Four alphabet characters back to three octets. */
  function DecodeQuad(q: string): Option<seq<byte>>
    requires |q| == 4
  {
    match (DecodeSextet(q[0]), DecodeSextet(q[1]), DecodeSextet(q[2]), DecodeSextet(q[3]))
    case (Some(c0), Some(c1), Some(c2), Some(c3)) =>
      Some([(c0 * 4 + c1 / 16) as byte, (c1 % 16 * 16 + c2 / 4) as byte, (c2 % 4 * 64 + c3) as byte])
    case _ => None
  }

  /** The last quantum, which may end in one or two `=`. */
  function DecodeLast(q: string): Option<seq<byte>>
    requires |q| == 4
  {
    if q[2] == '=' && q[3] == '=' then
      match (DecodeSextet(q[0]), DecodeSextet(q[1]))
      case (Some(c0), Some(c1)) => Some([(c0 * 4 + c1 / 16) as byte])
      case _ => None
    else if q[3] == '=' then
      match (DecodeSextet(q[0]), DecodeSextet(q[1]), DecodeSextet(q[2]))
      case (Some(c0), Some(c1), Some(c2)) =>
        Some([(c0 * 4 + c1 / 16) as byte, (c1 % 16 * 16 + c2 / 4) as byte])
      case _ => None
    else DecodeQuad(q)
  }

  /** The octets a padded encoding stands for; `None` when `s` is not one. */
  function Decode(s: string): Option<seq<byte>>
    decreases |s|
  {
    if |s| == 0 then Some([])
    else if |s| < 4 then None
    else if |s| == 4 then DecodeLast(s)
    else match (DecodeQuad(s[..4]), Decode(s[4..]))
      case (Some(head), Some(tail)) => Some(head + tail)
      case _ => None
  }

  lemma TripleRoundTrip(b0: byte, b1: byte, b2: byte)
    ensures DecodeQuad(EncodeTriple(b0, b1, b2)) == Some([b0, b1, b2])
    ensures DecodeLast(EncodeTriple(b0, b1, b2)) == Some([b0, b1, b2])
  {
    var x0, x1, x2 := b0 as int, b1 as int, b2 as int;
    var c1, c2 := x0 % 4 * 16 + x1 / 16, x1 % 16 * 4 + x2 / 64;
    SextetRoundTrip(x0 / 4);
    SextetRoundTrip(c1);
    SextetRoundTrip(c2);
    SextetRoundTrip(x2 % 64);
    assert c1 / 16 == x0 % 4 && c1 % 16 == x1 / 16;
    assert c2 / 4 == x1 % 16 && c2 % 4 == x2 / 64;
  }

  lemma SingleRoundTrip(b0: byte)
    ensures Decode(Encode([b0])) == Some([b0])
  {
    var x0 := b0 as int;
    SextetRoundTrip(x0 / 4);
    SextetRoundTrip(x0 % 4 * 16);
  }

  lemma PairRoundTrip(b0: byte, b1: byte)
    ensures Decode(Encode([b0, b1])) == Some([b0, b1])
  {
    var x0, x1 := b0 as int, b1 as int;
    var c1, c2 := x0 % 4 * 16 + x1 / 16, x1 % 16 * 4;
    SextetRoundTrip(x0 / 4);
    SextetRoundTrip(c1);
    SextetRoundTrip(c2);
    assert c1 / 16 == x0 % 4 && c1 % 16 == x1 / 16 && c2 / 4 == x1 % 16;
    var q := Encode([b0, b1]);
    assert q == [EncodeSextet(x0 / 4), EncodeSextet(c1), EncodeSextet(c2), '='];
    assert q[2] != '=';
  }

  /** Decoding an encoding gives back the octets (section 4 of RFC 4648 is lossless). */
  lemma {:induction false} DecodeEncode(bs: seq<byte>)
    ensures Decode(Encode(bs)) == Some(bs)
    decreases |bs|
  {
    if |bs| == 1 {
      SingleRoundTrip(bs[0]);
      assert bs == [bs[0]];
    } else if |bs| == 2 {
      PairRoundTrip(bs[0], bs[1]);
      assert bs == [bs[0], bs[1]];
    } else if |bs| == 3 {
      TripleRoundTrip(bs[0], bs[1], bs[2]);
      assert Encode(bs) == EncodeTriple(bs[0], bs[1], bs[2]);
      assert bs == [bs[0], bs[1], bs[2]];
    } else if |bs| > 3 {
      DecodeEncode(bs[3..]);
      MoreRoundTrip(bs);
    }
  }

  lemma DecodeFront(q: string, rest: string, head: seq<byte>, tail: seq<byte>)
    requires |q| == 4 && |rest| >= 4
    requires DecodeQuad(q) == Some(head) && Decode(rest) == Some(tail)
    ensures Decode(q + rest) == Some(head + tail)
  {
    var s := q + rest;
    assert s[..4] == q && s[4..] == rest;
  }

  lemma EncodeFront(bs: seq<byte>)
    requires |bs| > 3
    ensures Encode(bs) == EncodeTriple(bs[0], bs[1], bs[2]) + Encode(bs[3..])
  {
  }

  /** A sequence of at least three octets is its first three in front of the rest. */
  lemma SplitThree(bs: seq<byte>)
    requires |bs| >= 3
    ensures bs == [bs[0], bs[1], bs[2]] + bs[3..]
  {
  }

  /** One full quantum in front of a non-empty tail decodes to its three octets in front of the tail's. */
  lemma MoreRoundTrip(bs: seq<byte>)
    requires |bs| > 3
    requires Decode(Encode(bs[3..])) == Some(bs[3..])
    ensures Decode(Encode(bs)) == Some(bs)
  {
    var head, tail := [bs[0], bs[1], bs[2]], bs[3..];
    SplitThree(bs);
    var q, rest := EncodeTriple(bs[0], bs[1], bs[2]), Encode(tail);
    EncodeFront(bs);
    TripleRoundTrip(bs[0], bs[1], bs[2]);
    DecodeFront(q, rest, head, tail);
  }

  /** The Latin-1 octets of `s`; `None` when a character is above U+00FF. */
  function Latin1(s: string): (r: Option<seq<byte>>)
    ensures r.Some? ==> |r.value| == |s| && forall i :: 0 <= i < |s| ==> r.value[i] as int == s[i] as int
    ensures r.None? <==> exists i :: 0 <= i < |s| && s[i] as int > 0xFF
  {
    if |s| == 0 then Some([])
    else if s[0] as int > 0xFF then None
    else match Latin1(s[1..])
      case None => None
      case Some(rest) => Some([s[0] as int as byte] + rest)
  }

  /** The characters of Latin-1 octets. */
  function FromLatin1(bs: seq<byte>): (s: string)
    ensures |s| == |bs| && forall i :: 0 <= i < |bs| ==> s[i] as int == bs[i] as int
  {
    seq(|bs|, i requires 0 <= i < |bs| => bs[i] as int as char)
  }

  /** `btoa(s)`: `None` stands for the exception thrown on a character above U+00FF. */
  function Btoa(s: string): Option<string> {
    match Latin1(s)
    case None => None
    case Some(bs) => Some(Encode(bs))
  }

  /** `atob(s)`, for padded input. */
  function Atob(s: string): Option<string> {
    match Decode(s)
    case None => None
    case Some(bs) => Some(FromLatin1(bs))
  }

  /** Whatever `btoa` accepts, `atob` turns back into the same string. */
  lemma AtobBtoa(s: string)
    requires Btoa(s).Some?
    ensures Atob(Btoa(s).value) == Some(s)
  {
    var bs := Latin1(s).value;
    DecodeEncode(bs);
    assert FromLatin1(bs) == s;
  }

  /** `btoa("a:b")` is `YTpi`. */
  lemma BtoaExample()
    ensures Btoa("a:b") == Some("YTpi")
  {
    var bytes: seq<byte> := [97, 58, 98];
    var latin := Latin1("a:b");
    assert latin.Some? by {
      forall i | 0 <= i < 3 ensures "a:b"[i] as int <= 0xFF { }
    }
    assert latin.value == bytes by {
      assert forall i :: 0 <= i < 3 ==> latin.value[i] as int == "a:b"[i] as int;
    }
    assert bytes[3..] == [];
    assert Encode(bytes) == EncodeTriple(97, 58, 98) + Encode([]);
    assert EncodeSextet(24) == 'Y' && EncodeSextet(19) == 'T';
    assert EncodeSextet(41) == 'p' && EncodeSextet(34) == 'i';
    assert EncodeTriple(97, 58, 98) == "YTpi";
    assert Encode(bytes) == "YTpi";
  }
}

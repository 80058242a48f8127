/** Certificate fingerprints: 32 bytes, their colon-separated printed form, and their hex form. */
module Fingerprint {
  import opened Wrappers
  import opened Text

  type Byte = n: nat | n < 256
  const HASH_LEN := 32
  type Hash = h: seq<Byte> | |h| == HASH_LEN witness seq(HASH_LEN, _ => 0)

  const COLON := ':'
  const DIGITS := "0123456789abcdef"

  /** `format!("{:02x}", b)` */
  function HexByte(b: Byte): string {
    [DIGITS[b / 16], DIGITS[b % 16]]
  }

  function HexEncode(h: seq<Byte>): string {
    if h == [] then [] else HexByte(h[0]) + HexEncode(h[1..])
  }

  /** The value of one hex digit; the `hex` crate accepts both cases. */
  function DigitValue(c: char): Option<nat> {
    if '0' <= c <= '9' then Some(c as nat - '0' as nat)
    else if 'a' <= c <= 'f' then Some(c as nat - 'a' as nat + 10)
    else if 'A' <= c <= 'F' then Some(c as nat - 'A' as nat + 10)
    else None
  }

  predicate IsHex(c: char) {
    '0' <= c <= '9' || 'a' <= c <= 'f' || 'A' <= c <= 'F'
  }

  function Lower(c: char): char {
    if 'A' <= c <= 'F' then (c as nat - 'A' as nat + 'a' as nat) as char else c
  }

  function HexDecode(s: string): Option<seq<Byte>> {
    if s == [] then Some([])
    else if |s| == 1 then None
    else match (DigitValue(s[0]), DigitValue(s[1]), HexDecode(s[2..]))
      case (Some(hi), Some(lo), Some(rest)) =>
        assert hi < 16 && lo < 16;
        Some([16 * hi + lo] + rest)
      case _ => None
  }

  /** `hex_to_cow`: decodes into a 32-byte buffer; None stands for the panic of its `unwrap`. */
  function HexToHash(s: string): Option<Hash> {
    if |s| != 2 * HASH_LEN then None
    else match HexDecode(s)
      case Some(h) => if |h| == HASH_LEN then Some(h) else None
      case None => None
  }

  function HexBytes(h: seq<Byte>): seq<string> {
    seq(|h|, i requires 0 <= i < |h| => HexByte(h[i]))
  }

  /** `fingerprint_to_string` */
  function ToString(h: Hash): string {
    Join(HexBytes(h), [COLON])
  }

  /** The ICE user fragment and password derived from a printed fingerprint. */
  function ToUfrag(fingerprint: string): string {
    Strip(fingerprint, COLON)
  }

  // ---- the printed form -------------------------------------------------

  lemma {:induction false} JoinedLength(h: seq<Byte>)
    requires |h| >= 1
    ensures |Join(HexBytes(h), [COLON])| == 3 * |h| - 1
  {
    if |h| > 1 {
      assert HexBytes(h)[1..] == HexBytes(h[1..]);
      JoinedLength(h[1..]);
    }
  }

  /** Every printed fingerprint has the same length, whatever the bytes. */
  lemma PrintedLength(h: Hash)
    ensures |ToString(h)| == 95
  {
    JoinedLength(h);
  }

  /** The lower-case hexadecimal digit of a value. */
  function LowerDigit(d: nat): char
    requires d < 16
  {
    if d < 10 then ('0' as nat + d) as char else ('a' as nat + d - 10) as char
  }

  /** Two lower-case digits for each byte, high half first, at the given position. */
  ghost predicate DigitsAt(s: string, position: nat, b: Byte) {
    && position + 1 < |s|
    && s[position] == LowerDigit(b / 16) && s[position + 1] == LowerDigit(b % 16)
  }

  lemma HexByteDigits(b: Byte)
    ensures DigitsAt(HexByte(b), 0, b)
  {
    assert forall d :: 0 <= d < 16 ==> DIGITS[d] == LowerDigit(d);
  }

  lemma {:induction false} JoinedDigits(h: seq<Byte>, i: nat)
    requires i < |h|
    ensures DigitsAt(Join(HexBytes(h), [COLON]), 3 * i, h[i])
    ensures i + 1 < |h| ==>
      3 * i + 2 < |Join(HexBytes(h), [COLON])| && Join(HexBytes(h), [COLON])[3 * i + 2] == ':'
  {
    assert HexBytes(h)[1..] == HexBytes(h[1..]);
    HexByteDigits(h[0]);
    hide HexByte, LowerDigit;
    JoinedLength(h);
    if i > 0 {
      JoinedDigits(h[1..], i - 1);
    }
  }

  /** The printed form, character by character: two lower-case digits for each byte, high half first, and a colon
      between each two bytes. */
  lemma PrintedForm(h: Hash, i: nat)
    requires i < 32
    ensures DigitsAt(ToString(h), 3 * i, h[i])
    ensures i < 31 ==> 3 * i + 2 < |ToString(h)| && ToString(h)[3 * i + 2] == ':'
  {
    JoinedDigits(h, i);
  }

  lemma {:induction false} EncodedDigits(h: seq<Byte>, i: nat)
    requires i < |h|
    ensures DigitsAt(HexEncode(h), 2 * i, h[i])
  {
    HexByteDigits(h[0]);
    HexEncodeShape(h);
    hide HexByte, LowerDigit;
    if i > 0 {
      EncodedDigits(h[1..], i - 1);
    }
  }

  /** The ufrag is the same digits with nothing between them. */
  lemma UfragForm(h: Hash, i: nat)
    requires i < 32
    ensures DigitsAt(ToUfrag(ToString(h)), 2 * i, h[i])
  {
    StripJoinedHex(h);
    EncodedDigits(h, i);
  }

  lemma HexByteIsHex(b: Byte)
    ensures |HexByte(b)| == 2 && Free(HexByte(b), COLON)
    ensures DigitValue(HexByte(b)[0]) == Some(b / 16)
    ensures DigitValue(HexByte(b)[1]) == Some(b % 16)
  {
    DigitRoundTrip(b / 16);
    DigitRoundTrip(b % 16);
  }

  lemma DigitRoundTrip(d: nat)
    requires d < 16
    ensures DigitValue(DIGITS[d]) == Some(d) && DIGITS[d] != COLON
  {
    assert DIGITS[d] == if d < 10 then ('0' as nat + d) as char else ('a' as nat + d - 10) as char;
  }

  lemma {:induction false} StripJoinedHex(h: seq<Byte>)
    ensures Strip(Join(HexBytes(h), [COLON]), COLON) == HexEncode(h)
  {
    if h == [] {
    } else {
      HexByteIsHex(h[0]);
      StripIsIdentityOnFree(HexByte(h[0]), COLON);
      StripJoinedHex(h[1..]);
      assert HexBytes(h)[1..] == HexBytes(h[1..]);
      if |h| == 1 {
        assert HexEncode(h[1..]) == [];
      } else {
        var rest := Join(HexBytes(h[1..]), [COLON]);
        StripOfConcat(HexByte(h[0]) + [COLON], rest, COLON);
        StripOfConcat(HexByte(h[0]), [COLON], COLON);
        assert Strip([COLON], COLON) == [];
      }
    }
  }

  lemma {:induction false} HexEncodeShape(h: seq<Byte>)
    ensures |HexEncode(h)| == 2 * |h|
    ensures Free(HexEncode(h), COLON)
    ensures HexDecode(HexEncode(h)) == Some(h)
  {
    if h != [] {
      HexEncodeShape(h[1..]);
      HexByteIsHex(h[0]);
      hide HexByte;
      DecodeStep(HexByte(h[0]), HexEncode(h[1..]), h[0], h[1..]);
      assert [h[0]] + h[1..] == h;
    }
  }

  /** Two digits decode to their byte, whatever follows. */
  lemma DecodeStep(two: string, rest: string, b: Byte, tail: seq<Byte>)
    requires |two| == 2 && DigitValue(two[0]) == Some(b / 16) && DigitValue(two[1]) == Some(b % 16)
    requires HexDecode(rest) == Some(tail)
    ensures HexDecode(two + rest) == Some([b] + tail)
  {
    var s := two + rest;
    assert s[2..] == rest && s[0] == two[0] && s[1] == two[1];
    hide DigitValue;
  }

  /** The ufrag of a fingerprint is colon-free, 64 digits long, and decodes to the same bytes. */
  lemma UfragDecodes(h: Hash)
    ensures |ToUfrag(ToString(h))| == 64
    ensures Free(ToUfrag(ToString(h)), COLON)
    ensures HexToHash(ToUfrag(ToString(h))) == Some(h)
  {
    StripJoinedHex(h);
    HexEncodeShape(h);
  }

  /** Neither printing nor stripping the colons ever identifies two fingerprints. */
  lemma UfragIsInjective(g: Hash, h: Hash)
    ensures ToUfrag(ToString(g)) == ToUfrag(ToString(h)) <==> g == h
    ensures ToString(g) == ToString(h) <==> g == h
  {
    UfragDecodes(g);
    UfragDecodes(h);
  }

  // ---- the decoder's domain ---------------------------------------------

  lemma {:induction false} HexDecodeDomain(s: string)
    ensures HexDecode(s).Some? <==> |s| % 2 == 0 && forall i :: 0 <= i < |s| ==> IsHex(s[i])
    ensures HexDecode(s).Some? ==> 2 * |HexDecode(s).value| == |s|
  {
    if |s| >= 2 {
      HexDecodeDomain(s[2..]);
      assert forall i :: 2 <= i < |s| ==> s[i] == s[2..][i - 2];
      assert forall i :: 0 <= i < |s| - 2 ==> s[2..][i] == s[i + 2];
    }
  }

  /** `hex_to_cow` returns exactly on strings of 64 hex digits, and panics on every other one. */
  lemma HexToHashDomain(s: string)
    ensures HexToHash(s).Some? <==> |s| == 64 && forall i :: 0 <= i < |s| ==> IsHex(s[i])
  {
    HexDecodeDomain(s);
  }

  /** And what it returns has the string's own digits, in lower case. */
  lemma HexToHashValue(s: string, i: nat)
    requires HexToHash(s).Some? && i < 32
    ensures |s| == 64 && DigitsAt(seq(|s|, k requires 0 <= k < |s| => Lower(s[k])), 2 * i, HexToHash(s).value[i])
  {
    HexToHashDomain(s);
    EncodeUndoesDecode(s);
    EncodedDigits(HexToHash(s).value, i);
  }

  lemma {:induction false} EncodeUndoesDecode(s: string)
    requires HexDecode(s).Some?
    ensures HexEncode(HexDecode(s).value) == seq(|s|, i requires 0 <= i < |s| => Lower(s[i]))
  {
    if s != [] {
      EncodeUndoesDecode(s[2..]);
      var h := HexDecode(s).value;
      assert h[1..] == HexDecode(s[2..]).value;
      DigitCase(s[0]);
      DigitCase(s[1]);
      assert h[0] / 16 == DigitValue(s[0]).value && h[0] % 16 == DigitValue(s[1]).value;
      var low := seq(|s|, i requires 0 <= i < |s| => Lower(s[i]));
      assert low == [low[0], low[1]] + low[2..];
      assert low[2..] == seq(|s[2..]|, i requires 0 <= i < |s[2..]| => Lower(s[2..][i]));
    }
  }

  lemma DigitCase(c: char)
    requires DigitValue(c).Some?
    ensures DigitValue(c).value < 16 && DIGITS[DigitValue(c).value] == Lower(c)
  {
    var d := DigitValue(c).value;
    assert DIGITS[d] == if d < 10 then ('0' as nat + d) as char else ('a' as nat + d - 10) as char;
  }
}

// decode_utf8 (uinput-text-input.cpp): one UTF-8 sequence at a time, using
// the lead-byte layout of section 3 of RFC 3629, without validating the
// continuation bytes, overlong forms or surrogates.

module Utf8 {

  /** The outcome of one decoding step: the codepoint and the bytes consumed. */
  datatype Decoded = Decoded(codepoint: bv32, length: nat)

  /** The sequence length that section 3 of RFC 3629 assigns to a lead byte by
      its high-order bits; 0 for a continuation byte (10xxxxxx) or for a byte
      of the form 11111xxx, which starts no sequence. */
  function LeadLength(lead: bv8): nat
  {
    if lead <= 0x7F then 1
    else if lead <= 0xBF then 0
    else if lead <= 0xDF then 2
    else if lead <= 0xEF then 3
    else if lead <= 0xF7 then 4
    else 0
  }

  /** Decodes the sequence that starts at `pos`. A byte that starts no
      sequence, or a lead byte whose sequence would run past the end of the
      text, yields codepoint 0 and consumes one byte. */
  function DecodeUtf8(text: seq<bv8>, pos: nat): (r: Decoded)
    requires pos < |text|
    ensures 1 <= r.length <= 4 && pos + r.length <= |text|
    ensures text[pos] <= 0x7F ==> r == Decoded(text[pos] as bv32, 1)
    ensures LeadLength(text[pos]) == 0 || pos + LeadLength(text[pos]) > |text| ==> r == Decoded(0, 1)
    ensures LeadLength(text[pos]) != 0 && pos + LeadLength(text[pos]) <= |text| ==> r.length == LeadLength(text[pos])
    ensures r.length == 1 ==> r.codepoint <= 0x7F
    ensures r.length == 2 ==> r.codepoint <= 0x7FF
    ensures r.length == 3 ==> r.codepoint <= 0xFFFF
    ensures r.codepoint <= 0x1F_FFFF
  {
    var c := text[pos];
    if c & 0x80 == 0 then
      Decoded(c as bv32, 1)
    else if c & 0xE0 == 0xC0 && pos + 1 < |text| then
      Decoded(((c & 0x1F) as bv32 << 6) | (text[pos + 1] & 0x3F) as bv32, 2)
    else if c & 0xF0 == 0xE0 && pos + 2 < |text| then
      Decoded(((c & 0x0F) as bv32 << 12) | ((text[pos + 1] & 0x3F) as bv32 << 6)
              | (text[pos + 2] & 0x3F) as bv32, 3)
    else if c & 0xF8 == 0xF0 && pos + 3 < |text| then
      Decoded(((c & 0x07) as bv32 << 18) | ((text[pos + 1] & 0x3F) as bv32 << 12)
              | ((text[pos + 2] & 0x3F) as bv32 << 6) | (text[pos + 3] & 0x3F) as bv32, 4)
    else
      Decoded(0, 1)
  }

  /** The codepoints the decoding loop of uinput_type_text visits, starting at
      byte `pos`: decode one sequence, then continue after the bytes it used. */
  function Codepoints(text: seq<bv8>, pos: nat): (cps: seq<bv32>)
    decreases |text| - pos
  {
    if pos >= |text| then []
    else
      var d := DecodeUtf8(text, pos);
      [d.codepoint] + Codepoints(text, pos + d.length)
  }

  /** The largest Unicode codepoint. */
  const MaxCodepoint: bv32 := 0x10_FFFF

  /** The RFC 3629 encoding of one codepoint (the reference the decoder is
      checked against). */
  function Encode(cp: bv32): (s: seq<bv8>)
    requires cp <= MaxCodepoint
  {
    if cp <= 0x7F then
      [cp as bv8]
    else if cp <= 0x7FF then
      [(0xC0 | (cp >> 6)) as bv8, (0x80 | (cp & 0x3F)) as bv8]
    else if cp <= 0xFFFF then
      [(0xE0 | (cp >> 12)) as bv8, (0x80 | ((cp >> 6) & 0x3F)) as bv8, (0x80 | (cp & 0x3F)) as bv8]
    else
      [(0xF0 | (cp >> 18)) as bv8, (0x80 | ((cp >> 12) & 0x3F)) as bv8,
       (0x80 | ((cp >> 6) & 0x3F)) as bv8, (0x80 | (cp & 0x3F)) as bv8]
  }

  /** The encodings of a sequence of codepoints, one after the other. */
  function EncodeAll(cps: seq<bv32>): seq<bv8>
    requires forall j :: 0 <= j < |cps| ==> cps[j] <= MaxCodepoint
  {
    if cps == [] then [] else Encode(cps[0]) + EncodeAll(cps[1..])
  }

  // The bit-level facts behind DecodeEncode, one per sequence length. They
  // are stated over separate bytes and kept apart from the reasoning about
  // sequences, which would otherwise drown the solver in bit-blasting.

  lemma TwoByteBits(cp: bv32)
    requires 0x80 <= cp <= 0x7FF
    ensures var b0, b1 := (0xC0 | (cp >> 6)) as bv8, (0x80 | (cp & 0x3F)) as bv8;
      b0 & 0x80 != 0 && b0 & 0xE0 == 0xC0 && ((b0 & 0x1F) as bv32 << 6) | (b1 & 0x3F) as bv32 == cp
  {
  }

  lemma ThreeByteBits(cp: bv32)
    requires 0x800 <= cp <= 0xFFFF
    ensures var b0, b1, b2 := (0xE0 | (cp >> 12)) as bv8, (0x80 | ((cp >> 6) & 0x3F)) as bv8, (0x80 | (cp & 0x3F)) as bv8;
      b0 & 0x80 != 0 && b0 & 0xE0 != 0xC0 && b0 & 0xF0 == 0xE0 &&
      ((b0 & 0x0F) as bv32 << 12) | ((b1 & 0x3F) as bv32 << 6) | (b2 & 0x3F) as bv32 == cp
  {
  }

  lemma FourByteBits(cp: bv32)
    requires 0x1_0000 <= cp <= MaxCodepoint
    ensures var b0, b1 := (0xF0 | (cp >> 18)) as bv8, (0x80 | ((cp >> 12) & 0x3F)) as bv8;
      var b2, b3 := (0x80 | ((cp >> 6) & 0x3F)) as bv8, (0x80 | (cp & 0x3F)) as bv8;
      b0 & 0x80 != 0 && b0 & 0xE0 != 0xC0 && b0 & 0xF0 != 0xE0 && b0 & 0xF8 == 0xF0 &&
      ((b0 & 0x07) as bv32 << 18) | ((b1 & 0x3F) as bv32 << 12) | ((b2 & 0x3F) as bv32 << 6) | (b3 & 0x3F) as bv32 == cp
  {
  }

  lemma DecodeTwoBytes(b0: bv8, b1: bv8, rest: seq<bv8>, cp: bv32)
    requires b0 & 0x80 != 0 && b0 & 0xE0 == 0xC0
    requires ((b0 & 0x1F) as bv32 << 6) | (b1 & 0x3F) as bv32 == cp
    ensures DecodeUtf8([b0, b1] + rest, 0) == Decoded(cp, 2)
  {
    var s := [b0, b1] + rest;
    assert s[0] == b0 && s[1] == b1;
  }

  lemma DecodeThreeBytes(b0: bv8, b1: bv8, b2: bv8, rest: seq<bv8>, cp: bv32)
    requires b0 & 0x80 != 0 && b0 & 0xE0 != 0xC0 && b0 & 0xF0 == 0xE0
    requires ((b0 & 0x0F) as bv32 << 12) | ((b1 & 0x3F) as bv32 << 6) | (b2 & 0x3F) as bv32 == cp
    ensures DecodeUtf8([b0, b1, b2] + rest, 0) == Decoded(cp, 3)
  {
    var s := [b0, b1, b2] + rest;
    assert s[0] == b0 && s[1] == b1 && s[2] == b2;
  }

  lemma DecodeFourBytes(b0: bv8, b1: bv8, b2: bv8, b3: bv8, rest: seq<bv8>, cp: bv32)
    requires b0 & 0x80 != 0 && b0 & 0xE0 != 0xC0 && b0 & 0xF0 != 0xE0 && b0 & 0xF8 == 0xF0
    requires ((b0 & 0x07) as bv32 << 18) | ((b1 & 0x3F) as bv32 << 12) | ((b2 & 0x3F) as bv32 << 6) | (b3 & 0x3F) as bv32 == cp
    ensures DecodeUtf8([b0, b1, b2, b3] + rest, 0) == Decoded(cp, 4)
  {
    var s := [b0, b1, b2, b3] + rest;
    assert s[0] == b0 && s[1] == b1 && s[2] == b2 && s[3] == b3;
  }

  lemma DecodeEncodeTwo(cp: bv32, rest: seq<bv8>)
    requires 0x80 <= cp <= 0x7FF
    ensures DecodeUtf8(Encode(cp) + rest, 0) == Decoded(cp, 2)
  {
    var b0, b1 := (0xC0 | (cp >> 6)) as bv8, (0x80 | (cp & 0x3F)) as bv8;
    TwoByteBits(cp);
    DecodeTwoBytes(b0, b1, rest, cp);
    assert Encode(cp) == [b0, b1];
  }

  lemma DecodeEncodeThree(cp: bv32, rest: seq<bv8>)
    requires 0x800 <= cp <= 0xFFFF
    ensures DecodeUtf8(Encode(cp) + rest, 0) == Decoded(cp, 3)
  {
    var b0, b1, b2 := (0xE0 | (cp >> 12)) as bv8, (0x80 | ((cp >> 6) & 0x3F)) as bv8, (0x80 | (cp & 0x3F)) as bv8;
    ThreeByteBits(cp);
    DecodeThreeBytes(b0, b1, b2, rest, cp);
    assert Encode(cp) == [b0, b1, b2];
  }

  lemma DecodeFourOf(cp: bv32, rest: seq<bv8>)
    requires 0x1_0000 <= cp <= MaxCodepoint
    ensures var b0, b1 := (0xF0 | (cp >> 18)) as bv8, (0x80 | ((cp >> 12) & 0x3F)) as bv8;
      var b2, b3 := (0x80 | ((cp >> 6) & 0x3F)) as bv8, (0x80 | (cp & 0x3F)) as bv8;
      DecodeUtf8([b0, b1, b2, b3] + rest, 0) == Decoded(cp, 4)
  {
    var b0, b1 := (0xF0 | (cp >> 18)) as bv8, (0x80 | ((cp >> 12) & 0x3F)) as bv8;
    var b2, b3 := (0x80 | ((cp >> 6) & 0x3F)) as bv8, (0x80 | (cp & 0x3F)) as bv8;
    FourByteBits(cp);
    DecodeFourBytes(b0, b1, b2, b3, rest, cp);
  }

  lemma DecodeEncodeFour(cp: bv32, rest: seq<bv8>)
    requires 0x1_0000 <= cp <= MaxCodepoint
    ensures DecodeUtf8(Encode(cp) + rest, 0) == Decoded(cp, 4)
  {
    DecodeFourOf(cp, rest);
  }

  /** Decoding what Encode produced gives the codepoint back and consumes
      exactly its encoding, whatever follows it. */
  lemma DecodeEncode(cp: bv32, rest: seq<bv8>)
    requires cp <= MaxCodepoint
    ensures DecodeUtf8(Encode(cp) + rest, 0) == Decoded(cp, |Encode(cp)|)
  {
    if cp <= 0x7F {
    } else if cp <= 0x7FF {
      DecodeEncodeTwo(cp, rest);
    } else if cp <= 0xFFFF {
      DecodeEncodeThree(cp, rest);
    } else {
      DecodeEncodeFour(cp, rest);
    }
  }

  /** Decoding at a position only looks at the bytes from that position on. */
  lemma DecodeShift(prefix: seq<bv8>, text: seq<bv8>, pos: nat)
    requires pos < |text|
    ensures DecodeUtf8(prefix + text, |prefix| + pos) == DecodeUtf8(text, pos)
  {
    var t, q := prefix + text, |prefix| + pos;
    var c := text[pos];
    assert t[q] == c;
    if c & 0x80 == 0 {
    } else if c & 0xE0 == 0xC0 && pos + 1 < |text| {
      assert t[q + 1] == text[pos + 1];
    } else if c & 0xF0 == 0xE0 && pos + 2 < |text| {
      assert t[q + 1] == text[pos + 1] && t[q + 2] == text[pos + 2];
    } else if c & 0xF8 == 0xF0 && pos + 3 < |text| {
      assert t[q + 1] == text[pos + 1] && t[q + 2] == text[pos + 2] && t[q + 3] == text[pos + 3];
    }
  }

  lemma {:induction false} CodepointsShift(prefix: seq<bv8>, text: seq<bv8>, pos: nat)
    ensures Codepoints(prefix + text, |prefix| + pos) == Codepoints(text, pos)
    decreases |text| - pos
  {
    if pos < |text| {
      DecodeShift(prefix, text, pos);
      CodepointsShift(prefix, text, pos + DecodeUtf8(text, pos).length);
    }
  }

  /** Decoding a well-encoded text gives back exactly the codepoints that were
      encoded: the byte-by-byte resynchronisation never fires on valid input. */
  lemma {:induction false} CodepointsEncodeAll(cps: seq<bv32>)
    requires forall j :: 0 <= j < |cps| ==> cps[j] <= MaxCodepoint
    ensures Codepoints(EncodeAll(cps), 0) == cps
  {
    if cps != [] {
      var e := Encode(cps[0]);
      var rest := EncodeAll(cps[1..]);
      DecodeEncode(cps[0], rest);
      CodepointsShift(e, rest, 0);
      CodepointsEncodeAll(cps[1..]);
    }
  }

  /** Each step consumes at least one byte, so there are never more
      codepoints than bytes. */
  lemma {:induction false} CodepointsBound(text: seq<bv8>, pos: nat)
    requires pos <= |text|
    ensures |Codepoints(text, pos)| <= |text| - pos
    decreases |text| - pos
  {
    if pos < |text| {
      CodepointsBound(text, pos + DecodeUtf8(text, pos).length);
    }
  }

  /** The decoder never looks at the tag bits of a continuation byte: after
      a two-byte lead, replacing the next byte by its low six bits under the
      tag 10 changes nothing, so a missing or wrong tag goes unnoticed. */
  lemma DecodeIgnoresContinuationTag(b0: bv8, b1: bv8, rest: seq<bv8>)
    requires b0 & 0xE0 == 0xC0
    ensures DecodeUtf8([b0, b1] + rest, 0) == DecodeUtf8([b0, (b1 & 0x3F) | 0x80] + rest, 0)
  {
  }

  /** So a two-byte lead swallows the ASCII byte after it: 0xC3 followed by
      'A' decodes to U+00C1 and consumes both bytes. */
  lemma DecodeSwallowsAscii()
    ensures DecodeUtf8([0xC3, 0x41], 0) == Decoded(0xC1, 2)
  {
  }
}

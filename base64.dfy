/** The base64 encoding of section 4 of RFC 4648 (standard alphabet, '=' padding),
    as Python's base64.b64encode produces it; a strict decoder that accepts only such
    text; and the lenient decoder that base64.b64decode runs without `validate=True`. */
module Base64 {
  import opened Wrappers

  type Byte = b: int | 0 <= b < 256

  /** The character that stands for the 6-bit value d. */
  function DigitChar(d: int): (c: char)
    requires 0 <= d < 64
  {
    if d < 26 then ('A' as int + d) as char
    else if d < 52 then ('a' as int + (d - 26)) as char
    else if d < 62 then ('0' as int + (d - 52)) as char
    else if d == 62 then '+'
    else '/'
  }

  /** The 6-bit value a character of the alphabet stands for; None for any other character. */
  function DigitValue(c: char): (d: Option<int>)
    ensures d.Some? ==> 0 <= d.value < 64 && DigitChar(d.value) == c
  {
    if 'A' <= c <= 'Z' then Some(c as int - 'A' as int)
    else if 'a' <= c <= 'z' then Some(c as int - 'a' as int + 26)
    else if '0' <= c <= '9' then Some(c as int - '0' as int + 52)
    else if c == '+' then Some(62)
    else if c == '/' then Some(63)
    else None
  }

  lemma DigitRoundTrip(d: int)
    requires 0 <= d < 64
    ensures DigitValue(DigitChar(d)) == Some(d)
  {
  }

  predicate IsDigitChar(c: char) {
    DigitValue(c).Some?
  }

  /** Three input bytes become four characters. */
  function EncodeGroup(b0: Byte, b1: Byte, b2: Byte): (s: string)
  {
    [DigitChar(b0 / 4), DigitChar((b0 % 4) * 16 + b1 / 16),
     DigitChar((b1 % 16) * 4 + b2 / 64), DigitChar(b2 % 64)]
  }

  /** b64encode: every full group of three bytes gives four characters; a final group of
      one or two bytes is padded with '=' to four characters. */
  function Encode(b: seq<Byte>): (s: string)
    ensures |s| % 4 == 0
    ensures |s| == 0 <==> |b| == 0
    decreases |b|
  {
    if |b| == 0 then []
    else if |b| == 1 then
      [DigitChar(b[0] / 4), DigitChar((b[0] % 4) * 16), '=', '=']
    else if |b| == 2 then
      [DigitChar(b[0] / 4), DigitChar((b[0] % 4) * 16 + b[1] / 16), DigitChar((b[1] % 16) * 4), '=']
    else
      EncodeGroup(b[0], b[1], b[2]) + Encode(b[3..])
  }

  /** Decodes one group of four characters; the group may end in "=" or "==" only when
      `last` holds. Bits below the last byte are ignored, as Python's decoder does. */
  function DecodeQuad(q: string, last: bool): (r: Option<seq<Byte>>)
    requires |q| == 4
    ensures r.Some? ==> 1 <= |r.value| <= 3
    ensures r.Some? && !last ==> |r.value| == 3
  {
    var d0, d1, d2, d3 := DigitValue(q[0]), DigitValue(q[1]), DigitValue(q[2]), DigitValue(q[3]);
    if d0.None? || d1.None? then None
    else if d2.Some? && d3.Some? then
      Some([d0.value * 4 + d1.value / 16,
            (d1.value % 16) * 16 + d2.value / 4,
            (d2.value % 4) * 64 + d3.value])
    else if last && d2.Some? && q[3] == '=' then
      Some([d0.value * 4 + d1.value / 16, (d1.value % 16) * 16 + d2.value / 4])
    else if last && q[2] == '=' && q[3] == '=' then
      Some([d0.value * 4 + d1.value / 16])
    else None
  }

  /** The strict decoder: text made only of whole groups of four alphabet characters,
      the last of which may end in "=" or "=="; None for any other text. On such text
      it agrees with b64decode (LenientAgrees). */
  function Decode(s: string): (r: Option<seq<Byte>>)
    ensures r.Some? ==> |s| % 4 == 0 && 4 * |r.value| <= 3 * |s|
    ensures r.Some? && |s| > 0 ==> |r.value| > 0
    decreases |s|
  {
    if |s| == 0 then Some([])
    else if |s| < 4 then None
    else
      match DecodeQuad(s[..4], |s| == 4)
      case None => None
      case Some(head) =>
        match Decode(s[4..])
        case None => None
        case Some(tail) => Some(head + tail)
  }

  lemma EncodeLength(b: seq<Byte>)
    ensures |Encode(b)| == 4 * ((|b| + 2) / 3)
    decreases |b|
  {
    if |b| >= 3 { EncodeLength(b[3..]); }
  }

  /** Every character of an encoding is in the alphabet or is the padding '='; in
      particular no encoding contains a ','. */
  lemma {:induction false} EncodeAlphabet(b: seq<Byte>)
    ensures forall i :: 0 <= i < |Encode(b)| ==> IsDigitChar(Encode(b)[i]) || Encode(b)[i] == '='
    ensures ',' !in Encode(b)
    decreases |b|
  {
    if |b| >= 3 {
      EncodeAlphabet(b[3..]);
      var g := EncodeGroup(b[0], b[1], b[2]);
      forall i | 0 <= i < |g| ensures IsDigitChar(g[i]) {
        DigitRoundTrip(if i == 0 then b[0] / 4 else if i == 1 then (b[0] % 4) * 16 + b[1] / 16
                       else if i == 2 then (b[1] % 16) * 4 + b[2] / 64 else b[2] % 64);
      }
    } else if |b| == 2 {
      DigitRoundTrip(b[0] / 4);
      DigitRoundTrip((b[0] % 4) * 16 + b[1] / 16);
      DigitRoundTrip((b[1] % 16) * 4);
    } else if |b| == 1 {
      DigitRoundTrip(b[0] / 4);
      DigitRoundTrip((b[0] % 4) * 16);
    }
  }

  /** Splitting a value into a quotient and a remainder by a constant and joining them
      back are inverse. */
  lemma Join4(hi: int, lo: int)
    requires 0 <= lo < 4
    ensures (hi * 4 + lo) / 4 == hi && (hi * 4 + lo) % 4 == lo
  {
  }

  lemma Join16(hi: int, lo: int)
    requires 0 <= lo < 16
    ensures (hi * 16 + lo) / 16 == hi && (hi * 16 + lo) % 16 == lo
  {
  }

  lemma GroupRoundTrip(b0: Byte, b1: Byte, b2: Byte, last: bool)
    ensures DecodeQuad(EncodeGroup(b0, b1, b2), last) == Some([b0, b1, b2])
  {
    var d0, d1, d2, d3 := b0 / 4, (b0 % 4) * 16 + b1 / 16, (b1 % 16) * 4 + b2 / 64, b2 % 64;
    DigitRoundTrip(d0);
    DigitRoundTrip(d1);
    DigitRoundTrip(d2);
    DigitRoundTrip(d3);
    Join16(b0 % 4, b1 / 16);
    Join4(b1 % 16, b2 / 64);
    assert d0 * 4 + d1 / 16 == b0;
    assert (d1 % 16) * 16 + d2 / 4 == b1;
    assert (d2 % 4) * 64 + d3 == b2;
  }

  /** Padding is not a digit. */
  lemma PadIsNotDigit()
    ensures DigitValue('=').None?
  {
  }

  /** The padded final group of a single byte decodes back to that byte. */
  lemma OneByteRoundTrip(x: Byte)
    ensures Decode(Encode([x])) == Some([x])
  {
    var d0, d1 := x / 4, (x % 4) * 16;
    var e := [DigitChar(d0), DigitChar(d1), '=', '='];
    assert Encode([x]) == e;
    DigitRoundTrip(d0);
    DigitRoundTrip(d1);
    Join16(x % 4, 0);
    assert d0 * 4 + d1 / 16 == x;
    assert DecodeQuad(e, true) == Some([x]);
    assert e[..4] == e && e[4..] == [];
    assert Decode(e) == Some([x] + []);
    assert [x] + [] == [x];
  }

  /** The padded final group of two bytes decodes back to those bytes. */
  lemma TwoBytesRoundTrip(x: Byte, y: Byte)
    ensures Decode(Encode([x, y])) == Some([x, y])
  {
    var d0, d1, d2 := x / 4, (x % 4) * 16 + y / 16, (y % 16) * 4;
    var e := [DigitChar(d0), DigitChar(d1), DigitChar(d2), '='];
    assert Encode([x, y]) == e;
    DigitRoundTrip(d0);
    DigitRoundTrip(d1);
    DigitRoundTrip(d2);
    PadIsNotDigit();
    Join16(x % 4, y / 16);
    Join4(y % 16, 0);
    assert d0 * 4 + d1 / 16 == x;
    assert (d1 % 16) * 16 + d2 / 4 == y;
    assert DecodeQuad(e, true) == Some([x, y]);
    assert e[..4] == e && e[4..] == [];
    assert Decode(e) == Some([x, y] + []);
    assert [x, y] + [] == [x, y];
  }

  /** Decoding a text of four characters or more decodes its first group, then the rest. */
  lemma DecodeUnfold(s: string, head: seq<Byte>, tail: seq<Byte>)
    requires |s| >= 4 && DecodeQuad(s[..4], |s| == 4) == Some(head) && Decode(s[4..]) == Some(tail)
    ensures Decode(s) == Some(head + tail)
  {
  }

  lemma SplitThree(b: seq<Byte>)
    requires |b| >= 3
    ensures [b[0], b[1], b[2]] + b[3..] == b
  {
    assert b[..3] == [b[0], b[1], b[2]];
    assert b[..3] + b[3..] == b;
  }

  /** One full group in front of an encoding that round-trips still round-trips. */
  lemma GroupStep(b: seq<Byte>)
    requires |b| >= 3 && Decode(Encode(b[3..])) == Some(b[3..])
    ensures Decode(Encode(b)) == Some(b)
  {
    var g, rest := EncodeGroup(b[0], b[1], b[2]), Encode(b[3..]);
    var s := Encode(b);
    assert s == g + rest;
    assert s[..4] == g;
    assert s[4..] == rest;
    GroupRoundTrip(b[0], b[1], b[2], |s| == 4);
    DecodeUnfold(s, [b[0], b[1], b[2]], b[3..]);
    SplitThree(b);
  }

  /** Decoding an encoding gives back the original bytes: b64decode(b64encode(b)) == b. */
  lemma {:induction false} DecodeEncode(b: seq<Byte>)
    ensures Decode(Encode(b)) == Some(b)
    decreases |b|
  {
    if |b| == 1 {
      OneByteRoundTrip(b[0]);
      assert b == [b[0]];
    } else if |b| == 2 {
      TwoBytesRoundTrip(b[0], b[1]);
      assert b == [b[0], b[1]];
    } else if |b| >= 3 {
      DecodeEncode(b[3..]);
      GroupStep(b);
    }
  }

  /** Prepends a decoded byte to the outcome of decoding the rest. */
  function Prepend(x: Byte, r: Option<seq<Byte>>): (p: Option<seq<Byte>>)
    ensures p.Some? <==> r.Some?
    ensures p.Some? ==> p.value == [x] + r.value
  {
    match r
    case None => None
    case Some(tail) => Some([x] + tail)
  }

  /** The loop of CPython's binascii.a2b_base64 with strict mode off. quadPos counts the
      digits read of the current group, left holds their bits not yet written, and pads
      counts the '=' seen since the last digit once two digits of a group are in. A
      character outside the alphabet is skipped. A '=' ends the input as soon as it
      completes a group of four, and everything after it is ignored; any other '=' is
      skipped. Input that ends inside a group is an error. */
  function Scan(s: string, quadPos: int, left: int, pads: nat): (r: Option<seq<Byte>>)
    requires 0 <= quadPos < 4
    requires quadPos == 1 ==> 0 <= left < 64
    requires quadPos == 2 ==> 0 <= left < 16
    requires quadPos == 3 ==> 0 <= left < 4
    decreases |s|
  {
    if |s| == 0 then
      if quadPos == 0 then Some([]) else None
    else if s[0] == '=' then
      if quadPos >= 2 && quadPos + pads + 1 >= 4 then Some([])
      else Scan(s[1..], quadPos, left, if quadPos >= 2 then pads + 1 else pads)
    else
      match DigitValue(s[0])
      case None => Scan(s[1..], quadPos, left, pads)
      case Some(d) =>
        if quadPos == 0 then Scan(s[1..], 1, d, 0)
        else if quadPos == 1 then Prepend(left * 4 + d / 16, Scan(s[1..], 2, d % 16, 0))
        else if quadPos == 2 then Prepend(left * 16 + d / 4, Scan(s[1..], 3, d % 4, 0))
        else Prepend(left * 64 + d, Scan(s[1..], 0, 0, 0))
  }

  predicate IsAscii(s: string) {
    forall i :: 0 <= i < |s| ==> s[i] as int < 128
  }

  /** base64.b64decode(s) for a str s, without `validate=True`: a text with a non-ASCII
      character raises ValueError; any other text is scanned as a2b_base64 does. None
      stands for the exception (ValueError or binascii.Error). */
  function LenientDecode(s: string): (r: Option<seq<Byte>>)
    ensures r.Some? ==> IsAscii(s)
  {
    if IsAscii(s) then Scan(s, 0, 0, 0) else None
  }

  /** A group of four alphabet characters is read as its three bytes. */
  lemma ScanFullGroup(s: string)
    requires |s| >= 4
    requires DigitValue(s[0]).Some? && DigitValue(s[1]).Some? && DigitValue(s[2]).Some? && DigitValue(s[3]).Some?
    ensures var d0, d1, d2, d3 := DigitValue(s[0]).value, DigitValue(s[1]).value,
                                  DigitValue(s[2]).value, DigitValue(s[3]).value;
            Scan(s, 0, 0, 0) ==
              Prepend(d0 * 4 + d1 / 16, Prepend((d1 % 16) * 16 + d2 / 4, Prepend((d2 % 4) * 64 + d3,
                Scan(s[4..], 0, 0, 0))))
  {
    var d0, d1, d2 := DigitValue(s[0]).value, DigitValue(s[1]).value, DigitValue(s[2]).value;
    PadIsNotDigit();
    assert s[1..][1..] == s[2..] && s[2..][1..] == s[3..] && s[3..][1..] == s[4..];
    assert s[1..][0] == s[1] && s[2..][0] == s[2] && s[3..][0] == s[3];
    assert Scan(s, 0, 0, 0) == Scan(s[1..], 1, d0, 0);
    assert Scan(s[1..], 1, d0, 0) == Prepend(d0 * 4 + d1 / 16, Scan(s[2..], 2, d1 % 16, 0));
    assert Scan(s[2..], 2, d1 % 16, 0) == Prepend((d1 % 16) * 16 + d2 / 4, Scan(s[3..], 3, d2 % 4, 0));
  }

  /** "xxx=" is read as two bytes, and the final '=' ends the input. */
  lemma ScanTwoBytesTail(s: string)
    requires |s| == 4
    requires DigitValue(s[0]).Some? && DigitValue(s[1]).Some? && DigitValue(s[2]).Some? && s[3] == '='
    ensures var d0, d1, d2 := DigitValue(s[0]).value, DigitValue(s[1]).value, DigitValue(s[2]).value;
            Scan(s, 0, 0, 0) == Some([d0 * 4 + d1 / 16, (d1 % 16) * 16 + d2 / 4])
  {
    var d0, d1, d2 := DigitValue(s[0]).value, DigitValue(s[1]).value, DigitValue(s[2]).value;
    PadIsNotDigit();
    assert s[1..][1..] == s[2..] && s[2..][1..] == s[3..];
    assert s[1..][0] == s[1] && s[2..][0] == s[2] && s[3..][0] == '=';
    var x0, x1 := d0 * 4 + d1 / 16, (d1 % 16) * 16 + d2 / 4;
    assert Scan(s[3..], 3, d2 % 4, 0) == Some([]);
    assert Scan(s[2..], 2, d1 % 16, 0) == Prepend(x1, Some([]));
    assert [x1] + [] == [x1];
    assert Scan(s[1..], 1, d0, 0) == Prepend(x0, Some([x1]));
    assert [x0] + [x1] == [x0, x1];
    assert Scan(s, 0, 0, 0) == Scan(s[1..], 1, d0, 0);
  }

  /** "xx==" is read as one byte; the first '=' is skipped and the second ends the input. */
  lemma ScanOneByteTail(s: string)
    requires |s| == 4
    requires DigitValue(s[0]).Some? && DigitValue(s[1]).Some? && s[2] == '=' && s[3] == '='
    ensures var d0, d1 := DigitValue(s[0]).value, DigitValue(s[1]).value;
            Scan(s, 0, 0, 0) == Some([d0 * 4 + d1 / 16])
  {
    var d0, d1 := DigitValue(s[0]).value, DigitValue(s[1]).value;
    PadIsNotDigit();
    assert s[1..][1..] == s[2..] && s[2..][1..] == s[3..];
    assert s[1..][0] == s[1] && s[2..][0] == '=' && s[3..][0] == '=';
    var x0 := d0 * 4 + d1 / 16;
    assert Scan(s[3..], 2, d1 % 16, 1) == Some([]);
    assert Scan(s[2..], 2, d1 % 16, 0) == Some([]);
    assert Scan(s[1..], 1, d0, 0) == Prepend(x0, Some([]));
    assert [x0] + [] == [x0];
    assert Scan(s, 0, 0, 0) == Scan(s[1..], 1, d0, 0);
  }

  /** On text the strict decoder accepts, the a2b_base64 loop reads the same bytes. */
  lemma {:induction false} StrictScan(s: string)
    requires Decode(s).Some?
    ensures Scan(s, 0, 0, 0) == Decode(s)
    decreases |s|
  {
    if |s| > 0 {
      var q := s[..4];
      assert q[0] == s[0] && q[1] == s[1] && q[2] == s[2] && q[3] == s[3];
      var head, tail := DecodeQuad(q, |s| == 4).value, Decode(s[4..]).value;
      DecodeUnfold(s, head, tail);
      var d0, d1 := DigitValue(s[0]).value, DigitValue(s[1]).value;
      if DigitValue(s[2]).Some? && DigitValue(s[3]).Some? {
        var d2, d3 := DigitValue(s[2]).value, DigitValue(s[3]).value;
        StrictScan(s[4..]);
        ScanFullGroup(s);
        assert head == [d0 * 4 + d1 / 16, (d1 % 16) * 16 + d2 / 4, (d2 % 4) * 64 + d3];
        assert [d0 * 4 + d1 / 16] + ([(d1 % 16) * 16 + d2 / 4] + ([(d2 % 4) * 64 + d3] + tail)) == head + tail;
      } else if DigitValue(s[2]).Some? {
        ScanTwoBytesTail(s);
        assert tail == [] && head + tail == head;
      } else {
        ScanOneByteTail(s);
        assert tail == [] && head + tail == head;
      }
    }
  }

  /** Every character of an alphabet digit is ASCII. */
  lemma DigitIsAscii(c: char)
    requires DigitValue(c).Some?
    ensures c as int < 128
  {
  }

  /** Text the strict decoder accepts is ASCII: it holds only digits and '='. */
  lemma {:induction false} StrictIsAscii(s: string)
    requires Decode(s).Some?
    ensures IsAscii(s)
    decreases |s|
  {
    if |s| > 0 {
      var q := s[..4];
      assert q[0] == s[0] && q[1] == s[1] && q[2] == s[2] && q[3] == s[3];
      StrictIsAscii(s[4..]);
      forall i | 0 <= i < 4 ensures s[i] as int < 128 {
        if DigitValue(s[i]).Some? { DigitIsAscii(s[i]); }
      }
      forall i | 4 <= i < |s| ensures s[i] as int < 128 {
        assert s[i] == s[4..][i - 4];
      }
    }
  }

  /** b64decode without `validate=True` accepts every text the strict decoder accepts,
      with the same bytes. */
  lemma LenientAgrees(s: string)
    requires Decode(s).Some?
    ensures LenientDecode(s) == Decode(s)
  {
    StrictIsAscii(s);
    StrictScan(s);
  }

  /** b64decode(b64encode(b)) == b, for the decoder the script calls. */
  lemma LenientDecodeEncode(b: seq<Byte>)
    ensures LenientDecode(Encode(b)) == Some(b)
  {
    DecodeEncode(b);
    LenientAgrees(Encode(b));
  }

  /** A '=' after a complete group is skipped: "YWJj=" decodes to b"abc", where the
      strict decoder refuses it. */
  lemma PadAfterGroupIsSkipped()
    ensures Decode("YWJj=") == None
    ensures LenientDecode("YWJj=") == Some([97, 98, 99])
  {
    var s := "YWJj=";
    forall i | 0 <= i < |s| ensures s[i] as int < 128 {
      assert i == 0 || i == 1 || i == 2 || i == 3 || i == 4;
    }
    assert s[..4] == "YWJj" && s[4..] == "=";
    assert DigitValue('Y') == Some(24) && DigitValue('W') == Some(22);
    assert DigitValue('J') == Some(9) && DigitValue('j') == Some(35);
    ScanFullGroup(s);
    assert s[4..][1..] == [];
    assert Scan(s[4..], 0, 0, 0) == Some([]);
    assert [97] + ([98] + ([99] + [])) == [97, 98, 99];
  }

  /** Input after the padding that completes a group is ignored: "YQ==YQ==" decodes to
      b"a", where the strict decoder refuses it. */
  lemma TextAfterPaddingIsIgnored()
    ensures Decode("YQ==YQ==") == None
    ensures LenientDecode("YQ==YQ==") == Some([97])
  {
    var s := "YQ==YQ==";
    forall i | 0 <= i < |s| ensures s[i] as int < 128 {
      assert i == 0 || i == 1 || i == 2 || i == 3 || i == 4 || i == 5 || i == 6 || i == 7;
    }
    assert s[..4] == "YQ==" && s[4..] == "YQ==";
    assert s[1..][1..] == s[2..] && s[2..][1..] == s[3..];
    assert s[1..][0] == 'Q' && s[2..][0] == '=' && s[3..][0] == '=';
    assert DigitValue('Y') == Some(24) && DigitValue('Q') == Some(16);
    assert DecodeQuad(s[..4], false) == None;
    assert Scan(s[3..], 2, 0, 1) == Some([]);
    assert Scan(s[2..], 2, 0, 0) == Some([]);
    assert Scan(s[1..], 1, 24, 0) == Prepend(97, Some([]));
    assert [97] + [] == [97];
    assert Scan(s, 0, 0, 0) == Scan(s[1..], 1, 24, 0);
  }
}

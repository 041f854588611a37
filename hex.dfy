/** `AkamaiStreaming#hex_to_string`: the decoding of the hexadecimal key string into bytes. */
module HexKey {
  import opened Results

  type byte = b: int | 0 <= b < 256

  const OddLengthError: string := "Can't translate a string unless it has an even number of digits"
  const NonHexError: string := "Can't translate non-hex characters"

  /** The characters of Ruby's `\s`: space, tab, line feed, vertical tab, form feed, carriage return. */
  predicate IsSpace(ch: char) {
    ch == ' ' || '\t' <= ch <= '\r'
  }

  /** The characters of `[0-9A-Fa-f]`. */
  predicate IsHexDigit(ch: char) {
    '0' <= ch <= '9' || 'a' <= ch <= 'f' || 'A' <= ch <= 'F'
  }

  predicate AllHexDigits(s: string) {
    forall i :: 0 <= i < |s| ==> IsHexDigit(s[i])
  }

  /** The nibble a hex digit stands for, in either case. */
  function DigitValue(ch: char): (v: nat)
    requires IsHexDigit(ch)
    ensures v < 16
    ensures v < 10 <==> '0' <= ch <= '9'
  {
    if '0' <= ch <= '9' then ch as int - '0' as int
    else if 'a' <= ch <= 'f' then ch as int - 'a' as int + 10
    else ch as int - 'A' as int + 10
  }

  /** The lower-case digit for a nibble. */
  function LowerDigit(v: nat): (ch: char)
    requires v < 16
    ensures IsHexDigit(ch) && DigitValue(ch) == v
    ensures !('A' <= ch <= 'F')
  {
    if v < 10 then ('0' as int + v) as char else ('a' as int + v - 10) as char
  }

  /** A hex digit folded to lower case; every other character is kept. */
  function ToLowerDigit(ch: char): (r: char)
    ensures IsHexDigit(ch) ==> IsHexDigit(r) && !('A' <= r <= 'F') && DigitValue(r) == DigitValue(ch)
  {
    if 'A' <= ch <= 'F' then (ch as int - 'A' as int + 'a' as int) as char else ch
  }

  function ToLower(s: string): (r: string)
    ensures |r| == |s|
    ensures forall i :: 0 <= i < |s| ==> r[i] == ToLowerDigit(s[i])
  {
    if s == [] then [] else [ToLowerDigit(s[0])] + ToLower(s[1..])
  }

  /** `gsub(/\s+/, '')`: the string with every whitespace character removed. */
  function StripWhitespace(s: string): (r: string)
    ensures |r| <= |s|
    ensures forall i :: 0 <= i < |r| ==> !IsSpace(r[i])
  {
    if s == [] then []
    else if IsSpace(s[0]) then StripWhitespace(s[1..])
    else [s[0]] + StripWhitespace(s[1..])
  }

  /** `[s].pack('H*')` on an even run of hex digits: each pair is one byte, high nibble first. */
  function PackHex(s: string): (r: seq<byte>)
    requires |s| % 2 == 0 && AllHexDigits(s)
    ensures |r| * 2 == |s|
    ensures forall k :: 0 <= k < |r| ==> r[k] == 16 * DigitValue(s[2 * k]) + DigitValue(s[2 * k + 1])
  {
    if s == [] then []
    else [16 * DigitValue(s[0]) + DigitValue(s[1])] + PackHex(s[2..])
  }

  /** `hex_to_string`: strip whitespace, refuse an odd length, then refuse non-hex characters, then pack. */
  function HexToString(hex: string): (r: Result<seq<byte>>)
    ensures r == Err(OddLengthError) <==> |StripWhitespace(hex)| % 2 == 1
    ensures r == Err(NonHexError) <==> |StripWhitespace(hex)| % 2 == 0 && !AllHexDigits(StripWhitespace(hex))
    ensures r.Ok? <==> |StripWhitespace(hex)| % 2 == 0 && AllHexDigits(StripWhitespace(hex))
    ensures r.Ok? ==> |r.value| * 2 == |StripWhitespace(hex)|
    ensures r.Ok? ==> HexEncode(r.value) == ToLower(StripWhitespace(hex))
  {
    var stripped := StripWhitespace(hex);
    if |stripped| % 2 != 0 then Err(OddLengthError)
    else if !AllHexDigits(stripped) then Err(NonHexError)
    else
      EncodePack(stripped);
      Ok(PackHex(stripped))
  }

  /** The inverse direction, `unpack('H*')`: two lower-case digits per byte, high nibble first. */
  function HexEncode(b: seq<byte>): (r: string)
    ensures |r| == 2 * |b|
    ensures AllHexDigits(r)
  {
    if b == [] then []
    else [LowerDigit(b[0] / 16), LowerDigit(b[0] % 16)] + HexEncode(b[1..])
  }

  /** Encoding works byte by byte. */
  lemma {:induction false} HexEncodeConcat(a: seq<byte>, b: seq<byte>)
    ensures HexEncode(a + b) == HexEncode(a) + HexEncode(b)
  {
    if a != [] {
      assert (a + b)[0] == a[0] && (a + b)[1..] == a[1..] + b;
      HexEncodeConcat(a[1..], b);
    } else {
      assert a + b == b;
    }
  }

  lemma {:induction false} PackEncode(b: seq<byte>)
    ensures |HexEncode(b)| % 2 == 0
    ensures PackHex(HexEncode(b)) == b
  {
    if b != [] {
      var s := HexEncode(b);
      assert s[2..] == HexEncode(b[1..]);
      PackEncode(b[1..]);
      assert b == [b[0]] + b[1..];
    }
  }

  lemma {:induction false} EncodePack(s: string)
    requires |s| % 2 == 0 && AllHexDigits(s)
    ensures HexEncode(PackHex(s)) == ToLower(s)
  {
    if s != [] {
      var p := PackHex(s);
      var x := p[0];
      var head := [LowerDigit(x / 16), LowerDigit(x % 16)];
      assert head == [ToLowerDigit(s[0]), ToLowerDigit(s[1])] by {
        assert x == 16 * DigitValue(s[0]) + DigitValue(s[1]);
        ByteNibbles(DigitValue(s[0]), DigitValue(s[1]));
        LowerDigitOfValue(s[0]);
        LowerDigitOfValue(s[1]);
      }
      assert HexEncode(p) == head + HexEncode(PackHex(s[2..])) by {
        assert p[1..] == PackHex(s[2..]);
      }
      EncodePack(s[2..]);
      ToLowerPair(s);
    }
  }

  /** A byte built from two nibbles splits back into them. */
  lemma ByteNibbles(high: nat, low: nat)
    requires high < 16 && low < 16
    ensures (16 * high + low) / 16 == high && (16 * high + low) % 16 == low
  {
  }

  lemma ToLowerPair(s: string)
    requires |s| >= 2
    ensures ToLower(s) == [ToLowerDigit(s[0]), ToLowerDigit(s[1])] + ToLower(s[2..])
  {
  }

  lemma LowerDigitOfValue(ch: char)
    requires IsHexDigit(ch)
    ensures LowerDigit(DigitValue(ch)) == ToLowerDigit(ch)
  {
  }

  /** A string with no whitespace is left as it is by the strip. */
  lemma {:induction false} StripWithoutSpaces(s: string)
    requires forall i :: 0 <= i < |s| ==> !IsSpace(s[i])
    ensures StripWhitespace(s) == s
  {
    if s != [] {
      StripWithoutSpaces(s[1..]);
    }
  }

  /** Stripping works piece by piece, so whitespace anywhere in the key is ignored. */
  lemma {:induction false} StripConcat(a: string, b: string)
    ensures StripWhitespace(a + b) == StripWhitespace(a) + StripWhitespace(b)
  {
    if a != [] {
      assert (a + b)[1..] == a[1..] + b;
      StripConcat(a[1..], b);
    } else {
      assert a + b == b;
    }
  }

  /** Whitespace inserted between two pieces of a key does not change what it decodes to. */
  lemma HexToStringIgnoresSpace(a: string, ws: string, b: string)
    requires forall i :: 0 <= i < |ws| ==> IsSpace(ws[i])
    ensures HexToString(a + ws + b) == HexToString(a + b)
  {
    StripConcat(a + ws, b);
    StripConcat(a, ws);
    StripConcat(a, b);
    StripAllSpace(ws);
    assert StripWhitespace(a + ws) == StripWhitespace(a);
    assert StripWhitespace(a + ws + b) == StripWhitespace(a + b);
  }

  lemma {:induction false} StripAllSpace(ws: string)
    requires forall i :: 0 <= i < |ws| ==> IsSpace(ws[i])
    ensures StripWhitespace(ws) == []
  {
    if ws != [] {
      StripAllSpace(ws[1..]);
    }
  }

  /** A string of hex digits without whitespace and of even length decodes, and re-encodes to itself in lower case. */
  lemma DecodeCleanHex(hex: string)
    requires forall i :: 0 <= i < |hex| ==> !IsSpace(hex[i])
    requires |hex| % 2 == 0 && AllHexDigits(hex)
    ensures HexToString(hex).Ok? && |HexToString(hex).value| * 2 == |hex|
    ensures HexEncode(HexToString(hex).value) == ToLower(hex)
  {
    StripWithoutSpaces(hex);
  }

  /** Every byte string survives encoding and decoding. */
  lemma HexToStringEncode(b: seq<byte>)
    ensures HexToString(HexEncode(b)) == Ok(b)
  {
    var s := HexEncode(b);
    forall i | 0 <= i < |s| ensures !IsSpace(s[i]) {
      assert IsHexDigit(s[i]);
    }
    StripWithoutSpaces(s);
    PackEncode(b);
  }

  /** Upper- and lower-case digits decode to the same bytes. */
  lemma HexToStringCaseInsensitive(hex: string)
    ensures HexToString(ToLower(hex)) == HexToString(hex)
  {
    var s := StripWhitespace(hex);
    StripToLower(hex);
    if |s| % 2 == 0 && AllHexDigits(s) {
      PackToLower(s);
    } else if |s| % 2 == 0 {
      var i :| 0 <= i < |s| && !IsHexDigit(s[i]);
      assert !IsHexDigit(ToLower(s)[i]);
    }
  }

  lemma {:induction false} PackToLower(s: string)
    requires |s| % 2 == 0 && AllHexDigits(s)
    ensures AllHexDigits(ToLower(s)) && PackHex(ToLower(s)) == PackHex(s)
  {
    var l := ToLower(s);
    assert AllHexDigits(l);
    if s != [] {
      assert l[2..] == ToLower(s[2..]);
      PackToLower(s[2..]);
      assert DigitValue(l[0]) == DigitValue(s[0]) && DigitValue(l[1]) == DigitValue(s[1]);
    }
  }

  /** The digits `HexEncode` writes. */
  predicate IsLowerHexDigit(ch: char) {
    '0' <= ch <= '9' || 'a' <= ch <= 'f'
  }

  predicate AllLowerHexDigits(s: string) {
    forall i :: 0 <= i < |s| ==> IsLowerHexDigit(s[i])
  }

  /** An even run of lower-case hex digits decodes, and encodes back to itself. */
  lemma DecodeLowerHex(hex: string)
    requires |hex| % 2 == 0 && AllLowerHexDigits(hex)
    ensures HexToString(hex).Ok? && |HexToString(hex).value| * 2 == |hex|
    ensures HexEncode(HexToString(hex).value) == hex
  {
    assert AllHexDigits(hex);
    DecodeCleanHex(hex);
    assert ToLower(hex) == hex;
  }

  lemma {:induction false} StripToLower(s: string)
    ensures StripWhitespace(ToLower(s)) == ToLower(StripWhitespace(s))
  {
    if s != [] {
      assert ToLower(s)[1..] == ToLower(s[1..]);
      StripToLower(s[1..]);
      if !IsSpace(s[0]) {
        assert ToLower([s[0]] + StripWhitespace(s[1..])) == [ToLowerDigit(s[0])] + ToLower(StripWhitespace(s[1..]));
      }
    }
  }
}

/**
  The base64 decoding that the browser's `atob` performs: the "forgiving-base64
  decode" of the WHATWG Infra standard, over the alphabet and padding of
  section 4 of RFC 4648, together with the RFC 4648 encoder that it inverts.
*/
module ForgivingBase64 {
  import opened Wrappers

  /** One octet, the element type of a `Uint8Array`. */
  type Byte = b: int | 0 <= b < 256

  /** The six-bit value one alphabet character stands for. */
  type Sextet = v: int | 0 <= v < 64

  /** ASCII whitespace: TAB, LF, FF, CR and SPACE. */
  predicate IsAsciiWhitespace(c: char) {
    c == '\t' || c == '\n' || c == '\U{C}' || c == '\r' || c == ' '
  }

  /** The 64 characters of the base64 alphabet (Table 1 of RFC 4648). */
  predicate IsAlphabetChar(c: char) {
    ('A' <= c <= 'Z') || ('a' <= c <= 'z') || ('0' <= c <= '9') || c == '+' || c == '/'
  }

  predicate AllAlphabet(s: string) {
    forall i :: 0 <= i < |s| ==> IsAlphabetChar(s[i])
  }

  /** The position of an alphabet character in the alphabet. */
  function SextetValue(c: char): Sextet
    requires IsAlphabetChar(c)
  {
    if 'A' <= c <= 'Z' then c as int - 'A' as int
    else if 'a' <= c <= 'z' then c as int - 'a' as int + 26
    else if '0' <= c <= '9' then c as int - '0' as int + 52
    else if c == '+' then 62
    else 63
  }

  /** The alphabet character at position `v`; `SextetValue` inverts it. */
  function SextetChar(v: Sextet): (c: char)
    ensures IsAlphabetChar(c) && SextetValue(c) == v
  {
    if v < 26 then ('A' as int + v) as char
    else if v < 52 then ('a' as int + (v - 26)) as char
    else if v < 62 then ('0' as int + (v - 52)) as char
    else if v == 62 then '+'
    else '/'
  }

  /** Every alphabet character is the character of its own value. */
  lemma SextetCharOfValue(c: char)
    requires IsAlphabetChar(c)
    ensures SextetChar(SextetValue(c)) == c
  {
  }

  // ---------------------------------------------------------------------------
  // Decoding
  // ---------------------------------------------------------------------------

  /** Step 1 of forgiving-base64 decode: drop every ASCII whitespace character. */
  function RemoveWhitespace(s: string): (r: string)
    ensures |r| <= |s|
    ensures forall c :: c in r <==> c in s && !IsAsciiWhitespace(c)
    decreases |s|
  {
    if s == [] then []
    else if IsAsciiWhitespace(s[0]) then RemoveWhitespace(s[1..])
    else [s[0]] + RemoveWhitespace(s[1..])
  }

  /**
    Step 2 of forgiving-base64 decode: remove a trailing "==" or, failing that,
    a trailing "=". The caller applies it only to lengths divisible by four.
  */
  function DropPadding(s: string): (r: string)
    ensures r <= s && |s| - |r| <= 2
    ensures forall i :: |r| <= i < |s| ==> s[i] == '='
    ensures |s| - |r| < 2 && |r| > 0 ==> r[|r| - 1] != '='
  {
    if |s| >= 2 && s[|s| - 2] == '=' && s[|s| - 1] == '=' then s[..|s| - 2]
    else if |s| >= 1 && s[|s| - 1] == '=' then s[..|s| - 1]
    else s
  }

  /** The string that steps 1 and 2 leave for the length and alphabet checks. */
  function Canonical(data: string): string {
    var t := RemoveWhitespace(data);
    if |t| % 4 == 0 then DropPadding(t) else t
  }

  /**
    Steps 5 to 7 of forgiving-base64 decode: every four characters give three
    bytes; a final group of three characters gives two bytes (the low two bits
    are discarded) and a final group of two gives one byte (the low four bits
    are discarded). Discarded bits are not required to be zero.
  */
  function DecodeQuanta(s: string): (r: seq<Byte>)
    requires AllAlphabet(s) && |s| % 4 != 1
    ensures |r| == |s| * 3 / 4
    decreases |s|
  {
    if |s| == 0 then []
    else if |s| == 2 then
      var a, b := SextetValue(s[0]), SextetValue(s[1]);
      [a * 4 + b / 16]
    else if |s| == 3 then
      var a, b, c := SextetValue(s[0]), SextetValue(s[1]), SextetValue(s[2]);
      [a * 4 + b / 16, (b % 16) * 16 + c / 4]
    else
      var a, b, c, d := SextetValue(s[0]), SextetValue(s[1]), SextetValue(s[2]), SextetValue(s[3]);
      [a * 4 + b / 16, (b % 16) * 16 + c / 4, (c % 4) * 64 + d] + DecodeQuanta(s[4..])
  }

  /**
    Forgiving-base64 decode: `None` is the algorithm's "failure", which `atob`
    reports as an InvalidCharacterError.
  */
  function ForgivingDecode(data: string): (r: Option<seq<Byte>>)
    ensures r.Some? ==> |r.value| == |Canonical(data)| * 3 / 4
    ensures r.Some? ==> |r.value| <= |data| * 3 / 4
  {
    var s := Canonical(data);
    if |s| % 4 == 1 then None
    else if !AllAlphabet(s) then None
    else Some(DecodeQuanta(s))
  }

  /** The string `atob` returns: one character per decoded byte, with that byte as its code. */
  function IsomorphicDecode(bytes: seq<Byte>): (s: string)
    ensures |s| == |bytes|
    ensures forall i :: 0 <= i < |s| ==> s[i] as int == bytes[i]
  {
    seq(|bytes|, i requires 0 <= i < |bytes| => bytes[i] as char)
  }

  /** `atob`: forgiving-base64 decode followed by isomorphic decoding into a string. */
  function Atob(data: string): (r: Option<string>)
    ensures r.Some? <==> ForgivingDecode(data).Some?
    ensures r.Some? ==> forall i :: 0 <= i < |r.value| ==> r.value[i] as int < 256
  {
    match ForgivingDecode(data)
    case None => None
    case Some(bytes) => Some(IsomorphicDecode(bytes))
  }

  // ---------------------------------------------------------------------------
  // Encoding (section 4 of RFC 4648)
  // ---------------------------------------------------------------------------

  /** The encoding without its trailing '=' characters. */
  function EncodeUnpadded(b: seq<Byte>): (s: string)
    ensures AllAlphabet(s)
    ensures |s| == (|b| * 4 + 2) / 3
    decreases |b|
  {
    if |b| == 0 then []
    else if |b| == 1 then
      [SextetChar(b[0] / 4), SextetChar((b[0] % 4) * 16)]
    else if |b| == 2 then
      [SextetChar(b[0] / 4), SextetChar((b[0] % 4) * 16 + b[1] / 16), SextetChar((b[1] % 16) * 4)]
    else
      [SextetChar(b[0] / 4), SextetChar((b[0] % 4) * 16 + b[1] / 16),
       SextetChar((b[1] % 16) * 4 + b[2] / 64), SextetChar(b[2] % 64)]
      + EncodeUnpadded(b[3..])
  }

  /** The padding that completes the last four-character group. */
  function Padding(n: nat): string {
    if n % 3 == 1 then "==" else if n % 3 == 2 then "=" else ""
  }

  /** Base64 encoding with padding, as section 4 of RFC 4648 defines it. */
  function Encode(b: seq<Byte>): (s: string)
    ensures |s| % 4 == 0 && |s| == (|b| + 2) / 3 * 4
  {
    EncodeUnpadded(b) + Padding(|b|)
  }

  // ---------------------------------------------------------------------------
  // Properties
  // ---------------------------------------------------------------------------

  /** A string without whitespace passes step 1 untouched. */
  lemma {:induction false} RemoveWhitespaceNoop(s: string)
    requires forall i :: 0 <= i < |s| ==> !IsAsciiWhitespace(s[i])
    ensures RemoveWhitespace(s) == s
    decreases |s|
  {
    if s != [] {
      RemoveWhitespaceNoop(s[1..]);
    }
  }

  /** Step 1 works character by character, so it distributes over concatenation. */
  lemma {:induction false} RemoveWhitespaceAppend(x: string, y: string)
    ensures RemoveWhitespace(x + y) == RemoveWhitespace(x) + RemoveWhitespace(y)
    decreases |x|
  {
    if x == [] {
      assert x + y == y;
    } else {
      assert (x + y)[0] == x[0];
      assert (x + y)[1..] == x[1..] + y;
      RemoveWhitespaceAppend(x[1..], y);
    }
  }

  /** A run of whitespace disappears entirely in step 1. */
  lemma {:induction false} RemoveWhitespaceOfBlank(w: string)
    requires forall i :: 0 <= i < |w| ==> IsAsciiWhitespace(w[i])
    ensures RemoveWhitespace(w) == []
    decreases |w|
  {
    if w != [] {
      RemoveWhitespaceOfBlank(w[1..]);
    }
  }

  /** Decoding looks at its input only through what step 1 leaves of it. */
  lemma DecodeAfterStep1(a: string, b: string)
    requires RemoveWhitespace(a) == RemoveWhitespace(b)
    ensures ForgivingDecode(a) == ForgivingDecode(b)
  {
  }

  /** Whitespace inserted anywhere in the input does not change what is decoded. */
  lemma WhitespaceIsIgnored(x: string, w: string, y: string)
    requires forall i :: 0 <= i < |w| ==> IsAsciiWhitespace(w[i])
    ensures ForgivingDecode(x + w + y) == ForgivingDecode(x + y)
  {
    RemoveWhitespaceAppend(x + w, y);
    RemoveWhitespaceAppend(x, w);
    RemoveWhitespaceAppend(x, y);
    RemoveWhitespaceOfBlank(w);
    assert RemoveWhitespace(x) + [] == RemoveWhitespace(x);
    DecodeAfterStep1(x + w + y, x + y);
  }

  /** A character that is neither whitespace, '=' nor in the alphabet makes decoding fail. */
  lemma RejectsForeignCharacter(data: string, i: nat)
    requires i < |data|
    requires !IsAsciiWhitespace(data[i]) && !IsAlphabetChar(data[i]) && data[i] != '='
    ensures ForgivingDecode(data) == None
  {
  }

  /** An input of 4k+1 alphabet characters leaves a lone six bits over and is rejected. */
  lemma RejectsLengthOneModFour(data: string)
    requires AllAlphabet(data) && |data| % 4 == 1
    ensures ForgivingDecode(data) == None
  {
    forall i | 0 <= i < |data| ensures !IsAsciiWhitespace(data[i]) {
      assert IsAlphabetChar(data[i]);
    }
    RemoveWhitespaceNoop(data);
  }

  /** The first four characters of an encoding, when there are at least three bytes. */
  lemma EncodeUnpaddedHead(b: seq<Byte>)
    requires |b| >= 3
    ensures EncodeUnpadded(b)[..4] == [SextetChar(b[0] / 4), SextetChar((b[0] % 4) * 16 + b[1] / 16),
                                       SextetChar((b[1] % 16) * 4 + b[2] / 64), SextetChar(b[2] % 64)]
    ensures EncodeUnpadded(b)[4..] == EncodeUnpadded(b[3..])
  {
  }

  /** A full quantum of four characters decodes to three bytes, then the rest follows. */
  lemma DecodeQuantaHead(s: string)
    requires AllAlphabet(s) && |s| % 4 != 1 && |s| >= 4
    ensures var a, b, c, d := SextetValue(s[0]), SextetValue(s[1]), SextetValue(s[2]), SextetValue(s[3]);
            DecodeQuanta(s) == [a * 4 + b / 16, (b % 16) * 16 + c / 4, (c % 4) * 64 + d] + DecodeQuanta(s[4..])
  {
  }

  /** The sextets of an encoded group of three bytes give those bytes back. */
  lemma DecodeGroup(b0: Byte, b1: Byte, b2: Byte)
    ensures var v0, v1, v2, v3 := b0 / 4, (b0 % 4) * 16 + b1 / 16, (b1 % 16) * 4 + b2 / 64, b2 % 64;
            v0 * 4 + v1 / 16 == b0 && (v1 % 16) * 16 + v2 / 4 == b1 && (v2 % 4) * 64 + v3 == b2
  {
  }

  /** Decoding the two or three characters of a final short group gives back its bytes. */
  lemma DecodeShortGroup(b: seq<Byte>)
    requires 1 <= |b| <= 2
    ensures |EncodeUnpadded(b)| % 4 != 1
    ensures DecodeQuanta(EncodeUnpadded(b)) == b
  {
    if |b| == 1 {
      var v0, v1 := b[0] / 4, (b[0] % 4) * 16;
      assert v0 * 4 + v1 / 16 == b[0];
    } else {
      var v0, v1, v2 := b[0] / 4, (b[0] % 4) * 16 + b[1] / 16, (b[1] % 16) * 4;
      assert v0 * 4 + v1 / 16 == b[0];
      assert (v1 % 16) * 16 + v2 / 4 == b[1];
    }
  }

  /** Decoding inverts the unpadded encoding, for every length. */
  lemma {:induction false} DecodeEncodeUnpadded(b: seq<Byte>)
    ensures |EncodeUnpadded(b)| % 4 != 1
    ensures DecodeQuanta(EncodeUnpadded(b)) == b
    decreases |b|
  {
    var s := EncodeUnpadded(b);
    if |b| == 0 {
    } else if |b| <= 2 {
      DecodeShortGroup(b);
    } else {
      EncodeUnpaddedHead(b);
      assert s[..4][0] == s[0] && s[..4][1] == s[1] && s[..4][2] == s[2] && s[..4][3] == s[3];
      DecodeQuantaHead(s);
      DecodeGroup(b[0], b[1], b[2]);
      DecodeEncodeUnpadded(b[3..]);
      var r := DecodeQuanta(s);
      assert r == r[..3] + r[3..];
      assert b == b[..3] + b[3..];
    }
  }

  /** Padding removal recovers the unpadded encoding from the padded one. */
  lemma CanonicalOfEncode(b: seq<Byte>)
    ensures Canonical(Encode(b)) == EncodeUnpadded(b)
  {
    var u := EncodeUnpadded(b);
    var s := Encode(b);
    forall i | 0 <= i < |s| ensures !IsAsciiWhitespace(s[i]) {
      if i < |u| {
        assert s[i] == u[i];
      }
    }
    RemoveWhitespaceNoop(s);
    if |b| % 3 == 0 {
      assert s == u;
      if |u| > 0 {
        assert IsAlphabetChar(u[|u| - 1]);
      }
    } else if |b| % 3 == 1 {
      assert s == u + "==";
      assert s[..|s| - 2] == u;
    } else {
      assert s == u + "=";
      assert IsAlphabetChar(u[|u| - 1]);
      assert s[|s| - 2] == u[|u| - 1];
      assert s[..|s| - 1] == u;
    }
  }

  /** Round trip: decoding an RFC 4648 encoding reproduces the bytes exactly. */
  lemma RoundTrip(b: seq<Byte>)
    ensures ForgivingDecode(Encode(b)) == Some(b)
  {
    CanonicalOfEncode(b);
    DecodeEncodeUnpadded(b);
  }

  /** The decoder is forgiving about padding: the encoding without its '=' decodes as well. */
  lemma RoundTripUnpadded(b: seq<Byte>)
    ensures ForgivingDecode(EncodeUnpadded(b)) == Some(b)
  {
    var u := EncodeUnpadded(b);
    forall i | 0 <= i < |u| ensures !IsAsciiWhitespace(u[i]) {
      assert IsAlphabetChar(u[i]);
    }
    RemoveWhitespaceNoop(u);
    if |u| % 4 == 0 && |u| > 0 {
      assert IsAlphabetChar(u[|u| - 1]);
    }
    assert Canonical(u) == u;
    DecodeEncodeUnpadded(b);
  }

  /** The four-character input "xy==" decodes to the one byte its high twelve bits begin with. */
  lemma DecodeSingleBytePadded(c0: char, c1: char)
    requires IsAlphabetChar(c0) && IsAlphabetChar(c1)
    ensures ForgivingDecode([c0, c1, '=', '=']) == Some([SextetValue(c0) * 4 + SextetValue(c1) / 16])
  {
    var s := [c0, c1, '=', '='];
    RemoveWhitespaceNoop(s);
    assert DropPadding(s) == [c0, c1];
    assert Canonical(s) == [c0, c1];
  }

  /**
    The decoder is lenient about the discarded low bits: "QR==" and "QQ==" both
    decode to the single byte 0x41, although only the second is canonical.
  */
  lemma DiscardedBitsAreIgnored()
    ensures ForgivingDecode("QR==") == Some([0x41])
    ensures ForgivingDecode("QQ==") == Some([0x41])
  {
    assert "QR==" == ['Q', 'R', '=', '='];
    assert "QQ==" == ['Q', 'Q', '=', '='];
    DecodeSingleBytePadded('Q', 'R');
    DecodeSingleBytePadded('Q', 'Q');
    assert SextetValue('Q') * 4 + SextetValue('R') / 16 == 0x41;
    assert SextetValue('Q') * 4 + SextetValue('Q') / 16 == 0x41;
  }
}

/**
  The standard base64 encoding of section 4 of RFC 4648 (alphabet A-Z a-z 0-9 + /,
  padding with '='), and the ASCII conversions the glue runner applies around it
  before a job's `--config` argument is handed to the job engine.
*/
module Base64 {
  import opened Wrappers

  type Byte = b: int | 0 <= b < 256
  type Sextet = d: int | 0 <= d < 64

  const Pad: char := '='

  predicate IsLetter(c: char) {
    'A' <= c <= 'Z' || 'a' <= c <= 'z' || '0' <= c <= '9' || c == '+' || c == '/'
  }

  /** The letter that encodes `d` (Table 1 of RFC 4648: A-Z, a-z, 0-9, '+', '/'). */
  function Letter(d: Sextet): (c: char)
    ensures IsLetter(c) && c != Pad
  {
    if d < 26 then ('A' as int + d) as char
    else if d < 52 then ('a' as int + (d - 26)) as char
    else if d < 62 then ('0' as int + (d - 52)) as char
    else if d == 62 then '+'
    else '/'
  }

  /** The 6-bit value a letter stands for. */
  function Value(c: char): (d: Sextet)
    requires IsLetter(c)
  {
    if 'A' <= c <= 'Z' then c as int - 'A' as int
    else if 'a' <= c <= 'z' then c as int - 'a' as int + 26
    else if '0' <= c <= '9' then c as int - '0' as int + 52
    else if c == '+' then 62
    else 63
  }

  lemma ValueOfLetter(d: Sextet)
    ensures Value(Letter(d)) == d
  {
  }

  lemma LetterOfValue(c: char)
    requires IsLetter(c)
    ensures Letter(Value(c)) == c
  {
  }

  /** The four letters of a full three-byte group. */
  function EncodeGroup(b0: Byte, b1: Byte, b2: Byte): string {
    [Letter(b0 / 4), Letter((b0 % 4) * 16 + b1 / 16), Letter((b1 % 16) * 4 + b2 / 64), Letter(b2 % 64)]
  }

  /** base64 of a byte string (Python's `base64.b64encode`). */
  function Encode(s: seq<Byte>): (r: string)
    decreases |s|
  {
    if |s| == 0 then ""
    else if |s| == 1 then [Letter(s[0] / 4), Letter((s[0] % 4) * 16), Pad, Pad]
    else if |s| == 2 then [Letter(s[0] / 4), Letter((s[0] % 4) * 16 + s[1] / 16), Letter((s[1] % 16) * 4), Pad]
    else EncodeGroup(s[0], s[1], s[2]) + Encode(s[3..])
  }

  /** Decoding of a four-letter quantum into its three bytes. */
  function DecodeGroup(c0: Sextet, c1: Sextet, c2: Sextet, c3: Sextet): seq<Byte> {
    [c0 * 4 + c1 / 16, (c1 % 16) * 16 + c2 / 4, (c2 % 4) * 64 + c3]
  }

  /** A quantum of four letters, decoded into its three bytes. */
  function DecodeFull(q: string): Option<seq<Byte>>
    requires |q| == 4
  {
    if IsLetter(q[0]) && IsLetter(q[1]) && IsLetter(q[2]) && IsLetter(q[3]) then
      Some(DecodeGroup(Value(q[0]), Value(q[1]), Value(q[2]), Value(q[3])))
    else None
  }

  /** The final quantum, which may carry one or two pad characters. */
  function DecodeLast(q: string): Option<seq<Byte>>
    requires |q| == 4
  {
    if IsLetter(q[0]) && IsLetter(q[1]) && q[2] == Pad && q[3] == Pad then
      Some([Value(q[0]) * 4 + Value(q[1]) / 16])
    else if IsLetter(q[0]) && IsLetter(q[1]) && IsLetter(q[2]) && q[3] == Pad then
      Some([Value(q[0]) * 4 + Value(q[1]) / 16, (Value(q[1]) % 16) * 16 + Value(q[2]) / 4])
    else DecodeFull(q)
  }

  /** base64 decoding; `None` for a text that is not a sequence of padded quanta. */
  function Decode(t: string): (r: Option<seq<Byte>>)
    decreases |t|
  {
    if |t| == 0 then Some([])
    else if |t| < 4 then None
    else if |t| == 4 then DecodeLast(t)
    else match (DecodeFull(t[..4]), Decode(t[4..]))
      case (Some(first), Some(rest)) => Some(first + rest)
      case _ => None
  }

  lemma FullLetters(c0: Sextet, c1: Sextet, c2: Sextet, c3: Sextet)
    ensures DecodeFull([Letter(c0), Letter(c1), Letter(c2), Letter(c3)]) == Some(DecodeGroup(c0, c1, c2, c3))
  {
    ValueOfLetter(c0); ValueOfLetter(c1); ValueOfLetter(c2); ValueOfLetter(c3);
  }

  lemma LastTwoLetters(c0: Sextet, c1: Sextet, c2: Sextet)
    ensures DecodeLast([Letter(c0), Letter(c1), Letter(c2), Pad]) == Some([c0 * 4 + c1 / 16, (c1 % 16) * 16 + c2 / 4])
  {
    ValueOfLetter(c0); ValueOfLetter(c1); ValueOfLetter(c2);
  }

  lemma LastOneLetters(c0: Sextet, c1: Sextet)
    ensures DecodeLast([Letter(c0), Letter(c1), Pad, Pad]) == Some([c0 * 4 + c1 / 16])
  {
    ValueOfLetter(c0); ValueOfLetter(c1);
  }

  /** The arithmetic of one group: the four 6-bit values give back the three bytes. */
  lemma GroupArithmetic(b0: Byte, b1: Byte, b2: Byte)
    ensures DecodeGroup(b0 / 4, (b0 % 4) * 16 + b1 / 16, (b1 % 16) * 4 + b2 / 64, b2 % 64) == [b0, b1, b2]
  {
  }

  lemma TwoArithmetic(b0: Byte, b1: Byte)
    ensures (b0 / 4) * 4 + ((b0 % 4) * 16 + b1 / 16) / 16 == b0
    ensures (((b0 % 4) * 16 + b1 / 16) % 16) * 16 + ((b1 % 16) * 4) / 4 == b1
  {
  }

  lemma GroupRoundTrip(b0: Byte, b1: Byte, b2: Byte)
    ensures DecodeFull(EncodeGroup(b0, b1, b2)) == Some([b0, b1, b2])
  {
    FullLetters(b0 / 4, (b0 % 4) * 16 + b1 / 16, (b1 % 16) * 4 + b2 / 64, b2 % 64);
    GroupArithmetic(b0, b1, b2);
  }

  lemma DecodeLastOne(b0: Byte)
    ensures Decode(Encode([b0])) == Some([b0])
  {
    LastOneLetters(b0 / 4, (b0 % 4) * 16);
  }

  lemma DecodeLastTwo(b0: Byte, b1: Byte)
    ensures Decode(Encode([b0, b1])) == Some([b0, b1])
  {
    LastTwoLetters(b0 / 4, (b0 % 4) * 16 + b1 / 16, (b1 % 16) * 4);
    TwoArithmetic(b0, b1);
  }

  lemma DecodeQuantum(s: seq<Byte>, t: string, g: string, u: string)
    requires |s| >= 3 && t == g + u && |g| == 4
    requires DecodeFull(g) == Some(s[..3]) && Decode(u) == Some(s[3..])
    ensures Decode(t) == Some(s)
  {
    assert t[..4] == g && t[4..] == u;
    if u == [] {
      assert t == g;
      assert t[2] != Pad && t[3] != Pad;
      assert s == s[..3];
    } else {
      assert s == s[..3] + s[3..];
    }
  }

  lemma EncodeFirstGroup(s: seq<Byte>) returns (g: string)
    requires |s| >= 3
    ensures |g| == 4 && Encode(s) == g + Encode(s[3..]) && DecodeFull(g) == Some(s[..3])
  {
    g := EncodeGroup(s[0], s[1], s[2]);
    GroupRoundTrip(s[0], s[1], s[2]);
    assert s[..3] == [s[0], s[1], s[2]];
  }

  /** Decoding undoes encoding, for every byte string. */
  lemma {:induction false} DecodeEncode(s: seq<Byte>)
    ensures Decode(Encode(s)) == Some(s)
    decreases |s|
  {
    if |s| == 1 {
      DecodeLastOne(s[0]);
      assert s == [s[0]];
    } else if |s| == 2 {
      DecodeLastTwo(s[0], s[1]);
      assert s == [s[0], s[1]];
    } else if |s| >= 3 {
      DecodeEncode(s[3..]);
      var g := EncodeFirstGroup(s);
      DecodeQuantum(s, Encode(s), g, Encode(s[3..]));
    }
  }

  /** Four output characters for every three input bytes, the last group padded. */
  lemma {:induction false} EncodedLength(s: seq<Byte>)
    ensures |Encode(s)| == 4 * ((|s| + 2) / 3)
    decreases |s|
  {
    if |s| >= 3 {
      EncodedLength(s[3..]);
      var g := EncodeFirstGroup(s);
      var n := |s| - 3;
      assert (n + 3 + 2) / 3 == (n + 2) / 3 + 1;
    }
  }

  /** The output uses only the 64 letters and the pad character. */
  lemma {:induction false} EncodedAlphabet(s: seq<Byte>)
    ensures forall i :: 0 <= i < |Encode(s)| ==> IsLetter(Encode(s)[i]) || Encode(s)[i] == Pad
    decreases |s|
  {
    if |s| >= 3 {
      EncodedAlphabet(s[3..]);
      assert Encode(s) == EncodeGroup(s[0], s[1], s[2]) + Encode(s[3..]);
    }
  }

  /** `str.encode("ascii")`: the code points, or `None` (UnicodeEncodeError) past 127. */
  function AsciiEncode(s: string): (r: Option<seq<Byte>>)
    ensures r.Some? <==> forall i :: 0 <= i < |s| ==> s[i] as int < 128
    ensures r.Some? ==> |r.value| == |s| && forall i :: 0 <= i < |s| ==> r.value[i] == s[i] as int
  {
    if forall i :: 0 <= i < |s| ==> s[i] as int < 128 then Some(seq(|s|, i requires 0 <= i < |s| => s[i] as int as Byte))
    else None
  }

  /** `bytes.decode("ascii")`: the characters, or `None` (UnicodeDecodeError) past 127. */
  function AsciiDecode(b: seq<Byte>): (r: Option<string>)
    ensures r.Some? <==> forall i :: 0 <= i < |b| ==> b[i] < 128
    ensures r.Some? ==> |r.value| == |b| && forall i :: 0 <= i < |b| ==> r.value[i] as int == b[i]
  {
    if forall i :: 0 <= i < |b| ==> b[i] < 128 then Some(seq(|b|, i requires 0 <= i < |b| => b[i] as char))
    else None
  }

  lemma AsciiRoundTrip(s: string)
    requires AsciiEncode(s).Some?
    ensures AsciiDecode(AsciiEncode(s).value) == Some(s)
  {
    var b := AsciiEncode(s).value;
    assert AsciiDecode(b).value == s;
  }

  /**
    What the glue runner puts in place of a job's `--config` value:
    `b64encode(config.encode("ascii")).decode("ascii")`. `None` when the
    ASCII encoding raises.
  */
  function EncodeConfig(config: string): (r: Option<string>)
    ensures r.Some? <==> AsciiEncode(config).Some?
  {
    match AsciiEncode(config)
    case None => None
    case Some(bytes) => Some(Encode(bytes))
  }

  /** What the job side does to recover the configuration text. */
  function DecodeConfig(text: string): Option<string> {
    match Decode(text)
    case None => None
    case Some(bytes) => AsciiDecode(bytes)
  }

  /** The job gets back exactly the configuration the runner was given. */
  lemma ConfigRoundTrip(config: string)
    requires EncodeConfig(config).Some?
    ensures DecodeConfig(EncodeConfig(config).value) == Some(config)
  {
    var bytes := AsciiEncode(config).value;
    DecodeEncode(bytes);
    AsciiRoundTrip(config);
  }
}

/** The standard base64 alphabet with padding (section 4 of RFC 4648), as the agent and the relay use it
    to carry bytes inside JSON messages. */
module Base64 {
  import opened Common

  function Digit(i: int): char
    requires 0 <= i < 64
  {
    if i < 26 then 'A' + i as char
    else if i < 52 then 'a' + (i - 26) as char
    else if i < 62 then '0' + (i - 52) as char
    else if i == 62 then '+'
    else '/'
  }

  function Value(c: char): (v: Option<int>)
    ensures v.Some? ==> 0 <= v.value < 64 && Digit(v.value) == c
  {
    if 'A' <= c <= 'Z' then Some(c as int - 'A' as int)
    else if 'a' <= c <= 'z' then Some(c as int - 'a' as int + 26)
    else if '0' <= c <= '9' then Some(c as int - '0' as int + 52)
    else if c == '+' then Some(62)
    else if c == '/' then Some(63)
    else None
  }

  lemma ValueOfDigit(i: int)
    requires 0 <= i < 64
    ensures Value(Digit(i)) == Some(i) && Digit(i) !in {'=', '\r', '\n'}
  {
  }

  function Quad(b0: byte, b1: byte, b2: byte): string {
    [Digit(b0 / 4), Digit(b0 % 4 * 16 + b1 / 16), Digit(b1 % 16 * 4 + b2 / 64), Digit(b2 % 64)]
  }

  /** Three bytes become four digits; a last group of one or two bytes is padded. */
  function Encode(b: seq<byte>): string {
    if |b| == 0 then ""
    else if |b| == 1 then
      [Digit(b[0] / 4), Digit(b[0] % 4 * 16), '=', '=']
    else if |b| == 2 then
      [Digit(b[0] / 4), Digit(b[0] % 4 * 16 + b[1] / 16), Digit(b[1] % 16 * 4), '=']
    else Quad(b[0], b[1], b[2]) + Encode(b[3..])
  }

  /** Line breaks inside the text are ignored by the decoder. */
  function Strip(s: string): string {
    if s == "" then ""
    else if s[0] == '\r' || s[0] == '\n' then Strip(s[1..])
    else [s[0]] + Strip(s[1..])
  }

  function Quads(s: string): Option<seq<byte>> {
    if |s| == 0 then Some([])
    else if |s| < 4 then None
    else
      var v0, v1 := Value(s[0]), Value(s[1]);
      if v0.None? || v1.None? then None
      else if s[3] == '=' && s[2] == '=' then
        if |s| == 4 then Some([v0.value * 4 + v1.value / 16]) else None
      else
        var v2 := Value(s[2]);
        if v2.None? then None
        else if s[3] == '=' then
          if |s| == 4 then Some([v0.value * 4 + v1.value / 16, v1.value % 16 * 16 + v2.value / 4]) else None
        else
          var v3 := Value(s[3]);
          if v3.None? then None
          else
            match Quads(s[4..])
            case None => None
            case Some(rest) =>
              Some([v0.value * 4 + v1.value / 16, v1.value % 16 * 16 + v2.value / 4, v2.value % 4 * 64 + v3.value]
                   + rest)
  }

  function Decode(s: string): Option<seq<byte>> {
    Quads(Strip(s))
  }

  ghost predicate NoLineBreaks(s: string) {
    forall i :: 0 <= i < |s| ==> s[i] != '\r' && s[i] != '\n'
  }

  /** Splitting three bytes into four digit values loses nothing. */
  lemma Regroup(b0: byte, b1: byte, b2: byte)
    ensures b0 / 4 * 4 + (b0 % 4 * 16 + b1 / 16) / 16 == b0
    ensures (b0 % 4 * 16 + b1 / 16) % 16 * 16 + (b1 % 16 * 4 + b2 / 64) / 4 == b1
    ensures (b1 % 16 * 4 + b2 / 64) % 4 * 64 + b2 % 64 == b2
  {
  }

  lemma QuadsOfGroup(b0: byte, b1: byte, b2: byte, rest: string, bytes: seq<byte>)
    requires NoLineBreaks(rest) && Quads(rest) == Some(bytes)
    ensures NoLineBreaks(Quad(b0, b1, b2) + rest) && Quads(Quad(b0, b1, b2) + rest) == Some([b0, b1, b2] + bytes)
  {
    var d0, d1, d2, d3 := b0 / 4, b0 % 4 * 16 + b1 / 16, b1 % 16 * 4 + b2 / 64, b2 % 64;
    ValueOfDigit(d0);
    ValueOfDigit(d1);
    ValueOfDigit(d2);
    ValueOfDigit(d3);
    Regroup(b0, b1, b2);
    var s := [Digit(d0), Digit(d1), Digit(d2), Digit(d3)] + rest;
    assert s[4..] == rest;
  }

  lemma QuadsOfOne(b0: byte)
    ensures var pad := [Digit(b0 / 4), Digit(b0 % 4 * 16), '=', '='];
            NoLineBreaks(pad) && Quads(pad) == Some([b0])
  {
    ValueOfDigit(b0 / 4);
    ValueOfDigit(b0 % 4 * 16);
  }

  lemma QuadsOfTwo(b0: byte, b1: byte)
    ensures var pad := [Digit(b0 / 4), Digit(b0 % 4 * 16 + b1 / 16), Digit(b1 % 16 * 4), '='];
            NoLineBreaks(pad) && Quads(pad) == Some([b0, b1])
  {
    var d0, d1, d2 := b0 / 4, b0 % 4 * 16 + b1 / 16, b1 % 16 * 4;
    ValueOfDigit(d0);
    ValueOfDigit(d1);
    ValueOfDigit(d2);
    Regroup(b0, b1, 0);
  }

  lemma EncodeShort(b: seq<byte>)
    ensures |b| == 1 ==> Encode(b) == [Digit(b[0] / 4), Digit(b[0] % 4 * 16), '=', '=']
    ensures |b| == 2 ==>
              Encode(b) == [Digit(b[0] / 4), Digit(b[0] % 4 * 16 + b[1] / 16), Digit(b[1] % 16 * 4), '=']
  {
  }

  lemma QuadsOfShort(b: seq<byte>)
    requires |b| == 1 || |b| == 2
    ensures Quads(Encode(b)) == Some(b) && NoLineBreaks(Encode(b))
  {
    EncodeShort(b);
    if |b| == 1 {
      QuadsOfOne(b[0]);
      assert b == [b[0]];
    } else {
      QuadsOfTwo(b[0], b[1]);
      assert b == [b[0], b[1]];
    }
  }

  lemma {:induction false} QuadsOfEncode(b: seq<byte>)
    ensures Quads(Encode(b)) == Some(b)
    ensures NoLineBreaks(Encode(b))
  {
    if |b| == 0 {
    } else if |b| <= 2 {
      QuadsOfShort(b);
    } else {
      var rest := b[3..];
      QuadsOfEncode(rest);
      QuadsOfGroup(b[0], b[1], b[2], Encode(rest), rest);
      assert [b[0], b[1], b[2]] + rest == b;
    }
  }

  lemma {:induction false} StripClean(s: string)
    requires NoLineBreaks(s)
    ensures Strip(s) == s
  {
    if s == "" {
    } else {
      StripClean(s[1..]);
      assert s == [s[0]] + s[1..];
    }
  }

  /** Decoding what was encoded gives the bytes back, and only the empty list encodes to the empty text. */
  lemma DecodeEncode(b: seq<byte>)
    ensures Decode(Encode(b)) == Some(b)
    ensures Encode(b) == "" <==> b == []
  {
    QuadsOfEncode(b);
    StripClean(Encode(b));
  }

  /** The test vectors of section 10 of RFC 4648, for the bytes of "foobar". */
  lemma Vectors()
    ensures Encode([]) == "" && Encode([102]) == "Zg==" && Encode([102, 111]) == "Zm8="
    ensures Encode([102, 111, 111]) == "Zm9v" && Encode([102, 111, 111, 98]) == "Zm9vYg=="
    ensures Encode([102, 111, 111, 98, 97]) == "Zm9vYmE=" && Encode([102, 111, 111, 98, 97, 114]) == "Zm9vYmFy"
  {
    assert [102, 111, 111, 98][3..] == [98];
    assert [102, 111, 111, 98, 97][3..] == [98, 97];
    assert [102, 111, 111, 98, 97, 114][3..] == [98, 97, 114];
  }

  /** Table 1 of RFC 4648: the capital letters, the small ones, the digits, and two more. */
  lemma Alphabet(i: int)
    requires 0 <= i < 64
    ensures Digit(0) == 'A' && Digit(25) == 'Z' && Digit(26) == 'a' && Digit(51) == 'z'
    ensures Digit(52) == '0' && Digit(61) == '9' && Digit(62) == '+' && Digit(63) == '/'
    ensures i < 62 && i != 25 && i != 51 && i != 61 ==> Digit(i + 1) as int == Digit(i) as int + 1
  {
  }
}

/** UTF-8 text and the incremental decoder at the phone's end of the byte stream. A character may be cut
    anywhere by the transport, so the decoder keeps the bytes of an unfinished character. */
module Utf8 {
  import opened Common

  function EncodeChar(c: char): seq<byte> {
    var n := c as int;
    if n < 0x80 then [n]
    else if n < 0x800 then [0xC0 + n / 64, 0x80 + n % 64]
    else if n < 0x1_0000 then [0xE0 + n / 4096, 0x80 + n / 64 % 64, 0x80 + n % 64]
    else [0xF0 + n / 262144, 0x80 + n / 4096 % 64, 0x80 + n / 64 % 64, 0x80 + n % 64]
  }

  function Encode(s: string): seq<byte> {
    FlatMap(EncodeChar, s)
  }

  datatype Verdict = Partial | Complete(c: char) | Malformed

  /** How many bytes a character takes, by its first byte; 0 when no character starts so. */
  function Length(lead: byte): int {
    if lead < 0x80 then 1
    else if 0xC2 <= lead <= 0xDF then 2
    else if 0xE0 <= lead <= 0xEF then 3
    else if 0xF0 <= lead <= 0xF4 then 4
    else 0
  }

  predicate Continuation(b: byte) {
    0x80 <= b <= 0xBF
  }

  /** Overlong forms, surrogates and numbers beyond the last code point are malformed. */
  function Scalar(n: int, least: int): Verdict {
    if n < 0 || n < least then Malformed
    else if n < 0xD800 || 0xE000 <= n < 0x11_0000 then Complete(n as char)
    else Malformed
  }

  function Bits(b: byte, tag: int): int {
    b - tag
  }

  /** What the bytes seen since the last whole character amount to. */
  function Classify(p: seq<byte>): Verdict
    requires p != []
  {
    var n := Length(p[0]);
    if n == 0 || |p| > n || exists i :: 1 <= i < |p| && !Continuation(p[i]) then Malformed
    else if |p| < n then Partial
    else if n == 1 then Scalar(p[0], 0)
    else if n == 2 then Scalar(Bits(p[0], 0xC0) * 64 + Bits(p[1], 0x80), 0x80)
    else if n == 3 then Scalar(Bits(p[0], 0xE0) * 4096 + Bits(p[1], 0x80) * 64 + Bits(p[2], 0x80), 0x800)
    else
      Scalar(Bits(p[0], 0xF0) * 262144 + Bits(p[1], 0x80) * 4096 + Bits(p[2], 0x80) * 64 + Bits(p[3], 0x80), 0x1_0000)
  }

  datatype State = State(pending: seq<byte>, text: string, ok: bool)

  const START := State([], "", true)

  function Step(s: State, b: byte): State {
    if !s.ok then s
    else
      match Classify(s.pending + [b])
      case Partial => s.(pending := s.pending + [b])
      case Complete(c) => State([], s.text + [c], true)
      case Malformed => s.(ok := false)
  }

  lemma TwoBytes(n: int)
    requires 0x80 <= n < 0x800
    ensures var e: seq<byte> := [0xC0 + n / 64, 0x80 + n % 64];
            Length(e[0]) == 2 && Classify(e) == Complete(n as char)
  {
  }

  lemma ThreeBytes(n: int)
    requires 0x800 <= n < 0xD800 || 0xE000 <= n < 0x1_0000
    ensures var e: seq<byte> := [0xE0 + n / 4096, 0x80 + n / 64 % 64, 0x80 + n % 64];
            Length(e[0]) == 3 && Continuation(e[1]) && Classify(e) == Complete(n as char)
  {
    assert n / 4096 * 4096 + n / 64 % 64 * 64 + n % 64 == n;
  }

  lemma FourBytes(n: int)
    requires 0x1_0000 <= n < 0x11_0000
    ensures var e: seq<byte> := [0xF0 + n / 262144, 0x80 + n / 4096 % 64, 0x80 + n / 64 % 64, 0x80 + n % 64];
            Length(e[0]) == 4 && Continuation(e[1]) && Continuation(e[2]) && Classify(e) == Complete(n as char)
  {
    assert n / 262144 * 262144 + n / 4096 % 64 * 4096 + n / 64 % 64 * 64 + n % 64 == n;
  }

  lemma CharIsClassified(c: char)
    ensures var e := EncodeChar(c);
            && 1 <= |e| <= 4
            && Classify(e) == Complete(c)
            && forall k :: 1 <= k < |e| ==> Classify(e[..k]) == Partial
  {
    var n := c as int;
    if 0x80 <= n < 0x800 {
      TwoBytes(n);
    } else if 0x800 <= n < 0x1_0000 {
      ThreeBytes(n);
    } else if 0x1_0000 <= n {
      FourBytes(n);
    }
  }

  lemma StepVerdict(s: State, b: byte, v: Verdict)
    requires s.ok && Classify(s.pending + [b]) == v
    ensures v.Partial? ==> Step(s, b) == s.(pending := s.pending + [b])
    ensures v.Complete? ==> Step(s, b) == State([], s.text + [v.c], true)
  {
  }

  lemma FeedPart(s: State, p: seq<byte>, b: byte)
    requires s.ok && s.pending == [] && Fold(Step, s, p) == s.(pending := p) && Classify(p + [b]) == Partial
    ensures Fold(Step, s, p + [b]) == s.(pending := p + [b])
  {
    FoldSnoc(Step, s, p, b);
    StepVerdict(s.(pending := p), b, Partial);
  }

  lemma FeedLast(s: State, p: seq<byte>, b: byte, c: char)
    requires s.ok && s.pending == [] && Fold(Step, s, p) == s.(pending := p) && Classify(p + [b]) == Complete(c)
    ensures Fold(Step, s, p + [b]) == s.(text := s.text + [c])
  {
    FoldSnoc(Step, s, p, b);
    StepVerdict(s.(pending := p), b, Complete(c));
  }

  lemma {:induction false} FeedPrefix(s: State, e: seq<byte>, k: nat)
    requires s.ok && s.pending == [] && k < |e| && forall j :: 1 <= j < |e| ==> Classify(e[..j]) == Partial
    ensures Fold(Step, s, e[..k]) == s.(pending := e[..k])
  {
    if k == 0 {
      assert e[..0] == [];
    } else {
      FeedPrefix(s, e, k - 1);
      assert e[..k] == e[..k - 1] + [e[k - 1]];
      FeedPart(s, e[..k - 1], e[k - 1]);
    }
  }

  /** A group whose proper prefixes are unfinished and which is complete as a whole adds its character. */
  lemma FeedGroup(s: State, e: seq<byte>, c: char)
    requires s.ok && s.pending == [] && 1 <= |e| <= 4
    requires Classify(e) == Complete(c) && forall k :: 1 <= k < |e| ==> Classify(e[..k]) == Partial
    ensures Fold(Step, s, e) == s.(text := s.text + [c])
  {
    var last := |e| - 1;
    assert e == e[..last] + [e[last]];
    FeedPrefix(s, e, last);
    FeedLast(s, e[..last], e[last], c);
  }

  lemma FeedChar(s: State, c: char)
    requires s.ok && s.pending == []
    ensures Fold(Step, s, EncodeChar(c)) == s.(text := s.text + [c])
  {
    CharIsClassified(c);
    var e := EncodeChar(c);
    FeedGroup(s, e, c);
  }

  lemma FeedMore(s: State, done: seq<byte>, t: string, c: char)
    requires s.ok && s.pending == []
    requires Fold(Step, s, done) == s.(text := s.text + t)
    ensures Fold(Step, s, done + EncodeChar(c)) == s.(text := s.text + (t + [c]))
  {
    var mid := s.(text := s.text + t);
    calc {
      Fold(Step, s, done + EncodeChar(c));
      { FoldAppend(Step, s, done, EncodeChar(c)); }
      Fold(Step, mid, EncodeChar(c));
      { FeedChar(mid, c); }
      mid.(text := mid.text + [c]);
      { assert s.text + t + [c] == s.text + (t + [c]); }
      s.(text := s.text + (t + [c]));
    }
  }

  /** Feeding a whole text's bytes adds exactly that text, with nothing left over. */
  lemma {:induction false} FeedText(s: State, t: string)
    requires s.ok && s.pending == []
    ensures Fold(Step, s, Encode(t)) == s.(text := s.text + t)
  {
    if t == "" {
      assert s.text + t == s.text;
    } else {
      var init, c := t[..|t| - 1], t[|t| - 1];
      FeedText(s, init);
      FeedMore(s, Encode(init), init, c);
      assert init + [c] == t;
    }
  }

  lemma TwoBack(a: byte, b: byte)
    requires 0xC2 <= a <= 0xDF && 0x80 <= b <= 0xBF
    ensures var n := (a - 0xC0) * 64 + (b - 0x80); 0x80 <= n < 0x800 && 0xC0 + n / 64 == a && 0x80 + n % 64 == b
  {
  }

  lemma ThreeBack(a: byte, b: byte, c: byte)
    requires 0xE0 <= a <= 0xEF && 0x80 <= b <= 0xBF && 0x80 <= c <= 0xBF
    ensures var n := (a - 0xE0) * 4096 + (b - 0x80) * 64 + (c - 0x80);
            n < 0x1_0000 && 0xE0 + n / 4096 == a && 0x80 + n / 64 % 64 == b && 0x80 + n % 64 == c
  {
    var n := (a - 0xE0) * 4096 + (b - 0x80) * 64 + (c - 0x80);
    assert n / 64 == (a - 0xE0) * 64 + (b - 0x80);
  }

  lemma FourBack(a: byte, b: byte, c: byte, d: byte)
    requires 0xF0 <= a <= 0xF4 && 0x80 <= b <= 0xBF && 0x80 <= c <= 0xBF && 0x80 <= d <= 0xBF
    ensures var n := (a - 0xF0) * 262144 + (b - 0x80) * 4096 + (c - 0x80) * 64 + (d - 0x80);
            0xF0 + n / 262144 == a && 0x80 + n / 4096 % 64 == b && 0x80 + n / 64 % 64 == c && 0x80 + n % 64 == d
  {
    var n := (a - 0xF0) * 262144 + (b - 0x80) * 4096 + (c - 0x80) * 64 + (d - 0x80);
    assert n / 64 == (a - 0xF0) * 4096 + (b - 0x80) * 64 + (c - 0x80);
    assert n / 4096 == (a - 0xF0) * 64 + (b - 0x80);
  }

  /** Only a character's own encoding is taken for it. */
  lemma ClassifiedIsEncoded(p: seq<byte>)
    requires p != [] && Classify(p).Complete?
    ensures EncodeChar(Classify(p).c) == p
  {
    var n := Length(p[0]);
    if n == 2 {
      TwoBack(p[0], p[1]);
      assert p == [p[0], p[1]];
    } else if n == 3 {
      ThreeBack(p[0], p[1], p[2]);
      assert p == [p[0], p[1], p[2]];
    } else if n == 4 {
      FourBack(p[0], p[1], p[2], p[3]);
      assert p == [p[0], p[1], p[2], p[3]];
    } else {
      assert p == [p[0]];
    }
  }

  lemma StepIsStrict(s: State, seen: seq<byte>, b: byte)
    requires s.ok ==> Encode(s.text) + s.pending == seen
    ensures Step(s, b).ok ==> s.ok && Encode(Step(s, b).text) + Step(s, b).pending == seen + [b]
  {
    if s.ok {
      AppendAppend(Encode(s.text), s.pending, [b]);
      var v := Classify(s.pending + [b]);
      if v.Complete? {
        ClassifiedIsEncoded(s.pending + [b]);
        FlatMapSnoc(EncodeChar, s.text, v.c);
      }
    }
  }

  /** The decoder is strict: bytes that it accepts are the encoding of the text it gives, so all others end in failure or in
      an unfinished character. */
  lemma Strict(bytes: seq<byte>)
    ensures var d := Fold(Step, START, bytes); d.ok ==> Encode(d.text) + d.pending == bytes
  {
    var holds := (d: State, seen: seq<byte>) => d.ok ==> Encode(d.text) + d.pending == seen;
    forall d: State, seen: seq<byte>, b: byte | holds(d, seen)
      ensures holds(Step(d, b), seen + [b])
    {
      StepIsStrict(d, seen, b);
    }
    FoldKeeps(Step, START, bytes, holds);
  }

  /** One character of each length, by its bytes. */
  lemma Examples()
    ensures EncodeChar('A') == [0x41] && EncodeChar('\U{E9}') == [0xC3, 0xA9]
    ensures EncodeChar('\U{20AC}') == [0xE2, 0x82, 0xAC] && EncodeChar('\U{1F600}') == [0xF0, 0x9F, 0x98, 0x80]
  {
  }
}

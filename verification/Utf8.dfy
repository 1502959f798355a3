// UTF-8 (RFC 3629, section 3), with surrogate code points written in three bytes like any other code
// point of their range, and a decoder that accepts exactly the shortest forms.
module Utf8 {
  import opened Common

  type CodePoint = c: int | 0 <= c <= 0x10_ffff

  /** The bytes of one code point, in the shortest form. */
  function Encoded(c: CodePoint): (r: seq<byte>)
    ensures |r| == EncodedLength(c)
  {
    if c <= 0x7f then [c]
    else if c <= 0x7ff then [0xc0 + c / 0x40, 0x80 + c % 0x40]
    else if c <= 0xffff then [0xe0 + c / 0x1000, 0x80 + c / 0x40 % 0x40, 0x80 + c % 0x40]
    else [0xf0 + c / 0x4_0000, 0x80 + c / 0x1000 % 0x40, 0x80 + c / 0x40 % 0x40, 0x80 + c % 0x40]
  }

  function EncodedLength(c: CodePoint): nat {
    if c <= 0x7f then 1 else if c <= 0x7ff then 2 else if c <= 0xffff then 3 else 4
  }

  function Encode(cs: seq<CodePoint>): seq<byte> {
    if |cs| == 0 then [] else Encode(cs[..|cs| - 1]) + Encoded(cs[|cs| - 1])
  }

  /** The length the lead byte announces; zero when no sequence starts with it. */
  function LengthFromLead(b: byte): nat {
    if b < 0x80 then 1 else if 0xc0 <= b < 0xe0 then 2 else if 0xe0 <= b < 0xf0 then 3 else if 0xf0 <= b < 0xf8 then 4 else 0
  }

  predicate Continues(b: byte) {
    0x80 <= b < 0xc0
  }

  /** The payload bits of a sequence of n bytes. */
  function Joined(s: seq<int>, n: nat): int
    requires 1 <= n <= 4 && n <= |s|
  {
    match n
    case 1 => s[0]
    case 2 => (s[0] - 0xc0) * 0x40 + (s[1] - 0x80)
    case 3 => ((s[0] - 0xe0) * 0x40 + (s[1] - 0x80)) * 0x40 + (s[2] - 0x80)
    case _ => (((s[0] - 0xf0) * 0x40 + (s[1] - 0x80)) * 0x40 + (s[2] - 0x80)) * 0x40 + (s[3] - 0x80)
  }

  /** The code point at the front of s: None for a bad lead, a bad continuation, an overlong form or a value too large. */
  function First(s: seq<byte>): (r: Option<CodePoint>)
    ensures r.Some? ==> 0 < EncodedLength(r.value) <= |s|
  {
    if |s| == 0 then None
    else
      var n := LengthFromLead(s[0]);
      if n == 0 || |s| < n || exists k :: 1 <= k < n && !Continues(s[k]) then None
      else
        var c := Joined(s, n);
        if 0 <= c <= 0x10_ffff && EncodedLength(c) == n then Some(c) else None
  }

  function Decode(s: seq<byte>): Option<seq<CodePoint>> {
    if |s| == 0 then Some([])
    else
      match First(s)
      case None => None
      case Some(c) =>
        match Decode(s[EncodedLength(c)..])
        case None => None
        case Some(rest) => Some([c] + rest)
  }

  lemma FirstInverts(c: CodePoint, rest: seq<byte>)
    ensures First(Encoded(c) + rest) == Some(c)
  {
    var s := Encoded(c) + rest;
    var n := EncodedLength(c);
    assert forall k :: 0 <= k < n ==> s[k] == Encoded(c)[k];
    if n == 3 {
      assert c / 0x1000 == c / 0x40 / 0x40;
    } else if n == 4 {
      assert c / 0x1000 == c / 0x40 / 0x40;
      assert c / 0x4_0000 == c / 0x1000 / 0x40;
    }
    assert LengthFromLead(s[0]) == n;
    assert forall k :: 1 <= k < n ==> Continues(s[k]);
  }

  lemma {:induction false} EncodeFront(c: CodePoint, cs: seq<CodePoint>)
    ensures Encode([c] + cs) == Encoded(c) + Encode(cs)
  {
    hide Encoded;
    if |cs| == 0 {
      assert [c] + cs == [c] && [c][..0] == [];
    } else {
      EncodeFront(c, cs[..|cs| - 1]);
      assert ([c] + cs)[..|cs|] == [c] + cs[..|cs| - 1];
    }
  }

  /** Decoding what was encoded gives back the code points, so no two texts share their bytes. */
  lemma {:induction false} DecodeInverts(cs: seq<CodePoint>)
    ensures Decode(Encode(cs)) == Some(cs)
    decreases |cs|
  {
    hide First; hide Encoded;
    if |cs| > 0 {
      var c, rest := cs[0], cs[1..];
      assert cs == [c] + rest;
      EncodeFront(c, rest);
      FirstInverts(c, Encode(rest));
      DecodeInverts(rest);
      assert Encode(cs)[EncodedLength(c)..] == Encode(rest);
      assert |Encoded(c)| > 0;
    }
  }

  lemma {:induction false} EncodeAppend(a: seq<CodePoint>, b: seq<CodePoint>)
    ensures Encode(a + b) == Encode(a) + Encode(b)
  {
    hide Encoded;
    if |b| == 0 {
      assert a + b == a;
    } else {
      EncodeAppend(a, b[..|b| - 1]);
      assert (a + b)[..|a + b| - 1] == a + b[..|b| - 1];
    }
  }
}

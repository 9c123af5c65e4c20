/** The encoder's UTF-8, read back by a decoder written apart from it: nothing is lost but lone surrogates. */
module Utf8RoundTrip {
  import opened Abi
  import opened HeaderText
  import opened EncodeHeaders

  const REPLACEMENT: Unit := 0xFFFD

  /** How many bytes the character takes that starts with this byte. */
  function Width(b: Byte): nat {
    if b < 128 then 1 else if b < 224 then 2 else if b < 240 then 3 else 4
  }

  /** The six bits a continuation byte carries. */
  function Tail(b: Byte): nat {
    b % 64
  }

  function CodePoint(s: Bytes): nat
    requires s != [] && |s| >= Width(s[0])
  {
    match Width(s[0])
    case 1 => s[0]
    case 2 => s[0] % 32 * 64 + Tail(s[1])
    case 3 => s[0] % 16 * 4096 + Tail(s[1]) * 64 + Tail(s[2])
    case _ => s[0] % 8 * 262144 + Tail(s[1]) * 4096 + Tail(s[2]) * 64 + Tail(s[3])
  }

  /** A code point beyond the first plane is a pair of surrogates. */
  function Units(c: nat): Text {
    if c < 0x10000 then [c]
    else if c < 0x110000 then [0xD800 + (c - 0x10000) / 1024, 0xDC00 + (c - 0x10000) % 1024]
    else [REPLACEMENT]
  }

  function Decode(s: Bytes): Text {
    if s == [] then []
    else if |s| < Width(s[0]) then [REPLACEMENT]
    else Units(CodePoint(s)) + Decode(s[Width(s[0])..])
  }

  // ---- one character --------------------------------------------------------------------------

  lemma DecodeTwo(u: Unit, rest: Bytes)
    requires 0x80 <= u < 0x800
    ensures var s := Two(u) + rest; Width(s[0]) == 2 && CodePoint(s) == u && s[2..] == rest
  {}

  lemma DecodeThree(u: Unit, rest: Bytes)
    requires 0x800 <= u
    ensures var s := Three(u) + rest; Width(s[0]) == 3 && CodePoint(s) == u && s[3..] == rest
  {
    var s := Three(u) + rest;
    assert s[0] % 16 == u / 4096 && Tail(s[1]) == u / 64 % 64 && Tail(s[2]) == u % 64;
  }

  lemma FourParts(c: nat)
    requires 0x10000 <= c < 0x110000
    ensures c / 262144 < 5
    ensures c == c / 262144 * 262144 + c / 4096 % 64 * 4096 + c / 64 % 64 * 64 + c % 64
  {
    assert c / 4096 == c / 262144 * 64 + c / 4096 % 64;
    assert c / 64 == c / 4096 * 64 + c / 64 % 64;
  }

  lemma PairParts(hi: Unit, lo: Unit)
    requires IsHigh(hi) && IsLow(lo)
    ensures Units(0x10000 + (hi - 0xD800) * 1024 + (lo - 0xDC00)) == [hi, lo]
  {
    var d := (hi - 0xD800) * 1024 + (lo - 0xDC00);
    assert d / 1024 == hi - 0xD800 && d % 1024 == lo - 0xDC00;
  }

  lemma CodePointOfFour(a: nat, b: nat, c: nat, d: nat, rest: Bytes)
    requires a < 5 && b < 64 && c < 64 && d < 64
    ensures var s: Bytes := [0xF0 + a, 0x80 + b, 0x80 + c, 0x80 + d] + rest;
            Width(s[0]) == 4 && CodePoint(s) == a * 262144 + b * 4096 + c * 64 + d && s[4..] == rest
  {}

  lemma DecodeFour(hi: Unit, lo: Unit, rest: Bytes)
    requires IsHigh(hi) && IsLow(lo)
    ensures var s := Four(hi, lo) + rest; Width(s[0]) == 4 && Units(CodePoint(s)) == [hi, lo] && s[4..] == rest
  {
    var c := 0x10000 + (hi - 0xD800) * 1024 + (lo - 0xDC00);
    FourParts(c);
    CodePointOfFour(c / 262144, c / 4096 % 64, c / 64 % 64, c % 64, rest);
    PairParts(hi, lo);
  }

  lemma DecodeLone(rest: Bytes)
    ensures var s := [0xEF, 0xBF, 0xBD] + rest; Width(s[0]) == 3 && CodePoint(s) == REPLACEMENT && s[3..] == rest
  {}

  // ---- the whole text -------------------------------------------------------------------------

  /** A surrogate without its partner, which no encoding can express. */
  predicate Lone(s: Text, k: nat)
    requires k < |s|
  {
    || (IsHigh(s[k]) && !(k + 1 < |s| && IsLow(s[k + 1])))
    || (IsLow(s[k]) && !(k > 0 && IsHigh(s[k - 1])))
  }

  /** What is left of a text when its lone surrogates are replaced. */
  predicate Replaces(t: Text, s: Text) {
    |t| == |s| && forall k :: 0 <= k < |s| ==> t[k] == if Lone(s, k) then REPLACEMENT else s[k]
  }

  /** The decoder takes one character off. */
  lemma DecodeOne(all: Bytes, rest: Bytes, units: Text)
    requires all != [] && |all| >= Width(all[0]) && all[Width(all[0])..] == rest && Units(CodePoint(all)) == units
    ensures Decode(all) == units + Decode(rest)
  {}

  function FirstUnits(s: Text): Text
    requires s != []
  {
    if FirstLen(s) == 2 then s[..2] else [if Lone(s, 0) then REPLACEMENT else s[0]]
  }

  lemma DecodeFirst(s: Text, rest: Bytes)
    requires s != []
    ensures Decode(FirstChar(s) + rest) == FirstUnits(s) + Decode(rest)
  {
    var all := FirstChar(s) + rest;
    if s[0] < 0x80 {
      assert all[1..] == rest;
    } else if s[0] < 0x800 {
      DecodeTwo(s[0], rest);
    } else if FirstLen(s) == 2 {
      DecodeFour(s[0], s[1], rest);
      assert s[..2] == [s[0], s[1]];
    } else if IsHigh(s[0]) || IsLow(s[0]) {
      DecodeLone(rest);
    } else {
      DecodeThree(s[0], rest);
    }
    DecodeOne(all, rest, FirstUnits(s));
  }

  /** Whether a unit is lone does not depend on the characters before its own. */
  lemma LoneInTail(s: Text, k: nat)
    requires s != [] && FirstLen(s) <= k < |s|
    ensures Lone(s[FirstLen(s)..], k - FirstLen(s)) <==> Lone(s, k)
  {
    var n := FirstLen(s);
    var t := s[n..];
    assert t[k - n] == s[k] && (k + 1 < |s| ==> t[k - n + 1] == s[k + 1]) && (k > n ==> t[k - n - 1] == s[k - 1]);
  }

  /** One character and the rest, each replaced, are the whole replaced. */
  lemma ReplacesOn(s: Text, tail: Text)
    requires s != [] && Replaces(tail, s[FirstLen(s)..])
    ensures Replaces(FirstUnits(s) + tail, s)
  {
    var n := FirstLen(s);
    var t := FirstUnits(s) + tail;
    assert |FirstUnits(s)| == n;
    forall k | 0 <= k < |s| ensures t[k] == if Lone(s, k) then REPLACEMENT else s[k] {
      if k >= n {
        LoneInTail(s, k);
        assert t[k] == tail[k - n] && s[n..][k - n] == s[k];
      }
    }
  }

  /**
   * On every text the decoder undoes the encoder, up to lone surrogates, each of which comes back as U+FFFD; a text without
   * them comes back as it was.
   */
  lemma DecodeUndoesUtf8(s: Text)
    ensures Replaces(Decode(Utf8(s)), s)
    ensures (forall k :: 0 <= k < |s| ==> !Lone(s, k)) ==> Decode(Utf8(s)) == s
  {
    DecodeReplaces(s);
  }

  lemma {:induction false} DecodeReplaces(s: Text)
    ensures Replaces(Decode(Utf8(s)), s)
    decreases |s|
  {
    if s != [] {
      var n := FirstLen(s);
      DecodeReplaces(s[n..]);
      DecodeFirst(s, Utf8(s[n..]));
      ReplacesOn(s, Decode(Utf8(s[n..])));
    }
  }
}

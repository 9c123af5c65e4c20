/**
 * The server's header encoder: a byte-per-character fast path into a buffer sized in advance, and a fallback through
 * a string. Both are proved to be the UTF-8 of the joined text, and that text is proved to come back through the
 * engine's parser exactly when every header is well formed.
 */
module EncodeHeaders {
  import opened Abi
  import opened HeaderText
  import opened ResponseHeaders

  /** A UTF-16 code unit. */
  type Unit = u: int | 0 <= u < 65536
  type Text = seq<Unit>

  datatype Header = Header(name: Text, values: seq<Text>)
  datatype Pair = Pair(name: Text, value: Text)

  // ---- UTF-8 ----------------------------------------------------------------------------------

  predicate IsHigh(u: Unit) {
    0xD800 <= u < 0xDC00
  }

  predicate IsLow(u: Unit) {
    0xDC00 <= u < 0xE000
  }

  function Two(u: Unit): Bytes
    requires 0x80 <= u < 0x800
  {
    [0xC0 + u / 64, 0x80 + u % 64]
  }

  function Three(u: Unit): Bytes
    requires 0x800 <= u
  {
    [0xE0 + u / 4096, 0x80 + u / 64 % 64, 0x80 + u % 64]
  }

  function Four(hi: Unit, lo: Unit): Bytes
    requires IsHigh(hi) && IsLow(lo)
  {
    var c := 0x10000 + (hi - 0xD800) * 1024 + (lo - 0xDC00);
    [0xF0 + c / 262144, 0x80 + c / 4096 % 64, 0x80 + c / 64 % 64, 0x80 + c % 64]
  }

  /** The bytes of the first character: a pair of surrogates, a lone surrogate replaced by U+FFFD, or one unit. */
  function FirstChar(s: Text): Bytes
    requires s != []
  {
    if s[0] < 0x80 then [s[0]]
    else if s[0] < 0x800 then Two(s[0])
    else if IsHigh(s[0]) && |s| > 1 && IsLow(s[1]) then Four(s[0], s[1])
    else if IsHigh(s[0]) || IsLow(s[0]) then [0xEF, 0xBF, 0xBD]
    else Three(s[0])
  }

  function FirstLen(s: Text): (n: nat)
    requires s != []
    ensures 0 < n <= |s|
  {
    if IsHigh(s[0]) && |s| > 1 && IsLow(s[1]) then 2 else 1
  }

  function Utf8(s: Text): Bytes {
    if s == [] then [] else FirstChar(s) + Utf8(s[FirstLen(s)..])
  }

  predicate Ascii(s: Text) {
    forall k :: 0 <= k < |s| ==> s[k] < 0x80
  }

  /** An ASCII text is its own encoding. */
  lemma {:induction false} Utf8OfAscii(s: Text)
    requires Ascii(s)
    ensures Utf8(s) == s
    decreases |s|
  {
    if s != [] {
      Utf8OfAscii(s[1..]);
      assert s == [s[0]] + s[1..];
    }
  }

  /** An ASCII unit is a boundary: no surrogate pair spans it. */
  lemma {:induction false} Utf8Cut(a: Text, c: Unit, b: Text)
    requires c < 0x80
    ensures Utf8(a + [c] + b) == Utf8(a) + [c] + Utf8(b)
    decreases |a|
  {
    var s := a + [c] + b;
    if a == [] {
      assert s[1..] == b;
    } else {
      var n := FirstLen(a);
      assert FirstLen(s) == n && FirstChar(s) == FirstChar(a);
      assert s[n..] == a[n..] + [c] + b;
      Utf8Cut(a[n..], c, b);
    }
  }

  // ---- the joined text ------------------------------------------------------------------------

  function PairText(p: Pair): Text {
    p.name + [58, 32] + p.value
  }

  /** One "Name: Value" per pair, newlines between them. */
  function Joined(pairs: seq<Pair>): Text {
    if pairs == [] then []
    else if |pairs| == 1 then PairText(pairs[0])
    else Joined(pairs[..|pairs| - 1]) + [10] + PairText(pairs[|pairs| - 1])
  }

  function PairsOf(name: Text, values: seq<Text>): seq<Pair> {
    if values == [] then [] else PairsOf(name, values[..|values| - 1]) + [Pair(name, values[|values| - 1])]
  }

  function Pairs(headers: seq<Header>): seq<Pair> {
    if headers == [] then []
    else Pairs(headers[..|headers| - 1]) + PairsOf(headers[|headers| - 1].name, headers[|headers| - 1].values)
  }

  /** The buffer size the encoder computes: room for a newline after every pair, one more than it writes. */
  function Size(pairs: seq<Pair>): nat {
    if pairs == [] then 0
    else Size(pairs[..|pairs| - 1]) + |pairs[|pairs| - 1].name| + 2 + |pairs[|pairs| - 1].value| + 1
  }

  lemma {:induction false} SizeFits(pairs: seq<Pair>)
    ensures Size(pairs) == |Joined(pairs)| + (if pairs == [] then 0 else 1)
    decreases |pairs|
  {
    if |pairs| > 1 {
      SizeFits(pairs[..|pairs| - 1]);
    } else if |pairs| == 1 {
      assert pairs[..0] == [];
    }
  }

  lemma {:induction false} SizeGrows(a: seq<Pair>, b: seq<Pair>)
    ensures Size(a) <= Size(a + b)
    decreases |b|
  {
    if b == [] {
      assert a + b == a;
    } else {
      SizeGrows(a, b[..|b| - 1]);
      assert (a + b)[..|a + b| - 1] == a + b[..|b| - 1];
    }
  }

  lemma JoinedSnoc(pairs: seq<Pair>, p: Pair)
    ensures Joined(pairs + [p]) == (if pairs == [] then [] else Joined(pairs) + [10]) + PairText(p)
    ensures Size(pairs + [p]) == Size(pairs) + |p.name| + 2 + |p.value| + 1
  {
    assert (pairs + [p])[..|pairs|] == pairs;
  }

  lemma PairsStep(headers: seq<Header>, i: nat)
    requires i < |headers|
    ensures Pairs(headers[..i + 1]) == Pairs(headers[..i]) + PairsOf(headers[i].name, headers[i].values)
  {
    assert headers[..i + 1][..i] == headers[..i];
  }

  lemma PairsOfStep(name: Text, values: seq<Text>, j: nat)
    requires j < |values|
    ensures PairsOf(name, values[..j + 1]) == PairsOf(name, values[..j]) + [Pair(name, values[j])]
  {
    assert values[..j + 1][..j] == values[..j];
  }

  // ---- the encoder ----------------------------------------------------------------------------

  predicate AsciiPairs(pairs: seq<Pair>) {
    forall k :: 0 <= k < |pairs| ==> Ascii(pairs[k].name) && Ascii(pairs[k].value)
  }

  lemma {:induction false} JoinedIsAscii(pairs: seq<Pair>)
    requires AsciiPairs(pairs)
    ensures Ascii(Joined(pairs))
    decreases |pairs|
  {
    if pairs != [] {
      var p := pairs[|pairs| - 1];
      assert Ascii(PairText(p));
      if |pairs| > 1 { JoinedIsAscii(pairs[..|pairs| - 1]); }
    }
  }

  method IsAscii(s: Text) returns (ok: bool)
    ensures ok == Ascii(s)
  {
    for i := 0 to |s|
      invariant forall k :: 0 <= k < i ==> s[k] < 0x80
    {
      if s[i] >= 0x80 {
        return false;
      }
    }
    return true;
  }

  lemma {:induction false} AsciiPairsOf(name: Text, values: seq<Text>)
    requires Ascii(name) && forall k :: 0 <= k < |values| ==> Ascii(values[k])
    ensures AsciiPairs(PairsOf(name, values))
    decreases |values|
  {
    if values != [] { AsciiPairsOf(name, values[..|values| - 1]); }
  }

  lemma AsciiPart(a: seq<Pair>, b: seq<Pair>, c: seq<Pair>)
    requires AsciiPairs(a + b + c)
    ensures AsciiPairs(b)
  {
    forall k | 0 <= k < |b| ensures Ascii(b[k].name) && Ascii(b[k].value) {
      assert b[k] == (a + b + c)[|a| + k];
    }
  }

  predicate AsciiValues(values: seq<Text>) {
    forall k :: 0 <= k < |values| ==> Ascii(values[k])
  }

  predicate AsciiHeaders(headers: seq<Header>) {
    forall i :: 0 <= i < |headers| ==> Ascii(headers[i].name) && AsciiValues(headers[i].values)
  }

  lemma SizeStep(name: Text, values: seq<Text>, j: nat, done: seq<Pair>)
    requires j < |values|
    ensures Size(done + PairsOf(name, values[..j + 1])) == Size(done + PairsOf(name, values[..j])) + |name| + 2 + |values[j]| + 1
  {
    PairsOfStep(name, values, j);
    JoinedSnoc(done + PairsOf(name, values[..j]), Pair(name, values[j]));
    assert done + PairsOf(name, values[..j + 1]) == done + PairsOf(name, values[..j]) + [Pair(name, values[j])];
  }

  method MeasureValues(name: Text, values: seq<Text>, ghost done: seq<Pair>) returns (size: nat, ascii: bool)
    ensures size + Size(done) == Size(done + PairsOf(name, values))
    ensures ascii <==> AsciiValues(values)
  {
    size, ascii := 0, true;
    assert done + [] == done;
    for j := 0 to |values|
      invariant size + Size(done) == Size(done + PairsOf(name, values[..j]))
      invariant ascii <==> forall k :: 0 <= k < j ==> Ascii(values[k])
    {
      var ok := IsAscii(values[j]);
      if !ok {
        ascii := false;
      }
      size := size + |name| + 2 + |values[j]| + 1;
      SizeStep(name, values, j, done);
    }
    assert values[..|values|] == values;
  }

  lemma {:induction false} AsciiHeadersPairs(headers: seq<Header>)
    requires AsciiHeaders(headers)
    ensures AsciiPairs(Pairs(headers))
    decreases |headers|
  {
    if headers != [] {
      var n := |headers| - 1;
      AsciiHeadersPairs(headers[..n]);
      AsciiPairsOf(headers[n].name, headers[n].values);
    }
  }

  /** One walk over the headers: the buffer size, and whether a byte per character is enough. */
  method Measure(headers: seq<Header>) returns (size: nat, ascii: bool)
    ensures size == Size(Pairs(headers))
    ensures ascii <==> AsciiHeaders(headers)
  {
    size, ascii := 0, true;
    for i := 0 to |headers|
      invariant size == Size(Pairs(headers[..i]))
      invariant ascii <==> forall k :: 0 <= k < i ==> Ascii(headers[k].name) && AsciiValues(headers[k].values)
    {
      var nameOk := IsAscii(headers[i].name);
      if !nameOk {
        ascii := false;
      }
      var more, valuesOk := MeasureValues(headers[i].name, headers[i].values, Pairs(headers[..i]));
      size := size + more;
      if !valuesOk {
        ascii := false;
      }
      PairsStep(headers, i);
    }
    assert headers[..|headers|] == headers;
  }

  method PutText(out: array<Byte>, start: nat, t: Text) returns (at: nat)
    requires start + |t| <= out.Length && Ascii(t)
    modifies out
    ensures at == start + |t| && out[..at] == old(out[..start]) + t
  {
    at := start;
    for i := 0 to |t|
      invariant at == start + i && out[..start] == old(out[..start])
      invariant forall k :: 0 <= k < i ==> out[start + k] == t[k]
    {
      out[at] := t[i];
      at := at + 1;
    }
    assert out[..at] == old(out[..start]) + t;
  }

  method PutLine(out: array<Byte>, start: nat, p: Pair) returns (at: nat)
    requires start + |p.name| + 2 + |p.value| <= out.Length && Ascii(p.name) && Ascii(p.value)
    modifies out
    ensures at == start + |PairText(p)| && out[..at] == old(out[..start]) + PairText(p)
  {
    ghost var head := out[..start];
    at := PutText(out, start, p.name);
    at := PutText(out, at, [58]);
    at := PutText(out, at, [32]);
    at := PutText(out, at, p.value);
    assert out[..at] == head + p.name + [58] + [32] + p.value;
    assert head + p.name + [58] + [32] + p.value == head + PairText(p);
  }

  method PutPair(out: array<Byte>, start: nat, first: bool, p: Pair, ghost done: seq<Pair>) returns (at: nat)
    requires first == (done == []) && start == |Joined(done)| <= out.Length && out[..start] == Joined(done)
    requires Size(done + [p]) <= out.Length && Ascii(p.name) && Ascii(p.value)
    modifies out
    ensures at == |Joined(done + [p])| <= out.Length && out[..at] == Joined(done + [p])
  {
    JoinedSnoc(done, p);
    SizeFits(done);
    at := start;
    if !first {
      at := PutText(out, at, [10]);
    }
    at := PutLine(out, at, p);
  }

  method PutHeader(out: array<Byte>, start: nat, wasFirst: bool, h: Header, ghost done: seq<Pair>)
    returns (at: nat, first: bool)
    requires wasFirst == (done == []) && start == |Joined(done)| <= out.Length && out[..start] == Joined(done)
    requires Size(done + PairsOf(h.name, h.values)) <= out.Length
    requires AsciiPairs(PairsOf(h.name, h.values))
    modifies out
    ensures first == (done + PairsOf(h.name, h.values) == [])
    ensures at == |Joined(done + PairsOf(h.name, h.values))| <= out.Length && out[..at] == Joined(done + PairsOf(h.name, h.values))
  {
    at, first := start, wasFirst;
    assert done + [] == done;
    for j := 0 to |h.values|
      invariant first == (done + PairsOf(h.name, h.values[..j]) == [])
      invariant at == |Joined(done + PairsOf(h.name, h.values[..j]))| <= out.Length
      invariant out[..at] == Joined(done + PairsOf(h.name, h.values[..j]))
    {
      ghost var d, p := done + PairsOf(h.name, h.values[..j]), Pair(h.name, h.values[j]);
      ghost var rest := PairStands(h, j, done);
      SizeGrows(d + [p], rest);
      at := PutPair(out, at, first, Pair(h.name, h.values[j]), d);
      first := false;
    }
    assert h.values[..|h.values|] == h.values;
  }

  /** The pair of value j follows the pairs before it, and the rest follow the pair. */
  lemma PairStands(h: Header, j: nat, done: seq<Pair>) returns (rest: seq<Pair>)
    requires j < |h.values|
    ensures done + PairsOf(h.name, h.values[..j + 1]) == done + PairsOf(h.name, h.values[..j]) + [Pair(h.name, h.values[j])]
    ensures done + PairsOf(h.name, h.values) == done + PairsOf(h.name, h.values[..j]) + [Pair(h.name, h.values[j])] + rest
    ensures Pair(h.name, h.values[j]) in PairsOf(h.name, h.values)
  {
    PairsOfStep(h.name, h.values, j);
    rest := PairsAfter(h.name, h.values, j + 1);
    var a := PairsOf(h.name, h.values[..j]);
    assert done + (a + [Pair(h.name, h.values[j])] + rest) == done + a + [Pair(h.name, h.values[j])] + rest;
  }

  lemma {:induction false} PairsAfter(name: Text, values: seq<Text>, j: nat) returns (rest: seq<Pair>)
    requires j <= |values|
    ensures PairsOf(name, values) == PairsOf(name, values[..j]) + rest
    decreases |values|
  {
    if j == |values| {
      assert values[..j] == values;
      rest := [];
    } else {
      var n := |values| - 1;
      var r := PairsAfter(name, values[..n], j);
      assert values[..n][..j] == values[..j];
      rest := r + [Pair(name, values[n])];
    }
  }

  lemma {:induction false} PairsBefore(headers: seq<Header>, i: nat) returns (rest: seq<Pair>)
    requires i <= |headers|
    ensures Pairs(headers) == Pairs(headers[..i]) + rest
    decreases |headers|
  {
    if i == |headers| {
      assert headers[..i] == headers;
      rest := [];
    } else {
      var n := |headers| - 1;
      var r := PairsBefore(headers[..n], i);
      assert headers[..n][..i] == headers[..i];
      rest := r + PairsOf(headers[n].name, headers[n].values);
    }
  }

  /** The fast path: every write lands inside the buffer, and the bytes written are the joined text. */
  method Fill(headers: seq<Header>, size: nat) returns (r: Bytes)
    requires size == Size(Pairs(headers)) && AsciiPairs(Pairs(headers))
    ensures r == Joined(Pairs(headers))
  {
    var out := new Byte[size];
    var at, first := 0, true;
    for i := 0 to |headers|
      invariant first == (Pairs(headers[..i]) == [])
      invariant at == |Joined(Pairs(headers[..i]))| <= out.Length && out[..at] == Joined(Pairs(headers[..i]))
    {
      PairsStep(headers, i);
      ghost var d := Pairs(headers[..i]) + PairsOf(headers[i].name, headers[i].values);
      ghost var rest := PairsBefore(headers, i + 1);
      SizeGrows(d, rest);
      AsciiPart(Pairs(headers[..i]), PairsOf(headers[i].name, headers[i].values), rest);
      at, first := PutHeader(out, at, first, headers[i], Pairs(headers[..i]));
    }
    assert headers[..|headers|] == headers;
    r := if at == out.Length then out[..] else out[..at];
  }

  method JoinHeaders(headers: seq<Header>) returns (out: Text)
    ensures out == Joined(Pairs(headers))
  {
    out := [];
    for i := 0 to |headers|
      invariant out == Joined(Pairs(headers[..i]))
    {
      PairsStep(headers, i);
      var h := headers[i];
      ghost var done := Pairs(headers[..i]);
      assert done + [] == done;
      for j := 0 to |h.values|
        invariant out == Joined(done + PairsOf(h.name, h.values[..j]))
      {
        ghost var rest := PairStands(h, j, done);
        ghost var d := done + PairsOf(h.name, h.values[..j]);
        JoinedSnoc(d, Pair(h.name, h.values[j]));
        SizeFits(d);
        if out != [] {
          out := out + [10];
        }
        out := out + PairText(Pair(h.name, h.values[j]));
      }
      assert h.values[..|h.values|] == h.values;
    }
    assert headers[..|headers|] == headers;
  }

  /** Both paths produce the UTF-8 of the joined text; the empty map produces nothing. */
  method Encode(headers: seq<Header>) returns (r: Bytes)
    ensures r == Utf8(Joined(Pairs(headers)))
  {
    if headers == [] {
      return [];
    }
    var size, ascii := Measure(headers);
    if !ascii {
      var text := JoinHeaders(headers);
      return Utf8(text);
    }
    AsciiHeadersPairs(headers);
    JoinedIsAscii(Pairs(headers));
    Utf8OfAscii(Joined(Pairs(headers)));
    r := Fill(headers, size);
  }
}

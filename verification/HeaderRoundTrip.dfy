/** What the server encodes and what the engine parses back, for every list of headers. */
module HeaderRoundTrip {
  import opened Abi
  import opened HeaderText
  import opened ResponseHeaders
  import opened EncodeHeaders

  function OnWire(p: Pair): Field {
    Field(Utf8(p.name), Utf8(p.value))
  }

  function PairLines(pairs: seq<Pair>): (r: seq<Bytes>)
    ensures |r| == |pairs|
  {
    if pairs == [] then [] else PairLines(pairs[..|pairs| - 1]) + [LineOf(OnWire(pairs[|pairs| - 1]))]
  }

  /** The headers as the client of the engine sees them: same order, names folded. */
  function Folded(pairs: seq<Pair>): (r: seq<Field>)
    ensures |r| == |pairs|
  {
    if pairs == [] then []
    else
      var f := OnWire(pairs[|pairs| - 1]);
      Folded(pairs[..|pairs| - 1]) + [Field(Lower(f.name), f.value)]
  }

  /** A header that can be written: a token for a name, a value without control bytes or surrounding blanks. */
  predicate Clean(p: Pair) {
    IsName(Utf8(p.name)) && IsValue(Utf8(p.value)) && Trimmed(Utf8(p.value), ASCII_WHITESPACE)
  }

  predicate AllClean(pairs: seq<Pair>) {
    forall k :: 0 <= k < |pairs| ==> Clean(pairs[k])
  }

  // ---- the encoded block, line by line --------------------------------------------------------

  lemma Utf8Cons(d: Unit, b: Text)
    requires d < 0x80
    ensures Utf8([d] + b) == [d] + Utf8(b)
  {
    assert ([d] + b)[1..] == b;
  }

  lemma Regroup<T>(a: seq<T>, c: T, d: T, b: seq<T>)
    ensures a + [c] + ([d] + b) == a + [c, d] + b
  {}

  lemma Utf8CutTwo(a: Text, c: Unit, d: Unit, b: Text)
    requires c < 0x80 && d < 0x80
    ensures Utf8(a + [c, d] + b) == Utf8(a) + [c, d] + Utf8(b)
  {
    Utf8Cons(d, b);
    Utf8Cut(a, c, [d] + b);
    Regroup(a, c, d, b);
    Regroup(Utf8(a), c, d, Utf8(b));
  }

  lemma PairTextOnWire(p: Pair)
    ensures Utf8(PairText(p)) == LineOf(OnWire(p))
  {
    Utf8CutTwo(p.name, 58, 32, p.value);
  }

  lemma {:induction false} JoinSnoc(lines: seq<Bytes>, line: Bytes)
    requires lines != []
    ensures Join(lines + [line]) == Join(lines) + [NEWLINE] + line
    decreases |lines|
  {
    if |lines| == 1 {
      assert (lines + [line])[1..] == [line];
    } else {
      JoinSnoc(lines[1..], line);
      assert (lines + [line])[1..] == lines[1..] + [line];
    }
  }

  /** One line per pair, whatever the text holds. */
  lemma {:induction false} EncodedIsJoin(pairs: seq<Pair>)
    ensures Utf8(Joined(pairs)) == Join(PairLines(pairs))
    decreases |pairs|
  {
    if pairs != [] {
      var n := |pairs| - 1;
      PairTextOnWire(pairs[n]);
      if n > 0 {
        EncodedIsJoin(pairs[..n]);
        Utf8Cut(Joined(pairs[..n]), 10, PairText(pairs[n]));
        JoinSnoc(PairLines(pairs[..n]), LineOf(OnWire(pairs[n])));
      } else {
        assert pairs[..0] == [];
      }
    }
  }

  lemma {:induction false} CleanLines(pairs: seq<Pair>)
    requires AllClean(pairs)
    ensures forall k :: 0 <= k < |pairs| ==> NEWLINE !in PairLines(pairs)[k]
    decreases |pairs|
  {
    if pairs != [] {
      CleanLines(pairs[..|pairs| - 1]);
    }
  }

  lemma CleanPart(p: Pair)
    requires Clean(p)
    ensures Part(LineOf(OnWire(p))) == [Field(Lower(Utf8(p.name)), Utf8(p.value))]
  {
    LineRoundTripsIff(OnWire(p));
  }

  lemma {:induction false} CleanFields(pairs: seq<Pair>)
    requires AllClean(pairs)
    ensures Fields(PairLines(pairs)) == Folded(pairs)
    decreases |pairs|
  {
    if pairs != [] {
      var n := |pairs| - 1;
      CleanFields(pairs[..n]);
      CleanPart(pairs[n]);
      FlatSnoc(PairLines(pairs[..n]), LineOf(OnWire(pairs[n])), Part);
    }
  }

  // ---- there and back -------------------------------------------------------------------------

  lemma LowerReflectsName(s: Bytes)
    requires IsName(Lower(s))
    ensures IsName(s)
  {
    forall k | 0 <= k < |s| ensures IsTokenByte(s[k]) {
      LowerAt(s, k);
      assert IsTokenByte(Lower(s)[k]);
    }
  }

  lemma {:induction false} FoldedAt(pairs: seq<Pair>, k: nat)
    requires k < |pairs|
    ensures Folded(pairs)[k] == Field(Lower(Utf8(pairs[k].name)), Utf8(pairs[k].value))
    decreases |pairs|
  {
    if k < |pairs| - 1 { FoldedAt(pairs[..|pairs| - 1], k); }
  }

  lemma LegalFoldedIsClean(pairs: seq<Pair>)
    requires AllLegal(Folded(pairs))
    ensures AllClean(pairs)
  {
    forall k | 0 <= k < |pairs| ensures Clean(pairs[k]) {
      FoldedAt(pairs, k);
      assert Legal(Folded(pairs)[k]);
      LowerReflectsName(Utf8(pairs[k].name));
    }
  }

  /** The engine reads back exactly the headers the server wrote, in order, names folded, if and only if every one of
      them is clean. */
  lemma HeadersRoundTripIff(pairs: seq<Pair>)
    ensures Fields(Lines(Utf8(Joined(pairs)))) == Folded(pairs) <==> AllClean(pairs)
  {
    EncodedIsJoin(pairs);
    if AllClean(pairs) {
      CleanLines(pairs);
      CleanFields(pairs);
      if pairs != [] { LinesOfJoin(PairLines(pairs)); }
    }
    if Fields(Lines(Utf8(Joined(pairs)))) == Folded(pairs) {
      KeptHeadersAreLegal(Lines(Utf8(Joined(pairs))));
      LegalFoldedIsClean(pairs);
    }
  }

  /** As long as no name and no value holds a newline, a header that is not clean affects no other: each pair
      contributes what its own line contributes. */
  lemma EachPairStandsAlone(pairs: seq<Pair>)
    requires pairs != [] && forall k :: 0 <= k < |pairs| ==> NEWLINE !in PairLines(pairs)[k]
    ensures Fields(Lines(Utf8(Joined(pairs)))) == Flat(PairLines(pairs), Part)
  {
    EncodedIsJoin(pairs);
    LinesOfJoin(PairLines(pairs));
  }

  // ---- the server's map -----------------------------------------------------------------------

  function EncodedValues(values: seq<Text>): (r: seq<Bytes>)
    ensures |r| == |values| && forall k :: 0 <= k < |values| ==> r[k] == Utf8(values[k])
  {
    seq(|values|, k requires 0 <= k < |values| => Utf8(values[k]))
  }

  /** The values given under a name, up to case, in the order of the headers and of each one's values. */
  function Given(headers: seq<Header>, name: Bytes): seq<Bytes> {
    if headers == [] then []
    else
      var h := headers[|headers| - 1];
      Given(headers[..|headers| - 1], name) + if Lower(Utf8(h.name)) == name then EncodedValues(h.values) else []
  }

  predicate CleanHeaders(headers: seq<Header>) {
    forall i, j :: 0 <= i < |headers| && 0 <= j < |headers[i].values| ==> Clean(Pair(headers[i].name, headers[i].values[j]))
  }

  lemma ValuesSnoc(a: seq<Pair>, p: Pair, q: Bytes)
    ensures ValuesOf(Folded(a + [p]), q) == ValuesOf(Folded(a), q) + if Lower(Utf8(p.name)) == q then [Utf8(p.value)] else []
  {
    assert (a + [p])[..|a|] == a;
    var f := Field(Lower(Utf8(p.name)), Utf8(p.value));
    assert Folded(a + [p]) == Folded(a) + [f];
    assert (Folded(a) + [f])[..|Folded(a)|] == Folded(a);
  }

  lemma EncodedSnoc(values: seq<Text>)
    requires values != []
    ensures EncodedValues(values) == EncodedValues(values[..|values| - 1]) + [Utf8(values[|values| - 1])]
  {}

  lemma PairsOfSnoc(done: seq<Pair>, name: Text, values: seq<Text>)
    requires values != []
    ensures done + PairsOf(name, values) == done + PairsOf(name, values[..|values| - 1]) + [Pair(name, values[|values| - 1])]
  {}

  lemma OneMore(a: seq<Bytes>, b: seq<Bytes>, c: seq<Bytes>, some: seq<Bytes>, all: seq<Bytes>, x: Bytes, counts: bool)
    requires b == a + (if counts then some else []) && c == b + (if counts then [x] else []) && all == some + [x]
    ensures c == a + if counts then all else []
  {}

  lemma {:induction false} ValuesOfHeader(done: seq<Pair>, name: Text, values: seq<Text>, q: Bytes)
    ensures ValuesOf(Folded(done + PairsOf(name, values)), q) ==
            ValuesOf(Folded(done), q) + if Lower(Utf8(name)) == q then EncodedValues(values) else []
    decreases |values|
  {
    if values == [] {
      assert done + PairsOf(name, values) == done;
    } else {
      var n := |values| - 1;
      var before, last := done + PairsOf(name, values[..n]), Pair(name, values[n]);
      ValuesOfHeader(done, name, values[..n], q);
      PairsOfSnoc(done, name, values);
      ValuesSnoc(before, last, q);
      EncodedSnoc(values);
      OneMore(ValuesOf(Folded(done), q), ValuesOf(Folded(before), q), ValuesOf(Folded(before + [last]), q),
              EncodedValues(values[..n]), EncodedValues(values), Utf8(values[n]), Lower(Utf8(name)) == q);
    }
  }

  lemma {:induction false} PairsAreGiven(headers: seq<Header>, q: Bytes)
    ensures ValuesOf(Folded(Pairs(headers)), q) == Given(headers, q)
    decreases |headers|
  {
    if headers != [] {
      var n := |headers| - 1;
      PairsAreGiven(headers[..n], q);
      ValuesOfHeader(Pairs(headers[..n]), headers[n].name, headers[n].values, q);
    }
  }

  lemma {:induction false} CleanPairsOf(name: Text, values: seq<Text>)
    requires forall j :: 0 <= j < |values| ==> Clean(Pair(name, values[j]))
    ensures AllClean(PairsOf(name, values))
    decreases |values|
  {
    if values != [] { CleanPairsOf(name, values[..|values| - 1]); }
  }

  lemma {:induction false} CleanPairs(headers: seq<Header>)
    requires CleanHeaders(headers)
    ensures AllClean(Pairs(headers))
    decreases |headers|
  {
    if headers != [] {
      var n := |headers| - 1;
      CleanPairs(headers[..n]);
      CleanPairsOf(headers[n].name, headers[n].values);
    }
  }

  /** The server's map, encoded and parsed: clean headers come back under every name with exactly the values given for
      it, in order, and under no other. */
  method EncodeAndParse(headers: seq<Header>) returns (m: HeaderMap)
    ensures Holds(m, Fields(Lines(Utf8(Joined(Pairs(headers))))))
    ensures AllClean(Pairs(headers)) ==> Holds(m, Folded(Pairs(headers)))
    ensures CleanHeaders(headers) ==> forall name :: Get(m, name) == Given(headers, name)
  {
    var block := Encode(headers);
    HeadersRoundTripIff(Pairs(headers));
    m := ParseHeaders(block);
    if CleanHeaders(headers) {
      CleanPairs(headers);
      forall name ensures Get(m, name) == Given(headers, name) { PairsAreGiven(headers, name); }
    }
  }
}

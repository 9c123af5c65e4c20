/** The engine's parser of response header blocks: loops over bytes, proved against what each line contributes. */
module ResponseHeaders {
  import opened Abi
  import opened HeaderText

  type HeaderMap = map<Bytes, seq<Bytes>>

  const ASCII_WHITESPACE: set<Byte> := {9, 10, 12, 13, 32}
  const MAX_NAME_LEN := 65535

  // ---- what a line means ----------------------------------------------------------------------

  predicate IsTokenByte(b: Byte) {
    || 48 <= b <= 57 || 65 <= b <= 90 || 97 <= b <= 122
    || b == 33 || 35 <= b <= 39 || 42 <= b <= 43 || 45 <= b <= 46 || 94 <= b <= 96 || b == 124 || b == 126
  }

  predicate IsName(s: Bytes) {
    0 < |s| <= MAX_NAME_LEN && forall k :: 0 <= k < |s| ==> IsTokenByte(s[k])
  }

  predicate IsValue(s: Bytes) {
    forall k :: 0 <= k < |s| ==> s[k] == TAB || (s[k] >= 32 && s[k] != 127)
  }

  /** The delimiters of section 5.6.2 of RFC 9110: double quote, parentheses, comma, slash, colon, semicolon, less than,
      equals, greater than, question mark, at, brackets, backslash and braces. */
  const DELIMITERS: set<Byte> := {34, 40, 41, 44, 47, 58, 59, 60, 61, 62, 63, 64, 91, 92, 93, 123, 125}

  /** The control bytes other than the tab. */
  predicate IsControl(b: Byte) {
    b < 9 || 9 < b < 32 || b == 127
  }

  /** A name is made of visible ASCII without the delimiters; a value of everything but control bytes, bytes above 127
      included. */
  lemma AdmittedBytes(s: Bytes)
    ensures IsName(s) <==> 0 < |s| < 65536 && forall k :: 0 <= k < |s| ==> 32 < s[k] < 127 && s[k] !in DELIMITERS
    ensures IsValue(s) <==> forall k :: 0 <= k < |s| ==> !IsControl(s[k])
  {
    forall b: Byte ensures IsTokenByte(b) <==> 32 < b < 127 && b !in DELIMITERS {}
  }

  datatype Field = Field(name: Bytes, value: Bytes)

  function StripCr(line: Bytes): Bytes {
    if line != [] && line[|line| - 1] == CR then line[..|line| - 1] else line
  }

  /** The header a line contributes, if it is one: trimmed name and value, the name folded to lower case. */
  function ParseLine(line: Bytes): Option<Field> {
    var s := StripCr(line);
    var c := Find(s, COLON);
    if c == |s| then None
    else
      var name := Trim(s[..c], ASCII_WHITESPACE, ASCII_WHITESPACE);
      var value := Trim(s[c + 1..], ASCII_WHITESPACE, ASCII_WHITESPACE);
      if IsName(name) && IsValue(value) then Some(Field(Lower(name), value)) else None
  }

  function Part(line: Bytes): seq<Field> {
    match ParseLine(line) case None => [] case Some(f) => [f]
  }

  /** What lines contribute one after another, whatever each contributes. */
  function Flat(lines: seq<Bytes>, part: Bytes -> seq<Field>): seq<Field> {
    if lines == [] then [] else Flat(lines[..|lines| - 1], part) + part(lines[|lines| - 1])
  }

  lemma {:induction false} FlatConcat(a: seq<Bytes>, b: seq<Bytes>, part: Bytes -> seq<Field>)
    ensures Flat(a + b, part) == Flat(a, part) + Flat(b, part)
    decreases |b|
  {
    if b == [] {
      assert a + b == a;
    } else {
      var n := |b| - 1;
      FlatConcat(a, b[..n], part);
      assert (a + b)[..|a + b| - 1] == a + b[..n];
    }
  }

  lemma FlatSnoc(a: seq<Bytes>, line: Bytes, part: Bytes -> seq<Field>)
    ensures Flat(a + [line], part) == Flat(a, part) + part(line)
  {
    assert (a + [line])[..|a|] == a;
  }

  /** The headers lines contribute, in order. */
  function Fields(lines: seq<Bytes>): seq<Field> {
    Flat(lines, Part)
  }

  /** The values a list of headers has under a name, in order. */
  function ValuesOf(fields: seq<Field>, name: Bytes): seq<Bytes> {
    if fields == [] then []
    else
      var f := fields[|fields| - 1];
      ValuesOf(fields[..|fields| - 1], name) + if f.name == name then [f.value] else []
  }

  function Get(m: HeaderMap, name: Bytes): seq<Bytes> {
    if name in m then m[name] else []
  }

  /** A map holds exactly these headers, and no name without a value. */
  ghost predicate Holds(m: HeaderMap, fields: seq<Field>) {
    && (forall name :: Get(m, name) == ValuesOf(fields, name))
    && (forall name :: name in m ==> m[name] != [])
  }

  function Append(m: HeaderMap, f: Field): HeaderMap {
    m[f.name := Get(m, f.name) + [f.value]]
  }

  // ---- the loops ------------------------------------------------------------------------------

  method TrimAscii(b: Bytes) returns (r: Bytes)
    ensures r == Trim(b, ASCII_WHITESPACE, ASCII_WHITESPACE)
  {
    r := b;
    while r != [] && r[0] in ASCII_WHITESPACE
      invariant TrimLeft(r, ASCII_WHITESPACE) == TrimLeft(b, ASCII_WHITESPACE)
      decreases |r|
    {
      r := r[1..];
    }
    while r != [] && r[|r| - 1] in ASCII_WHITESPACE
      invariant TrimRight(r, ASCII_WHITESPACE) == Trim(b, ASCII_WHITESPACE, ASCII_WHITESPACE)
      decreases |r|
    {
      r := r[..|r| - 1];
    }
  }

  method Position(s: Bytes, b: Byte) returns (k: nat)
    ensures k == Find(s, b)
  {
    k := 0;
    while k < |s| && s[k] != b
      invariant k <= |s| && forall j :: 0 <= j < k ==> s[j] != b
    {
      k := k + 1;
    }
    FindIs(s, b, k);
  }

  /** The header of one line, or nothing. */
  method ReadLine(line: Bytes) returns (f: Option<Field>)
    ensures f == ParseLine(line)
  {
    var s := StripCr(line);
    var idx := Position(s, COLON);
    if idx == |s| {
      return None;
    }
    var name := TrimAscii(s[..idx]);
    var value := TrimAscii(s[idx + 1..]);
    if IsName(name) && IsValue(value) {
      return Some(Field(Lower(name), value));
    }
    return None;
  }

  function Parts(f: Option<Field>): seq<Field> {
    if f.Some? then [f.value] else []
  }

  /** Whatever the line contributes goes to the end of its name's values. */
  method AppendParsed(m: HeaderMap, f: Option<Field>, ghost fields: seq<Field>) returns (r: HeaderMap)
    requires Holds(m, fields)
    ensures Holds(r, fields + Parts(f))
  {
    if f.None? {
      assert fields + Parts(f) == fields;
      return m;
    }
    r := Append(m, f.value);
  }

  method AppendLine(m: HeaderMap, line: Bytes, ghost seen: seq<Bytes>) returns (r: HeaderMap)
    requires Holds(m, Fields(seen))
    ensures Holds(r, Fields(seen + [line]))
  {
    FlatSnoc(seen, line, Part);
    var f := ReadLine(line);
    assert Part(line) == Parts(f);
    r := AppendParsed(m, f, Fields(seen));
  }

  /** Walks the block line by line; a line that is no header is skipped and costs nothing else. */
  method ParseHeaders(raw: Bytes) returns (m: HeaderMap)
    ensures Holds(m, Fields(Lines(raw)))
  {
    m := map[];
    ghost var lines, k := Lines(raw), 0;
    var rest := raw;
    while true
      invariant k < |lines| && lines[k..] == Lines(rest)
      invariant Holds(m, Fields(lines[..k]))
      decreases |lines| - k
    {
      var e := Position(rest, NEWLINE);
      NextLine(lines, k, rest);
      m := AppendLine(m, rest[..e], lines[..k]);
      if e == |rest| {
        return;
      }
      rest, k := rest[e + 1..], k + 1;
    }
  }

  // ---- what the block means -------------------------------------------------------------------

  /** A line that is no header, wherever it stands, changes nothing about the others. */
  lemma BadLineDropsOnlyItself(a: seq<Bytes>, bad: Bytes, b: seq<Bytes>)
    requires Part(bad) == []
    ensures Fields(a + [bad] + b) == Fields(a + b)
  {
    FlatConcat(a + [bad], b, Part);
    FlatSnoc(a, bad, Part);
    FlatConcat(a, b, Part);
  }

  lemma LowerKeepsName(s: Bytes)
    requires IsName(s)
    ensures IsName(Lower(s))
  {
    forall k | 0 <= k < |s| ensures IsTokenByte(Lower(s)[k]) {
      LowerAt(s, k);
    }
  }

  predicate Legal(f: Field) {
    IsName(f.name) && NoCapitals(f.name) && Lower(f.name) == f.name && IsValue(f.value) && Trimmed(f.value, ASCII_WHITESPACE)
  }

  lemma ParsedLineIsLegal(line: Bytes)
    ensures ParseLine(line).Some? ==> Legal(ParseLine(line).value)
  {
    var s := StripCr(line);
    var c := Find(s, COLON);
    if c < |s| {
      var name := Trim(s[..c], ASCII_WHITESPACE, ASCII_WHITESPACE);
      LowerIsIdempotent(name);
      FoldedName(name);
      if IsName(name) { LowerKeepsName(name); }
      TrimIsTrimmed(s[c + 1..], ASCII_WHITESPACE);
    }
  }

  predicate AllLegal(fields: seq<Field>) {
    forall k :: 0 <= k < |fields| ==> Legal(fields[k])
  }

  lemma {:induction false} FlatLegal(lines: seq<Bytes>, part: Bytes -> seq<Field>)
    requires forall line :: AllLegal(part(line))
    ensures AllLegal(Flat(lines, part))
    decreases |lines|
  {
    if lines != [] {
      FlatLegal(lines[..|lines| - 1], part);
      assert AllLegal(part(lines[|lines| - 1]));
    }
  }

  /** Everything the parser keeps can go on the wire: folded token names, values without control bytes and without
      surrounding blanks. */
  lemma KeptHeadersAreLegal(lines: seq<Bytes>)
    ensures AllLegal(Fields(lines))
  {
    forall line ensures AllLegal(Part(line)) {
      ParsedLineIsLegal(line);
    }
    FlatLegal(lines, Part);
  }

  // ---- lines the encoder writes ---------------------------------------------------------------

  function LineOf(f: Field): Bytes {
    f.name + [COLON, SPACE] + f.value
  }

  lemma NameHasNoBlanks(name: Bytes)
    requires IsName(name)
    ensures Trim(name, ASCII_WHITESPACE, ASCII_WHITESPACE) == name
  {
    assert IsTokenByte(name[0]) && IsTokenByte(name[|name| - 1]);
    TrimIsIdentityIff(name, ASCII_WHITESPACE);
  }

  /** How a written line splits again. */
  lemma LineSplits(f: Field)
    requires COLON !in f.name
    ensures var s := StripCr(LineOf(f));
            Find(s, COLON) == |f.name| < |s| && s[..|f.name|] == f.name && s[|f.name| + 1..] == [SPACE] + StripCr(f.value)
  {
    var s := StripCr(LineOf(f));
    assert s == f.name + [COLON, SPACE] + StripCr(f.value);
    FindIs(s, COLON, |f.name|);
  }

  /** A name with a colon is cut at it, so it does not come back. */
  lemma ColonCutsName(f: Field)
    requires COLON in f.name
    ensures ParseLine(LineOf(f)) != Some(Field(Lower(f.name), f.value))
  {
    var s := StripCr(LineOf(f));
    assert s == f.name + [COLON, SPACE] + StripCr(f.value);
    var i :| 0 <= i < |f.name| && f.name[i] == COLON;
    FindFinds(s, COLON);
    assert s[i] == COLON;
    TrimShortensOrKeeps(s[..Find(s, COLON)], ASCII_WHITESPACE);
  }

  /** A written header is read back as itself, name folded, exactly when its name is a token and its value is legal
      and has no blanks around it. */
  lemma LineRoundTripsIff(f: Field)
    ensures ParseLine(LineOf(f)) == Some(Field(Lower(f.name), f.value))
       <==> IsName(f.name) && IsValue(f.value) && Trimmed(f.value, ASCII_WHITESPACE)
  {
    if COLON in f.name {
      ColonCutsName(f);
    } else {
      LineSplits(f);
      TrimIsTrimmed(StripCr(f.value), ASCII_WHITESPACE);
      TrimShortensOrKeeps(f.name, ASCII_WHITESPACE);
      if IsName(f.name) { NameHasNoBlanks(f.name); }
      if Trimmed(f.value, ASCII_WHITESPACE) {
        assert StripCr(f.value) == f.value;
        TrimIsIdentityIff(f.value, ASCII_WHITESPACE);
      }
    }
  }
}

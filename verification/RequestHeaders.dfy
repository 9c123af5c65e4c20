/**
 * Request headers on the Kotlin side: a case-insensitive lookup that scans the raw block, and the parsed map it must
 * agree with. A byte stands for a character, which is exact for the ASCII blocks the engine writes.
 */
module RequestHeaders {
  import opened Abi
  import opened HeaderText
  import opened ResponseHeaders

  /** What the string trim of the map removes, and what the scan removes before and after a value. */
  const MAP_BLANK: set<Byte> := {9, 10, 11, 12, 13, 28, 29, 30, 31, 32}
  const SCAN_LEFT: set<Byte> := {9, 32}
  const SCAN_RIGHT: set<Byte> := {9, 13, 32}

  datatype Entry = Entry(key: Bytes, values: seq<Bytes>)

  // ---- rows -----------------------------------------------------------------------------------

  /** A line with a colon after at least one byte, cut at the first colon and not trimmed. */
  function RowPart(line: Bytes): seq<Field> {
    var c := Find(line, COLON);
    if 0 < c < |line| then [Field(line[..c], line[c + 1..])] else []
  }

  function Rows(raw: Bytes): seq<Field> {
    Flat(Lines(raw), RowPart)
  }

  function MapTrim(s: Bytes): Bytes {
    Trim(s, MAP_BLANK, MAP_BLANK)
  }

  function ScanTrim(s: Bytes): Bytes {
    Trim(s, SCAN_LEFT, SCAN_RIGHT)
  }

  function Names(rows: seq<Field>): (r: seq<Bytes>)
    ensures |r| == |rows| && forall k :: 0 <= k < |rows| ==> r[k] == rows[k].name
  {
    seq(|rows|, k requires 0 <= k < |rows| => rows[k].name)
  }

  function MapNames(rows: seq<Field>): (r: seq<Bytes>)
    ensures |r| == |rows| && forall k :: 0 <= k < |rows| ==> r[k] == MapTrim(rows[k].name)
  {
    seq(|rows|, k requires 0 <= k < |rows| => MapTrim(rows[k].name))
  }

  /** The first name equal to q up to ASCII case, or the length. */
  function First(names: seq<Bytes>, q: Bytes): (k: nat)
    ensures k <= |names|
  {
    if names == [] || SameName(names[0], q) then 0 else 1 + First(names[1..], q)
  }

  lemma {:induction false} FirstFinds(names: seq<Bytes>, q: Bytes)
    ensures First(names, q) < |names| ==> SameName(names[First(names, q)], q)
    ensures forall j :: 0 <= j < First(names, q) ==> !SameName(names[j], q)
    decreases |names|
  {
    if names != [] && !SameName(names[0], q) { FirstFinds(names[1..], q); }
  }

  lemma FirstIs(names: seq<Bytes>, q: Bytes, k: nat)
    requires k <= |names| && (k < |names| ==> SameName(names[k], q))
    requires forall j :: 0 <= j < k ==> !SameName(names[j], q)
    ensures First(names, q) == k
  {
    FirstFinds(names, q);
  }

  /** What the scan answers, and what the parsed map answers. */
  function Scanned(rows: seq<Field>, q: Bytes): Option<Bytes> {
    var k := First(Names(rows), q);
    if k < |rows| then Some(ScanTrim(rows[k].value)) else None
  }

  function Mapped(rows: seq<Field>, q: Bytes): Option<Bytes> {
    var k := First(MapNames(rows), q);
    if k < |rows| then Some(MapTrim(rows[k].value)) else None
  }

  // ---- exactly when they agree ----------------------------------------------------------------

  /** No name has blanks around it, and the first value of each name is trimmed alike by both. */
  predicate Agreeing(rows: seq<Field>) {
    && (forall k :: 0 <= k < |rows| ==> Trimmed(rows[k].name, MAP_BLANK))
    && (forall k :: 0 <= k < |rows| && First(Names(rows), rows[k].name) == k ==> ScanTrim(rows[k].value) == MapTrim(rows[k].value))
  }

  lemma TrimmedNamesAreSame(rows: seq<Field>)
    requires forall k :: 0 <= k < |rows| ==> Trimmed(rows[k].name, MAP_BLANK)
    ensures MapNames(rows) == Names(rows)
  {
    forall k | 0 <= k < |rows| ensures MapTrim(rows[k].name) == rows[k].name {
      TrimIsIdentityIff(rows[k].name, MAP_BLANK);
    }
  }

  lemma FirstIsFirstOfItsName(names: seq<Bytes>, q: Bytes)
    requires First(names, q) < |names|
    ensures First(names, names[First(names, q)]) == First(names, q)
  {
    FirstFinds(names, q);
    FirstIs(names, names[First(names, q)], First(names, q));
  }

  lemma AgreeingAgrees(rows: seq<Field>, q: Bytes)
    requires Agreeing(rows)
    ensures Scanned(rows, q) == Mapped(rows, q)
  {
    TrimmedNamesAreSame(rows);
    if First(Names(rows), q) < |rows| {
      FirstIsFirstOfItsName(Names(rows), q);
    }
  }

  lemma SameNameEnds(a: Bytes, b: Bytes)
    requires SameName(a, b) && a != []
    ensures |b| == |a| && LowerByte(a[0]) == LowerByte(b[0]) && LowerByte(a[|a| - 1]) == LowerByte(b[|b| - 1])
  {
    assert |Lower(a)| == |Lower(b)|;
    LowerAt(a, 0);
    LowerAt(b, 0);
    LowerAt(a, |a| - 1);
    LowerAt(b, |b| - 1);
  }

  /** Folding moves letters only, so it neither adds nor removes a blank at an end. */
  lemma BlankNameIsNoKey(q: Bytes, s: Bytes)
    requires !Trimmed(q, MAP_BLANK)
    ensures !SameName(MapTrim(s), q)
  {
    TrimIsTrimmed(s, MAP_BLANK);
    if SameName(MapTrim(s), q) { SameNameEnds(MapTrim(s), q); }
  }

  /** A name with blanks around it is found by the scan under that very name and is no key of the map. */
  lemma BlankNameDisagrees(rows: seq<Field>, k: nat)
    requires k < |rows| && !Trimmed(rows[k].name, MAP_BLANK)
    ensures Scanned(rows, rows[k].name).Some? && Mapped(rows, rows[k].name).None?
  {
    var q := rows[k].name;
    FirstFinds(Names(rows), q);
    FirstFinds(MapNames(rows), q);
    forall j | 0 <= j < |rows| ensures !SameName(MapNames(rows)[j], q) {
      BlankNameIsNoKey(q, rows[j].name);
    }
  }

  lemma AgreementNeedsValues(rows: seq<Field>, k: nat)
    requires forall j :: 0 <= j < |rows| ==> Trimmed(rows[j].name, MAP_BLANK)
    requires k < |rows| && First(Names(rows), rows[k].name) == k
    ensures Scanned(rows, rows[k].name) == Some(ScanTrim(rows[k].value)) && Mapped(rows, rows[k].name) == Some(MapTrim(rows[k].value))
  {
    TrimmedNamesAreSame(rows);
  }

  /** The scan answers every query as the parsed map does if and only if the block is agreeing. */
  lemma ScanAgreesWithMapIff(rows: seq<Field>)
    ensures Agreeing(rows) <==> forall q :: Scanned(rows, q) == Mapped(rows, q)
  {
    if Agreeing(rows) {
      forall q ensures Scanned(rows, q) == Mapped(rows, q) { AgreeingAgrees(rows, q); }
    }
    if forall q :: Scanned(rows, q) == Mapped(rows, q) {
      forall k | 0 <= k < |rows| ensures Trimmed(rows[k].name, MAP_BLANK) {
        if !Trimmed(rows[k].name, MAP_BLANK) { BlankNameDisagrees(rows, k); }
      }
      forall k | 0 <= k < |rows| && First(Names(rows), rows[k].name) == k
        ensures ScanTrim(rows[k].value) == MapTrim(rows[k].value)
      {
        AgreementNeedsValues(rows, k);
        assert Scanned(rows, rows[k].name) == Mapped(rows, rows[k].name);
      }
    }
  }

  // ---- what the engine writes -----------------------------------------------------------------

  const WRITTEN: set<Byte> := set b: Byte | b == 9 || 32 <= b < 127

  /** A line of the engine's request block: a token, and a value that is visible ASCII or was dropped. */
  predicate Written(f: Field) {
    IsName(f.name) && Within(f.value, WRITTEN)
  }

  /** The engine's lines each end with a newline. */
  function EngineBlock(fields: seq<Field>): Bytes {
    if fields == [] then [] else LineOf(fields[0]) + [NEWLINE] + EngineBlock(fields[1..])
  }

  function EngineLines(fields: seq<Field>): seq<Bytes> {
    if fields == [] then [[]] else [LineOf(fields[0])] + EngineLines(fields[1..])
  }

  lemma WrittenLine(f: Field)
    requires Written(f)
    ensures NEWLINE !in LineOf(f) && RowPart(LineOf(f)) == [Field(f.name, [SPACE] + f.value)]
  {
    var line := LineOf(f);
    forall k | 0 <= k < |line| ensures line[k] != NEWLINE {
      if k < |f.name| { assert IsTokenByte(f.name[k]); }
    }
    forall k | 0 <= k < |f.name| ensures f.name[k] != COLON { assert IsTokenByte(f.name[k]); }
    FindIs(line, COLON, |f.name|);
    assert line[..|f.name|] == f.name && line[|f.name| + 1..] == [SPACE] + f.value;
  }

  lemma {:induction false} EngineBlockLines(fields: seq<Field>)
    requires forall k :: 0 <= k < |fields| ==> Written(fields[k])
    ensures Lines(EngineBlock(fields)) == EngineLines(fields)
    decreases |fields|
  {
    if fields != [] {
      var raw, line := EngineBlock(fields), LineOf(fields[0]);
      WrittenLine(fields[0]);
      FindIs(raw, NEWLINE, |line|);
      assert raw[..|line|] == line && raw[|line| + 1..] == EngineBlock(fields[1..]);
      EngineBlockLines(fields[1..]);
    }
  }

  function Raws(fields: seq<Field>): seq<Field> {
    if fields == [] then [] else [Field(fields[0].name, [SPACE] + fields[0].value)] + Raws(fields[1..])
  }

  lemma {:induction false} EngineRows(fields: seq<Field>)
    requires forall k :: 0 <= k < |fields| ==> Written(fields[k])
    ensures Flat(EngineLines(fields), RowPart) == Raws(fields)
    decreases |fields|
  {
    var none: seq<Bytes>, blank: Bytes := [], [];
    if fields == [] {
      FlatSnoc(none, blank, RowPart);
      assert none + [blank] == [blank];
    } else {
      WrittenLine(fields[0]);
      EngineRows(fields[1..]);
      FlatConcat([LineOf(fields[0])], EngineLines(fields[1..]), RowPart);
      FlatSnoc(none, LineOf(fields[0]), RowPart);
      assert none + [LineOf(fields[0])] == [LineOf(fields[0])];
    }
  }

  lemma {:induction false} RawsAt(fields: seq<Field>, k: nat)
    requires k < |fields|
    ensures |Raws(fields)| == |fields| && Raws(fields)[k] == Field(fields[k].name, [SPACE] + fields[k].value)
    decreases |fields|
  {
    if |fields| > 1 { RawsAt(fields[1..], if k > 0 then k - 1 else 0); }
  }

  /** On everything the engine writes the scan and the parsed map agree, for every query. */
  lemma EngineBlocksAgree(fields: seq<Field>)
    requires forall k :: 0 <= k < |fields| ==> Written(fields[k])
    ensures Agreeing(Rows(EngineBlock(fields)))
  {
    EngineBlockLines(fields);
    EngineRows(fields);
    var rows := Raws(fields);
    if fields != [] { RawsAt(fields, 0); }
    forall k | 0 <= k < |rows| ensures Trimmed(rows[k].name, MAP_BLANK) && ScanTrim(rows[k].value) == MapTrim(rows[k].value) {
      RawsAt(fields, k);
      WrittenRowAgrees(fields[k]);
    }
  }

  lemma WrittenRowAgrees(f: Field)
    requires Written(f)
    ensures Trimmed(f.name, MAP_BLANK) && ScanTrim([SPACE] + f.value) == MapTrim([SPACE] + f.value)
  {
    assert IsTokenByte(f.name[0]) && IsTokenByte(f.name[|f.name| - 1]);
    assert Within([SPACE] + f.value, WRITTEN);
    TrimAgrees([SPACE] + f.value, WRITTEN, SCAN_LEFT, SCAN_RIGHT, MAP_BLANK, MAP_BLANK);
  }

  /** Where they part: a vertical tab before a value survives the scan and not the map. */
  lemma VerticalTabDisagrees()
    ensures var rows := [Field([97], [11, 98])]; Scanned(rows, [97]) == Some([11, 98]) && Mapped(rows, [97]) == Some([98])
  {
    var rows := [Field([97], [11, 98])];
    assert MapTrim([97]) == [97];
    FirstIs(Names(rows), [97], 0);
    FirstIs(MapNames(rows), [97], 0);
    assert [11, 98][1..] == [98];
  }
}

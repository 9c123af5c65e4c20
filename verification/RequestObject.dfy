/** The request object: the byte scan as its loops do it, the parsed map built entry by entry, and the cache. */
module RequestObject {
  import opened Abi
  import opened HeaderText
  import opened ResponseHeaders
  import opened RequestHeaders

  // ---- the parsed map -------------------------------------------------------------------------

  function Keys(entries: seq<Entry>): (r: seq<Bytes>)
    ensures |r| == |entries| && forall k :: 0 <= k < |entries| ==> r[k] == entries[k].key
  {
    seq(|entries|, k requires 0 <= k < |entries| => entries[k].key)
  }

  function ValuesAt(entries: seq<Entry>, q: Bytes): seq<Bytes> {
    var k := First(Keys(entries), q);
    if k < |entries| then entries[k].values else []
  }

  /** All values under a name, up to case, in order. */
  function AllValues(fields: seq<Field>, q: Bytes): seq<Bytes> {
    if fields == [] then []
    else
      var f := fields[|fields| - 1];
      AllValues(fields[..|fields| - 1], q) + if SameName(f.name, q) then [f.value] else []
  }

  predicate Keyed(entries: seq<Entry>) {
    && (forall i, j :: 0 <= i < j < |entries| ==> !SameName(entries[i].key, entries[j].key))
    && (forall i :: 0 <= i < |entries| ==> entries[i].values != [])
  }

  /** One entry per name up to case, each with exactly its values in order. */
  ghost predicate Represents(entries: seq<Entry>, fields: seq<Field>) {
    Keyed(entries) && forall q :: ValuesAt(entries, q) == AllValues(fields, q)
  }

  /** A further value goes under the key already there, whatever its case. */
  function Added(entries: seq<Entry>, f: Field): seq<Entry> {
    var k := First(Keys(entries), f.name);
    if k < |entries| then entries[k := Entry(entries[k].key, entries[k].values + [f.value])]
    else entries + [Entry(f.name, [f.value])]
  }

  lemma AddedIsKeyed(entries: seq<Entry>, f: Field)
    requires Keyed(entries)
    ensures Keyed(Added(entries, f))
  {
    FirstFinds(Keys(entries), f.name);
  }

  lemma AddedValues(entries: seq<Entry>, f: Field, q: Bytes)
    requires Keyed(entries)
    ensures ValuesAt(Added(entries, f), q) == ValuesAt(entries, q) + if SameName(f.name, q) then [f.value] else []
  {
    var k, i := First(Keys(entries), f.name), First(Keys(entries), q);
    FirstFinds(Keys(entries), f.name);
    FirstFinds(Keys(entries), q);
    var added := Added(entries, f);
    if SameName(f.name, q) {
      assert k == i by { FirstIs(Keys(entries), q, k); }
      FirstIs(Keys(added), q, k);
    } else {
      FirstIs(Keys(added), q, if i < |entries| then i else |added|);
    }
  }

  lemma AddedRepresents(entries: seq<Entry>, fields: seq<Field>, f: Field)
    requires Represents(entries, fields)
    ensures Represents(Added(entries, f), fields + [f])
  {
    AddedIsKeyed(entries, f);
    assert (fields + [f])[..|fields|] == fields;
    forall q ensures ValuesAt(Added(entries, f), q) == AllValues(fields + [f], q) {
      AddedValues(entries, f, q);
    }
  }

  function TrimRow(f: Field): Field {
    Field(MapTrim(f.name), MapTrim(f.value))
  }

  function TrimRows(rows: seq<Field>): (r: seq<Field>)
    ensures |r| == |rows|
  {
    if rows == [] then [] else TrimRows(rows[..|rows| - 1]) + [TrimRow(rows[|rows| - 1])]
  }

  lemma FirstSnoc(names: seq<Bytes>, name: Bytes, q: Bytes)
    ensures First(names + [name], q) == if First(names, q) < |names| then First(names, q) else if SameName(name, q) then |names| else |names| + 1
  {
    FirstFinds(names, q);
    var k := First(names, q);
    FirstIs(names + [name], q, if k < |names| then k else if SameName(name, q) then |names| else |names| + 1);
  }

  lemma {:induction false} TrimRowsAt(rows: seq<Field>, k: nat)
    requires k < |rows|
    ensures TrimRows(rows)[k] == TrimRow(rows[k])
    decreases |rows|
  {
    if k < |rows| - 1 { TrimRowsAt(rows[..|rows| - 1], k); }
  }

  /** The first field of a name carries the first of all its values. */
  lemma {:induction false} FirstOfAll(fields: seq<Field>, q: Bytes)
    ensures var k, all := First(Names(fields), q), AllValues(fields, q);
            if k < |fields| then all != [] && all[0] == fields[k].value else all == []
    decreases |fields|
  {
    if fields != [] {
      var n := |fields| - 1;
      FirstOfAll(fields[..n], q);
      assert Names(fields) == Names(fields[..n]) + [fields[n].name];
      FirstSnoc(Names(fields[..n]), fields[n].name, q);
    }
  }

  /** The map's answer is the first of all the values under that name. */
  lemma MappedIsFirst(rows: seq<Field>, q: Bytes)
    ensures var all := AllValues(TrimRows(rows), q); Mapped(rows, q) == if all == [] then None else Some(all[0])
  {
    FirstOfAll(TrimRows(rows), q);
    forall k | 0 <= k < |rows| ensures TrimRows(rows)[k] == TrimRow(rows[k]) {
      TrimRowsAt(rows, k);
    }
    assert Names(TrimRows(rows)) == MapNames(rows);
  }

  /** The lookup in the parsed map, as header() makes it when the map is there. */
  function LookupIn(entries: seq<Entry>, q: Bytes): Option<Bytes> {
    var vs := ValuesAt(entries, q);
    if vs == [] then None else Some(vs[0])
  }

  lemma LookupIsMapped(entries: seq<Entry>, rows: seq<Field>, q: Bytes)
    requires Represents(entries, TrimRows(rows))
    ensures LookupIn(entries, q) == Mapped(rows, q)
  {
    MappedIsFirst(rows, q);
    assert ValuesAt(entries, q) == AllValues(TrimRows(rows), q);
  }

  method AddLine(entries: seq<Entry>, line: Bytes, ghost rows: seq<Field>) returns (r: seq<Entry>)
    requires Represents(entries, TrimRows(rows))
    ensures Represents(r, TrimRows(rows + RowPart(line)))
  {
    var i := Position(line, COLON);
    if 0 < i < |line| {
      var f := TrimRow(Field(line[..i], line[i + 1..]));
      AddedRepresents(entries, TrimRows(rows), f);
      return Added(entries, f);
    }
    assert rows + RowPart(line) == rows;
    r := entries;
  }

  /** The first k lines have been parsed and the rest stands before the next. */
  ghost predicate Parsed(entries: seq<Entry>, lines: seq<Bytes>, k: nat, rest: Bytes) {
    k < |lines| && lines[k..] == Lines(rest) && Represents(entries, TrimRows(Flat(lines[..k], RowPart)))
  }

  lemma ParsedOn(before: seq<Entry>, after: seq<Entry>, lines: seq<Bytes>, k: nat, rest: Bytes)
    requires Parsed(before, lines, k, rest)
    requires Represents(after, TrimRows(Flat(lines[..k], RowPart) + RowPart(rest[..Find(rest, NEWLINE)])))
    ensures var e := Find(rest, NEWLINE);
            if e < |rest| then Parsed(after, lines, k + 1, rest[e + 1..]) else Represents(after, TrimRows(Flat(lines, RowPart)))
  {
    NextLine(lines, k, rest);
    FlatSnoc(lines[..k], rest[..Find(rest, NEWLINE)], RowPart);
  }

  method ParseEntries(raw: Bytes) returns (entries: seq<Entry>)
    ensures Represents(entries, TrimRows(Rows(raw)))
  {
    entries := [];
    ghost var lines, k: nat := Lines(raw), 0;
    var rest := raw;
    while true
      invariant Parsed(entries, lines, k, rest)
      decreases |lines| - k
    {
      var e := Position(rest, NEWLINE);
      var more := AddLine(entries, rest[..e], Flat(lines[..k], RowPart));
      ParsedOn(entries, more, lines, k, rest);
      entries := more;
      if e == |rest| {
        return;
      }
      rest, k := rest[e + 1..], k + 1;
    }
  }

  // ---- the scan -------------------------------------------------------------------------------

  method IndexOfColon(raw: Bytes, from: nat, to: nat) returns (k: int)
    requires from <= to <= |raw|
    ensures var c := Find(raw[from..to], COLON); k == if c < to - from then from + c else -1
  {
    var i := from;
    while i < to
      invariant from <= i <= to && forall j :: from <= j < i ==> raw[j] != COLON
    {
      if raw[i] == COLON {
        FindIs(raw[from..to], COLON, i - from);
        return i;
      }
      i := i + 1;
    }
    FindIs(raw[from..to], COLON, to - from);
    return -1;
  }

  method MatchesIgnoreCase(raw: Bytes, from: nat, to: nat, target: Bytes) returns (ok: bool)
    requires from <= to <= |raw|
    ensures ok == EqualUpToCase(raw[from..to], target)
    ensures ok == SameName(raw[from..to], target)
  {
    var name := raw[from..to];
    SameNameIff(name, target);
    if to - from != |target| {
      assert |Lower(name)| != |Lower(target)|;
      return false;
    }
    var i := 0;
    while i < |target|
      invariant 0 <= i <= |target| && forall k :: 0 <= k < i ==> LowerByte(name[k]) == LowerByte(target[k])
    {
      if LowerByte(raw[from + i]) != LowerByte(target[i]) {
        LowerAt(name, i);
        LowerAt(target, i);
        return false;
      }
      i := i + 1;
    }
    LowerExtends(name, target);
    return true;
  }

  /** Moves two indices inward over the blanks around a value. */
  method ScanValue(raw: Bytes, from: nat, to: nat) returns (r: Bytes)
    requires from <= to <= |raw|
    ensures r == ScanTrim(raw[from..to])
  {
    var vs, ve := from, to;
    while vs < to && (raw[vs] == SPACE || raw[vs] == TAB)
      invariant from <= vs <= to && TrimLeft(raw[vs..to], SCAN_LEFT) == TrimLeft(raw[from..to], SCAN_LEFT)
    {
      assert raw[vs..to][1..] == raw[vs + 1..to];
      vs := vs + 1;
    }
    assert TrimLeft(raw[vs..to], SCAN_LEFT) == raw[vs..to];
    while ve > vs && (raw[ve - 1] == SPACE || raw[ve - 1] == TAB || raw[ve - 1] == CR)
      invariant vs <= ve <= to && TrimRight(raw[vs..ve], SCAN_RIGHT) == ScanTrim(raw[from..to])
    {
      assert raw[vs..ve][..ve - vs - 1] == raw[vs..ve - 1];
      ve := ve - 1;
    }
    r := raw[vs..ve];
  }

  predicate NoneNamed(rows: seq<Field>, q: Bytes) {
    forall j :: 0 <= j < |rows| ==> !SameName(rows[j].name, q)
  }

  lemma ScanHits(done: seq<Field>, f: Field, rest: seq<Field>, q: Bytes)
    requires NoneNamed(done, q) && SameName(f.name, q)
    ensures Scanned(done + [f] + rest, q) == Some(ScanTrim(f.value))
  {
    FirstIs(Names(done + [f] + rest), q, |done|);
  }

  lemma ScanMisses(rows: seq<Field>, q: Bytes)
    requires NoneNamed(rows, q)
    ensures Scanned(rows, q) == None
  {
    FirstIs(Names(rows), q, |rows|);
  }

  method LineEnd(raw: Bytes, from: nat) returns (e: nat)
    requires from <= |raw|
    ensures from <= e <= |raw| && e - from == Find(raw[from..], NEWLINE)
  {
    e := from;
    while e < |raw| && raw[e] != NEWLINE
      invariant from <= e <= |raw| && forall j :: from <= j < e ==> raw[j] != NEWLINE
    {
      e := e + 1;
    }
    FindIs(raw[from..], NEWLINE, e - from);
  }

  /** How the rows of a block split around one of its lines. */
  lemma RowsSplit(lines: seq<Bytes>, k: nat) returns (rest: seq<Field>)
    requires k < |lines|
    ensures Flat(lines[..k + 1], RowPart) == Flat(lines[..k], RowPart) + RowPart(lines[k])
    ensures Flat(lines, RowPart) == Flat(lines[..k + 1], RowPart) + rest
  {
    assert lines[..k] + [lines[k]] == lines[..k + 1];
    FlatSnoc(lines[..k], lines[k], RowPart);
    assert lines == lines[..k + 1] + lines[k + 1..];
    FlatConcat(lines[..k + 1], lines[k + 1..], RowPart);
    rest := Flat(lines[k + 1..], RowPart);
  }

  method MatchLine(raw: Bytes, from: nat, to: nat, name: Bytes) returns (r: Option<Bytes>)
    requires from <= to <= |raw|
    ensures r.None? ==> NoneNamed(RowPart(raw[from..to]), name)
    ensures r.Some? ==> exists f :: RowPart(raw[from..to]) == [f] && SameName(f.name, name) && r.value == ScanTrim(f.value)
  {
    var colon := IndexOfColon(raw, from, to);
    ghost var line := raw[from..to];
    if colon > from {
      ghost var f := Field(line[..colon - from], line[colon - from + 1..]);
      assert f.name == raw[from..colon];
      assert f.value == raw[colon + 1..to];
      assert RowPart(line) == [f];
      var ok := MatchesIgnoreCase(raw, from, colon, name);
      if ok {
        var v := ScanValue(raw, colon + 1, to);
        return Some(v);
      }
    }
    return None;
  }

  /** What follows the last newline is an empty line, which has no row. */
  lemma LastLineIsBlank(raw: Bytes, lines: seq<Bytes>, k: nat)
    requires k < |lines| && lines[k..] == Lines(raw[|raw|..])
    ensures Flat(lines, RowPart) == Flat(lines[..k], RowPart)
  {
    assert raw[|raw|..] == [];
    assert lines[k..] == [[]];
    assert lines == lines[..k] + [lines[k]];
    FlatSnoc(lines[..k], lines[k], RowPart);
  }

  /** The scan has passed the first k lines without a match and stands at the next. */
  ghost predicate Scanning(raw: Bytes, k: nat, start: nat, name: Bytes) {
    && k <= |Lines(raw)|
    && NoneNamed(Flat(Lines(raw)[..k], RowPart), name)
    && (if start <= |raw| then k < |Lines(raw)| && Lines(raw)[k..] == Lines(raw[start..]) else k == |Lines(raw)|)
  }

  lemma TailLines(raw: Bytes, start: nat, end: nat)
    requires start <= end <= |raw| && end - start == Find(raw[start..], NEWLINE)
    ensures Lines(raw[start..])[0] == raw[start..end]
    ensures if end < |raw| then Lines(raw[start..])[1..] == Lines(raw[end + 1..]) else |Lines(raw[start..])| == 1
  {
    var tail := raw[start..];
    LinesStep(tail);
    assert tail[..end - start] == raw[start..end];
    if end < |raw| { assert tail[end - start + 1..] == raw[end + 1..]; }
  }

  lemma LineAt(raw: Bytes, k: nat, start: nat, end: nat, name: Bytes)
    requires Scanning(raw, k, start, name) && start <= end <= |raw| && end - start == Find(raw[start..], NEWLINE)
    ensures k < |Lines(raw)| && Lines(raw)[k] == raw[start..end]
    ensures if end < |raw| then k + 1 < |Lines(raw)| && Lines(raw)[k + 1..] == Lines(raw[end + 1..]) else k + 1 == |Lines(raw)|
  {
    TailLines(raw, start, end);
    if end < |raw| { assert |Lines(raw)[k + 1..]| > 0; }
  }

  lemma ScanAdvances(raw: Bytes, k: nat, start: nat, end: nat, name: Bytes)
    requires Scanning(raw, k, start, name) && start <= end <= |raw| && end - start == Find(raw[start..], NEWLINE)
    requires NoneNamed(RowPart(raw[start..end]), name)
    ensures Scanning(raw, k + 1, end + 1, name)
  {
    LineAt(raw, k, start, end, name);
    var rest := RowsSplit(Lines(raw), k);
  }

  lemma ScanStops(raw: Bytes, k: nat, start: nat, end: nat, name: Bytes, f: Field)
    requires Scanning(raw, k, start, name) && start <= end <= |raw| && end - start == Find(raw[start..], NEWLINE)
    requires RowPart(raw[start..end]) == [f] && SameName(f.name, name)
    ensures Scanned(Rows(raw), name) == Some(ScanTrim(f.value))
  {
    LineAt(raw, k, start, end, name);
    var rest := RowsSplit(Lines(raw), k);
    ScanHits(Flat(Lines(raw)[..k], RowPart), f, rest, name);
  }

  lemma ScanEnds(raw: Bytes, k: nat, start: nat, name: Bytes)
    requires Scanning(raw, k, start, name) && start >= |raw|
    ensures Scanned(Rows(raw), name) == None
  {
    if start == |raw| {
      LastLineIsBlank(raw, Lines(raw), k);
    } else {
      assert Lines(raw)[..k] == Lines(raw);
    }
    ScanMisses(Rows(raw), name);
  }

  /** The scan of header(): line after line over the raw bytes, stopping at the first match. */
  method ScanHeader(raw: Bytes, name: Bytes) returns (r: Option<Bytes>)
    ensures r == Scanned(Rows(raw), name)
  {
    ghost var k := 0;
    var start := 0;
    assert raw[0..] == raw && Lines(raw)[0..] == Lines(raw);
    while start < |raw|
      invariant Scanning(raw, k, start, name)
      decreases |raw| - start
    {
      var end := LineEnd(raw, start);
      r := MatchLine(raw, start, end, name);
      if r.Some? {
        ghost var f :| RowPart(raw[start..end]) == [f] && SameName(f.name, name) && r.value == ScanTrim(f.value);
        ScanStops(raw, k, start, end, name, f);
        return;
      }
      ScanAdvances(raw, k, start, end, name);
      start, k := end + 1, k + 1;
    }
    ScanEnds(raw, k, start, name);
    r := None;
  }

  /** Some row of the block has this name up to case: as it stands, or as the map has it, without the blanks around it. */
  predicate Carries(rows: seq<Field>, q: Bytes, trimmed: bool) {
    exists k :: 0 <= k < |rows| && EqualUpToCase(if trimmed then MapTrim(rows[k].name) else rows[k].name, q)
  }

  /** There is an answer exactly if a row has that name up to case. */
  lemma AnswersIff(rows: seq<Field>, q: Bytes)
    ensures Scanned(rows, q).Some? <==> Carries(rows, q, false)
    ensures Mapped(rows, q).Some? <==> Carries(rows, q, true)
  {
    FirstFinds(Names(rows), q);
    FirstFinds(MapNames(rows), q);
    forall k | 0 <= k < |rows|
      ensures SameName(Names(rows)[k], q) <==> EqualUpToCase(rows[k].name, q)
      ensures SameName(MapNames(rows)[k], q) <==> EqualUpToCase(MapTrim(rows[k].name), q)
    {
      SameNameIff(rows[k].name, q);
      SameNameIff(MapTrim(rows[k].name), q);
    }
  }

  // ---- the request ----------------------------------------------------------------------------

  class Request {
    const rawHeaderBytes: Bytes
    var headersOrNull: Option<seq<Entry>>

    ghost predicate Valid()
      reads this
    {
      headersOrNull.Some? ==> Represents(headersOrNull.value, TrimRows(Rows(rawHeaderBytes)))
    }

    constructor (raw: Bytes)
      ensures Valid() && rawHeaderBytes == raw && headersOrNull.None?
    {
      rawHeaderBytes, headersOrNull := raw, None;
    }

    /** Parses once and keeps the map. */
    method Headers() returns (entries: seq<Entry>)
      requires Valid()
      modifies this
      ensures Valid() && headersOrNull == Some(entries)
      ensures old(headersOrNull).Some? ==> headersOrNull == old(headersOrNull)
      ensures Represents(entries, TrimRows(Rows(rawHeaderBytes)))
    {
      if headersOrNull.None? {
        entries := ParseEntries(rawHeaderBytes);
        headersOrNull := Some(entries);
      }
      entries := headersOrNull.value;
    }

    /** Looks in the map if it is there, scans otherwise, and parses nothing. On an agreeing block the two answers are
        one: it does not matter whether anybody asked for the map before. */
    method Header(name: Bytes) returns (r: Option<Bytes>)
      requires Valid()
      ensures r == if headersOrNull.Some? then Mapped(Rows(rawHeaderBytes), name) else Scanned(Rows(rawHeaderBytes), name)
      ensures Agreeing(Rows(rawHeaderBytes)) ==> r == Mapped(Rows(rawHeaderBytes), name)
      ensures r.Some? <==> Carries(Rows(rawHeaderBytes), name, headersOrNull.Some?)
    {
      AnswersIff(Rows(rawHeaderBytes), name);
      if Agreeing(Rows(rawHeaderBytes)) {
        AgreeingAgrees(Rows(rawHeaderBytes), name);
      }
      if headersOrNull.Some? {
        LookupIsMapped(headersOrNull.value, Rows(rawHeaderBytes), name);
        return LookupIn(headersOrNull.value, name);
      }
      r := ScanHeader(rawHeaderBytes, name);
    }
  }
}

/** Header blocks as bytes: lines, the first occurrence of a byte, trimming by a set of bytes, ASCII case folding. */
module HeaderText {
  import opened Abi

  type Bytes = seq<Byte>

  const NEWLINE: Byte := 10
  const CR: Byte := 13
  const COLON: Byte := 58
  const SPACE: Byte := 32
  const TAB: Byte := 9

  // ---- finding --------------------------------------------------------------------------------

  /** The first occurrence, or the length. */
  function Find(s: Bytes, b: Byte): (k: nat)
    ensures k <= |s|
  {
    if s == [] || s[0] == b then 0 else 1 + Find(s[1..], b)
  }

  /** No occurrence comes before the first. */
  lemma {:induction false} FindFinds(s: Bytes, b: Byte)
    ensures Find(s, b) < |s| ==> s[Find(s, b)] == b
    ensures forall j :: 0 <= j < Find(s, b) ==> s[j] != b
    decreases |s|
  {
    if s != [] && s[0] != b { FindFinds(s[1..], b); }
  }

  lemma FindIs(s: Bytes, b: Byte, k: nat)
    requires k <= |s| && (k < |s| ==> s[k] == b) && forall j :: 0 <= j < k ==> s[j] != b
    ensures Find(s, b) == k
  {
    FindFinds(s, b);
  }

  // ---- lines ----------------------------------------------------------------------------------

  function Lines(raw: Bytes): (r: seq<Bytes>)
    ensures r != []
    decreases |raw|
  {
    var e := Find(raw, NEWLINE);
    if e == |raw| then [raw] else [raw[..e]] + Lines(raw[e + 1..])
  }

  lemma LinesStep(raw: Bytes)
    ensures var e := Find(raw, NEWLINE);
            Lines(raw)[0] == raw[..e] && (if e == |raw| then |Lines(raw)| == 1 else Lines(raw)[1..] == Lines(raw[e + 1..]))
  {
    assert raw[..|raw|] == raw;
  }

  /** A walk over a block: the line it stands at, and the lines it still has to do. */
  lemma NextLine(lines: seq<Bytes>, k: nat, rest: Bytes)
    requires k < |lines| && lines[k..] == Lines(rest)
    ensures var e := Find(rest, NEWLINE);
            && lines[..k] + [rest[..e]] == lines[..k + 1]
            && (if e < |rest| then k + 1 < |lines| && lines[k + 1..] == Lines(rest[e + 1..]) else lines[..k + 1] == lines)
  {
    LinesStep(rest);
    var more := lines[k..];
    assert lines[k] == more[0] && lines[k + 1..] == more[1..];
  }

  /** Lines separated by newlines, with none after the last. */
  function Join(lines: seq<Bytes>): Bytes {
    if lines == [] then [] else if |lines| == 1 then lines[0] else lines[0] + [NEWLINE] + Join(lines[1..])
  }

  /** Splitting undoes joining. */
  lemma {:induction false} LinesOfJoin(lines: seq<Bytes>)
    requires lines != [] && forall k :: 0 <= k < |lines| ==> NEWLINE !in lines[k]
    ensures Lines(Join(lines)) == lines
    decreases |lines|
  {
    var raw := Join(lines);
    if |lines| == 1 {
      FindIs(raw, NEWLINE, |raw|);
    } else {
      FindIs(raw, NEWLINE, |lines[0]|);
      assert raw[..|lines[0]|] == lines[0];
      assert raw[|lines[0]| + 1..] == Join(lines[1..]);
      LinesOfJoin(lines[1..]);
    }
  }

  // ---- trimming -------------------------------------------------------------------------------

  function TrimLeft(s: Bytes, ws: set<Byte>): Bytes {
    if s == [] || s[0] !in ws then s else TrimLeft(s[1..], ws)
  }

  function TrimRight(s: Bytes, ws: set<Byte>): Bytes {
    if s == [] || s[|s| - 1] !in ws then s else TrimRight(s[..|s| - 1], ws)
  }

  /** What is left is a suffix, everything cut off is blank, and the rest does not start blank. */
  lemma {:induction false} TrimLeftCuts(s: Bytes, ws: set<Byte>)
    ensures var r := TrimLeft(s, ws); |r| <= |s| && r == s[|s| - |r|..] && (r != [] ==> r[0] !in ws)
    ensures forall j :: 0 <= j < |s| - |TrimLeft(s, ws)| ==> s[j] in ws
    decreases |s|
  {
    if s != [] && s[0] in ws { TrimLeftCuts(s[1..], ws); }
  }

  lemma {:induction false} TrimRightCuts(s: Bytes, ws: set<Byte>)
    ensures var r := TrimRight(s, ws); |r| <= |s| && r == s[..|r|] && (r != [] ==> r[|r| - 1] !in ws)
    ensures forall j :: |TrimRight(s, ws)| <= j < |s| ==> s[j] in ws
    decreases |s|
  {
    if s != [] && s[|s| - 1] in ws { TrimRightCuts(s[..|s| - 1], ws); }
  }

  function Trim(s: Bytes, left: set<Byte>, right: set<Byte>): Bytes {
    TrimRight(TrimLeft(s, left), right)
  }

  predicate Trimmed(s: Bytes, ws: set<Byte>) {
    s == [] || (s[0] !in ws && s[|s| - 1] !in ws)
  }

  /** Trimming is the identity exactly on what has nothing to trim. */
  lemma TrimIsIdentityIff(s: Bytes, ws: set<Byte>)
    ensures Trim(s, ws, ws) == s <==> Trimmed(s, ws)
  {
    TrimLeftCuts(s, ws);
    TrimRightCuts(TrimLeft(s, ws), ws);
    if s != [] && s[0] in ws {
      TrimLeftCuts(s[1..], ws);
    }
  }

  lemma TrimIsTrimmed(s: Bytes, ws: set<Byte>)
    ensures Trimmed(Trim(s, ws, ws), ws)
  {
    TrimLeftCuts(s, ws);
    TrimRightCuts(TrimLeft(s, ws), ws);
  }

  lemma TrimShortensOrKeeps(s: Bytes, ws: set<Byte>)
    ensures |Trim(s, ws, ws)| <= |s| && (|Trim(s, ws, ws)| == |s| ==> Trim(s, ws, ws) == s)
  {
    TrimLeftCuts(s, ws);
    TrimRightCuts(TrimLeft(s, ws), ws);
  }

  predicate Within(s: Bytes, ok: set<Byte>) {
    forall k :: 0 <= k < |s| ==> s[k] in ok
  }

  lemma {:induction false} TrimLeftAgrees(s: Bytes, ok: set<Byte>, ws: set<Byte>, ws': set<Byte>)
    requires Within(s, ok) && ok * ws == ok * ws'
    ensures TrimLeft(s, ws) == TrimLeft(s, ws')
    decreases |s|
  {
    if s != [] {
      assert s[0] in ok * ws <==> s[0] in ok * ws';
      TrimLeftAgrees(s[1..], ok, ws, ws');
    }
  }

  lemma {:induction false} TrimRightAgrees(s: Bytes, ok: set<Byte>, ws: set<Byte>, ws': set<Byte>)
    requires Within(s, ok) && ok * ws == ok * ws'
    ensures TrimRight(s, ws) == TrimRight(s, ws')
    decreases |s|
  {
    if s != [] {
      assert s[|s| - 1] in ok * ws <==> s[|s| - 1] in ok * ws';
      TrimRightAgrees(s[..|s| - 1], ok, ws, ws');
    }
  }

  /** Two trims agree on every text over an alphabet on which their sets agree. */
  lemma TrimAgrees(s: Bytes, ok: set<Byte>, l: set<Byte>, r: set<Byte>, l': set<Byte>, r': set<Byte>)
    requires Within(s, ok) && ok * l == ok * l' && ok * r == ok * r'
    ensures Trim(s, l, r) == Trim(s, l', r')
  {
    TrimLeftAgrees(s, ok, l, l');
    TrimLeftCuts(s, l);
    var t := TrimLeft(s, l);
    assert Within(t, ok);
    TrimRightAgrees(t, ok, r, r');
  }

  // ---- ASCII case folding ---------------------------------------------------------------------

  function LowerByte(b: Byte): Byte {
    if 65 <= b <= 90 then b + 32 else b
  }

  function Lower(s: Bytes): (r: Bytes)
    ensures |r| == |s|
  {
    if s == [] then [] else [LowerByte(s[0])] + Lower(s[1..])
  }

  lemma {:induction false} LowerAt(s: Bytes, k: nat)
    requires k < |s|
    ensures Lower(s)[k] == LowerByte(s[k])
    decreases |s|
  {
    if k > 0 { LowerAt(s[1..], k - 1); }
  }

  predicate SameName(a: Bytes, b: Bytes) {
    Lower(a) == Lower(b)
  }

  lemma {:induction false} LowerExtends(a: Bytes, b: Bytes)
    requires |a| == |b| && forall k :: 0 <= k < |a| ==> LowerByte(a[k]) == LowerByte(b[k])
    ensures SameName(a, b)
    decreases |a|
  {
    if a != [] { LowerExtends(a[1..], b[1..]); }
  }

  /** One byte is the other, or one is a capital letter of ASCII and the other that letter in lower case. */
  predicate SameLetter(a: Byte, b: Byte) {
    a == b || (65 <= a <= 90 && b == a + 32) || (65 <= b <= 90 && a == b + 32)
  }

  predicate EqualUpToCase(a: Bytes, b: Bytes) {
    |a| == |b| && forall k :: 0 <= k < |a| ==> SameLetter(a[k], b[k])
  }

  predicate NoCapitals(s: Bytes) {
    forall k :: 0 <= k < |s| ==> !(65 <= s[k] <= 90)
  }

  /** Names are the same if and only if they have the same letters in either case and the same other bytes. */
  lemma SameNameIff(a: Bytes, b: Bytes)
    ensures SameName(a, b) <==> EqualUpToCase(a, b)
  {
    if SameName(a, b) {
      assert |Lower(a)| == |Lower(b)|;
      forall k | 0 <= k < |a| ensures SameLetter(a[k], b[k]) {
        LowerAt(a, k);
        LowerAt(b, k);
      }
    }
    if EqualUpToCase(a, b) {
      forall k | 0 <= k < |a| ensures LowerByte(a[k]) == LowerByte(b[k]) { assert SameLetter(a[k], b[k]); }
      LowerExtends(a, b);
    }
  }

  /** Folding a name leaves no capital letter, and the name the same up to case. */
  lemma FoldedName(s: Bytes)
    ensures NoCapitals(Lower(s)) && EqualUpToCase(s, Lower(s))
    ensures NoCapitals(s) ==> Lower(s) == s
  {
    LowerIsIdempotent(s);
    SameNameIff(s, Lower(s));
    forall k | 0 <= k < |s| ensures !(65 <= Lower(s)[k] <= 90) && (NoCapitals(s) ==> Lower(s)[k] == s[k]) { LowerAt(s, k); }
  }

  lemma {:induction false} LowerIsIdempotent(s: Bytes)
    ensures Lower(Lower(s)) == Lower(s)
    decreases |s|
  {
    if s != [] {
      LowerIsIdempotent(s[1..]);
      assert Lower(s)[1..] == Lower(s[1..]);
    }
  }
}

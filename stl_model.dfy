/**
 * The STL mesh loader: a file in the binary or the ASCII layout of the 3D
 * Systems StereoLithography Interface Specification is read into a list
 * of vertices (position, facet normal, texture coordinate), its bounding
 * box is taken, and texture coordinates are generated from the positions
 * by one of five projections before the list is handed to the graphics
 * library as eight floats per vertex.
 */
module Stl {
  import opened Wrappers
  import opened Vectors
  import opened Bytes

  // A binary file is an 80-byte header, a 4-byte triangle count, and 50
  // bytes per triangle: the normal and three vertices as 12 single-precision
  // floats, then a 2-byte attribute count.

  /** The smallest texture tiling SetUvMode accepts. */
  const MinTiling: real := 0.0001

  /** Single-precision pi (`MathF.PI`). */
  const FloatPi: real := 3.1415927410125732421875

  /**
   * The numeric and text primitives of the runtime that the loader relies
   * on: reading a single-precision float from four bytes, splitting a file
   * into text lines, parsing a number with the invariant culture (None
   * where the parse throws), and the two-argument arc tangent.
   */
  datatype Primitives = Primitives(
    single: (Byte, Byte, Byte, Byte) -> real,
    lines: seq<Byte> -> seq<string>,
    parse: string -> Option<real>,
    atan2: (real, real) -> real)

  /** Why an ASCII file is refused; each stands for an exception raised inside `StlModel.LoadAscii` (an out-of-range index into the split line, or `float.Parse`). */
  datatype StlError =
    | MissingNumbers   // a "facet normal" or "vertex" line with fewer than three words
    | BadNumber        // one of its last three words is not a number

  // ---------------------------------------------------------------- vertices

  /** One vertex: position, normal and texture coordinate. */
  datatype Vertex = Vertex(pos: Vec3, normal: Vec3, uv: Vec2)

  /** The eight floats a vertex is stored as. */
  function Row(v: Vertex): (r: seq<real>)
    ensures |r| == 8
  {
    [v.pos.x, v.pos.y, v.pos.z, v.normal.x, v.normal.y, v.normal.z, v.uv.x, v.uv.y]
  }

  /** The flat float list of a vertex list, eight floats per vertex. */
  function Flatten(vs: seq<Vertex>): (r: seq<real>)
    ensures |r| == 8 * |vs|
  {
    if vs == [] then [] else Flatten(vs[..|vs| - 1]) + Row(vs[|vs| - 1])
  }

  /** Appending a vertex appends its eight floats. */
  lemma FlattenAppend(vs: seq<Vertex>, v: Vertex)
    ensures Flatten(vs + [v]) == Flatten(vs) + Row(v)
  {
    assert (vs + [v])[..|vs|] == vs;
  }

  /** Float `8k + c` of the flat list is float `c` of vertex `k`: the stride-8 layout the graphics library is told. */
  lemma {:induction false} FlattenLayout(vs: seq<Vertex>, k: nat, c: nat)
    requires k < |vs| && c < 8
    ensures Flatten(vs)[8 * k + c] == Row(vs[k])[c]
  {
    var init := vs[..|vs| - 1];
    if k < |vs| - 1 {
      FlattenLayout(init, k, c);
      assert init[k] == vs[k];
    }
  }

  /** AddVertex: the position and the normal with a placeholder texture coordinate (0, 0). */
  function AddVertex(list: seq<Vertex>, pos: Vec3, normal: Vec3): (r: seq<Vertex>)
    ensures |r| == |list| + 1 && r[..|list|] == list && r[|list|] == Vertex(pos, normal, Vec2(0.0, 0.0))
  {
    list + [Vertex(pos, normal, Vec2(0.0, 0.0))]
  }

  // ------------------------------------------------------------ binary layout

  /** The triangle count stored after the header. */
  function TriangleCount(file: seq<Byte>): nat
    requires 84 <= |file|
  {
    U32(file, 80)
  }

  /** The file is taken as binary when it holds a header and exactly as many 50-byte records as its count says. */
  function IsBinaryStl(file: seq<Byte>): bool {
    if |file| < 84 then false
    else 84 + 50 * TriangleCount(file) == |file|
  }

  /** Any header, a count `n` and `n` records make a file the test accepts. */
  lemma BinaryRecognised(header: seq<Byte>, n: nat, records: seq<Byte>)
    requires |header| == 80 && n < Two32 && |records| == 50 * n
    ensures IsBinaryStl(header + LE32(n) + records)
  {
    U32OfLE32At(header, n, records);
  }

  /** A file the test accepts is a header followed by whole records. */
  lemma BinaryShape(file: seq<Byte>)
    requires IsBinaryStl(file)
    ensures |file| >= 84 && (|file| - 84) % 50 == 0
    ensures (|file| - 84) / 50 == TriangleCount(file)
  {
  }

  /** Three floats read from `at`. */
  function PointAt(file: seq<Byte>, at: nat, single: (Byte, Byte, Byte, Byte) -> real): Vec3
    requires at + 12 <= |file|
  {
    Vec3(single(file[at], file[at + 1], file[at + 2], file[at + 3]),
         single(file[at + 4], file[at + 5], file[at + 6], file[at + 7]),
         single(file[at + 8], file[at + 9], file[at + 10], file[at + 11]))
  }

  /** Where record `t` starts. */
  function RecordAt(t: nat): nat {
    84 + 50 * t
  }

  /** Vertex `j` (0, 1 or 2) of record `t`: the point stored after the normal, with the normal and (0, 0). */
  function Corner(file: seq<Byte>, t: nat, j: nat, single: (Byte, Byte, Byte, Byte) -> real): Vertex
    requires RecordAt(t) + 50 <= |file| && j < 3
  {
    Vertex(PointAt(file, RecordAt(t) + 12 + 12 * j, single), PointAt(file, RecordAt(t), single), Vec2(0.0, 0.0))
  }

  /** One pass of the record loop: the record's three points appended, each with the record's normal. */
  function AddFacet(list: seq<Vertex>, file: seq<Byte>, t: nat, single: (Byte, Byte, Byte, Byte) -> real): (r: seq<Vertex>)
    requires RecordAt(t) + 50 <= |file|
    ensures |r| == |list| + 3
  {
    var at := RecordAt(t);
    var normal := PointAt(file, at, single);
    AddVertex(AddVertex(AddVertex(list, PointAt(file, at + 12, single), normal),
                        PointAt(file, at + 24, single), normal),
              PointAt(file, at + 36, single), normal)
  }

  /** The vertices of the first `n` records. */
  function Facets(file: seq<Byte>, n: nat, single: (Byte, Byte, Byte, Byte) -> real): (r: seq<Vertex>)
    requires RecordAt(n) <= |file|
    ensures |r| == 3 * n
  {
    if n == 0 then [] else AddFacet(Facets(file, n - 1, single), file, n - 1, single)
  }

  /** A record's vertices land at `3t`, `3t + 1`, `3t + 2`, after the `t` records before it, which stay put. */
  lemma AddFacetLayout(list: seq<Vertex>, file: seq<Byte>, t: nat, single: (Byte, Byte, Byte, Byte) -> real)
    requires RecordAt(t) + 50 <= |file| && |list| == 3 * t
    ensures var r := AddFacet(list, file, t, single);
      r[..3 * t] == list &&
      r[3 * t] == Corner(file, t, 0, single) && r[3 * t + 1] == Corner(file, t, 1, single) &&
      r[3 * t + 2] == Corner(file, t, 2, single)
  {
  }

  /** Vertex `3t + j` of the first `n` records' vertices is record `t`'s corner `j`. */
  lemma {:induction false} FacetAt(file: seq<Byte>, n: nat, t: nat, j: nat, single: (Byte, Byte, Byte, Byte) -> real)
    requires RecordAt(n) <= |file| && t < n && j < 3
    ensures Facets(file, n, single)[3 * t + j] == Corner(file, t, j, single)
  {
    var pre := Facets(file, n - 1, single);
    var raw := Facets(file, n, single);
    AddFacetLayout(pre, file, n - 1, single);
    if t < n - 1 {
      FacetAt(file, n - 1, t, j, single);
      assert raw[3 * t + j] == raw[..3 * (n - 1)][3 * t + j];
    }
  }

  /**
   * The binary reader's output: three vertices per record, and vertex
   * `3t + j` holds record `t`'s point `j`, the record's normal and (0, 0).
   */
  lemma FacetsLayout(file: seq<Byte>, n: nat, single: (Byte, Byte, Byte, Byte) -> real)
    requires RecordAt(n) <= |file|
    ensures var raw := Facets(file, n, single);
      |raw| == 3 * n &&
      forall t, j :: 0 <= t < n && 0 <= j < 3 ==> raw[3 * t + j] == Corner(file, t, j, single)
  {
    forall t, j | 0 <= t < n && 0 <= j < 3
      ensures Facets(file, n, single)[3 * t + j] == Corner(file, t, j, single)
    {
      FacetAt(file, n, t, j, single);
    }
  }

  /** The binary reader: the count from the header, then one record at a time. */
  method LoadBinary(file: seq<Byte>, single: (Byte, Byte, Byte, Byte) -> real) returns (vertices: seq<Vertex>)
    requires IsBinaryStl(file)
    ensures vertices == Facets(file, TriangleCount(file), single)
  {
    var triCount := U32(file, 80);
    vertices := ReadRecords(file, triCount, single);
  }

  /** The record loop of the binary reader: three vertices per record, each with the record's normal. */
  method ReadRecords(file: seq<Byte>, triCount: nat, single: (Byte, Byte, Byte, Byte) -> real) returns (vertices: seq<Vertex>)
    requires RecordAt(triCount) <= |file|
    ensures vertices == Facets(file, triCount, single)
  {
    vertices := [];
    var i := 0;
    while i < triCount
      invariant 0 <= i <= triCount
      invariant vertices == Facets(file, i, single)
    {
      vertices := ReadRecord(vertices, file, i, single);
      i := i + 1;
    }
  }

  /** One pass of the record loop: the normal and three points, then the 2-byte attribute count, which is skipped. */
  method ReadRecord(list: seq<Vertex>, file: seq<Byte>, t: nat, single: (Byte, Byte, Byte, Byte) -> real)
    returns (vertices: seq<Vertex>)
    requires RecordAt(t) + 50 <= |file|
    ensures vertices == AddFacet(list, file, t, single)
  {
    var pos := RecordAt(t);
    var normal := PointAt(file, pos, single);
    var v1 := PointAt(file, pos + 12, single);
    var v2 := PointAt(file, pos + 24, single);
    var v3 := PointAt(file, pos + 36, single);
    vertices := AddVertex(list, v1, normal);
    vertices := AddVertex(vertices, v2, normal);
    vertices := AddVertex(vertices, v3, normal);
  }

  // ------------------------------------------------------------- ASCII layout

  /** The characters .NET's `char.IsWhiteSpace` accepts, which `Trim` removes. */
  predicate IsWhiteSpace(c: char) {
    var n := c as int;
    n == 0x20 || 0x09 <= n <= 0x0D || n == 0x85 || n == 0xA0 || n == 0x1680 ||
    0x2000 <= n <= 0x200A || n == 0x2028 || n == 0x2029 || n == 0x202F || n == 0x205F || n == 0x3000
  }

  /** The number of leading white-space characters. */
  function LeadingSpace(s: string): (n: nat)
    ensures n <= |s| && (forall i :: 0 <= i < n ==> IsWhiteSpace(s[i])) && (n < |s| ==> !IsWhiteSpace(s[n]))
  {
    if s != [] && IsWhiteSpace(s[0]) then 1 + LeadingSpace(s[1..]) else 0
  }

  /** The number of trailing white-space characters. */
  function TrailingSpace(s: string): (n: nat)
    ensures n <= |s| && (forall i :: |s| - n <= i < |s| ==> IsWhiteSpace(s[i])) && (n < |s| ==> !IsWhiteSpace(s[|s| - n - 1]))
  {
    if s != [] && IsWhiteSpace(s[|s| - 1]) then 1 + TrailingSpace(s[..|s| - 1]) else 0
  }

  /**
   * `string.Trim`: the line with white space removed from both ends. What
   * is removed is all white space, and what is kept starts and ends with a
   * character that is not.
   */
  function Trim(s: string): (r: string)
    ensures exists i, j :: (0 <= i <= j <= |s| && r == s[i..j] &&
      (forall k :: 0 <= k < i ==> IsWhiteSpace(s[k])) && (forall k :: j <= k < |s| ==> IsWhiteSpace(s[k])))
    ensures r == [] || (!IsWhiteSpace(r[0]) && !IsWhiteSpace(r[|r| - 1]))
  {
    var i := LeadingSpace(s);
    var t := s[i..];
    var n := TrailingSpace(t);
    assert t[..|t| - n] == s[i..|s| - n];
    s[i..|s| - n]
  }

  /** ASCII letters folded to upper case; other characters are left as they are. */
  function Fold(c: char): char {
    if 'a' <= c <= 'z' then (c as int - 32) as char else c
  }

  /** `s` starts with `prefix`, comparing letters without regard to case. */
  predicate StartsWithIgnoreCase(s: string, prefix: string) {
    |prefix| <= |s| && forall i :: 0 <= i < |prefix| ==> Fold(s[i]) == Fold(prefix[i])
  }

  /** The run of characters before the first space. */
  function Word(s: string): (w: string)
    ensures |w| <= |s| && w == s[..|w|] && ' ' !in w && (|w| < |s| ==> s[|w|] == ' ')
  {
    if s == [] || s[0] == ' ' then [] else [s[0]] + Word(s[1..])
  }

  /** `Split(' ', RemoveEmptyEntries)`: the words between spaces; no word is empty or holds a space. */
  function Tokens(s: string): (r: seq<string>)
    ensures forall k :: 0 <= k < |r| ==> r[k] != [] && ' ' !in r[k]
    decreases |s|
  {
    if s == [] then []
    else if s[0] == ' ' then Tokens(s[1..])
    else
      var w := Word(s);
      [w] + Tokens(s[|w|..])
  }

  /** The first word is unchanged by whatever follows a space after it. */
  lemma {:induction false} WordBeforeSpace(a: string, b: string)
    ensures Word(a + [' '] + b) == Word(a)
    decreases |a|
  {
    if a != [] && a[0] != ' ' {
      assert (a + [' '] + b)[1..] == a[1..] + [' '] + b;
      WordBeforeSpace(a[1..], b);
    }
  }

  /**
   * The words of a line split at a space are the words before it followed by
   * the words after it; with `TokensOfWord` this pins `Tokens` down on every line.
   */
  lemma {:induction false} TokensSplitAtSpace(a: string, b: string)
    ensures Tokens(a + [' '] + b) == Tokens(a) + Tokens(b)
    decreases |a|
  {
    var s := a + [' '] + b;
    if a == [] {
      assert s[1..] == b;
    } else if a[0] == ' ' {
      assert s[1..] == a[1..] + [' '] + b;
      TokensSplitAtSpace(a[1..], b);
    } else {
      WordBeforeSpace(a, b);
      var w := Word(a);
      assert s[|w|..] == a[|w|..] + [' '] + b;
      TokensSplitAtSpace(a[|w|..], b);
    }
  }

  /** A non-empty run without spaces is a single word. */
  lemma {:induction false} TokensOfWord(w: string)
    requires w != [] && ' ' !in w
    ensures Tokens(w) == [w]
  {
    var v := Word(w);
    assert v == w[..|w|] == w;
    assert w[0] != ' ' && w[|w|..] == [];
  }

  /** The last three words parsed as a vector; fewer than three words or an unparsable one is an error. */
  function LastThree(parts: seq<string>, parse: string -> Option<real>): Result<Vec3, StlError> {
    if |parts| < 3 then Err(MissingNumbers)
    else
      var a := parse(parts[|parts| - 3]);
      var b := parse(parts[|parts| - 2]);
      var c := parse(parts[|parts| - 1]);
      if a.None? || b.None? || c.None? then Err(BadNumber) else Ok(Vec3(a.value, b.value, c.value))
  }

  /** The ASCII reader's state: vertices so far, the current normal, and the vertices of the open face. */
  datatype Reading = Reading(vertices: seq<Vertex>, normal: Vec3, face: seq<Vec3>)

  const StartReading: Reading := Reading([], Zero, [])

  /** The face's three vertices with the normal, when it has exactly three; nothing otherwise. */
  function CloseFace(vertices: seq<Vertex>, face: seq<Vec3>, normal: Vec3): seq<Vertex> {
    if |face| == 3 then AddVertex(AddVertex(AddVertex(vertices, face[0], normal), face[1], normal), face[2], normal)
    else vertices
  }

  /** One trimmed line: a new normal, a vertex of the open face, the end of a face, or nothing. */
  function ReadLine(st: Reading, line: string, parse: string -> Option<real>): Result<Reading, StlError> {
    var t := Trim(line);
    if StartsWithIgnoreCase(t, "facet normal") then
      var n := LastThree(Tokens(t), parse);
      if n.Err? then Err(n.error) else Ok(st.(normal := n.value))
    else if StartsWithIgnoreCase(t, "vertex") then
      var v := LastThree(Tokens(t), parse);
      if v.Err? then Err(v.error) else Ok(st.(face := st.face + [v.value]))
    else if StartsWithIgnoreCase(t, "endfacet") then
      Ok(st.(vertices := CloseFace(st.vertices, st.face, st.normal), face := []))
    else
      Ok(st)
  }

  /** The lines read in order; the first error ends the reading. */
  function ReadLines(st: Reading, lines: seq<string>, parse: string -> Option<real>): Result<Reading, StlError>
    decreases |lines|
  {
    if lines == [] then Ok(st)
    else
      var next := ReadLine(st, lines[0], parse);
      if next.Err? then next else ReadLines(next.value, lines[1..], parse)
  }

  /** What the ASCII reader returns: the vertices after the last line. */
  function AsciiOf(lines: seq<string>, parse: string -> Option<real>): Result<seq<Vertex>, StlError> {
    var r := ReadLines(StartReading, lines, parse);
    if r.Err? then Err(r.error) else Ok(r.value.vertices)
  }

  /** The ASCII reader: one line at a time. */
  method LoadAscii(lines: seq<string>, parse: string -> Option<real>) returns (r: Result<seq<Vertex>, StlError>)
    ensures r == AsciiOf(lines, parse)
  {
    var vertices := [];
    var currentNormal := Zero;
    var faceVerts := [];
    var i := 0;
    while i < |lines|
      invariant 0 <= i <= |lines|
      invariant ReadLines(Reading(vertices, currentNormal, faceVerts), lines[i..], parse) ==
        ReadLines(StartReading, lines, parse)
    {
      assert lines[i..][1..] == lines[i + 1..];
      var line := Trim(lines[i]);
      if StartsWithIgnoreCase(line, "facet normal") {
        var n := LastThree(Tokens(line), parse);
        if n.Err? {
          return Err(n.error);
        }
        currentNormal := n.value;
      } else if StartsWithIgnoreCase(line, "vertex") {
        var v := LastThree(Tokens(line), parse);
        if v.Err? {
          return Err(v.error);
        }
        faceVerts := faceVerts + [v.value];
      } else if StartsWithIgnoreCase(line, "endfacet") {
        if |faceVerts| == 3 {
          vertices := AddVertex(vertices, faceVerts[0], currentNormal);
          vertices := AddVertex(vertices, faceVerts[1], currentNormal);
          vertices := AddVertex(vertices, faceVerts[2], currentNormal);
        }
        faceVerts := [];
      }
      i := i + 1;
    }
    return Ok(vertices);
  }

  /** A line is one of the three the reader acts on. */
  predicate Recognised(line: string) {
    var t := Trim(line);
    StartsWithIgnoreCase(t, "facet normal") || StartsWithIgnoreCase(t, "vertex") || StartsWithIgnoreCase(t, "endfacet")
  }

  /**
   * At "endfacet" a face of exactly three vertices is emitted with the
   * current normal and any other face is dropped; either way the face is
   * emptied and the normal carries over to the next facet.
   */
  lemma EndFacet(st: Reading, line: string, parse: string -> Option<real>)
    requires StartsWithIgnoreCase(Trim(line), "endfacet")
    ensures var r := ReadLine(st, line, parse);
      r.Ok? && r.value.face == [] && r.value.normal == st.normal &&
      (|st.face| == 3 ==>
         r.value.vertices == st.vertices + [Vertex(st.face[0], st.normal, Vec2(0.0, 0.0)),
           Vertex(st.face[1], st.normal, Vec2(0.0, 0.0)), Vertex(st.face[2], st.normal, Vec2(0.0, 0.0))]) &&
      (|st.face| != 3 ==> r.value.vertices == st.vertices)
  {
    var t := Trim(line);
    assert !StartsWithIgnoreCase(t, "facet normal") by {
      assert Fold(t[0]) == 'E' && Fold("facet normal"[0]) == 'F';
    }
    assert !StartsWithIgnoreCase(t, "vertex") by {
      assert Fold(t[0]) == 'E' && Fold("vertex"[0]) == 'V';
    }
  }

  /** Lines that are none of the three ("solid", "outer loop", "endloop", ...) change nothing. */
  lemma OtherLinesIgnored(st: Reading, line: string, parse: string -> Option<real>)
    requires !Recognised(line)
    ensures ReadLine(st, line, parse) == Ok(st)
  {
  }

  /** ASCII upper-case letters lowered; other characters are left as they are. */
  function Lower(c: char): char {
    if 'A' <= c <= 'Z' then (c as int + 32) as char else c
  }

  /** Every character of `s` folded to upper case. */
  function UpperAll(s: string): string {
    seq(|s|, i requires 0 <= i < |s| => Fold(s[i]))
  }

  /** Every character of `s` lowered. */
  function LowerAll(s: string): string {
    seq(|s|, i requires 0 <= i < |s| => Lower(s[i]))
  }

  /**
   * The keyword test does not depend on case: upper-casing the line or
   * lowering the keyword leaves the answer unchanged, and so does replacing
   * the keyword by any other spelling that folds to the same letters.
   */
  lemma CaseInsensitive(s: string, prefix: string, other: string)
    ensures StartsWithIgnoreCase(s, prefix) <==> StartsWithIgnoreCase(UpperAll(s), prefix)
    ensures StartsWithIgnoreCase(s, prefix) <==> StartsWithIgnoreCase(s, LowerAll(prefix))
    ensures |other| == |prefix| && (forall i :: 0 <= i < |prefix| ==> Fold(other[i]) == Fold(prefix[i])) ==>
      (StartsWithIgnoreCase(s, prefix) <==> StartsWithIgnoreCase(s, other))
  {
    assert forall c :: Fold(Fold(c)) == Fold(c) && Fold(Lower(c)) == Fold(c);
  }

  /** Every face emitted adds three whole vertices, so the output is always a whole number of triangles. */
  lemma {:induction false} WholeTriangles(st: Reading, lines: seq<string>, parse: string -> Option<real>)
    requires |st.vertices| % 3 == 0
    ensures var r := ReadLines(st, lines, parse); r.Ok? ==> |r.value.vertices| % 3 == 0
    decreases |lines|
  {
    if lines != [] {
      var next := ReadLine(st, lines[0], parse);
      if next.Ok? {
        assert |next.value.vertices| == |st.vertices| || |next.value.vertices| == |st.vertices| + 3;
        WholeTriangles(next.value, lines[1..], parse);
      }
    }
  }

  /** Without a "facet normal" line the normal in force at the start is the one in force at the end. */
  lemma {:induction false} NormalCarriesOver(st: Reading, lines: seq<string>, parse: string -> Option<real>)
    requires forall k :: 0 <= k < |lines| ==> !StartsWithIgnoreCase(Trim(lines[k]), "facet normal")
    ensures var r := ReadLines(st, lines, parse); r.Ok? ==> r.value.normal == st.normal
    decreases |lines|
  {
    if lines != [] {
      var next := ReadLine(st, lines[0], parse);
      if next.Ok? {
        assert next.value.normal == st.normal;
        NormalCarriesOver(next.value, lines[1..], parse);
      }
    }
  }

  // ----------------------------------------------------------------- loading

  /** Binary when the size test says so, ASCII otherwise. */
  function StlOf(file: seq<Byte>, p: Primitives): Result<seq<Vertex>, StlError> {
    if IsBinaryStl(file) then Ok(Facets(file, TriangleCount(file), p.single)) else AsciiOf(p.lines(file), p.parse)
  }

  /** Both readers emit whole triangles: three vertices at a time. */
  lemma StlWholeTriangles(file: seq<Byte>, p: Primitives)
    ensures StlOf(file, p).Ok? ==> |StlOf(file, p).value| % 3 == 0
  {
    if IsBinaryStl(file) {
      var raw := Facets(file, TriangleCount(file), p.single);
      assert |raw| == 3 * TriangleCount(file);
      assert StlOf(file, p) == Ok(raw);
    } else {
      var lines := p.lines(file);
      var r := ReadLines(StartReading, lines, p.parse);
      WholeTriangles(StartReading, lines, p.parse);
      assert StlOf(file, p) == AsciiOf(lines, p.parse);
      assert r.Ok? ==> AsciiOf(lines, p.parse) == Ok(r.value.vertices);
    }
  }

  method LoadStl(file: seq<Byte>, p: Primitives) returns (r: Result<seq<Vertex>, StlError>)
    ensures r == StlOf(file, p)
  {
    if IsBinaryStl(file) {
      var vertices := LoadBinary(file, p.single);
      return Ok(vertices);
    }
    r := LoadAscii(p.lines(file), p.parse);
  }

  /** A bounding box. */
  datatype Bounds = Bounds(min: Vec3, max: Vec3)

  /** The bounds before any vertex: minima at the largest float, maxima at the most negative. */
  const Unset: Bounds := Bounds(Vec3(FloatMax, FloatMax, FloatMax), Vec3(FloatMin, FloatMin, FloatMin))

  /** One iteration of the bounds loop: each component of the box widened to take in `p`. */
  function Widen(b: Bounds, p: Vec3): Bounds {
    Bounds(Vec3(if p.x < b.min.x then p.x else b.min.x,
                if p.y < b.min.y then p.y else b.min.y,
                if p.z < b.min.z then p.z else b.min.z),
           Vec3(if p.x > b.max.x then p.x else b.max.x,
                if p.y > b.max.y then p.y else b.max.y,
                if p.z > b.max.z then p.z else b.max.z))
  }

  /** The bounds loop over the first `n` vertices, from `b`. */
  function Extents(raw: seq<Vertex>, n: nat, b: Bounds): Bounds
    requires n <= |raw|
  {
    if n == 0 then b else Widen(Extents(raw, n - 1, b), raw[n - 1].pos)
  }

  predicate Within(b: Bounds, p: Vec3) {
    b.min.x <= p.x <= b.max.x && b.min.y <= p.y <= b.max.y && b.min.z <= p.z <= b.max.z
  }

  /**
   * After the loop every vertex lies in the box, and each bound is either
   * where it started or the coordinate of some vertex.
   */
  lemma {:induction false} ExtentsBound(raw: seq<Vertex>, n: nat, b: Bounds)
    requires n <= |raw|
    ensures var e := Extents(raw, n, b);
      (forall k :: 0 <= k < n ==> Within(e, raw[k].pos)) &&
      (e.min.x == b.min.x || exists k :: 0 <= k < n && e.min.x == raw[k].pos.x) &&
      (e.max.x == b.max.x || exists k :: 0 <= k < n && e.max.x == raw[k].pos.x) &&
      (e.min.y == b.min.y || exists k :: 0 <= k < n && e.min.y == raw[k].pos.y) &&
      (e.max.y == b.max.y || exists k :: 0 <= k < n && e.max.y == raw[k].pos.y) &&
      (e.min.z == b.min.z || exists k :: 0 <= k < n && e.min.z == raw[k].pos.z) &&
      (e.max.z == b.max.z || exists k :: 0 <= k < n && e.max.z == raw[k].pos.z)
  {
    if n > 0 {
      ExtentsBound(raw, n - 1, b);
      var e := Extents(raw, n, b);
      var prev := Extents(raw, n - 1, b);
      forall k | 0 <= k < n
        ensures Within(e, raw[k].pos)
      {
        if k < n - 1 {
          assert Within(prev, raw[k].pos);
        }
      }
    }
  }

  /** Once a vertex is seen the size is non-negative in every axis and the centre lies in the box. */
  lemma LoadedBoxNonEmpty(raw: seq<Vertex>, n: nat, b: Bounds)
    requires n <= |raw| && n > 0
    ensures var e := Extents(raw, n, b); var size := Sub(e.max, e.min);
      size.x >= 0.0 && size.y >= 0.0 && size.z >= 0.0 &&
      Within(e, Scale(Add(e.min, e.max), 0.5))
  {
    ExtentsBound(raw, n, b);
    assert Within(Extents(raw, n, b), raw[0].pos);
  }

  // ---------------------------------------------------- texture coordinates

  /** A size component, with a non-positive one replaced by 1. */
  function SafeExtent(s: real): (r: real)
    ensures r > 0.0
  {
    if s <= 0.0 then 1.0 else s
  }

  /**
   * ComputeUV: 1 projects onto XY, 2 onto ZY, 3 picks the plane facing the
   * strictly dominant normal axis (XY on ties), 4 wraps around the Y axis,
   * and every other mode projects onto XZ; coordinates are relative to
   * `min` and divided by the safe size.
   */
  function ComputeUV(pos: Vec3, normal: Vec3, min: Vec3, size: Vec3, mode: int, atan2: (real, real) -> real): Vec2 {
    var sx := SafeExtent(size.x);
    var sy := SafeExtent(size.y);
    var sz := SafeExtent(size.z);
    var xy := Vec2((pos.x - min.x) / sx, (pos.y - min.y) / sy);
    var zy := Vec2((pos.z - min.z) / sz, (pos.y - min.y) / sy);
    var xz := Vec2((pos.x - min.x) / sx, (pos.z - min.z) / sz);
    if mode == 1 then xy
    else if mode == 2 then zy
    else if mode == 3 then
      var ax := Abs(normal.x);
      var ay := Abs(normal.y);
      var az := Abs(normal.z);
      if ax > ay && ax > az then zy
      else if ay > ax && ay > az then xz
      else xy
    else if mode == 4 then
      var theta := atan2(pos.z - (min.z + sz * 0.5), pos.x - (min.x + sx * 0.5));
      Vec2((theta + FloatPi) / (2.0 * FloatPi), (pos.y - min.y) / sy)
    else xz
  }

  /** A coordinate between `lo` and `lo + s` maps into [0, 1]. */
  lemma UnitRatio(p: real, lo: real, s: real)
    requires lo <= p <= lo + s
    ensures 0.0 <= (p - lo) / SafeExtent(s) <= 1.0
  {
    var d := SafeExtent(s);
    if s <= 0.0 {
      assert p - lo == 0.0;
    } else {
      var q := (p - lo) / d;
      assert q * d == p - lo;
      assert (1.0 - q) * d == d - (p - lo);
    }
  }

  /** A position inside the box from `min` spanning `size` gets coordinates in the unit square, in every planar mode. */
  lemma PlanarUnitSquare(pos: Vec3, normal: Vec3, min: Vec3, size: Vec3, mode: int, atan2: (real, real) -> real)
    requires mode != 4
    requires min.x <= pos.x <= min.x + size.x && min.y <= pos.y <= min.y + size.y && min.z <= pos.z <= min.z + size.z
    ensures var uv := ComputeUV(pos, normal, min, size, mode, atan2); 0.0 <= uv.x <= 1.0 && 0.0 <= uv.y <= 1.0
  {
    UnitRatio(pos.x, min.x, size.x);
    UnitRatio(pos.y, min.y, size.y);
    UnitRatio(pos.z, min.z, size.z);
  }

  /** Around the Y axis, an angle in [-pi, pi] gives u in [0, 1]; v is the height ratio. */
  lemma CylindricalRange(pos: Vec3, normal: Vec3, min: Vec3, size: Vec3, atan2: (real, real) -> real)
    requires var sx := SafeExtent(size.x); var sz := SafeExtent(size.z);
      -FloatPi <= atan2(pos.z - (min.z + sz * 0.5), pos.x - (min.x + sx * 0.5)) <= FloatPi
    ensures var uv := ComputeUV(pos, normal, min, size, 4, atan2);
      0.0 <= uv.x <= 1.0 && uv.y == (pos.y - min.y) / SafeExtent(size.y)
  {
    var theta := atan2(pos.z - (min.z + SafeExtent(size.z) * 0.5), pos.x - (min.x + SafeExtent(size.x) * 0.5));
    assert (theta + FloatPi) / (2.0 * FloatPi) * (2.0 * FloatPi) == theta + FloatPi;
  }

  /** Modes other than 1 to 4 are the XZ projection of mode 0; triplanar agrees with the plane its dominant axis faces. */
  lemma ModeTable(pos: Vec3, normal: Vec3, min: Vec3, size: Vec3, mode: int, atan2: (real, real) -> real)
    ensures !(1 <= mode <= 4) ==> ComputeUV(pos, normal, min, size, mode, atan2) == ComputeUV(pos, normal, min, size, 0, atan2)
    ensures var ax := Abs(normal.x); var ay := Abs(normal.y); var az := Abs(normal.z);
      ComputeUV(pos, normal, min, size, 3, atan2) ==
        if ax > ay && ax > az then ComputeUV(pos, normal, min, size, 2, atan2)
        else if ay > ax && ay > az then ComputeUV(pos, normal, min, size, 0, atan2)
        else ComputeUV(pos, normal, min, size, 1, atan2)
  {
  }

  /** A vertex with ComputeUV's coordinate, scaled by the tiling, in place of the one it had. */
  function Retextured(v: Vertex, min: Vec3, size: Vec3, mode: int, tiling: Vec2, atan2: (real, real) -> real): Vertex {
    var uv := ComputeUV(v.pos, v.normal, min, size, mode, atan2);
    v.(uv := Vec2(uv.x * tiling.x, uv.y * tiling.y))
  }

  /** The rebuild of the first `n` vertices. */
  function Rebuild(raw: seq<Vertex>, n: nat, min: Vec3, size: Vec3, mode: int, tiling: Vec2,
                   atan2: (real, real) -> real): (r: seq<Vertex>)
    requires n <= |raw|
    ensures |r| == n
  {
    if n == 0 then [] else Rebuild(raw, n - 1, min, size, mode, tiling, atan2) + [Retextured(raw[n - 1], min, size, mode, tiling, atan2)]
  }

  /** Vertex `k` of the rebuild of the first `n` vertices is vertex `k` retextured. */
  lemma {:induction false} RebuiltAt(raw: seq<Vertex>, n: nat, k: nat, min: Vec3, size: Vec3, mode: int, tiling: Vec2,
                                     atan2: (real, real) -> real)
    requires k < n <= |raw|
    ensures Rebuild(raw, n, min, size, mode, tiling, atan2)[k] == Retextured(raw[k], min, size, mode, tiling, atan2)
  {
    if k < n - 1 {
      RebuiltAt(raw, n - 1, k, min, size, mode, tiling, atan2);
    }
  }

  /**
   * The rebuilt list keeps every vertex's position and normal, in order,
   * and replaces its texture coordinate by ComputeUV's scaled by the tiling.
   */
  lemma RebuildLayout(raw: seq<Vertex>, n: nat, min: Vec3, size: Vec3, mode: int, tiling: Vec2,
                      atan2: (real, real) -> real)
    requires n <= |raw|
    ensures var out := Rebuild(raw, n, min, size, mode, tiling, atan2);
      |out| == n &&
      forall k :: 0 <= k < n ==>
        var uv := ComputeUV(raw[k].pos, raw[k].normal, min, size, mode, atan2);
        out[k].pos == raw[k].pos && out[k].normal == raw[k].normal && out[k].uv == Vec2(uv.x * tiling.x, uv.y * tiling.y)
  {
    forall k | 0 <= k < n
      ensures Rebuild(raw, n, min, size, mode, tiling, atan2)[k] == Retextured(raw[k], min, size, mode, tiling, atan2)
    {
      RebuiltAt(raw, n, k, min, size, mode, tiling, atan2);
    }
  }

  /** The clamp SetUvMode applies to the mode. */
  function ClampMode(mode: int): (r: int)
    ensures 0 <= r <= 4 && (0 <= mode <= 4 ==> r == mode)
    ensures mode < 0 ==> r == 0
    ensures mode > 4 ==> r == 4
  {
    if mode < 0 then 0 else if mode > 4 then 4 else mode
  }

  /** The floor SetUvMode applies to each tiling component. */
  function ClampTiling(t: Vec2): (r: Vec2)
    ensures r.x >= MinTiling && r.y >= MinTiling
    ensures t.x >= MinTiling ==> r.x == t.x
    ensures t.y >= MinTiling ==> r.y == t.y
  {
    Vec2(Max(t.x, MinTiling), Max(t.y, MinTiling))
  }

  /**
   * A loaded STL model: the vertex list read from the file, the bounding
   * box, the texture projection settings, and what was last handed to the
   * graphics library (the rebuilt floats and their vertex count).
   */
  class StlModel {
    var rawVertices: seq<Vertex>
    var loaded: bool
    var minBounds: Vec3
    var maxBounds: Vec3
    var uvMode: int
    var uvTiling: Vec2
    var uploaded: seq<real>
    var vertexCount: int

    /** The projection settings are within SetUvMode's clamps. */
    predicate Valid()
      reads this
    {
      0 <= uvMode <= 4 && uvTiling.x >= MinTiling && uvTiling.y >= MinTiling
    }

    function Box(): Bounds
      reads this
    {
      Bounds(minBounds, maxBounds)
    }

    /** `Center`: the point midway between the two corners, equally far from each in every axis. */
    function Center(): (c: Vec3)
      reads this
      ensures c.x - minBounds.x == maxBounds.x - c.x
      ensures c.y - minBounds.y == maxBounds.y - c.y
      ensures c.z - minBounds.z == maxBounds.z - c.z
    {
      Scale(Add(minBounds, maxBounds), 0.5)
    }

    /** `Size`: the extent that carries the minimum corner onto the maximum one. */
    function Size(): (d: Vec3)
      reads this
      ensures Add(minBounds, d) == maxBounds
    {
      Sub(maxBounds, minBounds)
    }

    /** What RebuildBuffers hands over for the current vertices and settings. */
    function Buffer(atan2: (real, real) -> real): seq<real>
      reads this
    {
      Flatten(Rebuild(rawVertices, |rawVertices|, minBounds, Size(), uvMode, uvTiling, atan2))
    }

    constructor ()
      ensures Valid() && !loaded && rawVertices == [] && Box() == Unset
      ensures uvMode == 0 && uvTiling == Vec2(1.0, 1.0) && uploaded == [] && vertexCount == 0
    {
      rawVertices := [];
      loaded := false;
      minBounds := Unset.min;
      maxBounds := Unset.max;
      uvMode := 0;
      uvTiling := Vec2(1.0, 1.0);
      uploaded := [];
      vertexCount := 0;
    }

    /**
     * Reads the file once: a second call does nothing. A refused file
     * changes nothing; otherwise the vertices are stored, the box widened
     * over their positions, and the buffer rebuilt.
     */
    method Load(file: seq<Byte>, p: Primitives) returns (failure: Option<StlError>)
      requires Valid()
      modifies this
      ensures Valid()
      ensures old(loaded) ==> failure.None? && unchanged(this)
      ensures !old(loaded) && StlOf(file, p).Err? ==> failure == Some(StlOf(file, p).error) && unchanged(this)
      ensures !old(loaded) && StlOf(file, p).Ok? ==>
        var raw := StlOf(file, p).value;
        failure.None? && loaded && rawVertices == raw &&
        Box() == Extents(raw, |raw|, old(Box())) &&
        uploaded == Buffer(p.atan2) && vertexCount == |raw| &&
        uvMode == old(uvMode) && uvTiling == old(uvTiling)
    {
      if loaded {
        return None;
      }
      var r := LoadStl(file, p);
      if r.Err? {
        return Some(r.error);
      }
      Install(r.value, p.atan2);
      return None;
    }

    /** The rest of a first successful Load: store the vertices, take the box, rebuild the buffer. */
    method Install(raw: seq<Vertex>, atan2: (real, real) -> real)
      requires Valid()
      modifies this
      ensures Valid() && loaded && rawVertices == raw
      ensures Box() == Extents(raw, |raw|, old(Box()))
      ensures uploaded == Buffer(atan2) && vertexCount == |raw|
      ensures uvMode == old(uvMode) && uvTiling == old(uvTiling)
    {
      rawVertices := raw;
      TakeExtents();
      RebuildBuffers(atan2);
      loaded := true;
    }

    /** The bounds loop of Load: the box is widened over every vertex position. */
    method TakeExtents()
      modifies this`minBounds, this`maxBounds
      ensures Box() == Extents(rawVertices, |rawVertices|, old(Box()))
    {
      var i := 0;
      while i < |rawVertices|
        invariant 0 <= i <= |rawVertices|
        invariant Box() == Extents(rawVertices, i, old(Box()))
      {
        var x := rawVertices[i].pos.x;
        var y := rawVertices[i].pos.y;
        var z := rawVertices[i].pos.z;
        if x < minBounds.x { minBounds := minBounds.(x := x); }
        if y < minBounds.y { minBounds := minBounds.(y := y); }
        if z < minBounds.z { minBounds := minBounds.(z := z); }
        if x > maxBounds.x { maxBounds := maxBounds.(x := x); }
        if y > maxBounds.y { maxBounds := maxBounds.(y := y); }
        if z > maxBounds.z { maxBounds := maxBounds.(z := z); }
        i := i + 1;
      }
    }

    /** Clamps and stores the projection settings, and rebuilds the buffer when a model is loaded. */
    method SetUvMode(mode: int, tiling: Vec2, atan2: (real, real) -> real)
      requires Valid()
      modifies this
      ensures Valid()
      ensures uvMode == ClampMode(mode) && uvTiling == ClampTiling(tiling)
      ensures rawVertices == old(rawVertices) && loaded == old(loaded) && Box() == old(Box())
      ensures old(loaded) ==> uploaded == Buffer(atan2) && vertexCount == |rawVertices|
      ensures !old(loaded) ==> uploaded == old(uploaded) && vertexCount == old(vertexCount)
    {
      uvMode := ClampMode(mode);
      uvTiling := Vec2(Max(tiling.x, MinTiling), Max(tiling.y, MinTiling));
      if loaded {
        RebuildBuffers(atan2);
      }
    }

    /** Regenerates every vertex's texture coordinate and hands the floats to the graphics library. */
    method RebuildBuffers(atan2: (real, real) -> real)
      modifies this`uploaded, this`vertexCount
      ensures uploaded == Buffer(atan2) && vertexCount == |rawVertices|
    {
      var size := Size();
      var rebuilt := [];
      var i := 0;
      while i < |rawVertices|
        invariant 0 <= i <= |rawVertices|
        invariant rebuilt == Rebuild(rawVertices, i, minBounds, size, uvMode, uvTiling, atan2)
      {
        var pos := rawVertices[i].pos;
        var nrm := rawVertices[i].normal;
        var uv := ComputeUV(pos, nrm, minBounds, size, uvMode, atan2);
        var u := uv.x * uvTiling.x;
        var v := uv.y * uvTiling.y;
        assert Retextured(rawVertices[i], minBounds, size, uvMode, uvTiling, atan2) == Vertex(pos, nrm, Vec2(u, v));
        assert Rebuild(rawVertices, i + 1, minBounds, size, uvMode, uvTiling, atan2) ==
          rebuilt + [Retextured(rawVertices[i], minBounds, size, uvMode, uvTiling, atan2)];
        rebuilt := rebuilt + [Vertex(pos, nrm, Vec2(u, v))];
        i := i + 1;
      }
      var floats := Flatten(rebuilt);
      uploaded := floats;
      vertexCount := |floats| / 8;
    }
  }
}

/** The OpenSCAD text that `Polygon.points_scad_lines_append`,
    `Polygon.indices_scad_lines_append` and `ScadPolygon.scad_lines_append`
    produce, as functions of the polygons' values, and the flattening
    properties of that text: each polygon's path is the contiguous range of
    global indices that its points occupy. */
module Render {
  import opened Geometry
  import opened Text
  import opened Chunking

  /** The value of one `Polygon`: its name and its points. */
  datatype Contour = Contour(name: string, points: seq<P>)

  /** Points printed per line (`slice_size` in `points_scad_lines_append`). */
  const PointsPerLine: nat := 4

  /** Indices printed per line (`slice_size` in `indices_scad_lines_append`). */
  const IndicesPerLine: nat := 25

  /** The comment line that opens each polygon's points and its indices. */
  function PolygonHeader(indent: string, name: string, startIndex: int, endIndex: int): string
  {
    indent + " // Polygon '" + name + "' " + IntToString(startIndex) + ":" + IntToString(endIndex - 1)
  }

  /** One point as `[x, y]`; `z` is not printed. */
  function PointText(p: P): (s: string)
    ensures |s| >= 2 && s[0] == '[' && s[|s| - 1] == ']'
  {
    "[" + Coord(p.x) + ", " + Coord(p.y) + "]"
  }

  /** Two points print the same `[x, y]` exactly when their cleaned `x`
      and `y` coordinates do; `z` plays no part. */
  lemma {:induction false} PointTextCoords(p: P, q: P)
    ensures PointText(p) == PointText(q) <==> Coord(p.x) == Coord(q.x) && Coord(p.y) == Coord(q.y)
  {
    if PointText(p) == PointText(q) {
      CoordNoComma(p.x);
      CoordNoComma(q.x);
      SplitPair(Coord(p.x), Coord(p.y), Coord(q.x), Coord(q.y));
    }
  }

  /** Two comma-free texts are read back from `[x, y]` uniquely. */
  lemma {:induction false} SplitPair(x: string, y: string, x': string, y': string)
    requires NoComma(x) && NoComma(x')
    requires "[" + x + ", " + y + "]" == "[" + x' + ", " + y' + "]"
    ensures x == x' && y == y'
  {
    var s, s' := "[" + x + ", " + y + "]", "[" + x' + ", " + y' + "]";
    assert s[1..] == x + ", " + (y + "]");
    assert s'[1..] == x' + ", " + (y' + "]");
    SplitAtComma(x, y + "]", x', y' + "]");
    assert y == (y + "]")[..|y|];
    assert y' == (y' + "]")[..|y'|];
  }

  /** The texts of a slice of points, in order. */
  function PointTexts(ps: seq<P>): (texts: seq<string>)
    ensures |texts| == |ps|
  {
    seq(|ps|, i requires 0 <= i < |ps| => PointText(ps[i]))
  }

  /** Formatting one more point appends its text. */
  lemma PointTextsAppend(ps: seq<P>, p: P)
    ensures PointTexts(ps + [p]) == PointTexts(ps) + [PointText(p)]
  {
    var left, right := PointTexts(ps + [p]), PointTexts(ps) + [PointText(p)];
    forall i | 0 <= i < |left|
      ensures left[i] == right[i]
    {
      if i < |ps| {
        assert (ps + [p])[i] == ps[i];
      }
    }
  }

  /** Line `k` of a polygon's points: up to four points and a comment with
      the global indices of the first and last of them. */
  function PointsLine(indent: string, points: seq<P>, startIndex: int, k: nat): string
    requires k < CeilDiv(|points|, PointsPerLine)
  {
    indent + "  " + Join(", ", PointTexts(Slice(points, PointsPerLine, k)))
      + ", // " + IntToString(startIndex + SliceStart(k, PointsPerLine))
      + ":" + IntToString(startIndex + SliceEnd(|points|, PointsPerLine, k) - 1)
  }

  /** What `points_scad_lines_append` appends: the header, then one line per
      slice of four points. */
  function PointsLines(c: Contour, indent: string, startIndex: int): (lines: seq<string>)
    ensures |lines| == 1 + CeilDiv(|c.points|, PointsPerLine)
    ensures lines[0] == PolygonHeader(indent, c.name, startIndex, startIndex + |c.points|)
  {
    var n := |c.points|;
    [PolygonHeader(indent, c.name, startIndex, startIndex + n)]
      + seq(CeilDiv(n, PointsPerLine), k requires 0 <= k < CeilDiv(n, PointsPerLine) =>
              PointsLine(indent, c.points, startIndex, k))
  }

  /** The decimal texts of the global indices `startIndex + i`, for `i` in `indices`. */
  function IndexTexts(startIndex: int, indices: seq<int>): (texts: seq<string>)
    ensures |texts| == |indices|
    ensures forall j :: 0 <= j < |indices| ==> texts[j] == IntToString(startIndex + indices[j])
  {
    seq(|indices|, j requires 0 <= j < |indices| => IntToString(startIndex + indices[j]))
  }

  /** The positions, within its polygon of `n` points, of the indices on line `k`. */
  function LineRange(n: nat, k: nat): seq<int>
  {
    Range(SliceStart(k, IndicesPerLine), SliceEnd(n, IndicesPerLine, k))
  }

  /** Line `k` of a polygon's path: `[` before the first index of the path,
      `],` after its last one, `,` after the others. */
  function IndicesLine(indent: string, n: nat, startIndex: int, k: nat): string
    requires k < CeilDiv(n, IndicesPerLine)
  {
    indent + (if k == 0 then "  [" else "  ")
      + Join(", ", IndexTexts(startIndex, LineRange(n, k)))
      + (if SliceEnd(n, IndicesPerLine, k) == n then "]," else ",")
  }

  /** What `indices_scad_lines_append` appends: the header, then one line per
      slice of 25 indices. */
  function IndicesLines(c: Contour, indent: string, startIndex: int): (lines: seq<string>)
    ensures |lines| == 1 + CeilDiv(|c.points|, IndicesPerLine)
    ensures lines[0] == PolygonHeader(indent, c.name, startIndex, startIndex + |c.points|)
  {
    var n := |c.points|;
    [PolygonHeader(indent, c.name, startIndex, startIndex + n)]
      + seq(CeilDiv(n, IndicesPerLine), k requires 0 <= k < CeilDiv(n, IndicesPerLine) =>
              IndicesLine(indent, n, startIndex, k))
  }

  /** The number of points in all the contours. */
  function Total(cs: seq<Contour>): nat
  {
    if cs == [] then 0 else Total(cs[..|cs| - 1]) + |cs[|cs| - 1].points|
  }

  /** The global index of the first point of contour `k`: the running `index`
      of `scad_lines_append` when it reaches contour `k`. */
  function Offset(cs: seq<Contour>, k: nat): nat
    requires k <= |cs|
  {
    Total(cs[..k])
  }

  /** All the points, contour after contour: the flat `points` array. */
  function FlatPoints(cs: seq<Contour>): seq<P>
  {
    if cs == [] then [] else FlatPoints(cs[..|cs| - 1]) + cs[|cs| - 1].points
  }

  /** The points section: each contour's points lines, its start index
      threaded from the previous contour's end index. */
  function PointsSection(cs: seq<Contour>, indent: string): seq<string>
  {
    if cs == [] then []
    else PointsSection(cs[..|cs| - 1], indent)
           + PointsLines(cs[|cs| - 1], indent, Total(cs[..|cs| - 1]))
  }

  /** The paths section, threaded the same way. */
  function IndicesSection(cs: seq<Contour>, indent: string): seq<string>
  {
    if cs == [] then []
    else IndicesSection(cs[..|cs| - 1], indent)
           + IndicesLines(cs[|cs| - 1], indent, Total(cs[..|cs| - 1]))
  }

  /** The optional `convexity` argument: omitted exactly when it is negative
      (the default is -1). */
  function ConvexityText(convexity: int): (s: string)
    ensures s == "" <==> convexity < 0
    ensures convexity >= 0 ==> s == ", convexity=" + IntToString(convexity)
  {
    if convexity < 0 then "" else ", convexity=" + IntToString(convexity)
  }

  /** The text `ScadPolygon.scad_lines_append` appends: a comment and the
      `polygon(points = [` opener, the points section, `], paths = [`, the
      paths section, and the closing line with the optional convexity. */
  function ScadLines(name: string, convexity: int, cs: seq<Contour>, indent: string): seq<string>
  {
    var last := IntToString(|cs| - 1);
    var nextIndent := indent + " ";
    [indent + "// ScadPolygon '" + name + " [0-" + last + "]'", indent + "polygon(points = ["]
      + PointsSection(cs, nextIndent)
      + [indent + " ], paths = ["]
      + IndicesSection(cs, nextIndent)
      + [indent + " ]" + ConvexityText(convexity) + "); // End ScadPolygon '" + name + "' [0-" + last + "]"]
  }

  // ----- The lines one at a time, as the rendering loops build them -----

  /** The header starts a polygon's points lines and its index lines. */
  lemma LinesStart(c: Contour, indent: string, startIndex: int, front: seq<string>)
    ensures front + [PolygonHeader(indent, c.name, startIndex, startIndex + |c.points|)]
         == front + PointsLines(c, indent, startIndex)[..1]
    ensures front + [PolygonHeader(indent, c.name, startIndex, startIndex + |c.points|)]
         == front + IndicesLines(c, indent, startIndex)[..1]
  {
  }

  /** One more points line, built as `points_scad_lines_append` builds it
      from the texts of the slice's points, is the next line of `PointsLines`. */
  lemma PointsLinesStep(c: Contour, indent: string, startIndex: int, k: nat,
                        front: seq<string>, out: seq<string>)
    requires k < CeilDiv(|c.points|, PointsPerLine)
    requires out == front + PointsLines(c, indent, startIndex)[..k + 1]
    ensures out + [PointsLine(indent, c.points, startIndex, k)]
         == front + PointsLines(c, indent, startIndex)[..k + 2]
  {
    var lines := PointsLines(c, indent, startIndex);
    assert lines[k + 1] == PointsLine(indent, c.points, startIndex, k);
    PrefixStep(front, lines, k + 1);
  }

  /** A points line is the texts of its slice joined, and the comment with
      the global indices of the slice's first and last point. */
  lemma PointsLineIs(indent: string, points: seq<P>, startIndex: int, k: nat,
                     slicePoints: seq<P>, sliceText: string)
    requires k < CeilDiv(|points|, PointsPerLine)
    requires SliceStart(k, PointsPerLine) <= SliceEnd(|points|, PointsPerLine, k) <= |points|
    requires slicePoints == points[SliceStart(k, PointsPerLine)..SliceEnd(|points|, PointsPerLine, k)]
    requires sliceText == Join(", ", PointTexts(slicePoints))
    ensures PointsLine(indent, points, startIndex, k)
         == indent + "  " + sliceText + ", // " + IntToString(startIndex + SliceStart(k, PointsPerLine))
            + ":" + IntToString(startIndex + SliceEnd(|points|, PointsPerLine, k) - 1)
  {
  }

  /** An index line is the texts of its slice joined, between the brackets
      and commas its place in the path calls for. */
  lemma IndicesLineIs(indent: string, n: nat, startIndex: int, k: nat, frontText: string,
                      lineText: string, endText: string)
    requires k < CeilDiv(n, IndicesPerLine)
    requires frontText == (if k == 0 then "  [" else "  ")
    requires lineText == Join(", ", IndexTexts(startIndex, LineRange(n, k)))
    requires endText == (if SliceEnd(n, IndicesPerLine, k) == n then "]," else ",")
    ensures IndicesLine(indent, n, startIndex, k) == indent + frontText + lineText + endText
  {
  }

  /** One more index line is the next line of `IndicesLines`. */
  lemma IndicesLinesStep(c: Contour, indent: string, startIndex: int, k: nat,
                         front: seq<string>, out: seq<string>)
    requires k < CeilDiv(|c.points|, IndicesPerLine)
    requires out == front + IndicesLines(c, indent, startIndex)[..k + 1]
    ensures out + [IndicesLine(indent, |c.points|, startIndex, k)]
         == front + IndicesLines(c, indent, startIndex)[..k + 2]
  {
    var lines := IndicesLines(c, indent, startIndex);
    assert lines[k + 1] == IndicesLine(indent, |c.points|, startIndex, k);
    PrefixStep(front, lines, k + 1);
  }

  /** The numbers printed on index line `k` are slice `k` of the polygon's
      global index range. */
  lemma {:induction false} LineRangeIsSlice(n: nat, startIndex: int, k: nat)
    requires k < CeilDiv(n, IndicesPerLine)
    ensures IndexTexts(startIndex, LineRange(n, k))
         == IndexTexts(0, Slice(Range(startIndex, startIndex + n), IndicesPerLine, k))
  {
    var slice := Slice(Range(startIndex, startIndex + n), IndicesPerLine, k);
    var r := LineRange(n, k);
    assert |slice| == |r|;
    forall j | 0 <= j < |r|
      ensures startIndex + r[j] == 0 + slice[j]
    {
      assert slice[j] == startIndex + SliceStart(k, IndicesPerLine) + j;
    }
  }

  // ----- Properties of the line structure -----

  /** A polygon without points prints only its header, in both sections. */
  lemma EmptyPolygonLines(c: Contour, indent: string, startIndex: int)
    requires c.points == []
    ensures PointsLines(c, indent, startIndex) == [PolygonHeader(indent, c.name, startIndex, startIndex)]
    ensures IndicesLines(c, indent, startIndex) == [PolygonHeader(indent, c.name, startIndex, startIndex)]
  {
    var header := PolygonHeader(indent, c.name, startIndex, startIndex);
    var pointsLines := PointsLines(c, indent, startIndex);
    var indicesLines := IndicesLines(c, indent, startIndex);
    assert |pointsLines| == 1 && pointsLines[0] == header;
    assert |indicesLines| == 1 && indicesLines[0] == header;
  }

  /** The points' slices put back together are the polygon's points, in order. */
  lemma PointsSlicesCover(points: seq<P>)
    ensures Concat(Slices(points, PointsPerLine)) == points
  {
    SlicesConcat(points, PointsPerLine);
  }

  /** A joined list of decimal numbers ends with a digit. */
  lemma {:induction false} JoinEndsWithDigit(parts: seq<string>)
    requires |parts| > 0
    requires forall i :: 0 <= i < |parts| ==> |parts[i]| > 0 && IsDigit(parts[i][|parts[i]| - 1])
    ensures var s := Join(", ", parts); |s| > 0 && IsDigit(s[|s| - 1])
  {
    var s := Join(", ", parts);
    var last := parts[|parts| - 1];
    if |parts| > 1 {
      assert s == Join(", ", parts[..|parts| - 1]) + ", " + last;
    }
    assert s[|s| - 1] == last[|last| - 1];
  }

  /** Slice `k` reaches the end of the list exactly when it is the last slice. */
  lemma {:induction false} LastSliceIff(n: nat, k: nat)
    requires k < CeilDiv(n, IndicesPerLine)
    ensures SliceEnd(n, IndicesPerLine, k) == n <==> k == CeilDiv(n, IndicesPerLine) - 1
  {
    if k + 1 < CeilDiv(n, IndicesPerLine) {
      SliceStartInside(n, IndicesPerLine, k + 1);
    }
  }

  /** A line whose body ends with a digit ends with `],` exactly when `],` was appended. */
  lemma {:induction false} ClosingSuffix(line: string, front: string, body: string, closes: bool)
    requires |body| > 0 && IsDigit(body[|body| - 1])
    requires line == front + body + (if closes then "]," else ",")
    ensures |line| >= 2 && line[|line| - 2..] == "]," <==> closes
  {
    if !closes {
      assert line[|line| - 2] == body[|body| - 1];
    } else {
      assert line[|line| - 2..] == "],";
    }
  }

  /** The first index line of a path opens it with `[`. */
  lemma IndicesLineOpens(indent: string, n: nat, startIndex: int)
    requires 0 < CeilDiv(n, IndicesPerLine)
    ensures var line := IndicesLine(indent, n, startIndex, 0);
      |line| >= |indent| + 3 && line[..|indent| + 3] == indent + "  ["
  {
    var front, body := IndicesLineShape(indent, n, startIndex, 0);
    AppendPrefix(front, body, if SliceEnd(n, IndicesPerLine, 0) == n then "]," else ",");
  }

  /** An index line is its opening, a body ending with a digit, and `],` or `,`. */
  lemma IndicesLineShape(indent: string, n: nat, startIndex: int, k: nat) returns (front: string, body: string)
    requires k < CeilDiv(n, IndicesPerLine)
    ensures front == indent + (if k == 0 then "  [" else "  ")
    ensures |body| > 0 && IsDigit(body[|body| - 1])
    ensures IndicesLine(indent, n, startIndex, k)
         == front + body + (if SliceEnd(n, IndicesPerLine, k) == n then "]," else ",")
  {
    var texts := IndexTexts(startIndex, LineRange(n, k));
    front := indent + (if k == 0 then "  [" else "  ");
    body := Join(", ", texts);
    SliceStartInside(n, IndicesPerLine, k);
    assert |texts| > 0;
    JoinEndsWithDigit(texts);
  }

  /** Exactly the index line holding a path's last index closes it with `],`. */
  lemma {:induction false} IndicesLineCloses(indent: string, n: nat, startIndex: int, k: nat)
    requires k < CeilDiv(n, IndicesPerLine)
    ensures var line := IndicesLine(indent, n, startIndex, k);
      |line| >= 2 && line[|line| - 2..] == "]," <==> k == CeilDiv(n, IndicesPerLine) - 1
  {
    var front, body := IndicesLineShape(indent, n, startIndex, k);
    LastSliceIff(n, k);
    ClosingSuffix(IndicesLine(indent, n, startIndex, k), front, body, SliceEnd(n, IndicesPerLine, k) == n);
  }

  // ----- Flattening: offsets, paths and the flat point array -----

  lemma {:induction false} FlatPointsLength(cs: seq<Contour>)
    ensures |FlatPoints(cs)| == Total(cs)
  {
    if cs != [] {
      FlatPointsLength(cs[..|cs| - 1]);
    }
  }

  /** Offsets grow by each contour's length. */
  lemma OffsetStep(cs: seq<Contour>, k: nat)
    requires k < |cs|
    ensures Offset(cs, k + 1) == Offset(cs, k) + |cs[k].points|
  {
    assert cs[..k + 1][..k] == cs[..k];
  }

  /** Offsets never decrease, so the ranges of later contours lie after those
      of earlier ones. */
  lemma {:induction false} OffsetMonotone(cs: seq<Contour>, j: nat, k: nat)
    requires j <= k <= |cs|
    ensures Offset(cs, j) <= Offset(cs, k)
    decreases k - j
  {
    if j < k {
      OffsetStep(cs, k - 1);
      OffsetMonotone(cs, j, k - 1);
    }
  }

  /** The flat points of a prefix of the contours are a prefix of the flat points. */
  lemma {:induction false} FlatPointsPrefix(cs: seq<Contour>, k: nat)
    requires k <= |cs|
    ensures FlatPoints(cs[..k]) <= FlatPoints(cs)
    decreases |cs| - k
  {
    if k < |cs| {
      FlatPointsPrefix(cs, k + 1);
      assert cs[..k + 1][..k] == cs[..k];
      assert FlatPoints(cs[..k + 1]) == FlatPoints(cs[..k]) + cs[k].points;
    } else {
      assert cs[..k] == cs;
    }
  }

  /** Global index `Offset(k) + j` of the flat point array is point `j` of
      contour `k`. */
  lemma {:induction false} FlatPointsAt(cs: seq<Contour>, k: nat, j: nat)
    requires k < |cs| && j < |cs[k].points|
    ensures Offset(cs, k) + j < |FlatPoints(cs)|
    ensures FlatPoints(cs)[Offset(cs, k) + j] == cs[k].points[j]
  {
    FlatPointsPrefix(cs, k + 1);
    assert cs[..k + 1][..k] == cs[..k];
    assert FlatPoints(cs[..k + 1]) == FlatPoints(cs[..k]) + cs[k].points;
    FlatPointsLength(cs[..k]);
  }

  /** The indices printed for contour `k`, in order: its path. */
  function PathOf(cs: seq<Contour>, k: nat): seq<int>
    requires k < |cs|
  {
    Concat(Slices(Range(Offset(cs, k), Offset(cs, k) + |cs[k].points|), IndicesPerLine))
  }

  /** Contour `k`'s path is exactly the index range `[Offset(k), Offset(k + 1))`. */
  lemma PathIsRange(cs: seq<Contour>, k: nat)
    requires k < |cs|
    ensures PathOf(cs, k) == Range(Offset(cs, k), Offset(cs, k + 1))
  {
    OffsetStep(cs, k);
    SlicesConcat(Range(Offset(cs, k), Offset(cs, k) + |cs[k].points|), IndicesPerLine);
  }

  /** Paths of different contours share no index. */
  lemma {:induction false} PathsDisjoint(cs: seq<Contour>, j: nat, k: nat, i: int)
    requires j < k < |cs|
    requires i in PathOf(cs, j)
    ensures i !in PathOf(cs, k)
  {
    PathIsRange(cs, j);
    PathIsRange(cs, k);
    OffsetMonotone(cs, j + 1, k);
  }

  /** Every point of the flat array is on some contour's path. */
  lemma {:induction false} PathsCover(cs: seq<Contour>, i: int)
    requires 0 <= i < Total(cs)
    ensures exists k :: 0 <= k < |cs| && i in PathOf(cs, k)
  {
    var k := |cs| - 1;
    assert cs[..|cs|] == cs;
    // The last contour whose offset is at most i holds it.
    while Offset(cs, k) > i
      invariant 0 <= k < |cs|
      invariant i < Offset(cs, k + 1)
      decreases k
    {
      assert Offset(cs, 0) == 0;
      k := k - 1;
    }
    PathIsRange(cs, k);
    assert PathOf(cs, k)[i - Offset(cs, k)] == i;
  }

  /** The sections grow contour by contour: contour `k`'s lines come right
      after those of the contours before it, and start at `Offset(k)`. */
  lemma SectionsStep(cs: seq<Contour>, indent: string, k: nat)
    requires k < |cs|
    ensures PointsSection(cs[..k + 1], indent)
         == PointsSection(cs[..k], indent) + PointsLines(cs[k], indent, Offset(cs, k))
    ensures IndicesSection(cs[..k + 1], indent)
         == IndicesSection(cs[..k], indent) + IndicesLines(cs[k], indent, Offset(cs, k))
  {
    assert cs[..k + 1][..k] == cs[..k];
  }

  /** Appending contour `k`'s points lines after those of the contours
      before it gives the points section of the first `k + 1` contours. */
  lemma PointsSectionExtend(cs: seq<Contour>, indent: string, k: nat,
                            head: seq<string>, out: seq<string>)
    requires k < |cs|
    requires out == head + PointsSection(cs[..k], indent)
    ensures out + PointsLines(cs[k], indent, Offset(cs, k)) == head + PointsSection(cs[..k + 1], indent)
  {
    SectionsStep(cs, indent, k);
    AppendAssociative(head, PointsSection(cs[..k], indent), PointsLines(cs[k], indent, Offset(cs, k)));
  }

  /** The same for the paths section. */
  lemma IndicesSectionExtend(cs: seq<Contour>, indent: string, k: nat,
                             head: seq<string>, out: seq<string>)
    requires k < |cs|
    requires out == head + IndicesSection(cs[..k], indent)
    ensures out + IndicesLines(cs[k], indent, Offset(cs, k)) == head + IndicesSection(cs[..k + 1], indent)
  {
    SectionsStep(cs, indent, k);
    AppendAssociative(head, IndicesSection(cs[..k], indent), IndicesLines(cs[k], indent, Offset(cs, k)));
  }

  /** The rendered text always has the four fixed lines plus each contour's
      header and slices in both sections. */
  lemma {:induction false} ScadLinesCount(name: string, convexity: int, cs: seq<Contour>,
                                          indent: string)
    ensures |ScadLines(name, convexity, cs, indent)|
         == 4 + |PointsSection(cs, indent + " ")| + |IndicesSection(cs, indent + " ")|
    ensures cs == [] ==> |ScadLines(name, convexity, cs, indent)| == 4
  {
  }
}

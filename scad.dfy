/** The two mutable classes of scad.py: `Polygon`, a named list of points
    that grows by arcs, circles, rectangles and slots, and `ScadPolygon`, a
    named list of polygons that renders itself as one OpenSCAD `polygon`
    command. Each rendering method is proved to produce the text that the
    functions of `Render` define. */
module Scad {
  import opened Outcomes
  import opened Geometry
  import opened Text
  import opened Chunking
  import opened Tessellation
  import opened Render

  /** The body of the point loop of `points_scad_lines_append`: `[x, y]`,
      three decimals each, `-0.000` printed as `0.000`. */
  method FormatPoint(slicePoint: P) returns (pointText: string)
    ensures pointText == PointText(slicePoint)
  {
    var xText := Fixed3(slicePoint.x);
    var yText := Fixed3(slicePoint.y);
    xText := if xText == "-0.000" then "0.000" else xText;
    yText := if yText == "-0.000" then "0.000" else yText;
    pointText := "[" + xText + ", " + yText + "]";
  }

  /** The loop of `points_scad_lines_append` that formats each point of a
      slice. */
  method FormatSlicePoints(slicePoints: seq<P>) returns (pointTexts: seq<string>)
    ensures pointTexts == PointTexts(slicePoints)
  {
    pointTexts := [];
    for j := 0 to |slicePoints|
      invariant pointTexts == PointTexts(slicePoints[..j])
    {
      var pointText := FormatPoint(slicePoints[j]);
      PointTextsAppend(slicePoints[..j], slicePoints[j]);
      PrefixNext(slicePoints, j);
      pointTexts := pointTexts + [pointText];
    }
    PrefixAll([], slicePoints);
    assert [] + slicePoints == slicePoints;
  }

  /** One pass of the slice loop of `points_scad_lines_append`: slice
      `sliceIndex` of the points, formatted and joined, then the comment with
      the global indices of its first and last point. */
  method FormatPointsLine(indent: string, points: seq<P>, startIndex: int, sliceIndex: nat)
    returns (line: string)
    requires sliceIndex < CeilDiv(|points|, PointsPerLine)
    ensures line == PointsLine(indent, points, startIndex, sliceIndex)
  {
    var sliceSize := PointsPerLine;
    var sliceStart := SliceStart(sliceIndex, sliceSize);
    var sliceEnd := SliceEnd(|points|, sliceSize, sliceIndex);
    SliceStartInside(|points|, sliceSize, sliceIndex);
    // Never empty, so the source's check for an empty slice never skips one.
    var slicePoints := points[sliceStart..sliceEnd];
    var pointTexts := FormatSlicePoints(slicePoints);
    var sliceText := Join(", ", pointTexts);
    line := indent + "  " + sliceText + ", // " + IntToString(startIndex + sliceStart)
            + ":" + IntToString(startIndex + sliceEnd - 1);
    PointsLineIs(indent, points, startIndex, sliceIndex, slicePoints, sliceText);
  }

  /** One pass of the slice loop of `indices_scad_lines_append`: the global
      indices of slice `sliceIndex` of `n` points, joined, with a `[` before
      the first line and a `]` after the last. */
  method FormatIndicesLine(indent: string, n: nat, startIndex: int, sliceIndex: nat)
    returns (line: string)
    requires sliceIndex < CeilDiv(n, IndicesPerLine)
    ensures line == IndicesLine(indent, n, startIndex, sliceIndex)
  {
    var sliceSize := IndicesPerLine;
    var startSliceIndex := SliceStart(sliceIndex, sliceSize);
    var endSliceIndex := SliceEnd(n, sliceSize, sliceIndex);
    var indices := Range(startSliceIndex, endSliceIndex);
    var texts := IndexTexts(startIndex, indices);
    var lineText := Join(", ", texts);
    var frontText := if sliceIndex == 0 then "  [" else "  ";
    var endText := if endSliceIndex == n then "]," else ",";
    line := indent + frontText + lineText + endText;
    IndicesLineIs(indent, n, startIndex, sliceIndex, frontText, lineText, endText);
  }

  /** The current values of a list of polygons, in order. */
  function ContoursOf(polygons: seq<Polygon>): (cs: seq<Contour>)
    reads polygons
    ensures |cs| == |polygons|
    ensures forall i :: 0 <= i < |polygons| ==> cs[i] == polygons[i].Value()
  {
    seq(|polygons|, i reads polygons requires 0 <= i < |polygons| => polygons[i].Value())
  }

  /** Appending a polygon to a list appends its value. */
  lemma ContoursOfAppend(polygons: seq<Polygon>, polygon: Polygon)
    ensures ContoursOf(polygons + [polygon]) == ContoursOf(polygons) + [polygon.Value()]
  {
  }

  /** The values of two lists joined are the two lists of values joined. */
  lemma ContoursOfConcat(a: seq<Polygon>, b: seq<Polygon>)
    ensures ContoursOf(a + b) == ContoursOf(a) + ContoursOf(b)
  {
  }

  class Polygon {
    var name: string
    var points: seq<P>

    /** `Polygon(name, points)`: keeps its own copy of `points`. */
    constructor(name: string, points: seq<P> := [])
      ensures this.name == name && this.points == points
    {
      this.name := name;
      this.points := points;
    }

    /** The polygon's current value. */
    function Value(): (c: Contour)
      reads this
      ensures c.name == name && c.points == points
    {
      Contour(name, points)
    }

    /** `__len__`. */
    function Length(): (n: nat)
      reads this
      ensures n == |points|
    {
      |points|
    }

    /** `__getitem__`: only indices `0 <= index < len` are accepted; any other
        index, negative ones included, fails the assertion. */
    function Get(index: int): (r: Result<P>)
      reads this
      ensures r.Ok? <==> 0 <= index < |points|
      ensures r.Ok? ==> r.value == points[index]
      ensures r.Err? ==> r.error == AssertionError
    {
      if 0 <= index < |points| then Ok(points[index]) else Err(AssertionError)
    }

    /** `point_append`. */
    method PointAppend(point: P)
      modifies this
      ensures name == old(name)
      ensures points == old(points) + [point]
      ensures Length() == old(Length()) + 1 && Get(old(Length())) == Ok(point)
    {
      points := points + [point];
    }

    /** `arc_append`: `points_count` points evenly spaced from `start_angle`
        to `end_angle`. A count of 1 divides by zero before anything is added. */
    method ArcAppend(m: Math, center: P, radius: real, startAngle: real, endAngle: real,
                     pointsCount: int) returns (outcome: Outcome)
      modifies this
      ensures name == old(name)
      ensures outcome == (if pointsCount == 1 then Fail(ZeroDivisionError) else Pass)
      ensures outcome.Pass? ==> points == old(points) + ArcPoints(m, center, radius, startAngle, endAngle, pointsCount)
      ensures outcome.Fail? ==> points == old(points)
    {
      if pointsCount - 1 == 0 {
        return Fail(ZeroDivisionError);
      }
      var spanAngle := endAngle - startAngle;
      var deltaAngle := spanAngle / (pointsCount - 1) as real;
      ghost var arc := ArcPoints(m, center, radius, startAngle, endAngle, pointsCount);
      var index := 0;
      while index < pointsCount
        invariant 0 <= index && (pointsCount >= 2 ==> index <= pointsCount)
        invariant pointsCount < 2 ==> index == 0
        invariant name == old(name)
        invariant points == old(points) + arc[..index]
      {
        var angle := startAngle + (index as real) * deltaAngle;
        var x := center.x + radius * m.cos(angle);
        var y := center.y + radius * m.sin(angle);
        assert angle == ArcAngle(startAngle, endAngle, pointsCount, index);
        assert arc[index] == PolarPoint(m, center, radius, angle) == P2(x, y);
        points := points + [P2(x, y)];
        assert arc[..index + 1] == arc[..index] + [arc[index]];
        index := index + 1;
      }
      assert arc[..index] == arc;
      return Pass;
    }

    /** `circle_append`: `points_count` points evenly spaced around the circle
        of `diameter`, starting at angle 0. A count of 0 divides by zero. */
    method CircleAppend(m: Math, center: P, diameter: real, pointsCount: int)
      returns (outcome: Outcome)
      modifies this
      ensures name == old(name)
      ensures outcome == (if pointsCount == 0 then Fail(ZeroDivisionError) else Pass)
      ensures outcome.Pass? ==> points == old(points) + CirclePoints(m, center, diameter, pointsCount)
      ensures outcome.Fail? ==> points == old(points)
    {
      if pointsCount == 0 {
        return Fail(ZeroDivisionError);
      }
      var deltaAngle := (2.0 * m.pi) / (pointsCount as real);
      var radius := diameter / 2.0;
      ghost var circle := CirclePoints(m, center, diameter, pointsCount);
      var index := 0;
      while index < pointsCount
        invariant 0 <= index && (pointsCount >= 1 ==> index <= pointsCount)
        invariant pointsCount < 1 ==> index == 0
        invariant name == old(name)
        invariant points == old(points) + circle[..index]
      {
        var angle := (index as real) * deltaAngle;
        var x := center.x + radius * m.cos(angle);
        var y := center.y + radius * m.sin(angle);
        assert angle == CircleAngle(m, pointsCount, index);
        assert circle[index] == PolarPoint(m, center, radius, angle) == P2(x, y);
        points := points + [P2(x, y)];
        assert circle[..index + 1] == circle[..index] + [circle[index]];
        index := index + 1;
      }
      assert circle[..index] == circle;
      return Pass;
    }

    /** `rotated_rectangle_append`: the four corners of a `dx` by `dy`
        rectangle turned by `angle` about `center`. */
    method RotatedRectangleAppend(m: Math, center: P, dx: real, dy: real, angle: real)
      modifies this
      ensures name == old(name)
      ensures points == old(points) + RectanglePoints(m, center, dx, dy, angle)
    {
      var halfDx := dx / 2.0;
      var halfDy := dy / 2.0;
      var upperRight := Rotate2d(m, P2(halfDx, halfDy), angle);
      var lowerRight := Rotate2d(m, P2(halfDx, -halfDy), angle);
      var upperLeft := Rotate2d(m, P2(-halfDx, halfDy), angle);
      var lowerLeft := Rotate2d(m, P2(-halfDx, -halfDy), angle);
      PointAppend(Add(center, upperRight));
      PointAppend(Add(center, lowerRight));
      PointAppend(Add(center, lowerLeft));
      PointAppend(Add(center, upperLeft));
    }

    /** `slot_append`: the two half circle end caps of a slot. A count of 1
        fails in the first cap, before any point is added. */
    method SlotAppend(m: Math, end1: P, end2: P, slotLength: real, slotWidth: real,
                      pointsCount: int) returns (outcome: Outcome)
      modifies this
      ensures name == old(name)
      ensures outcome == (if pointsCount == 1 then Fail(ZeroDivisionError) else Pass)
      ensures outcome.Pass? ==> points == old(points) + SlotPoints(m, end1, end2, slotLength, slotWidth, pointsCount)
      ensures outcome.Fail? ==> points == old(points)
    {
      var center := Div(Add(end1, end2), 2.0);
      var slotAngle := m.atan2(end1.y - end2.y, end1.x - end2.x);
      var slotRadius := slotWidth / 2.0;
      var halfSlotLength := slotLength / 2.0;
      var degrees180 := m.pi;
      var center1 := P2(center.x + halfSlotLength * m.cos(slotAngle),
                        center.y + halfSlotLength * m.sin(slotAngle));
      var center2 := P2(center.x + halfSlotLength * m.cos(slotAngle + degrees180),
                        center.y + halfSlotLength * m.sin(slotAngle + degrees180));
      var degrees90 := m.pi / 2.0;
      assert center == SlotCenter(end1, end2) && slotAngle == SlotAngle(m, end1, end2);
      assert center1 == SlotCenter1(m, end1, end2, slotLength);
      assert center2 == SlotCenter2(m, end1, end2, slotLength);
      ghost var before := points;
      ghost var arc1 := SlotArc1(m, end1, end2, slotLength, slotWidth, pointsCount);
      ghost var arc2 := SlotArc2(m, end1, end2, slotLength, slotWidth, pointsCount);
      outcome := ArcAppend(m, center1, slotRadius, slotAngle - degrees90,
                           slotAngle + degrees90, pointsCount);
      if outcome.Fail? {
        return;
      }
      assert points == before + arc1;
      outcome := ArcAppend(m, center2, slotRadius, slotAngle + degrees180 - degrees90,
                           slotAngle + degrees180 + degrees90, pointsCount);
      assert points == before + arc1 + arc2;
      AppendAssociative(before, arc1, arc2);
    }

    /** `points_scad_lines_append`: the header, then the points four to a line,
        each line ending with a comment giving the global indices it holds.
        Returns the lines extended and the index after the last point. */
    method PointsScadLinesAppend(lines: seq<string>, indent: string, startIndex: int)
      returns (out: seq<string>, endIndex: int)
      ensures out == lines + PointsLines(Value(), indent, startIndex)
      ensures endIndex == startIndex + |points|
    {
      ghost var c := Value();
      var pointsSize := |points|;
      endIndex := startIndex + pointsSize;
      var sliceSize := PointsPerLine;
      var slicesCount := CeilDiv(pointsSize, sliceSize);
      LinesStart(c, indent, startIndex, lines);
      out := lines + [PolygonHeader(indent, name, startIndex, endIndex)];
      for sliceIndex := 0 to slicesCount
        invariant out == lines + PointsLines(c, indent, startIndex)[..sliceIndex + 1]
      {
        var line := FormatPointsLine(indent, points, startIndex, sliceIndex);
        PointsLinesStep(c, indent, startIndex, sliceIndex, lines, out);
        out := out + [line];
      }
      PrefixAll(lines, PointsLines(c, indent, startIndex));
    }

    /** `indices_scad_lines_append`: the header, then this polygon's path,
        the global indices `start_index ..` twenty-five to a line, bracketed
        from the first line to the last. Returns the lines extended and the
        index after the last point. */
    method IndicesScadLinesAppend(lines: seq<string>, indent: string, startIndex: int)
      returns (out: seq<string>, endIndex: int)
      ensures out == lines + IndicesLines(Value(), indent, startIndex)
      ensures endIndex == startIndex + |points|
    {
      ghost var c := Value();
      var pointsSize := |points|;
      endIndex := startIndex + pointsSize;
      var sliceSize := IndicesPerLine;
      var slicesCount := CeilDiv(pointsSize, sliceSize);
      LinesStart(c, indent, startIndex, lines);
      out := lines + [PolygonHeader(indent, name, startIndex, endIndex)];
      for sliceIndex := 0 to slicesCount
        invariant out == lines + IndicesLines(c, indent, startIndex)[..sliceIndex + 1]
      {
        var line := FormatIndicesLine(indent, pointsSize, startIndex, sliceIndex);
        IndicesLinesStep(c, indent, startIndex, sliceIndex, lines, out);
        out := out + [line];
      }
      PrefixAll(lines, IndicesLines(c, indent, startIndex));
    }
  }

  class ScadPolygon {
    var name: string
    var convexity: int
    var polygons: seq<Polygon>

    /** `ScadPolygon(name, polygons, convexity=-1)`: keeps its own copy of the
        list; the polygons themselves are shared with the caller. */
    constructor(name: string, polygons: seq<Polygon>, convexity: int := -1)
      ensures this.name == name && this.polygons == polygons && this.convexity == convexity
    {
      this.name := name;
      this.polygons := polygons;
      this.convexity := convexity;
    }

    /** The current values of the polygons, in order. */
    function Contours(): (cs: seq<Contour>)
      reads this, polygons
      ensures |cs| == |polygons|
      ensures forall i :: 0 <= i < |polygons| ==> cs[i] == polygons[i].Value()
    {
      ContoursOf(polygons)
    }

    /** `__len__`. */
    function Length(): (n: nat)
      reads this
      ensures n == |polygons|
    {
      |polygons|
    }

    /** `__getitem__`: an index outside `0 <= index < len` fails the assertion. */
    function Get(index: int): (r: Result<Polygon>)
      reads this
      ensures r.Ok? <==> 0 <= index < |polygons|
      ensures r.Ok? ==> r.value == polygons[index]
      ensures r.Err? ==> r.error == AssertionError
    {
      if 0 <= index < |polygons| then Ok(polygons[index]) else Err(AssertionError)
    }

    /** `append`. */
    method Append(polygon: Polygon)
      modifies this
      ensures name == old(name) && convexity == old(convexity)
      ensures polygons == old(polygons) + [polygon]
    {
      polygons := polygons + [polygon];
    }

    /** `extend`. */
    method Extend(newPolygons: seq<Polygon>)
      modifies this
      ensures name == old(name) && convexity == old(convexity)
      ensures polygons == old(polygons) + newPolygons
    {
      polygons := polygons + newPolygons;
    }

    /** The first loop of `scad_lines_append`: the points of every polygon,
        numbered on from where the previous polygon's stopped. */
    method PointsSectionAppend(lines: seq<string>, nextIndent: string) returns (out: seq<string>)
      ensures out == lines + PointsSection(Contours(), nextIndent)
    {
      ghost var cs := Contours();
      out := lines;
      var index := 0;
      for i := 0 to |polygons|
        invariant index == Offset(cs, i)
        invariant out == lines + PointsSection(cs[..i], nextIndent)
      {
        assert polygons[i].Value() == cs[i];
        PointsSectionExtend(cs, nextIndent, i, lines, out);
        OffsetStep(cs, i);
        out, index := polygons[i].PointsScadLinesAppend(out, nextIndent, index);
      }
      assert cs[..|polygons|] == cs;
    }

    /** The second loop of `scad_lines_append`: the path of every polygon
        over the same global numbering. */
    method IndicesSectionAppend(lines: seq<string>, nextIndent: string) returns (out: seq<string>)
      ensures out == lines + IndicesSection(Contours(), nextIndent)
    {
      ghost var cs := Contours();
      out := lines;
      var index := 0;
      for i := 0 to |polygons|
        invariant index == Offset(cs, i)
        invariant out == lines + IndicesSection(cs[..i], nextIndent)
      {
        assert polygons[i].Value() == cs[i];
        IndicesSectionExtend(cs, nextIndent, i, lines, out);
        OffsetStep(cs, i);
        out, index := polygons[i].IndicesScadLinesAppend(out, nextIndent, index);
      }
      assert cs[..|polygons|] == cs;
    }

    /** `scad_lines_append`: the whole `polygon(points = [...], paths = [...])`
        command. The running index threads every polygon's end index into the
        next one's start index, in both sections. */
    method ScadLinesAppend(lines: seq<string>, indent: string) returns (out: seq<string>)
      ensures out == lines + ScadLines(name, convexity, Contours(), indent)
    {
      ghost var cs := Contours();
      var polygonsSize := |polygons|;
      var opening := [indent + "// ScadPolygon '" + name + " [0-" + IntToString(polygonsSize - 1) + "]'",
                      indent + "polygon(points = ["];
      var nextIndent := indent + " ";
      out := PointsSectionAppend(lines + opening, nextIndent);
      ghost var points := PointsSection(cs, nextIndent);
      var separator := [indent + " ], paths = ["];
      out := IndicesSectionAppend(out + separator, nextIndent);
      ghost var paths := IndicesSection(cs, nextIndent);
      var convexityText := if convexity < 0 then "" else ", convexity=" + IntToString(convexity);
      assert convexityText == ConvexityText(convexity);
      var closing := [indent + " ]" + convexityText + "); // End ScadPolygon '" + name
                      + "' [0-" + IntToString(polygonsSize - 1) + "]"];
      out := out + closing;
      assert out == lines + opening + points + separator + paths + closing;
      AppendFive(lines, opening, points, separator, paths, closing);
    }
  }
}

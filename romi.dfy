/** The `Romi` class of romi_model.py: the methods that build the polygons
    of the Romi base one `Polygon` object at a time. Each method is proved
    to return polygons whose values are the contours the matching function
    of `Layout` or `HexGrid` describes, so everything proved there holds of
    what these methods build. */
module RomiModel {
  import opened Outcomes
  import opened Geometry
  import opened Text
  import opened Chunking
  import opened Tessellation
  import opened Render
  import opened Scad
  import opened HexGrid
  import opened Layout

  // ----- Making one polygon -----

  /** `Polygon(name)` followed by `circle_append(center, diameter, 8)`. */
  method NewCircle(m: Math, name: string, center: P, diameter: real) returns (polygon: Polygon)
    ensures polygon.Value() == Contour(name, CirclePoints(m, center, diameter, PointsCount))
    ensures |polygon.Value().points| == PointsCount
  {
    polygon := new Polygon(name);
    var outcome := polygon.CircleAppend(m, center, diameter, PointsCount);
  }

  /** `Polygon(name)` followed by `rotated_rectangle_append(center, dx, dy, angle)`. */
  method NewRectangle(m: Math, name: string, center: P, dx: real, dy: real, angle: real)
    returns (polygon: Polygon)
    ensures polygon.Value() == Contour(name, RectanglePoints(m, center, dx, dy, angle))
    ensures |polygon.Value().points| == 4
  {
    polygon := new Polygon(name);
    polygon.RotatedRectangleAppend(m, center, dx, dy, angle);
  }

  /** `Polygon(name)` followed by `slot_append(end1, end2, slot_length, slot_width, 8)`. */
  method NewSlot(m: Math, name: string, end1: P, end2: P, slotLength: real, slotWidth: real)
    returns (polygon: Polygon)
    ensures polygon.Value() == Contour(name, SlotPoints(m, end1, end2, slotLength, slotWidth, PointsCount))
  {
    polygon := new Polygon(name);
    var outcome := polygon.SlotAppend(m, end1, end2, slotLength, slotWidth, PointsCount);
  }

  /** `ScadPolygon(name, polygons)` of default convexity, whose contours are
      the polygons' current values `contours`. */
  method NewScadPolygon(name: string, polygons: seq<Polygon>, ghost contours: seq<Contour>)
    returns (scadPolygon: ScadPolygon)
    requires contours == ContoursOf(polygons)
    ensures scadPolygon.Contours() == contours
    ensures scadPolygon.name == name && scadPolygon.convexity == -1
  {
    scadPolygon := new ScadPolygon(name, polygons);
  }

  /** The values of the base polygons joined as `base_scad_polygon_generate`
      joins them are the values joined the same way. */
  /** One half of `base_outline_polygon_get`: an arc of the outline, then
      the two corners of the wheel well that follows it. */
  method ArcCornersAppend(outline: Polygon, m: Math, center: P, radius: real, startAngle: real,
                          endAngle: real, count: int, first: P, second: P)
    requires count >= 2
    modifies outline
    ensures outline.name == old(outline.name)
    ensures outline.points == old(outline.points) + ArcPoints(m, center, radius, startAngle, endAngle, count)
                              + [first, second]
  {
    var outcome := outline.ArcAppend(m, center, radius, startAngle, endAngle, count);
    outline.PointAppend(first);
    outline.PointAppend(second);
  }

  lemma ContoursOfBase(outline: Polygon, upper: seq<Polygon>, lower: seq<Polygon>, battery: seq<Polygon>,
                       line: seq<Polygon>, arc: seq<Polygon>)
    ensures ContoursOf([outline] + upper + lower + battery + line + arc)
         == BaseJoin(outline.Value(), ContoursOf(upper), ContoursOf(lower), ContoursOf(battery),
                     ContoursOf(line), ContoursOf(arc))
  {
    assert ContoursOf([outline]) == [outline.Value()];
    ContoursOfConcat([outline], upper);
    ContoursOfConcat([outline] + upper, lower);
    ContoursOfConcat([outline] + upper + lower, battery);
    ContoursOfConcat([outline] + upper + lower + battery, line);
    ContoursOfConcat([outline] + upper + lower + battery + line, arc);
  }

  // ----- The three loops of hex_pattern_get -----

  /** The anchor loop: the grid of the first row, from the top, holding an
      'O', placed so that its first 'O' lies at `origin`. No such row fails
      the source's `assert False`. */
  method AnchorLocate(rows: seq<string>, origin: P, pitches: Pitches) returns (r: Result<Grid>)
    ensures AnchorFrom(rows, 0).Err? ==> r == Err(AssertionError)
    ensures AnchorFrom(rows, 0).Ok? ==> r == Ok(GridOf(origin, AnchorFrom(rows, 0).value, pitches))
  {
    var yOffset := 0;
    while yOffset < |rows|
      invariant yOffset <= |rows|
      invariant AnchorFrom(rows, yOffset) == AnchorFrom(rows, 0)
    {
      var xOffset := Find(rows[yOffset], 'O');
      if xOffset >= 0 {
        AnchorHere(rows, yOffset);
        return Ok(GridOf(origin, Cell(xOffset, yOffset, 'O'), pitches));
      }
      AnchorBelow(rows, yOffset);
      yOffset := yOffset + 1;
    }
    return Err(AssertionError);
  }

  /** The row and column loops: every character but '-' is entered in
      the locations, and every upper case one becomes a hole. */
  method PatternVisit(m: Math, g: Grid, rows: seq<string>, diameter: real)
    returns (polygons: seq<Polygon>, locations: map<char, P>)
    ensures ContoursOf(polygons) == Holes(m, g, diameter, Cells(rows))
    ensures locations == Locations(g, Cells(rows))
  {
    polygons := [];
    locations := map[];
    for yIndex := 0 to |rows|
      invariant ContoursOf(polygons) == Holes(m, g, diameter, Cells(rows[..yIndex]))
      invariant locations == Locations(g, Cells(rows[..yIndex]))
    {
      var row := rows[yIndex];
      ghost var before := Cells(rows[..yIndex]);
      ghost var cells := RowCells(row, yIndex);
      assert before + cells[..0] == before;
      for xIndex := 0 to |row|
        invariant ContoursOf(polygons) == Holes(m, g, diameter, before + cells[..xIndex])
        invariant locations == Locations(g, before + cells[..xIndex])
      {
        var c := row[xIndex];
        PrefixStep(before, cells, xIndex);
        LocationsStep(g, before + cells[..xIndex], cells[xIndex]);
        HolesStep(m, g, diameter, before + cells[..xIndex], cells[xIndex]);
        if c != '-' {
          var holeCenter := Location(g, xIndex, yIndex);
          locations := locations[c := holeCenter];
          if IsUpper(c) {
            var hole := NewCircle(m, HoleName(xIndex, yIndex), holeCenter, diameter);
            ContoursOfAppend(polygons, hole);
            polygons := polygons + [hole];
          }
        }
      }
      PrefixAll(before, cells);
      CellsStep(rows, yIndex);
    }
    CellsAll(rows);
  }

  /** The slot loop: one slot per pair appended to `polygons`, its ends
      looked up first letter first; the first lookup that fails decides the
      error and nothing more is appended. */
  method SlotPolygonsAppend(m: Math, pitches: Pitches, locations: map<char, P>, pairs: seq<string>,
                            polygons: seq<Polygon>) returns (r: Result<seq<Polygon>>)
    ensures r.Ok? <==> Slots(m, pitches, locations, pairs).Ok?
    ensures r.Err? ==> Slots(m, pitches, locations, pairs) == Err(r.error)
    ensures r.Ok? ==> ContoursOf(r.value) == ContoursOf(polygons) + Slots(m, pitches, locations, pairs).value
  {
    ghost var start := ContoursOf(polygons);
    var out := polygons;
    for i := 0 to |pairs|
      invariant Slots(m, pitches, locations, pairs[..i]).Ok?
      invariant ContoursOf(out) == start + Slots(m, pitches, locations, pairs[..i]).value
    {
      var pair := pairs[i];
      SlotsStep(m, pitches, locations, pairs, i);
      if |pair| < 1 {
        SlotsFailAt(m, pitches, locations, pairs, i);
        return Err(IndexError);
      }
      if pair[0] !in locations {
        SlotsFailAt(m, pitches, locations, pairs, i);
        return Err(KeyError(pair[0]));
      }
      var hole1 := locations[pair[0]];
      if |pair| < 2 {
        SlotsFailAt(m, pitches, locations, pairs, i);
        return Err(IndexError);
      }
      if pair[1] !in locations {
        SlotsFailAt(m, pitches, locations, pairs, i);
        return Err(KeyError(pair[1]));
      }
      var hole2 := locations[pair[1]];
      ghost var done := Slots(m, pitches, locations, pairs[..i]).value;
      ghost var contour := SlotContour(m, pitches, locations, pair).value;
      var slot := NewSlot(m, SlotName(pair), hole1, hole2, pitches.slotLength, pitches.slotWidth);
      assert slot.Value() == contour;
      ContoursOfAppend(out, slot);
      out := out + [slot];
      AppendAssociative(start, done, [contour]);
    }
    SlotsAll(m, pitches, locations, pairs);
    return Ok(out);
  }

  // ----- The two loop nests of battery_polygons_get -----

  /** The lower loops: column by column, top to bottom, a hole wherever
      the pattern is not '-'. */
  method LowerBatteryPolygons(m: Math, reference: Hole) returns (polygons: seq<Polygon>)
    ensures ContoursOf(polygons) == LowerBattery(m, reference, 9, 0)
  {
    polygons := [];
    for xIndex := 0 to 9
      invariant ContoursOf(polygons) == LowerBattery(m, reference, xIndex, 0)
    {
      for yIndex := 0 to |LowerBatteryPatterns|
        invariant ContoursOf(polygons) == LowerBattery(m, reference, xIndex, yIndex)
      {
        if LowerBatteryPatterns[yIndex][xIndex] != '-' {
          var hole := NewCircle(m, BatteryHoleName("Lower", xIndex, yIndex),
                                LowerBatteryCenter(reference, xIndex, yIndex), reference.diameter);
          ContoursOfAppend(polygons, hole);
          polygons := polygons + [hole];
        }
      }
    }
  }

  /** The upper loops: a hole at every one of the 10 by 3 positions. */
  method UpperBatteryPolygons(m: Math, reference: Hole) returns (polygons: seq<Polygon>)
    ensures ContoursOf(polygons) == UpperBattery(m, reference, 10, 0)
  {
    polygons := [];
    for xIndex := 0 to 10
      invariant ContoursOf(polygons) == UpperBattery(m, reference, xIndex, 0)
    {
      for yIndex := 0 to 3
        invariant ContoursOf(polygons) == UpperBattery(m, reference, xIndex, yIndex)
      {
        var hole := NewCircle(m, BatteryHoleName("Upper", xIndex, yIndex),
                              UpperBatteryCenter(reference, xIndex, yIndex), reference.diameter);
        ContoursOfAppend(polygons, hole);
        polygons := polygons + [hole];
      }
    }
  }

  // ----- The loop of arc_hole_rectangle_polygons_get -----

  /** Hole `i` on the arc, then its rectangle, for `i` in `range(13)`. */
  method ArcPolygons(m: Math, layout: ArcLayout) returns (polygons: seq<Polygon>)
    ensures ContoursOf(polygons) == ArcPairs(m, layout, ArcHolesCount)
  {
    var smallHoleDiameter := 1.2;
    var lowerHolesCount := 13;
    polygons := [];
    for lowerHoleIndex := 0 to lowerHolesCount
      invariant ContoursOf(polygons) == ArcPairs(m, layout, lowerHoleIndex)
    {
      var lowerArcHoleDiameter := if lowerHoleIndex % 3 == 0 then layout.startDiameter else smallHoleDiameter;
      var lowerRectangleLength := if lowerHoleIndex % 3 == 0 then layout.largeLength else layout.smallLength;
      var lowerHoleAngle := ArcAngle(layout.startAngle, layout.endAngle, lowerHolesCount, lowerHoleIndex);
      ghost var before := ContoursOf(polygons);
      var lowerHole := NewCircle(m, "Lower hole " + IntToString(lowerHoleIndex),
                                 AtAngle(m, layout.holeRadius, lowerHoleAngle), lowerArcHoleDiameter);
      ghost var hole := lowerHole.Value();
      assert hole == ArcHole(m, layout, lowerHoleIndex);
      ContoursOfAppend(polygons, lowerHole);
      polygons := polygons + [lowerHole];
      assert ContoursOf(polygons) == before + [hole];
      var lowerRectangle := NewRectangle(m, "Lower left rectangle " + IntToString(lowerHoleIndex),
                                         AtAngle(m, layout.rectangleRadius, lowerHoleAngle),
                                         layout.width, lowerRectangleLength, lowerHoleAngle);
      ghost var rectangle := lowerRectangle.Value();
      assert rectangle == ArcRectangle(m, layout, lowerHoleIndex);
      ContoursOfAppend(polygons, lowerRectangle);
      polygons := polygons + [lowerRectangle];
      AppendPair(before, hole, rectangle);
    }
  }

  class Romi {
    /** Millimetres per inch (`inches2mm`). */
    const inches2mm: real
    /** The robot centre's .dxf position in millimetres (`origin_offset`). */
    const originOffset: P

    /** `Romi()`: the origin offset is worked out from the axle and the
        upper castor hole. */
    constructor()
      ensures inches2mm == Inches2mm && originOffset == OriginOffset(Inches2mm)
    {
      var k := 25.4;
      var axelYAbove := 2.967165 * k;
      var axelYBelow := 2.908110 * k;
      var yOriginOffset := (axelYAbove + axelYBelow) / 2.0;
      var upperCastorXLeft := -3.930756 * k;
      var upperCastorXRight := -3.805256 * k;
      var xOriginOffset := (upperCastorXLeft + upperCastorXRight) / 2.0;
      inches2mm := k;
      originOffset := P2(xOriginOffset, yOriginOffset);
    }

    /** `hex_pattern_get`: the holes of the pattern's upper case letters, in
        reading order, then one slot per pair, and the location of every
        letter; the failures of the anchor search and of the slot lookups
        are those of `HexPattern`. */
    method HexPatternGet(m: Math, patternRows: seq<string>, slotPairs: seq<string>, hexOrigin: P,
                         holeDiameter: real) returns (r: Result<(seq<Polygon>, map<char, P>)>)
      requires m.sqrt(3.0) != 0.0
      ensures r.Ok? <==> HexPattern(m, HexPitches(m, inches2mm), patternRows, slotPairs, hexOrigin, holeDiameter).Ok?
      ensures r.Err? ==>
                HexPattern(m, HexPitches(m, inches2mm), patternRows, slotPairs, hexOrigin, holeDiameter) == Err(r.error)
      ensures r.Ok? ==>
                ContoursOf(r.value.0)
                == HexPattern(m, HexPitches(m, inches2mm), patternRows, slotPairs, hexOrigin, holeDiameter).value.0
      ensures r.Ok? ==>
                r.value.1 == HexPattern(m, HexPitches(m, inches2mm), patternRows, slotPairs, hexOrigin, holeDiameter).value.1
    {
      var hexDyPitch := 7.50;
      var halfHexDxPitch := hexDyPitch / m.sqrt(3.0);
      var slotLeftX := -2.437146 * inches2mm;
      var slotRightX := -2.346591 * inches2mm;
      var slotTopY := 1.339205 * inches2mm;
      var slotBottomY := 1.051803 * inches2mm;
      var slotDx := slotRightX - slotLeftX;
      var slotDy := slotTopY - slotBottomY;
      var pitches := Pitches(halfHexDxPitch, hexDyPitch, slotDy - slotDx, slotDx);
      assert pitches == HexPitches(m, inches2mm);
      var grid := AnchorLocate(patternRows, hexOrigin, pitches);
      if grid.Err? {
        return Err(grid.error);
      }
      var polygons, locations := PatternVisit(m, grid.value, patternRows, holeDiameter);
      var withSlots := SlotPolygonsAppend(m, pitches, locations, slotPairs, polygons);
      if withSlots.Err? {
        return Err(withSlots.error);
      }
      return Ok((withSlots.value, locations));
    }

    /** `upper_hex_polygons_get`: the upper hex pattern, which always succeeds. */
    method UpperHexPolygonsGet(m: Math) returns (polygons: seq<Polygon>)
      requires m.sqrt(3.0) != 0.0
      ensures UpperHex(m, inches2mm, originOffset).Ok?
      ensures ContoursOf(polygons) == UpperHex(m, inches2mm, originOffset).value.0
    {
      var hole := HoleLocate(inches2mm, originOffset, -2.749535, -2.629075, 5.441567, 5.316441);
      UpperHexSucceeds(m, inches2mm, originOffset);
      var r := HexPatternGet(m, UpperHexRows, UpperSlotPairs, hole.center, hole.diameter);
      assert r.Ok?;
      polygons := r.value.0;
    }

    /** `lower_hex_polygons_table_get`: the lower hex pattern and its
        locations, which always succeed. */
    method LowerHexPolygonsTableGet(m: Math) returns (polygons: seq<Polygon>, table: map<char, P>)
      requires m.sqrt(3.0) != 0.0
      ensures LowerHex(m, inches2mm, originOffset).Ok?
      ensures ContoursOf(polygons) == LowerHex(m, inches2mm, originOffset).value.0
      ensures table == LowerHex(m, inches2mm, originOffset).value.1
    {
      var hole := HoleLocate(inches2mm, originOffset, -2.454646, -2.329091, 1.553776, 1.428650);
      LowerHexSucceeds(m, inches2mm, originOffset);
      var r := HexPatternGet(m, LowerHexRows, LowerSlotPairs, hole.center, hole.diameter);
      assert r.Ok?;
      polygons, table := r.value.0, r.value.1;
    }

    /** `base_outline_polygon_get`: the outline, built arc, corners, arc,
        corners; it has `2 * 21 + 4` points. */
    method BaseOutlinePolygonGet(m: Math) returns (outline: Polygon)
      ensures outline.Value() == Contour("Romi Base Exterior", OutlinePoints(m))
      ensures outline.Length() == 2 * OutlineArcCount + 4
    {
      var diameter := 163.0;
      var radius := diameter / 2.0;
      var wheelWellDx := 125.0;
      var wheelWellDy := 72.0;
      var halfWheelWellDx := wheelWellDx / 2.0;
      var halfWheelWellDy := wheelWellDy / 2.0;
      var wheelWellAngle := m.asin(halfWheelWellDy / radius);
      var origin := P2(0.0, 0.0);
      outline := new Polygon("Romi Base Exterior");
      var upperStartAngle := wheelWellAngle;
      var upperEndAngle := m.pi - wheelWellAngle;
      var arcCount := 21;
      ArcCornersAppend(outline, m, origin, radius, upperStartAngle, upperEndAngle, arcCount,
                       P2(-halfWheelWellDx, halfWheelWellDy), P2(-halfWheelWellDx, -halfWheelWellDy));
      var lowerStartAngle := wheelWellAngle + m.pi;
      var lowerEndAngle := upperEndAngle + m.pi;
      ArcCornersAppend(outline, m, origin, radius, lowerStartAngle, lowerEndAngle, arcCount,
                       P2(halfWheelWellDx, -halfWheelWellDy), P2(halfWheelWellDx, halfWheelWellDy));
      assert wheelWellAngle == WheelWellAngle(m);
      OutlinePointsFrom(m, radius, wheelWellAngle, halfWheelWellDx, halfWheelWellDy, arcCount);
    }

    /** `battery_polygons_get`: the lower battery holes column by column,
        top to bottom, where the pattern has one, then all the upper ones. */
    method BatteryPolygonsGet(m: Math) returns (polygons: seq<Polygon>)
      ensures ContoursOf(polygons) == BatteryContours(m, inches2mm, originOffset)
    {
      var reference := HoleLocate(inches2mm, originOffset, -3.913146, -3.822591, 3.376610, 3.286051);
      var lower := LowerBatteryPolygons(m, reference);
      var upper := UpperBatteryPolygons(m, reference);
      polygons := lower + upper;
      ContoursOfConcat(lower, upper);
    }

    /** `line_hole_polygons_get`: the holes a third of the way apart on the
        line from 'S' to 'Q' of the lower hex table, skipping every third
        step; a table without 'S' or 'Q' raises `KeyError`. */
    method LineHolePolygonsGet(m: Math, lowerHexTable: map<char, P>) returns (r: Result<seq<Polygon>>)
      ensures r.Ok? <==> LineHoles(m, inches2mm, originOffset, lowerHexTable).Ok?
      ensures r.Err? ==> LineHoles(m, inches2mm, originOffset, lowerHexTable) == Err(r.error)
      ensures r.Ok? ==> ContoursOf(r.value) == LineHoles(m, inches2mm, originOffset, lowerHexTable).value
    {
      var small := HoleLocate(inches2mm, originOffset, -3.289535, -3.198980, 0.256524, 0.165984);
      if 'S' !in lowerHexTable {
        return Err(KeyError('S'));
      }
      var sCenter := lowerHexTable['S'];
      if 'Q' !in lowerHexTable {
        return Err(KeyError('Q'));
      }
      var qCenter := lowerHexTable['Q'];
      var holeVector := Sub(qCenter, sCenter);
      var polygons: seq<Polygon> := [];
      for vectorHoleIndex := 0 to LineSteps
        invariant ContoursOf(polygons) == LineHolesUpTo(m, small, sCenter, qCenter, vectorHoleIndex)
      {
        if vectorHoleIndex % 3 != 1 {
          var holeCenter := Add(sCenter, Div(Scale(holeVector, (vectorHoleIndex - 1) as real), 3.0));
          var hole := NewCircle(m, "Vector Hole " + IntToString(vectorHoleIndex), holeCenter, small.diameter);
          ContoursOfAppend(polygons, hole);
          polygons := polygons + [hole];
        }
      }
      return Ok(polygons);
    }

    /** `arc_hole_rectangle_polygons_get`: 13 holes evenly spread in angle
        between the start hole and the end hole, each followed by its
        rectangle, turned to the same angle further out. The measurements
        taken off the .dxf before the loop are those of `ArcLayoutOf`. */
    method ArcHoleRectanglePolygonsGet(m: Math) returns (polygons: seq<Polygon>)
      ensures ContoursOf(polygons) == ArcHoleRectangles(m, inches2mm, originOffset)
    {
      var layout := ArcLayoutOf(m, inches2mm, originOffset);
      polygons := ArcPolygons(m, layout);
    }

    /** The hole polygons of `base_scad_polygon_generate`, fetched in its
        order: upper hex pattern, lower hex pattern and table, the line of
        holes placed from that table, the arc of holes and rectangles. */
    method HolePolygonsGet(m: Math)
      returns (upperHex: seq<Polygon>, lowerHex: seq<Polygon>, line: seq<Polygon>, arc: seq<Polygon>)
      requires m.sqrt(3.0) != 0.0
      ensures HoleParts(m, inches2mm, originOffset, ContoursOf(upperHex), ContoursOf(lowerHex), ContoursOf(line),
                        ContoursOf(arc))
    {
      upperHex := UpperHexPolygonsGet(m);
      var lowerHexTable;
      lowerHex, lowerHexTable := LowerHexPolygonsTableGet(m);
      LowerHexSucceeds(m, inches2mm, originOffset);
      var r := LineHolePolygonsGet(m, lowerHexTable);
      assert r.Ok?;
      line := r.value;
      arc := ArcHoleRectanglePolygonsGet(m);
    }

    /** The polygons of `base_scad_polygon_generate`, fetched in its order
        (outline, battery holes, then the other holes) and gathered outline
        first, then the upper and lower hex patterns, the battery holes, the
        line of holes and the arc of holes and rectangles; the base never
        fails. */
    method BasePolygonsGet(m: Math) returns (all: seq<Polygon>)
      requires m.sqrt(3.0) != 0.0
      ensures BaseContours(m, inches2mm, originOffset) == Ok(ContoursOf(all))
    {
      var outline := BaseOutlinePolygonGet(m);
      var battery := BatteryPolygonsGet(m);
      var upperHex, lowerHex, line, arc := HolePolygonsGet(m);
      all := [outline] + upperHex + lowerHex + battery + line + arc;
      ContoursOfBase(outline, upperHex, lowerHex, battery, line, arc);
      BaseContoursFrom(m, inches2mm, originOffset, outline.Value(), ContoursOf(upperHex), ContoursOf(lowerHex),
                       ContoursOf(battery), ContoursOf(line), ContoursOf(arc), ContoursOf(all));
    }

    /** `base_scad_polygon_generate`: all the base polygons in one
        `ScadPolygon` of default convexity, the outline first. */
    method BaseScadPolygonGenerate(m: Math) returns (base: ScadPolygon)
      requires m.sqrt(3.0) != 0.0
      ensures BaseContours(m, inches2mm, originOffset) == Ok(base.Contours())
      ensures base.name == "Romi Base ScadPolygon" && base.convexity == -1
    {
      var all := BasePolygonsGet(m);
      base := NewScadPolygon("Romi Base ScadPolygon", all, ContoursOf(all));
    }
  }
}

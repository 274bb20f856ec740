/** The hexagonal pattern of holes and slots that `Romi.hex_pattern_get`
    lays out (romi_model.py:349-482), as functions of the pattern rows, the
    slot pairs and the pitches. A pattern is a grid of characters read row
    by row, left to right: '-' is no hole, every other character names a
    location, an upper case letter is also a hole, and a pair of letters
    names the two ends of a slot. */
module HexGrid {
  import opened Outcomes
  import opened Geometry
  import opened Text
  import opened Tessellation
  import opened Render

  /** One character `c` of the pattern, in column `x` of row `y`. */
  datatype Cell = Cell(x: nat, y: nat, c: char)

  /** The column pitch, the row pitch and the slot size, in millimetres. */
  datatype Pitches = Pitches(dx: real, dy: real, slotLength: real, slotWidth: real)

  /** Where the upper left character of the pattern lies, and the pitches. */
  datatype Grid = Grid(left: real, top: real, dx: real, dy: real)

  /** Points on each hole circle and on each slot end cap (`points_count`). */
  const PointsCount: int := 8

  // ----- Reading the pattern -----

  /** `str.find`: the first index of `c` in `s`, or -1 when there is none. */
  function Find(s: string, c: char): (i: int)
    ensures -1 <= i < |s|
    ensures i == -1 <==> c !in s
    ensures i >= 0 ==> s[i] == c && c !in s[..i]
  {
    if s == [] then -1
    else if s[0] == c then 0
    else
      var j := Find(s[1..], c);
      assert s == [s[0]] + s[1..];
      if j == -1 then -1
      else
        assert s[..j + 1] == [s[0]] + s[1..][..j];
        j + 1
  }

  /** The anchor: the first 'O' of the first row, from row `y` down, that
      has one; `AssertionError` when no row has one. */
  function AnchorFrom(rows: seq<string>, y: nat): (r: Result<Cell>)
    decreases |rows| - y
    ensures r.Err? <==> forall j :: y <= j < |rows| ==> 'O' !in rows[j]
    ensures r.Err? ==> r.error == AssertionError
    ensures r.Ok? ==> y <= r.value.y < |rows| && r.value.c == 'O'
    ensures r.Ok? ==> r.value.x < |rows[r.value.y]| && rows[r.value.y][r.value.x] == 'O'
    ensures r.Ok? ==> 'O' !in rows[r.value.y][..r.value.x]
    ensures r.Ok? ==> forall j :: y <= j < r.value.y ==> 'O' !in rows[j]
  {
    if y >= |rows| then Err(AssertionError)
    else
      var x := Find(rows[y], 'O');
      if x >= 0 then Ok(Cell(x, y, 'O')) else AnchorFrom(rows, y + 1)
  }

  /** A row with an 'O' is the anchor's row. */
  lemma AnchorHere(rows: seq<string>, y: nat)
    requires y < |rows| && Find(rows[y], 'O') >= 0
    ensures AnchorFrom(rows, y) == Ok(Cell(Find(rows[y], 'O'), y, 'O'))
  {
  }

  /** A row without an 'O' passes the search on to the next row. */
  lemma AnchorBelow(rows: seq<string>, y: nat)
    requires y < |rows| && Find(rows[y], 'O') < 0
    ensures AnchorFrom(rows, y) == AnchorFrom(rows, y + 1)
  {
  }

  /** The cells of one row, left to right. */
  function RowCells(row: string, y: nat): (cells: seq<Cell>)
    ensures |cells| == |row|
    ensures forall x :: 0 <= x < |row| ==> cells[x] == Cell(x, y, row[x])
  {
    seq(|row|, x requires 0 <= x < |row| => Cell(x, y, row[x]))
  }

  /** The cells of the pattern in the order the two loops visit them. */
  function Cells(rows: seq<string>): seq<Cell>
  {
    if rows == [] then [] else Cells(rows[..|rows| - 1]) + RowCells(rows[|rows| - 1], |rows| - 1)
  }

  lemma CellsStep(rows: seq<string>, y: nat)
    requires y < |rows|
    ensures Cells(rows[..y + 1]) == Cells(rows[..y]) + RowCells(rows[y], y)
  {
    assert rows[..y + 1][..y] == rows[..y];
  }

  lemma CellsAll(rows: seq<string>)
    ensures Cells(rows[..|rows|]) == Cells(rows)
  {
    assert rows[..|rows|] == rows;
  }

  /** The cells of the first `y` rows come first. */
  lemma {:induction false} CellsPrefix(rows: seq<string>, y: nat)
    requires y <= |rows|
    ensures |Cells(rows[..y])| <= |Cells(rows)|
    ensures Cells(rows)[..|Cells(rows[..y])|] == Cells(rows[..y])
    decreases |rows|
  {
    if y == |rows| {
      CellsAll(rows);
    } else {
      var front := rows[..|rows| - 1];
      assert front[..y] == rows[..y];
      CellsPrefix(front, y);
    }
  }

  /** Every character of the pattern is visited, as the cell at its row's
      offset plus its column. */
  lemma {:induction false} CellsAt(rows: seq<string>, y: nat, x: nat)
    requires y < |rows| && x < |rows[y]|
    ensures |Cells(rows[..y])| + x < |Cells(rows)|
    ensures Cells(rows)[|Cells(rows[..y])| + x] == Cell(x, y, rows[y][x])
  {
    CellsPrefix(rows, y + 1);
    CellsStep(rows, y);
    var front := Cells(rows[..y]);
    var row := RowCells(rows[y], y);
    assert (front + row)[|front| + x] == row[x];
  }

  // ----- Locations -----

  /** The upper left location: the anchor's location less its column and
      plus its row (`upper_left_origin_x`, `upper_left_origin_y`). */
  function GridOf(origin: P, anchor: Cell, pitches: Pitches): Grid
  {
    Grid(origin.x - (anchor.x as real) * pitches.dx, origin.y + (anchor.y as real) * pitches.dy,
         pitches.dx, pitches.dy)
  }

  /** The location of column `x` of row `y`; rows go down. */
  function Location(g: Grid, x: nat, y: nat): P
  {
    P2(g.left + (x as real) * g.dx, g.top - (y as real) * g.dy)
  }

  /** The `locations` dict after visiting `cells`: every character but '-'
      is entered, a later one replacing an earlier one. */
  function Locations(g: Grid, cells: seq<Cell>): map<char, P>
  {
    if cells == [] then map[]
    else
      var cell := cells[|cells| - 1];
      var before := Locations(g, cells[..|cells| - 1]);
      if cell.c == '-' then before else before[cell.c := Location(g, cell.x, cell.y)]
  }

  lemma LocationsStep(g: Grid, cells: seq<Cell>, cell: Cell)
    ensures Locations(g, cells + [cell])
         == if cell.c == '-' then Locations(g, cells)
            else Locations(g, cells)[cell.c := Location(g, cell.x, cell.y)]
  {
    assert (cells + [cell])[..|cells|] == cells;
  }

  /** A character has a location exactly when it is not '-' and occurs. */
  lemma {:induction false} LocationsDomain(g: Grid, cells: seq<Cell>, c: char)
    ensures c in Locations(g, cells) <==> c != '-' && exists i :: 0 <= i < |cells| && cells[i].c == c
  {
    if cells != [] {
      var front := cells[..|cells| - 1];
      LocationsDomain(g, front, c);
      assert cells == front + [cells[|cells| - 1]];
      if exists i :: 0 <= i < |cells| && cells[i].c == c {
        var i :| 0 <= i < |cells| && cells[i].c == c;
        if i < |front| {
          assert front[i].c == c;
        }
      }
      if exists i :: 0 <= i < |front| && front[i].c == c {
        var i :| 0 <= i < |front| && front[i].c == c;
        assert cells[i].c == c;
      }
    }
  }

  /** The location of a character is that of its last occurrence. */
  lemma {:induction false} LocationsLast(g: Grid, cells: seq<Cell>, i: nat)
    requires i < |cells| && cells[i].c != '-'
    requires forall j :: i < j < |cells| ==> cells[j].c != cells[i].c
    ensures cells[i].c in Locations(g, cells)
    ensures Locations(g, cells)[cells[i].c] == Location(g, cells[i].x, cells[i].y)
  {
    var front := cells[..|cells| - 1];
    if i < |front| {
      LocationsLast(g, front, i);
    }
  }

  /** The anchor cell lies at the location the caller gives for 'O'. */
  lemma AnchorAtOrigin(origin: P, anchor: Cell, pitches: Pitches)
    ensures Location(GridOf(origin, anchor, pitches), anchor.x, anchor.y) == P2(origin.x, origin.y)
  {
  }

  /** Rows are `dy` apart and neighbouring columns `dx` apart: with `dx =
      dy / sqrt(3)` a location is as far from the next one of its row as
      from the one diagonally below, so the holes form equilateral
      triangles. */
  lemma {:induction false} GridEquilateral(m: Math, g: Grid, x: nat, y: nat)
    requires RootAt(m, 3.0) && g.dx == g.dy / m.sqrt(3.0)
    ensures SquaredDistance2d(Location(g, x, y), Location(g, x + 2, y))
         == SquaredDistance2d(Location(g, x, y), Location(g, x + 1, y + 1))
  {
    var s := m.sqrt(3.0);
    assert s * s == 3.0;
    assert g.dx * s == g.dy;
    var a, b, c := Location(g, x, y), Location(g, x + 2, y), Location(g, x + 1, y + 1);
    assert b.x - a.x == 2.0 * g.dx && b.y - a.y == 0.0;
    assert c.x - a.x == g.dx && c.y - a.y == -g.dy;
    calc {
      g.dy * g.dy;
      (g.dx * s) * (g.dx * s);
      g.dx * g.dx * (s * s);
      3.0 * g.dx * g.dx;
    }
  }

  // ----- Holes -----

  /** `str.isupper` of one character, for ASCII letters. */
  predicate IsUpper(c: char)
  {
    'A' <= c <= 'Z'
  }

  function HoleName(x: nat, y: nat): string
  {
    "Hex Hole (" + IntToString(x) + ", " + IntToString(y) + ")"
  }

  /** The hole of an upper case cell: a circle of `PointsCount` points. */
  function HoleContour(m: Math, g: Grid, diameter: real, cell: Cell): Contour
  {
    Contour(HoleName(cell.x, cell.y), CirclePoints(m, Location(g, cell.x, cell.y), diameter, PointsCount))
  }

  /** The upper case cells, in visiting order. */
  function HoleCells(cells: seq<Cell>): (holes: seq<Cell>)
    ensures |holes| <= |cells|
  {
    if cells == [] then []
    else
      var cell := cells[|cells| - 1];
      HoleCells(cells[..|cells| - 1]) + (if IsUpper(cell.c) then [cell] else [])
  }

  /** The hole polygons made while visiting `cells`. */
  function Holes(m: Math, g: Grid, diameter: real, cells: seq<Cell>): seq<Contour>
  {
    if cells == [] then []
    else
      var cell := cells[|cells| - 1];
      Holes(m, g, diameter, cells[..|cells| - 1])
        + (if cell.c != '-' && IsUpper(cell.c) then [HoleContour(m, g, diameter, cell)] else [])
  }

  lemma HolesStep(m: Math, g: Grid, diameter: real, cells: seq<Cell>, cell: Cell)
    ensures Holes(m, g, diameter, cells + [cell])
         == Holes(m, g, diameter, cells)
            + (if cell.c != '-' && IsUpper(cell.c) then [HoleContour(m, g, diameter, cell)] else [])
  {
    assert (cells + [cell])[..|cells|] == cells;
  }

  /** Exactly the upper case cells are kept. */
  lemma {:induction false} HoleCellsExact(cells: seq<Cell>, cell: Cell)
    ensures cell in HoleCells(cells) <==> cell in cells && IsUpper(cell.c)
  {
    if cells != [] {
      var front := cells[..|cells| - 1];
      HoleCellsExact(front, cell);
      assert cells == front + [cells[|cells| - 1]];
    }
  }

  /** The holes are the circles of the upper case cells, one each, in
      visiting order, of `PointsCount` points each. */
  lemma {:induction false} HolesOfUpperCells(m: Math, g: Grid, diameter: real, cells: seq<Cell>)
    ensures |Holes(m, g, diameter, cells)| == |HoleCells(cells)|
    ensures forall k :: 0 <= k < |HoleCells(cells)| ==>
              Holes(m, g, diameter, cells)[k] == HoleContour(m, g, diameter, HoleCells(cells)[k])
              && |Holes(m, g, diameter, cells)[k].points| == PointsCount
  {
    if cells != [] {
      var front, cell := cells[..|cells| - 1], cells[|cells| - 1];
      HolesOfUpperCells(m, g, diameter, front);
      var holes, holeCells := Holes(m, g, diameter, front), HoleCells(front);
      if IsUpper(cell.c) {
        assert Holes(m, g, diameter, cells) == holes + [HoleContour(m, g, diameter, cell)];
        assert HoleCells(cells) == holeCells + [cell];
        forall k | 0 <= k < |holeCells| + 1
          ensures Holes(m, g, diameter, cells)[k] == HoleContour(m, g, diameter, HoleCells(cells)[k])
        {
          if k < |holeCells| {
            assert Holes(m, g, diameter, cells)[k] == holes[k];
            assert HoleCells(cells)[k] == holeCells[k];
          }
        }
      } else {
        assert Holes(m, g, diameter, cells) == holes + [];
        assert HoleCells(cells) == holeCells + [];
      }
    }
  }

  // ----- Slots -----

  function SlotName(pair: string): string
  {
    "Slot '" + pair + "'"
  }

  /** The slot of one pair: `slot_pair[0]` and `slot_pair[1]` are looked up
      in that order, each failing when the pair is too short (`IndexError`)
      or the letter has no location (`KeyError`). */
  function SlotContour(m: Math, pitches: Pitches, locations: map<char, P>, pair: string): (r: Result<Contour>)
    ensures r.Ok? <==> |pair| >= 2 && pair[0] in locations && pair[1] in locations
    ensures r.Ok? ==> |r.value.points| == 2 * PointsCount
  {
    if |pair| < 1 then Err(IndexError)
    else if pair[0] !in locations then Err(KeyError(pair[0]))
    else if |pair| < 2 then Err(IndexError)
    else if pair[1] !in locations then Err(KeyError(pair[1]))
    else Ok(Contour(SlotName(pair), SlotPoints(m, locations[pair[0]], locations[pair[1]],
                                               pitches.slotLength, pitches.slotWidth, PointsCount)))
  }

  /** The slots of `pairs`, in order; the first pair that fails decides the error. */
  function Slots(m: Math, pitches: Pitches, locations: map<char, P>, pairs: seq<string>): Result<seq<Contour>>
  {
    if pairs == [] then Ok([])
    else
      var before := Slots(m, pitches, locations, pairs[..|pairs| - 1]);
      if before.Err? then before
      else
        var slot := SlotContour(m, pitches, locations, pairs[|pairs| - 1]);
        if slot.Err? then Err(slot.error) else Ok(before.value + [slot.value])
  }

  lemma SlotsStep(m: Math, pitches: Pitches, locations: map<char, P>, pairs: seq<string>, i: nat)
    requires i < |pairs|
    requires Slots(m, pitches, locations, pairs[..i]).Ok?
    ensures Slots(m, pitches, locations, pairs[..i + 1])
         == var slot := SlotContour(m, pitches, locations, pairs[i]);
            if slot.Err? then Err(slot.error)
            else Ok(Slots(m, pitches, locations, pairs[..i]).value + [slot.value])
  {
    assert pairs[..i + 1][..i] == pairs[..i];
  }

  /** Once a pair has failed, the later pairs change nothing. */
  lemma {:induction false} SlotsErrorStays(m: Math, pitches: Pitches, locations: map<char, P>,
                                           pairs: seq<string>, i: nat)
    requires i <= |pairs| && Slots(m, pitches, locations, pairs[..i]).Err?
    ensures Slots(m, pitches, locations, pairs) == Slots(m, pitches, locations, pairs[..i])
    decreases |pairs|
  {
    if i == |pairs| {
      assert pairs[..i] == pairs;
    } else {
      var front := pairs[..|pairs| - 1];
      assert front[..i] == pairs[..i];
      SlotsErrorStays(m, pitches, locations, front, i);
    }
  }

  /** The first pair that fails decides the error of all the slots. */
  lemma {:induction false} SlotsFailAt(m: Math, pitches: Pitches, locations: map<char, P>,
                                       pairs: seq<string>, i: nat)
    requires i < |pairs| && Slots(m, pitches, locations, pairs[..i]).Ok?
    requires SlotContour(m, pitches, locations, pairs[i]).Err?
    ensures Slots(m, pitches, locations, pairs) == Err(SlotContour(m, pitches, locations, pairs[i]).error)
  {
    SlotsStep(m, pitches, locations, pairs, i);
    SlotsErrorStays(m, pitches, locations, pairs, i + 1);
  }

  lemma SlotsAll(m: Math, pitches: Pitches, locations: map<char, P>, pairs: seq<string>)
    ensures Slots(m, pitches, locations, pairs[..|pairs|]) == Slots(m, pitches, locations, pairs)
  {
    assert pairs[..|pairs|] == pairs;
  }

  /** The slots succeed exactly when every pair does, and then there is one
      slot per pair, in order. */
  lemma {:induction false} SlotsOk(m: Math, pitches: Pitches, locations: map<char, P>, pairs: seq<string>)
    ensures Slots(m, pitches, locations, pairs).Ok?
        <==> forall i :: 0 <= i < |pairs| ==> SlotContour(m, pitches, locations, pairs[i]).Ok?
    ensures Slots(m, pitches, locations, pairs).Ok? ==>
              |Slots(m, pitches, locations, pairs).value| == |pairs|
              && forall i :: 0 <= i < |pairs| ==>
                   Slots(m, pitches, locations, pairs).value[i] == SlotContour(m, pitches, locations, pairs[i]).value
  {
    if pairs != [] {
      var front := pairs[..|pairs| - 1];
      SlotsOk(m, pitches, locations, front);
      assert forall i :: 0 <= i < |front| ==> front[i] == pairs[i];
    }
  }

  // ----- The whole pattern -----

  /** What `hex_pattern_get` returns: the holes in visiting order, then the
      slots in pair order, and the locations. */
  function HexPattern(m: Math, pitches: Pitches, rows: seq<string>, pairs: seq<string>,
                      origin: P, diameter: real): Result<(seq<Contour>, map<char, P>)>
  {
    var anchor := AnchorFrom(rows, 0);
    if anchor.Err? then Err(anchor.error)
    else
      var g := GridOf(origin, anchor.value, pitches);
      var locations := Locations(g, Cells(rows));
      var slots := Slots(m, pitches, locations, pairs);
      if slots.Err? then Err(slots.error)
      else Ok((Holes(m, g, diameter, Cells(rows)) + slots.value, locations))
  }

  /** A pattern without an 'O' fails with `AssertionError`; one that
      succeeds has an 'O'. */
  lemma HexPatternNeedsAnchor(m: Math, pitches: Pitches, rows: seq<string>, pairs: seq<string>,
                              origin: P, diameter: real)
    ensures (forall y :: 0 <= y < |rows| ==> 'O' !in rows[y]) ==>
              HexPattern(m, pitches, rows, pairs, origin, diameter) == Err(AssertionError)
    ensures HexPattern(m, pitches, rows, pairs, origin, diameter).Ok? ==>
              exists y :: 0 <= y < |rows| && 'O' in rows[y]
  {
  }

  /** `c` occurs at most once among `cells`. */
  predicate AtMostOnce(cells: seq<Cell>, c: char)
  {
    forall i, j :: 0 <= i < j < |cells| && cells[i].c == c ==> cells[j].c != c
  }

  /** A character that occurs once is located at its cell. */
  lemma {:induction false} LocatedOnce(g: Grid, rows: seq<string>, y: nat, x: nat)
    requires y < |rows| && x < |rows[y]| && rows[y][x] != '-'
    requires AtMostOnce(Cells(rows), rows[y][x])
    ensures rows[y][x] in Locations(g, Cells(rows))
    ensures Locations(g, Cells(rows))[rows[y][x]] == Location(g, x, y)
  {
    CellsAt(rows, y, x);
    LocationsLast(g, Cells(rows), |Cells(rows[..y])| + x);
  }

  /** When 'O' occurs once, its recorded location is the given origin. */
  lemma {:induction false} HexPatternOrigin(m: Math, pitches: Pitches, rows: seq<string>, pairs: seq<string>,
                                            origin: P, diameter: real)
    requires HexPattern(m, pitches, rows, pairs, origin, diameter).Ok?
    requires AtMostOnce(Cells(rows), 'O')
    ensures 'O' in HexPattern(m, pitches, rows, pairs, origin, diameter).value.1
    ensures HexPattern(m, pitches, rows, pairs, origin, diameter).value.1['O'] == P2(origin.x, origin.y)
  {
    var anchor := AnchorFrom(rows, 0).value;
    var g := GridOf(origin, anchor, pitches);
    assert HexPattern(m, pitches, rows, pairs, origin, diameter).value.1 == Locations(g, Cells(rows));
    LocatedOnce(g, rows, anchor.y, anchor.x);
    AnchorAtOrigin(origin, anchor, pitches);
  }

  /** A successful pattern is the holes of its upper case cells, then one
      slot of `2 * PointsCount` points per pair. */
  lemma {:induction false} HexPatternShape(m: Math, pitches: Pitches, rows: seq<string>, pairs: seq<string>,
                                           origin: P, diameter: real)
    requires HexPattern(m, pitches, rows, pairs, origin, diameter).Ok?
    ensures |HexPattern(m, pitches, rows, pairs, origin, diameter).value.0|
         == |HoleCells(Cells(rows))| + |pairs|
    ensures forall k :: 0 <= k < |HexPattern(m, pitches, rows, pairs, origin, diameter).value.0| ==>
              |HexPattern(m, pitches, rows, pairs, origin, diameter).value.0[k].points|
              == if k < |HoleCells(Cells(rows))| then PointsCount else 2 * PointsCount
  {
    var anchor := AnchorFrom(rows, 0).value;
    var g := GridOf(origin, anchor, pitches);
    var locations := Locations(g, Cells(rows));
    HolesOfUpperCells(m, g, diameter, Cells(rows));
    SlotsOk(m, pitches, locations, pairs);
  }

  /** `c` is one of the characters of the pattern. */
  predicate Occurs(rows: seq<string>, c: char)
  {
    exists y, x :: 0 <= y < |rows| && 0 <= x < |rows[y]| && rows[y][x] == c
  }

  /** Every visited cell is a character of the pattern at its own column and row. */
  lemma {:induction false} CellsFrom(rows: seq<string>, i: nat)
    requires i < |Cells(rows)|
    ensures Cells(rows)[i].y < |rows| && Cells(rows)[i].x < |rows[Cells(rows)[i].y]|
    ensures rows[Cells(rows)[i].y][Cells(rows)[i].x] == Cells(rows)[i].c
  {
    var front := rows[..|rows| - 1];
    if i < |Cells(front)| {
      CellsFrom(front, i);
    }
  }

  /** The located characters are exactly those of the pattern but '-'. */
  lemma {:induction false} LocatedIff(g: Grid, rows: seq<string>, c: char)
    ensures c in Locations(g, Cells(rows)) <==> c != '-' && Occurs(rows, c)
  {
    LocationsDomain(g, Cells(rows), c);
    if c in Locations(g, Cells(rows)) {
      var i :| 0 <= i < |Cells(rows)| && Cells(rows)[i].c == c;
      CellsFrom(rows, i);
    }
    if c != '-' && Occurs(rows, c) {
      var y, x :| 0 <= y < |rows| && 0 <= x < |rows[y]| && rows[y][x] == c;
      CellsAt(rows, y, x);
    }
  }

  /** A slot pair that names two located characters. */
  predicate PairLocated(rows: seq<string>, pair: string)
  {
    |pair| >= 2 && pair[0] != '-' && pair[1] != '-' && Occurs(rows, pair[0]) && Occurs(rows, pair[1])
  }

  /** A pattern succeeds exactly when it has an 'O' and every slot pair
      names two characters of it; then every character but '-' has a location. */
  lemma {:induction false} HexPatternSucceeds(m: Math, pitches: Pitches, rows: seq<string>, pairs: seq<string>,
                                              origin: P, diameter: real)
    ensures HexPattern(m, pitches, rows, pairs, origin, diameter).Ok?
        <==> Occurs(rows, 'O') && forall i :: 0 <= i < |pairs| ==> PairLocated(rows, pairs[i])
    ensures HexPattern(m, pitches, rows, pairs, origin, diameter).Ok? ==>
              forall c :: c != '-' && Occurs(rows, c) ==> c in HexPattern(m, pitches, rows, pairs, origin, diameter).value.1
  {
    var anchor := AnchorFrom(rows, 0);
    if Occurs(rows, 'O') {
      var y, x :| 0 <= y < |rows| && 0 <= x < |rows[y]| && rows[y][x] == 'O';
      assert 'O' in rows[y];
    }
    if anchor.Ok? {
      var g := GridOf(origin, anchor.value, pitches);
      var locations := Locations(g, Cells(rows));
      assert Occurs(rows, 'O') by {
        assert rows[anchor.value.y][anchor.value.x] == 'O';
      }
      SlotsOk(m, pitches, locations, pairs);
      forall i | 0 <= i < |pairs|
        ensures SlotContour(m, pitches, locations, pairs[i]).Ok? <==> PairLocated(rows, pairs[i])
      {
        if |pairs[i]| >= 2 {
          LocatedIff(g, rows, pairs[i][0]);
          LocatedIff(g, rows, pairs[i][1]);
        }
      }
      forall c | c != '-' && Occurs(rows, c)
        ensures c in locations
      {
        LocatedIff(g, rows, c);
      }
    }
  }
}

/**
 * The board-point geometry of `glift.displays` (src/displays/board_points.js):
 * the builder that scans a line box's grid of intersections, and the
 * `BoardPoints` object that answers lookups over the result.
 *
 * Pixel values are exact reals. A point is an integer pair used directly as
 * the map key (the source keys its object by the point's string form, which
 * is injective on integer pairs).
 */
module Displays {
  import opened Wrappers

  /** An integer intersection, `glift.util.point(x, y)`; the key of the points map. */
  datatype Point = Point(x: int, y: int)

  /** A point in pixel space. */
  datatype PixelPt = PixelPt(x: real, y: real)

  /** A bounding box given by its top-left and bottom-right corners. */
  datatype BBox = BBox(topLeft: PixelPt, botRight: PixelPt)

  /** The fields of a line box that the builder reads. */
  datatype LineBox = LineBox(
    bbox: BBox,
    spacing: real,
    leftExt: real, rightExt: real, topExt: real, botExt: real,
    pointTopLeft: Point,
    xPoints: nat, yPoints: nat)

  /** One intersection: its integer point, its pixel centre and the square it owns. */
  datatype BoardPt = BoardPt(intPt: Point, coordPt: PixelPt, bbox: BBox)

  /** A coordinate label drawn on the edge of the board. */
  datatype EdgeLabel = EdgeLabel(text: string, coordPt: PixelPt)

  /** Column letters; by convention the letter I is left out. */
  const XCoordLabels: string := "ABCDEFGHJKLMNOPQRSTUVWXYZ"

  // ---------------------------------------------------------------------
  // Small helpers with the source's semantics
  // ---------------------------------------------------------------------

  /** `String.prototype.charAt`: the one-character string at `k`, or "" out of range. */
  function CharAt(s: string, k: int): (r: string)
    ensures 0 <= k < |s| ==> r == [s[k]]
    ensures !(0 <= k < |s|) ==> r == ""
  {
    if 0 <= k < |s| then [s[k]] else ""
  }

  function Abs(n: int): nat {
    if n < 0 then -n else n
  }

  function Translate(p: PixelPt, dx: real, dy: real): PixelPt {
    PixelPt(p.x + dx, p.y + dy)
  }

  /** The decimal digit character for `d`. */
  function DigitChar(d: nat): (c: char)
    requires d < 10
    ensures c as int - '0' as int == d
  {
    "0123456789"[d]
  }

  /** `n + ''` for a non-negative integer: its decimal representation, without leading zeros. */
  function NatToDecimal(n: nat): (r: string)
    ensures |r| >= 1
    ensures forall k :: 0 <= k < |r| ==> '0' <= r[k] <= '9'
    ensures n < 10 ==> |r| == 1
    ensures |r| > 1 ==> r[0] != '0'
  {
    if n < 10 then [DigitChar(n)] else NatToDecimal(n / 10) + [DigitChar(n % 10)]
  }

  /** The number a string of decimal digits denotes. */
  function DecimalValue(s: string): int {
    if s == [] then 0 else DecimalValue(s[..|s| - 1]) * 10 + (s[|s| - 1] as int - '0' as int)
  }

  /** The decimal label reads back as the number it was made from. */
  lemma {:induction false} DecimalRoundTrip(n: nat)
    ensures DecimalValue(NatToDecimal(n)) == n
  {
    var s := NatToDecimal(n);
    if n >= 10 {
      DecimalRoundTrip(n / 10);
      assert s[..|s| - 1] == NatToDecimal(n / 10);
      assert s[|s| - 1] == DigitChar(n % 10);
    } else {
      assert s == [DigitChar(n)];
      assert s[..0] == [];
    }
  }

  // ---------------------------------------------------------------------
  // The reference geometry: where each grid position goes
  // ---------------------------------------------------------------------

  function LeftExtAmt(lb: LineBox): real { lb.leftExt * lb.spacing }
  function RightExtAmt(lb: LineBox): real { lb.rightExt * lb.spacing }
  function TopExtAmt(lb: LineBox): real { lb.topExt * lb.spacing }
  function BotExtAmt(lb: LineBox): real { lb.botExt * lb.spacing }

  /** The pixel column of grid column 0: the box's left edge plus the left extension. */
  function LeftPx(lb: LineBox): real { lb.bbox.topLeft.x + LeftExtAmt(lb) }

  /** The pixel row of grid row 0: the box's top edge plus the top extension. */
  function TopPx(lb: LineBox): real { lb.bbox.topLeft.y + TopExtAmt(lb) }

  /** The pixel distance of `n` grid steps. */
  function Steps(n: int, spacing: real): real {
    n as real * spacing
  }

  /** The pixel at grid row `i`, column `j`: one spacing per step from (LeftPx, TopPx). */
  function GridPixel(lb: LineBox, i: int, j: int): PixelPt {
    PixelPt(LeftPx(lb) + Steps(j, lb.spacing), TopPx(lb) + Steps(i, lb.spacing))
  }

  /** A board point centred on `c`, owning the square of half-width `radius` around it. */
  function MakeBoardPt(intPt: Point, c: PixelPt, radius: real): (r: BoardPt)
    ensures r.intPt == intPt && r.coordPt == c
    ensures (r.bbox.topLeft.x + r.bbox.botRight.x) / 2.0 == c.x
    ensures (r.bbox.topLeft.y + r.bbox.botRight.y) / 2.0 == c.y
    ensures r.bbox.botRight.x - r.bbox.topLeft.x == 2.0 * radius
    ensures r.bbox.botRight.y - r.bbox.topLeft.y == 2.0 * radius
  {
    BoardPt(intPt, c, BBox(PixelPt(c.x - radius, c.y - radius), PixelPt(c.x + radius, c.y + radius)))
  }

  /** With edge coordinates on, the grid has a phantom ring of one position around the stored points. */
  function Margin(drawBoardCoords: bool): nat {
    if drawBoardCoords then 1 else 0
  }

  /** The grid row that stores the key `p`. */
  function RowOf(lb: LineBox, drawBoardCoords: bool, p: Point): int {
    p.y - lb.pointTopLeft.y + Margin(drawBoardCoords)
  }

  /** The grid column that stores the key `p`. */
  function ColOf(lb: LineBox, drawBoardCoords: bool, p: Point): int {
    p.x - lb.pointTopLeft.x + Margin(drawBoardCoords)
  }

  /**
   * The keys the builder stores: the rectangle of intersections from the
   * line box's top-left point, (xPoints + 1) by (yPoints + 1) without edge
   * coordinates, and with them the interior shrunk by the phantom ring.
   */
  predicate OnBoard(lb: LineBox, drawBoardCoords: bool, p: Point) {
    var m, x0, y0 := Margin(drawBoardCoords), lb.pointTopLeft.x, lb.pointTopLeft.y;
    && x0 <= p.x <= x0 + lb.xPoints - 2 * m
    && y0 <= p.y <= y0 + lb.yPoints - 2 * m
  }

  /** What the builder stores under the key `p`: the pixel of its grid position, and radius spacing / 2. */
  function ExpectedPoint(lb: LineBox, drawBoardCoords: bool, p: Point): BoardPt {
    MakeBoardPt(p, GridPixel(lb, RowOf(lb, drawBoardCoords, p), ColOf(lb, drawBoardCoords, p)), lb.spacing / 2.0)
  }

  /** The label of the top (row 0) or bottom (row yPoints) position in column `j`. */
  function ColumnLabel(lb: LineBox, i: int, j: int): EdgeLabel {
    var c := GridPixel(lb, i, j);
    EdgeLabel(
      CharAt(XCoordLabels, lb.pointTopLeft.x + j - 1),
      if i == 0 then Translate(c, 0.0, -1.0 * TopExtAmt(lb)) else Translate(c, 0.0, BotExtAmt(lb)))
  }

  /** The label of the left (column 0) or right (column xPoints) position in row `i`, numbered from the bottom. */
  function RowLabel(lb: LineBox, maxIntersects: int, i: int, j: int): EdgeLabel {
    var c := GridPixel(lb, i, j);
    EdgeLabel(
      NatToDecimal(Abs(lb.pointTopLeft.y + i - maxIntersects) + 1),
      if j == 0 then Translate(c, -1.0 * LeftExtAmt(lb), 0.0) else Translate(c, RightExtAmt(lb), 0.0))
  }

  /** The number of positions strictly between the two ends of a side of `n + 1` positions. */
  function Inner(n: nat): nat {
    if n >= 1 then n - 1 else 0
  }

  /**
   * The labels of grid row `i`, left to right: a top or bottom row labels
   * every column but the two corners; any other row labels its two ends
   * (one, when the grid has a single column).
   */
  function ExpectedRowLabels(lb: LineBox, maxIntersects: int, i: int): seq<EdgeLabel> {
    if i == 0 || i == lb.yPoints then seq(Inner(lb.xPoints), k => ColumnLabel(lb, i, k + 1))
    else if lb.xPoints == 0 then [RowLabel(lb, maxIntersects, i, 0)]
    else [RowLabel(lb, maxIntersects, i, 0), RowLabel(lb, maxIntersects, i, lb.xPoints)]
  }

  /** The labels of rows 0 .. n - 1, row after row. */
  function EdgeRows(lb: LineBox, maxIntersects: int, n: nat): seq<EdgeLabel> {
    if n == 0 then [] else EdgeRows(lb, maxIntersects, n - 1) + ExpectedRowLabels(lb, maxIntersects, n - 1)
  }

  /** Every edge label the builder emits, in emission order. */
  function ExpectedEdgeLabels(lb: LineBox, maxIntersects: int, drawBoardCoords: bool): seq<EdgeLabel> {
    if drawBoardCoords then EdgeRows(lb, maxIntersects, lb.yPoints + 1) else []
  }

  // ---------------------------------------------------------------------
  // What one position of the scan produces
  // ---------------------------------------------------------------------

  predicate IsCorner(lb: LineBox, i: int, j: int) {
    (i == 0 || i == lb.yPoints) && (j == 0 || j == lb.xPoints)
  }

  /** The label the position (i, j) pushes, with edge coordinates on. */
  function PositionLabel(lb: LineBox, maxIntersects: int, i: int, j: int): Option<EdgeLabel> {
    if IsCorner(lb, i, j) then None
    else if i == 0 || i == lb.yPoints then Some(ColumnLabel(lb, i, j))
    else if j == 0 || j == lb.xPoints then Some(RowLabel(lb, maxIntersects, i, j))
    else None
  }

  /** The labels the positions (i, 0) .. (i, n - 1) push. */
  function RowLabelsUpTo(lb: LineBox, maxIntersects: int, i: int, n: nat): seq<EdgeLabel> {
    if n == 0 then []
    else
      var before := RowLabelsUpTo(lb, maxIntersects, i, n - 1);
      match PositionLabel(lb, maxIntersects, i, n - 1)
      case Some(l) => before + [l]
      case None => before
  }

  /** The labels pushed before position (i, j) of the scan. */
  function LabelsBefore(lb: LineBox, maxIntersects: int, drawBoardCoords: bool, i: nat, j: nat): seq<EdgeLabel> {
    if drawBoardCoords then EdgeRows(lb, maxIntersects, i) + RowLabelsUpTo(lb, maxIntersects, i, j) else []
  }

  /** Along a top or bottom row, the positions before column n (n <= xPoints) label columns 1 .. n - 1. */
  lemma {:induction false} SideRowPrefix(lb: LineBox, maxIntersects: int, i: int, n: nat)
    requires i == 0 || i == lb.yPoints
    requires n <= lb.xPoints
    ensures RowLabelsUpTo(lb, maxIntersects, i, n) == seq(Inner(n), k => ColumnLabel(lb, i, k + 1))
  {
    if n > 1 {
      SideRowPrefix(lb, maxIntersects, i, n - 1);
      assert PositionLabel(lb, maxIntersects, i, n - 1) == Some(ColumnLabel(lb, i, n - 1));
      assert RowLabelsUpTo(lb, maxIntersects, i, n) == RowLabelsUpTo(lb, maxIntersects, i, n - 1) + [ColumnLabel(lb, i, n - 1)];
      var before, now := seq(Inner(n - 1), k => ColumnLabel(lb, i, k + 1)), seq(Inner(n), k => ColumnLabel(lb, i, k + 1));
      assert |now| == |before| + 1;
      assert forall k :: 0 <= k < |before| ==> now[k] == before[k];
      assert now == before + [ColumnLabel(lb, i, n - 1)];
    } else if n == 1 {
      assert IsCorner(lb, i, 0);
      assert RowLabelsUpTo(lb, maxIntersects, i, 1) == RowLabelsUpTo(lb, maxIntersects, i, 0);
    }
  }

  /** Along any other row, the positions before column n (1 <= n <= xPoints) label only column 0. */
  lemma {:induction false} MiddleRowPrefix(lb: LineBox, maxIntersects: int, i: int, n: nat)
    requires 0 < i < lb.yPoints
    requires 1 <= n <= lb.xPoints
    ensures RowLabelsUpTo(lb, maxIntersects, i, n) == [RowLabel(lb, maxIntersects, i, 0)]
  {
    if n > 1 {
      MiddleRowPrefix(lb, maxIntersects, i, n - 1);
    }
  }

  /** A whole row of the scan pushes exactly ExpectedRowLabels: corners never produce a label. */
  lemma RowLabelsComplete(lb: LineBox, maxIntersects: int, i: int)
    requires 0 <= i <= lb.yPoints
    ensures RowLabelsUpTo(lb, maxIntersects, i, lb.xPoints + 1) == ExpectedRowLabels(lb, maxIntersects, i)
  {
    var n := lb.xPoints;
    if i == 0 || i == lb.yPoints {
      SideRowPrefix(lb, maxIntersects, i, n);
    } else if n >= 1 {
      MiddleRowPrefix(lb, maxIntersects, i, n);
    }
  }

  // ---------------------------------------------------------------------
  // The builder `glift.displays.boardPoints`
  // ---------------------------------------------------------------------

  /** Whether position (i, j) stores a board point: always without edge coordinates, else only inside the ring. */
  predicate Stores(lb: LineBox, drawBoardCoords: bool, i: int, j: int) {
    !drawBoardCoords || (0 < i < lb.yPoints && 0 < j < lb.xPoints)
  }

  /** The key position (i, j) stores under: shifted by (-1, -1) with edge coordinates on. */
  function KeyAt(lb: LineBox, drawBoardCoords: bool, i: int, j: int): (p: Point)
    ensures RowOf(lb, drawBoardCoords, p) == i && ColOf(lb, drawBoardCoords, p) == j
  {
    var m := Margin(drawBoardCoords);
    Point(lb.pointTopLeft.x + j - m, lb.pointTopLeft.y + i - m)
  }

  /** The key `p` is stored by a position visited before (i, j) in row-major order. */
  predicate StoredBefore(lb: LineBox, drawBoardCoords: bool, p: Point, i: int, j: int) {
    var r, c := RowOf(lb, drawBoardCoords, p), ColOf(lb, drawBoardCoords, p);
    r < i || (r == i && c < j)
  }

  /**
   * One position (i, j) of the scan: the body of the builder's inner loop.
   * It stores the board point of the position, if it stores one, and pushes
   * the position's label, if it has one.
   */
  method ScanPosition(lb: LineBox, maxIntersects: int, drawBoardCoords: bool, i: nat, j: nat,
                      points: map<Point, BoardPt>, edgeCoords: seq<EdgeLabel>)
    returns (points': map<Point, BoardPt>, edgeCoords': seq<EdgeLabel>)
    requires i <= lb.yPoints && j <= lb.xPoints
    ensures Stores(lb, drawBoardCoords, i, j) ==>
      var p := KeyAt(lb, drawBoardCoords, i, j);
      points' == points[p := ExpectedPoint(lb, drawBoardCoords, p)]
    ensures !Stores(lb, drawBoardCoords, i, j) ==> points' == points
    ensures drawBoardCoords && PositionLabel(lb, maxIntersects, i, j).Some? ==>
      edgeCoords' == edgeCoords + [PositionLabel(lb, maxIntersects, i, j).value]
    ensures !(drawBoardCoords && PositionLabel(lb, maxIntersects, i, j).Some?) ==> edgeCoords' == edgeCoords
  {
    var spacing := lb.spacing;
    var radius := spacing / 2.0;
    var leftExtAmt := LeftExtAmt(lb);
    var rightExtAmt := RightExtAmt(lb);
    var left := lb.bbox.topLeft.x + leftExtAmt;
    var topExtAmt := TopExtAmt(lb);
    var botExtAmt := BotExtAmt(lb);
    var top := lb.bbox.topLeft.y + topExtAmt;
    var leftPt := lb.pointTopLeft.x;
    var topPt := lb.pointTopLeft.y;
    points', edgeCoords' := points, edgeCoords;

    var xCoord := left + Steps(j, spacing);
    var yCoord := top + Steps(i, spacing);
    var intPt := Point(leftPt + j, topPt + i);
    var coordPt := PixelPt(xCoord, yCoord);
    assert coordPt == GridPixel(lb, i, j);

    if drawBoardCoords {
      if (i == 0 || i == lb.yPoints) && (j == 0 || j == lb.xPoints) {
        // A corner of the phantom ring: nothing is stored or labelled.
        assert PositionLabel(lb, maxIntersects, i, j).None? && !Stores(lb, drawBoardCoords, i, j);
      } else if i == 0 || i == lb.yPoints {
        if i == 0 {
          coordPt := Translate(coordPt, 0.0, -1.0 * topExtAmt);
        } else if i == lb.yPoints {
          coordPt := Translate(coordPt, 0.0, botExtAmt);
        }
        edgeCoords' := edgeCoords' + [EdgeLabel(CharAt(XCoordLabels, intPt.x - 1), coordPt)];
        assert EdgeLabel(CharAt(XCoordLabels, intPt.x - 1), coordPt) == ColumnLabel(lb, i, j);
        assert PositionLabel(lb, maxIntersects, i, j) == Some(ColumnLabel(lb, i, j));
        assert !Stores(lb, drawBoardCoords, i, j);
      } else if j == 0 || j == lb.xPoints {
        if j == 0 {
          coordPt := Translate(coordPt, -1.0 * leftExtAmt, 0.0);
        } else if j == lb.xPoints {
          coordPt := Translate(coordPt, rightExtAmt, 0.0);
        }
        edgeCoords' := edgeCoords' + [EdgeLabel(NatToDecimal(Abs(intPt.y - maxIntersects) + 1), coordPt)];
        assert EdgeLabel(NatToDecimal(Abs(intPt.y - maxIntersects) + 1), coordPt) == RowLabel(lb, maxIntersects, i, j);
        assert PositionLabel(lb, maxIntersects, i, j) == Some(RowLabel(lb, maxIntersects, i, j));
        assert !Stores(lb, drawBoardCoords, i, j);
      } else {
        intPt := Point(intPt.x - 1, intPt.y - 1);
        points' := points'[intPt := MakeBoardPt(intPt, coordPt, radius)];
        assert intPt == KeyAt(lb, drawBoardCoords, i, j) && PositionLabel(lb, maxIntersects, i, j).None?;
      }
    } else {
      points' := points'[intPt := MakeBoardPt(intPt, coordPt, radius)];
      assert intPt == KeyAt(lb, drawBoardCoords, i, j);
    }
  }

  /** The points stored so far, before position (i, j), are the OnBoard keys of the positions visited. */
  ghost predicate StoredSoFar(lb: LineBox, drawBoardCoords: bool, points: map<Point, BoardPt>, i: int, j: int) {
    && (forall p :: p in points <==> OnBoard(lb, drawBoardCoords, p) && StoredBefore(lb, drawBoardCoords, p, i, j))
    && (forall p :: p in points ==> points[p] == ExpectedPoint(lb, drawBoardCoords, p))
  }

  /** Visiting position (i, j) extends what is stored so far to position (i, j + 1). */
  lemma StoredStep(lb: LineBox, drawBoardCoords: bool, points: map<Point, BoardPt>, points': map<Point, BoardPt>, i: nat, j: nat)
    requires i <= lb.yPoints && j <= lb.xPoints
    requires StoredSoFar(lb, drawBoardCoords, points, i, j)
    requires Stores(lb, drawBoardCoords, i, j) ==>
      var p := KeyAt(lb, drawBoardCoords, i, j);
      points' == points[p := ExpectedPoint(lb, drawBoardCoords, p)]
    requires !Stores(lb, drawBoardCoords, i, j) ==> points' == points
    ensures StoredSoFar(lb, drawBoardCoords, points', i, j + 1)
  {
    var k := KeyAt(lb, drawBoardCoords, i, j);
    forall p ensures p in points' <==> OnBoard(lb, drawBoardCoords, p) && StoredBefore(lb, drawBoardCoords, p, i, j + 1) {
      if p == k {
        assert OnBoard(lb, drawBoardCoords, p) <==> Stores(lb, drawBoardCoords, i, j);
      }
    }
  }

  /** Visiting position (i, j) extends the labels pushed so far to those before (i, j + 1). */
  lemma LabelsStep(lb: LineBox, maxIntersects: int, drawBoardCoords: bool, i: nat, j: nat,
                   edgeCoords: seq<EdgeLabel>, edgeCoords': seq<EdgeLabel>)
    requires edgeCoords == LabelsBefore(lb, maxIntersects, drawBoardCoords, i, j)
    requires drawBoardCoords && PositionLabel(lb, maxIntersects, i, j).Some? ==>
      edgeCoords' == edgeCoords + [PositionLabel(lb, maxIntersects, i, j).value]
    requires !(drawBoardCoords && PositionLabel(lb, maxIntersects, i, j).Some?) ==> edgeCoords' == edgeCoords
    ensures edgeCoords' == LabelsBefore(lb, maxIntersects, drawBoardCoords, i, j + 1)
  {
  }

  /** Finishing row i of the scan is starting row i + 1. */
  lemma RowStep(lb: LineBox, maxIntersects: int, drawBoardCoords: bool, i: nat,
                points: map<Point, BoardPt>, edgeCoords: seq<EdgeLabel>)
    requires i <= lb.yPoints
    requires StoredSoFar(lb, drawBoardCoords, points, i, lb.xPoints + 1)
    requires edgeCoords == LabelsBefore(lb, maxIntersects, drawBoardCoords, i, lb.xPoints + 1)
    ensures StoredSoFar(lb, drawBoardCoords, points, i + 1, 0)
    ensures edgeCoords == LabelsBefore(lb, maxIntersects, drawBoardCoords, i + 1, 0)
  {
    if drawBoardCoords {
      RowLabelsComplete(lb, maxIntersects, i);
    }
    forall p | OnBoard(lb, drawBoardCoords, p)
      ensures StoredBefore(lb, drawBoardCoords, p, i, lb.xPoints + 1) <==> StoredBefore(lb, drawBoardCoords, p, i + 1, 0)
    {
    }
  }

  /** One row i of the scan: the builder's inner loop over columns 0 .. xPoints. */
  method ScanRow(lb: LineBox, maxIntersects: int, drawBoardCoords: bool, i: nat,
                 points: map<Point, BoardPt>, edgeCoords: seq<EdgeLabel>)
    returns (points': map<Point, BoardPt>, edgeCoords': seq<EdgeLabel>)
    requires i <= lb.yPoints
    requires StoredSoFar(lb, drawBoardCoords, points, i, 0)
    requires edgeCoords == LabelsBefore(lb, maxIntersects, drawBoardCoords, i, 0)
    ensures StoredSoFar(lb, drawBoardCoords, points', i + 1, 0)
    ensures edgeCoords' == LabelsBefore(lb, maxIntersects, drawBoardCoords, i + 1, 0)
  {
    points', edgeCoords' := points, edgeCoords;
    var j := 0;
    while j <= lb.xPoints
      invariant 0 <= j <= lb.xPoints + 1
      invariant StoredSoFar(lb, drawBoardCoords, points', i, j)
      invariant edgeCoords' == LabelsBefore(lb, maxIntersects, drawBoardCoords, i, j)
    {
      var nextPoints, nextLabels := ScanPosition(lb, maxIntersects, drawBoardCoords, i, j, points', edgeCoords');
      StoredStep(lb, drawBoardCoords, points', nextPoints, i, j);
      LabelsStep(lb, maxIntersects, drawBoardCoords, i, j, edgeCoords', nextLabels);
      points', edgeCoords' := nextPoints, nextLabels;
      j := j + 1;
    }
    RowStep(lb, maxIntersects, drawBoardCoords, i, points', edgeCoords');
  }

  /**
   * The nested scan of the builder over rows 0 .. yPoints and columns
   * 0 .. xPoints. It stores exactly the OnBoard keys, each with its
   * ExpectedPoint, and pushes exactly ExpectedEdgeLabels.
   */
  method ScanLineBox(lb: LineBox, maxIntersects: int, drawBoardCoords: bool)
    returns (points: map<Point, BoardPt>, edgeCoords: seq<EdgeLabel>)
    ensures forall p :: p in points <==> OnBoard(lb, drawBoardCoords, p)
    ensures forall p :: p in points ==> points[p] == ExpectedPoint(lb, drawBoardCoords, p)
    ensures edgeCoords == ExpectedEdgeLabels(lb, maxIntersects, drawBoardCoords)
  {
    points := map[];
    edgeCoords := [];
    var i := 0;
    while i <= lb.yPoints
      invariant 0 <= i <= lb.yPoints + 1
      invariant StoredSoFar(lb, drawBoardCoords, points, i, 0)
      invariant edgeCoords == LabelsBefore(lb, maxIntersects, drawBoardCoords, i, 0)
    {
      points, edgeCoords := ScanRow(lb, maxIntersects, drawBoardCoords, i, points, edgeCoords);
      i := i + 1;
    }
    ScanComplete(lb, maxIntersects, drawBoardCoords, points, edgeCoords);
  }

  /** After the last row, every OnBoard key is stored and every label is pushed. */
  lemma ScanComplete(lb: LineBox, maxIntersects: int, drawBoardCoords: bool,
                     points: map<Point, BoardPt>, edgeCoords: seq<EdgeLabel>)
    requires StoredSoFar(lb, drawBoardCoords, points, lb.yPoints + 1, 0)
    requires edgeCoords == LabelsBefore(lb, maxIntersects, drawBoardCoords, lb.yPoints + 1, 0)
    ensures forall p :: p in points <==> OnBoard(lb, drawBoardCoords, p)
    ensures forall p :: p in points ==> points[p] == ExpectedPoint(lb, drawBoardCoords, p)
    ensures edgeCoords == ExpectedEdgeLabels(lb, maxIntersects, drawBoardCoords)
  {
    assert forall p :: OnBoard(lb, drawBoardCoords, p) ==> StoredBefore(lb, drawBoardCoords, p, lb.yPoints + 1, 0);
    assert RowLabelsUpTo(lb, maxIntersects, lb.yPoints + 1, 0) == [];
  }

  // ---------------------------------------------------------------------
  // Properties of the builder's result
  // ---------------------------------------------------------------------

  /** Every stored point is keyed by its own intersection. */
  lemma KeyedByIntPt(lb: LineBox, drawBoardCoords: bool, p: Point)
    ensures ExpectedPoint(lb, drawBoardCoords, p).intPt == p
  {
  }

  /** Different grid positions store under different keys, so no stored point is ever overwritten. */
  lemma KeysDistinct(lb: LineBox, drawBoardCoords: bool, i: int, j: int, i': int, j': int)
    requires KeyAt(lb, drawBoardCoords, i, j) == KeyAt(lb, drawBoardCoords, i', j')
    ensures i == i' && j == j'
  {
  }

  /**
   * The stored point under `p` sits at the pixel (left + j * spacing,
   * top + i * spacing) of its grid position (i, j), and owns the square of
   * side `spacing` centred on that pixel.
   */
  lemma ExpectedPointGeometry(lb: LineBox, drawBoardCoords: bool, p: Point)
    ensures var bp, i, j := ExpectedPoint(lb, drawBoardCoords, p), RowOf(lb, drawBoardCoords, p), ColOf(lb, drawBoardCoords, p);
      && bp.coordPt.x == lb.bbox.topLeft.x + lb.leftExt * lb.spacing + j as real * lb.spacing
      && bp.coordPt.y == lb.bbox.topLeft.y + lb.topExt * lb.spacing + i as real * lb.spacing
      && bp.bbox.topLeft == PixelPt(bp.coordPt.x - lb.spacing / 2.0, bp.coordPt.y - lb.spacing / 2.0)
      && bp.bbox.botRight == PixelPt(bp.coordPt.x + lb.spacing / 2.0, bp.coordPt.y + lb.spacing / 2.0)
      && bp.bbox.botRight.x - bp.bbox.topLeft.x == lb.spacing
      && bp.bbox.botRight.y - bp.bbox.topLeft.y == lb.spacing
  {
  }

  /**
   * With edge coordinates on, the interior key p holds the pixel that key
   * p + (1, 1) has without them: the stored keys are shifted by (-1, -1).
   */
  lemma DrawShiftsKeys(lb: LineBox, p: Point)
    ensures OnBoard(lb, true, p) ==> OnBoard(lb, false, Point(p.x + 1, p.y + 1))
    ensures ExpectedPoint(lb, true, p).coordPt == ExpectedPoint(lb, false, Point(p.x + 1, p.y + 1)).coordPt
  {
  }

  /** The number of edge labels: both long sides minus the corners, and both short sides minus the corners. */
  lemma {:induction false} EdgeRowsCount(lb: LineBox, maxIntersects: int, n: nat)
    requires lb.xPoints >= 1 && 1 <= n <= lb.yPoints
    ensures |EdgeRows(lb, maxIntersects, n)| == (lb.xPoints - 1) + 2 * (n - 1)
  {
    if n > 1 {
      EdgeRowsCount(lb, maxIntersects, n - 1);
    } else {
      assert EdgeRows(lb, maxIntersects, 0) == [];
    }
  }

  lemma EdgeLabelCount(lb: LineBox, maxIntersects: int)
    requires lb.xPoints >= 1 && lb.yPoints >= 1
    ensures |ExpectedEdgeLabels(lb, maxIntersects, true)| == 2 * (lb.xPoints - 1) + 2 * (lb.yPoints - 1)
  {
    EdgeRowsCount(lb, maxIntersects, lb.yPoints);
  }

  /** The column alphabet has 25 upper-case letters and leaves out I. */
  lemma ColumnAlphabet()
    ensures |XCoordLabels| == 25 && 'I' !in XCoordLabels
    ensures forall k :: 0 <= k < |XCoordLabels| ==> 'A' <= XCoordLabels[k] <= 'Z'
  {
  }

  /**
   * On a 19x19 board drawn with coordinates (a 21x21 grid starting at
   * (0, 0)), the columns run A .. H, J, .. T and the rows are numbered 19
   * at the top down to 1 at the bottom.
   */
  lemma StandardBoardLabels(lb: LineBox)
    requires lb.pointTopLeft == Point(0, 0) && lb.xPoints == 20 && lb.yPoints == 20
    ensures ColumnLabel(lb, 0, 1).text == "A"
    ensures ColumnLabel(lb, 0, 8).text == "H" && ColumnLabel(lb, 0, 9).text == "J"
    ensures ColumnLabel(lb, 20, 19).text == "T"
    ensures RowLabel(lb, 19, 1, 0).text == "19" && RowLabel(lb, 19, 19, 20).text == "1"
  {
    assert NatToDecimal(19) == "19" by {
      assert NatToDecimal(19) == NatToDecimal(1) + [DigitChar(9)];
    }
    assert NatToDecimal(1) == "1";
    assert CharAt(XCoordLabels, 0) == "A" && CharAt(XCoordLabels, 7) == "H";
    assert CharAt(XCoordLabels, 8) == "J" && CharAt(XCoordLabels, 18) == "T";
  }

  // ---------------------------------------------------------------------
  // Star points
  // ---------------------------------------------------------------------

  /** The star-point coordinate sets per board size; any other size has none. */
  function StarTable(numIntersections: int): seq<seq<int>> {
    if numIntersections == 9 then [[2, 6], [4]]
    else if numIntersections == 13 then [[3, 9], [6]]
    else if numIntersections == 19 then [[3, 9, 15]]
    else []
  }

  /** Row `a` of the pairing of `s` with itself: (s[a], s[0]) .. (s[a], s[n - 1]). */
  function PairsRow(s: seq<int>, a: nat, n: nat): seq<Point>
    requires a < |s| && n <= |s|
  {
    if n == 0 then [] else PairsRow(s, a, n - 1) + [Point(s[a], s[n - 1])]
  }

  /** Rows 0 .. n - 1 of the pairing of `s` with itself. */
  function PairsUpTo(s: seq<int>, n: nat): seq<Point>
    requires n <= |s|
  {
    if n == 0 then [] else PairsUpTo(s, n - 1) + PairsRow(s, n - 1, |s|)
  }

  /** The pairings of sets 0 .. n - 1 of `sets`, in order. */
  function Expand(sets: seq<seq<int>>, n: nat): seq<Point>
    requires n <= |sets|
  {
    if n == 0 then [] else Expand(sets, n - 1) + PairsUpTo(sets[n - 1], |sets[n - 1]|)
  }

  /** Every candidate star point, in the order the triple loop visits them. */
  function StarCandidates(numIntersections: int): seq<Point> {
    var sets := StarTable(numIntersections);
    Expand(sets, |sets|)
  }

  /** The star points of each standard board size, as a set. */
  function StarSet(numIntersections: int): set<Point> {
    if numIntersections == 9 then {Point(2, 2), Point(2, 6), Point(6, 2), Point(6, 6), Point(4, 4)}
    else if numIntersections == 13 then {Point(3, 3), Point(3, 9), Point(9, 3), Point(9, 9), Point(6, 6)}
    else if numIntersections == 19 then
      {Point(3, 3), Point(3, 9), Point(3, 15), Point(9, 3), Point(9, 9), Point(9, 15),
       Point(15, 3), Point(15, 9), Point(15, 15)}
    else {}
  }

  /** The points of `ps` that `m` has, in order. */
  function KeepPresent(ps: seq<Point>, m: map<Point, BoardPt>): seq<Point> {
    if ps == [] then []
    else
      var before := KeepPresent(ps[..|ps| - 1], m);
      if ps[|ps| - 1] in m then before + [ps[|ps| - 1]] else before
  }

  lemma KeepPresentSnoc(ps: seq<Point>, p: Point, m: map<Point, BoardPt>)
    ensures KeepPresent(ps + [p], m) == KeepPresent(ps, m) + (if p in m then [p] else [])
  {
    assert (ps + [p])[..|ps|] == ps;
  }

  /** Filtering distributes over concatenation. */
  lemma {:induction false} KeepPresentAppend(a: seq<Point>, b: seq<Point>, m: map<Point, BoardPt>)
    ensures KeepPresent(a + b, m) == KeepPresent(a, m) + KeepPresent(b, m)
  {
    if b == [] {
      assert a + b == a;
    } else {
      var b' := b[..|b| - 1];
      assert (a + b)[..|a + b| - 1] == a + b';
      KeepPresentAppend(a, b', m);
    }
  }

  lemma {:induction false} KeepPresentMembers(ps: seq<Point>, m: map<Point, BoardPt>)
    ensures forall p :: p in KeepPresent(ps, m) <==> p in ps && p in m
  {
    if ps != [] {
      var rest := ps[..|ps| - 1];
      assert ps == rest + [ps[|ps| - 1]];
      KeepPresentMembers(rest, m);
    }
  }

  lemma StarCandidatesNine()
    ensures StarCandidates(9) == [Point(2, 2), Point(2, 6), Point(6, 2), Point(6, 6), Point(4, 4)]
  {
    var s, t := [2, 6], [4];
    assert PairsRow(s, 0, 2) == [Point(2, 2), Point(2, 6)];
    assert PairsRow(s, 1, 2) == [Point(6, 2), Point(6, 6)];
    assert PairsUpTo(s, 1) == PairsRow(s, 0, 2);
    assert PairsUpTo(s, 2) == PairsRow(s, 0, 2) + PairsRow(s, 1, 2);
    assert PairsUpTo(t, 1) == [Point(4, 4)];
    assert Expand([s, t], 1) == PairsUpTo(s, 2);
  }

  lemma StarCandidatesThirteen()
    ensures StarCandidates(13) == [Point(3, 3), Point(3, 9), Point(9, 3), Point(9, 9), Point(6, 6)]
  {
    var s, t := [3, 9], [6];
    assert PairsRow(s, 0, 2) == [Point(3, 3), Point(3, 9)];
    assert PairsRow(s, 1, 2) == [Point(9, 3), Point(9, 9)];
    assert PairsUpTo(s, 1) == PairsRow(s, 0, 2);
    assert PairsUpTo(s, 2) == PairsRow(s, 0, 2) + PairsRow(s, 1, 2);
    assert PairsUpTo(t, 1) == [Point(6, 6)];
    assert Expand([s, t], 1) == PairsUpTo(s, 2);
  }

  lemma StarCandidatesNineteen()
    ensures StarCandidates(19) == [Point(3, 3), Point(3, 9), Point(3, 15), Point(9, 3), Point(9, 9), Point(9, 15),
                                   Point(15, 3), Point(15, 9), Point(15, 15)]
  {
    var s := [3, 9, 15];
    assert PairsRow(s, 0, 3) == [Point(3, 3), Point(3, 9), Point(3, 15)];
    assert PairsRow(s, 1, 3) == [Point(9, 3), Point(9, 9), Point(9, 15)];
    assert PairsRow(s, 2, 3) == [Point(15, 3), Point(15, 9), Point(15, 15)];
    assert PairsUpTo(s, 1) == PairsRow(s, 0, 3);
    assert PairsUpTo(s, 2) == PairsRow(s, 0, 3) + PairsRow(s, 1, 3);
    assert PairsUpTo(s, 3) == PairsUpTo(s, 2) + PairsRow(s, 2, 3);
    assert Expand([s], 1) == [] + PairsUpTo(s, 3);
  }

  /** The candidates the table expands to are exactly the star set of the size. */
  lemma StarCandidatesAreStarSet(numIntersections: int)
    ensures forall p :: p in StarCandidates(numIntersections) <==> p in StarSet(numIntersections)
  {
    if numIntersections == 9 {
      StarCandidatesNine();
    } else if numIntersections == 13 {
      StarCandidatesThirteen();
    } else if numIntersections == 19 {
      StarCandidatesNineteen();
    }
  }

  /** The star points kept are the star set's points that the map has. */
  lemma StarPointsMembers(numIntersections: int, m: map<Point, BoardPt>)
    ensures forall p :: p in KeepPresent(StarCandidates(numIntersections), m) <==> p in StarSet(numIntersections) && p in m
  {
    KeepPresentMembers(StarCandidates(numIntersections), m);
    StarCandidatesAreStarSet(numIntersections);
  }

  /** On a 19x19 grid from (0, 0) without edge coordinates, every star point is stored. */
  lemma StandardBoardHasStarPoints(lb: LineBox, p: Point)
    requires lb.pointTopLeft == Point(0, 0) && lb.xPoints == 18 && lb.yPoints == 18
    requires p in StarSet(19)
    ensures OnBoard(lb, false, p)
  {
  }

  /** The pairs visited before (s[a], s[b]): rows 0 .. a - 1, then the first b pairs of row a. */
  function PairsSoFar(s: seq<int>, a: nat, b: nat): seq<Point>
    requires a < |s| && b <= |s|
  {
    PairsUpTo(s, a) + PairsRow(s, a, b)
  }

  /** Visiting one more pair keeps it when the map has it. */
  lemma PairStep(s: seq<int>, a: nat, b: nat, m: map<Point, BoardPt>)
    requires a < |s| && b < |s|
    ensures KeepPresent(PairsSoFar(s, a, b + 1), m)
         == KeepPresent(PairsSoFar(s, a, b), m) + (if Point(s[a], s[b]) in m then [Point(s[a], s[b])] else [])
  {
    assert PairsSoFar(s, a, b + 1) == PairsSoFar(s, a, b) + [Point(s[a], s[b])];
    KeepPresentSnoc(PairsSoFar(s, a, b), Point(s[a], s[b]), m);
  }

  /** A finished row is the start of the next one. */
  lemma RowStart(s: seq<int>, a: nat)
    requires a < |s|
    ensures PairsSoFar(s, a, 0) == PairsUpTo(s, a)
    ensures PairsSoFar(s, a, |s|) == PairsUpTo(s, a + 1)
  {
    assert PairsUpTo(s, a) + [] == PairsUpTo(s, a);
  }

  /** Pairing one more set of the table appends its kept pairs. */
  lemma ExpandStep(outerSet: seq<seq<int>>, k: nat, m: map<Point, BoardPt>)
    requires k < |outerSet|
    ensures KeepPresent(Expand(outerSet, k + 1), m)
         == KeepPresent(Expand(outerSet, k), m) + KeepPresent(PairsUpTo(outerSet[k], |outerSet[k]|), m)
  {
    KeepPresentAppend(Expand(outerSet, k), PairsUpTo(outerSet[k], |outerSet[k]|), m);
  }

  /**
   * The two inner loops of `starPoints`: pushes onto `out` every pair
   * (s[i], s[j]), row by row, that the map has.
   */
  method PushPairs(out: seq<Point>, s: seq<int>, points: map<Point, BoardPt>) returns (out': seq<Point>)
    ensures out' == out + KeepPresent(PairsUpTo(s, |s|), points)
  {
    out' := out;
    var i := 0;
    while i < |s|
      invariant 0 <= i <= |s|
      invariant out' == out + KeepPresent(PairsUpTo(s, i), points)
    {
      RowStart(s, i);
      var j := 0;
      while j < |s|
        invariant 0 <= j <= |s|
        invariant out' == out + KeepPresent(PairsSoFar(s, i, j), points)
      {
        var pt := Point(s[i], s[j]);
        PairStep(s, i, j, points);
        if pt in points {
          out' := out' + [pt];
        }
        j := j + 1;
      }
      i := i + 1;
    }
  }

  /** The outer loop of `starPoints`: each coordinate set of the table, in order. */
  method PairEachSet(outerSet: seq<seq<int>>, points: map<Point, BoardPt>) returns (r: seq<Point>)
    ensures r == KeepPresent(Expand(outerSet, |outerSet|), points)
  {
    r := [];
    var k := 0;
    while k < |outerSet|
      invariant 0 <= k <= |outerSet|
      invariant r == KeepPresent(Expand(outerSet, k), points)
    {
      r := PushPairs(r, outerSet[k], points);
      ExpandStep(outerSet, k, points);
      k := k + 1;
    }
  }

  // ---------------------------------------------------------------------
  // `glift.displays.BoardPoints`
  // ---------------------------------------------------------------------

  /** `order` lists every key of `m` exactly once. */
  ghost predicate IsKeyOrder(order: seq<Point>, m: map<Point, BoardPt>) {
    && (forall a, b :: 0 <= a < b < |order| ==> order[a] != order[b])
    && (forall p :: p in order <==> p in m)
  }

  /** The values of `m` under the keys of `order`, in that order. */
  function ValuesInOrder(order: seq<Point>, m: map<Point, BoardPt>): (r: seq<BoardPt>)
    requires forall p :: p in order ==> p in m
    ensures |r| == |order|
    ensures forall k :: 0 <= k < |order| ==> r[k] == m[order[k]]
  {
    seq(|order|, k requires 0 <= k < |order| => m[order[k]])
  }

  /** A list without repetitions has as many elements as the set of its elements. */
  lemma {:induction false} DistinctCard(order: seq<Point>)
    requires forall a, b :: 0 <= a < b < |order| ==> order[a] != order[b]
    ensures |(set p | p in order)| == |order|
  {
    if order != [] {
      var rest, last := order[..|order| - 1], order[|order| - 1];
      assert forall a, b :: 0 <= a < b < |rest| ==> rest[a] != rest[b] by {
        forall a, b | 0 <= a < b < |rest| ensures rest[a] != rest[b] {
          assert rest[a] == order[a] && rest[b] == order[b];
        }
      }
      DistinctCard(rest);
      assert order == rest + [last];
      assert (set p | p in order) == (set p | p in rest) + {last};
      assert last !in (set p | p in rest);
    }
  }

  /** A list of every key once has as many elements as the map. */
  lemma KeyOrderLength(order: seq<Point>, m: map<Point, BoardPt>)
    requires IsKeyOrder(order, m)
    ensures |order| == |m|
  {
    DistinctCard(order);
    assert m.Keys == (set p | p in order);
  }

  /** Flattening a map along a key order gives one element per key: every value, and nothing else. */
  lemma ValuesOfKeyOrder(order: seq<Point>, m: map<Point, BoardPt>)
    requires IsKeyOrder(order, m)
    ensures |ValuesInOrder(order, m)| == |m|
    ensures forall p :: p in m ==> m[p] in ValuesInOrder(order, m)
    ensures forall k :: 0 <= k < |order| ==> ValuesInOrder(order, m)[k] in m.Values
  {
    var r := ValuesInOrder(order, m);
    KeyOrderLength(order, m);
    forall p | p in m ensures m[p] in r {
      var a :| 0 <= a < |order| && order[a] == p;
      assert r[a] == m[p];
    }
    forall k | 0 <= k < |order| ensures r[k] in m.Values {
      assert order[k] in m;
    }
  }

  /** The points of one board, with lookups over them and the cached flattening. */
  class BoardPoints {
    const points: map<Point, BoardPt>
    const spacing: real
    const radius: real
    const numIntersections: int
    const edgeCoordLabels: seq<EdgeLabel>

    /** `dataCache_`: None until `data()` first runs. */
    var dataCache: Option<seq<BoardPt>>

    /** The key order `data()` used when it filled the cache. */
    ghost var dataOrder: seq<Point>

    ghost predicate Valid()
      reads this
    {
      dataCache.Some? ==> IsKeyOrder(dataOrder, points) && dataCache.value == ValuesInOrder(dataOrder, points)
    }

    constructor (points: map<Point, BoardPt>, spacing: real, numIntersections: int, edgeLabels: seq<EdgeLabel>)
      ensures this.points == points && this.spacing == spacing && this.radius == spacing / 2.0
      ensures this.numIntersections == numIntersections && this.edgeCoordLabels == edgeLabels
      ensures dataCache == None
      ensures Valid()
    {
      this.points := points;
      this.spacing := spacing;
      this.radius := spacing / 2.0;
      this.numIntersections := numIntersections;
      this.edgeCoordLabels := edgeLabels;
      dataCache := None;
      dataOrder := [];
    }

    /** `getCoord`: the point stored under `pt`, or None (`undefined`). */
    function GetCoord(pt: Point): (r: Option<BoardPt>)
      ensures r.Some? <==> pt in points
      ensures r.Some? ==> r.value == points[pt]
    {
      if pt in points then Some(points[pt]) else None
    }

    /** `hasCoord`: holds exactly when `getCoord` finds a point. */
    function HasCoord(pt: Point): (r: bool)
      ensures r <==> GetCoord(pt).Some?
    {
      pt in points
    }

    /**
     * `data()`: every stored point once, in some key order (the source
     * relies on the engine's key order); computed on the first call and
     * returned from the cache afterwards.
     */
    method Data() returns (r: seq<BoardPt>)
      requires Valid()
      modifies this`dataCache, this`dataOrder
      ensures old(dataCache).Some? ==> r == old(dataCache).value && dataOrder == old(dataOrder)
      ensures dataCache == Some(r)
      ensures Valid()
      ensures |r| == |points|
      ensures forall p :: p in points ==> points[p] in r
      ensures forall k :: 0 <= k < |r| ==> r[k] in points.Values
    {
      if dataCache.Some? {
        r := dataCache.value;
        ValuesOfKeyOrder(dataOrder, points);
        return;
      }
      var data: seq<BoardPt> := [];
      ghost var order: seq<Point> := [];
      var rest := points.Keys;
      while rest != {}
        invariant forall p :: p in order ==> p in points && p !in rest
        invariant forall p :: p in points ==> p in order || p in rest
        invariant rest <= points.Keys
        invariant forall a, b :: 0 <= a < b < |order| ==> order[a] != order[b]
        invariant data == ValuesInOrder(order, points)
        decreases rest
      {
        var key :| key in rest;
        data := data + [points[key]];
        order := order + [key];
        rest := rest - {key};
      }
      dataCache := Some(data);
      dataOrder := order;
      r := data;
      ValuesOfKeyOrder(dataOrder, points);
    }

    /**
     * `starPoints()`: the star points of the board's size that are stored,
     * visiting each coordinate set of the table paired with itself.
     */
    method StarPoints() returns (r: seq<Point>)
      ensures r == KeepPresent(StarCandidates(numIntersections), points)
      ensures forall p :: p in r <==> p in StarSet(numIntersections) && HasCoord(p)
    {
      r := PairEachSet(StarTable(numIntersections), points);
      StarPointsMembers(numIntersections, points);
    }
  }

  /** A value stored by the builder is found again under its own intersection. */
  lemma StoredValueKeyedByIntPt(lb: LineBox, drawBoardCoords: bool, points: map<Point, BoardPt>, v: BoardPt)
    requires forall p :: p in points ==> points[p] == ExpectedPoint(lb, drawBoardCoords, p)
    requires v in points.Values
    ensures v.intPt in points && points[v.intPt] == v
  {
    var q :| q in points && points[q] == v;
    KeyedByIntPt(lb, drawBoardCoords, q);
  }

  /**
   * Building the board points and flattening them: every point `data()`
   * returns is what `getCoord` answers for its own intersection.
   */
  method BuildAndFlatten(lb: LineBox, maxIntersects: int, drawBoardCoords: bool) returns (bp: BoardPoints, d: seq<BoardPt>)
    ensures fresh(bp)
    ensures |d| == |bp.points|
    ensures forall k :: 0 <= k < |d| ==> bp.GetCoord(d[k].intPt) == Some(d[k])
  {
    bp := BuildBoardPoints(lb, maxIntersects, drawBoardCoords);
    d := bp.Data();
    forall k | 0 <= k < |d| ensures bp.GetCoord(d[k].intPt) == Some(d[k]) {
      StoredValueKeyedByIntPt(lb, drawBoardCoords, bp.points, d[k]);
    }
  }

  /** `glift.displays.boardPoints`: scans the line box and wraps the result. */
  method BuildBoardPoints(lb: LineBox, maxIntersects: int, drawBoardCoords: bool) returns (bp: BoardPoints)
    ensures fresh(bp)
    ensures forall p :: p in bp.points <==> OnBoard(lb, drawBoardCoords, p)
    ensures forall p :: p in bp.points ==> bp.points[p] == ExpectedPoint(lb, drawBoardCoords, p)
    ensures bp.edgeCoordLabels == ExpectedEdgeLabels(lb, maxIntersects, drawBoardCoords)
    ensures bp.spacing == lb.spacing && bp.radius == lb.spacing / 2.0 && bp.numIntersections == maxIntersects
    ensures bp.dataCache == None && bp.Valid()
  {
    var points, edgeCoords := ScanLineBox(lb, maxIntersects, drawBoardCoords);
    bp := new BoardPoints(points, lb.spacing, maxIntersects, edgeCoords);
  }
}

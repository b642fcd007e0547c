/** The pure part of the phone interface (src/interface.py): where each orb's
    centre lies on the screen, and how a drag path becomes the list of screen
    points that are swiped through. */
module Interface {
  import opened Optional
  import opened PadTypes

  /** A screen position in pixels. */
  datatype Pixel = Pixel(x: int, y: int)

  /** Python's `a // b`: the quotient rounded towards minus infinity. */
  function FloorDiv(a: int, b: int): (q: int)
    requires b != 0
    ensures b > 0 ==> q * b <= a < q * b + b
    ensures b < 0 ==> q * b >= a > q * b + b
  {
    if b > 0 then a / b else (-a) / (-b)
  }

  /** The board geometry `setup_device` derives from the device's
      resolution and bar heights. */
  datatype Screen = Screen(
    coordinates: seq<seq<Pixel>>,
    top: int, bottom: int, left: int, right: int,
    change: int, radius: int)

  /** The centre of the orb in column `col` of row `row`. */
  function Centre(topY: int, radius: int, change: int, row: int, col: int): Pixel
  {
    Pixel(radius + col * change, topY + radius + row * change)
  }

  /** The arithmetic of `setup_device`, once the device has reported its
      resolution and the heights of its navigation and status bars. A zero
      divisor (no columns, or a zero width ratio) is the source's
      `ZeroDivisionError`, modelled as `None`. */
  function Layout(resWidth: int, resHeight: int, navbarHeight: int, statusbarHeight: int,
                  widthRatio: int, heightRatio: int, rows: nat, cols: nat): (r: Option<Screen>)
    ensures r.Some? <==> cols != 0 && widthRatio != 0
    ensures r.Some? ==> |r.value.coordinates| == rows
    ensures r.Some? ==> forall row :: 0 <= row < rows ==> |r.value.coordinates[row]| == cols
    ensures r.Some? ==> r.value.top + rows * r.value.change == r.value.bottom
    ensures r.Some? ==> r.value.left == 0 && r.value.right == resWidth
    ensures r.Some? ==> r.value.change == FloorDiv(resWidth, cols) && r.value.radius == FloorDiv(r.value.change, 2)
    ensures r.Some? ==> r.value.bottom == statusbarHeight + FloorDiv(resWidth * heightRatio, widthRatio)
  {
    if cols == 0 || widthRatio == 0 then None
    else
      var usableHeight := resHeight - statusbarHeight - navbarHeight;
      var gameHeight := FloorDiv(resWidth * heightRatio, widthRatio);
      var barHeight := usableHeight - gameHeight;
      var bottomY := resHeight - (navbarHeight + barHeight);
      var radius := FloorDiv(FloorDiv(resWidth, cols), 2);
      var change := FloorDiv(resWidth, cols);
      var topY := bottomY - rows * change;
      var coordinates := seq(rows, row => seq(cols, col => Centre(topY, radius, change, row, col)));
      Some(Screen(coordinates, topY, bottomY, 0, resWidth, change, radius))
  }

  /** The coordinate table of a screen is the grid of centres. */
  predicate Centred(s: Screen, rows: nat, cols: nat)
  {
    && |s.coordinates| == rows
    && (forall row :: 0 <= row < rows ==> |s.coordinates[row]| == cols)
    && forall row, col :: 0 <= row < rows && 0 <= col < cols ==>
         s.coordinates[row][col] == Centre(s.top, s.radius, s.change, row, col)
  }

  lemma LayoutCentred(resWidth: int, resHeight: int, navbarHeight: int, statusbarHeight: int,
                      widthRatio: int, heightRatio: int, rows: nat, cols: nat)
    requires cols != 0 && widthRatio != 0
    ensures Centred(Layout(resWidth, resHeight, navbarHeight, statusbarHeight,
                           widthRatio, heightRatio, rows, cols).value, rows, cols)
  {
  }

  /** One step in any direction moves the centre by exactly one orb pitch
      (`change` pixels) along that direction's axis. */
  lemma CentreStep(topY: int, radius: int, change: int, c: Coord, d: Direction)
    ensures Centre(topY, radius, change, c.y + Dy(d), c.x + Dx(d)).x
         == Centre(topY, radius, change, c.y, c.x).x + Dx(d) * change
    ensures Centre(topY, radius, change, c.y + Dy(d), c.x + Dx(d)).y
         == Centre(topY, radius, change, c.y, c.x).y + Dy(d) * change
  {
    match d
    case Left =>
      assert (c.x - 1) * change == c.x * change - change;
    case Up =>
      assert (c.y - 1) * change == c.y * change - change;
    case Right =>
      assert (c.x + 1) * change == c.x * change + change;
    case Down =>
      assert (c.y + 1) * change == c.y * change + change;
  }

  /** With a non-negative resolution width every orb's disc lies inside the
      board rectangle: `left <= x - radius`, `x + radius <= right`,
      `top <= y - radius` and `y + radius <= bottom`. */
  lemma {:induction false} DiscsInsideBoard(resWidth: int, resHeight: int, navbarHeight: int, statusbarHeight: int,
                                            widthRatio: int, heightRatio: int, rows: nat, cols: nat,
                                            row: nat, col: nat)
    requires resWidth >= 0 && cols != 0 && widthRatio != 0
    requires row < rows && col < cols
    ensures var s := Layout(resWidth, resHeight, navbarHeight, statusbarHeight,
                            widthRatio, heightRatio, rows, cols).value;
            var p := s.coordinates[row][col];
            && s.left <= p.x - s.radius && p.x + s.radius <= s.right
            && s.top <= p.y - s.radius && p.y + s.radius <= s.bottom
  {
    var s := Layout(resWidth, resHeight, navbarHeight, statusbarHeight,
                    widthRatio, heightRatio, rows, cols).value;
    var change := s.change;
    assert change == resWidth / cols;
    assert 0 <= s.radius && 2 * s.radius <= change;
    MulBelow(col, cols, change);
    MulBelow(row, rows, change);
    assert cols * change <= resWidth;
  }

  /** `k * m + m <= n * m` whenever `k < n` and `m >= 0`. */
  lemma MulBelow(k: nat, n: nat, m: int)
    requires k < n && m >= 0
    ensures 0 <= k * m && k * m + m <= n * m
  {
    assert n * m == k * m + m + (n - k - 1) * m;
  }

  /** The board geometry `_path_to_coord` relies on: a coordinate table of
      `rows` rows with `cols` points each. */
  predicate Fits(coordinates: seq<seq<Pixel>>, rows: nat, cols: nat)
  {
    |coordinates| == rows && forall row :: 0 <= row < rows ==> |coordinates[row]| == cols
  }

  predicate InBounds(c: Coord, rows: nat, cols: nat)
  {
    0 <= c.x < cols && 0 <= c.y < rows
  }

  /** The cell reached after the first `k` moves of `path`. */
  function After(start: Coord, path: seq<Direction>, k: nat): Coord
    requires k <= |path|
  {
    Travel(start, path[..k])
  }

  lemma AfterNext(start: Coord, path: seq<Direction>, k: nat)
    requires k < |path|
    ensures After(start, path, k + 1) == Step(After(start, path, k), path[k])
  {
    assert path[..k + 1][..k] == path[..k];
  }

  /** `_path_to_coord(path, start)`: the screen points of the start cell and
      of every cell the drag passes through, or `None` when the start is off
      the board, the path has at most one move, or a move leaves the board. */
  method PathToCoord(coordinates: seq<seq<Pixel>>, rows: nat, cols: nat,
                     path: seq<Direction>, start: Coord)
    returns (r: Option<seq<Pixel>>)
    requires Fits(coordinates, rows, cols)
    ensures r.Some? <==>
              && InBounds(start, rows, cols)
              && |path| > 1
              && forall k :: 0 < k <= |path| ==> InBounds(After(start, path, k), rows, cols)
    ensures r.Some? ==> |r.value| == |path| + 1
    ensures r.Some? ==> forall k :: 0 <= k <= |path| ==>
              InBounds(After(start, path, k), rows, cols) &&
              r.value[k] == coordinates[After(start, path, k).y][After(start, path, k).x]
  {
    var x, y := start.x, start.y;
    if x < 0 || x >= cols || y < 0 || y >= rows {
      return None;
    }
    if |path| <= 1 {
      return None;
    }
    var points: seq<Pixel> := [];
    var i := 0;
    while i < |path|
      invariant 0 <= i <= |path|
      invariant Coord(x, y) == After(start, path, i)
      invariant forall k :: 0 <= k <= i ==> InBounds(After(start, path, k), rows, cols)
      invariant |points| == i
      invariant forall k :: 0 <= k < i ==>
                  points[k] == coordinates[After(start, path, k).y][After(start, path, k).x]
    {
      points := points + [coordinates[y][x]];
      var d := path[i];
      AfterNext(start, path, i);
      x, y := x + Dx(d), y + Dy(d);
      if x < 0 || x >= cols || y < 0 || y >= rows {
        assert !InBounds(After(start, path, i + 1), rows, cols);
        return None;
      }
      i := i + 1;
    }
    points := points + [coordinates[y][x]];
    return Some(points);
  }

  /** On a screen laid out by `setup_device`, consecutive swipe points are
      one orb pitch apart in the direction of the corresponding move. */
  lemma SwipeSteps(s: Screen, rows: nat, cols: nat, path: seq<Direction>, start: Coord,
                   points: seq<Pixel>, k: nat)
    requires Centred(s, rows, cols)
    requires k < |path| && |points| == |path| + 1
    requires forall j :: 0 <= j <= |path| ==>
               InBounds(After(start, path, j), rows, cols) &&
               points[j] == s.coordinates[After(start, path, j).y][After(start, path, j).x]
    ensures points[k + 1].x == points[k].x + Dx(path[k]) * s.change
    ensures points[k + 1].y == points[k].y + Dy(path[k]) * s.change
  {
    var c := After(start, path, k);
    AfterNext(start, path, k);
    assert InBounds(c, rows, cols) && InBounds(After(start, path, k + 1), rows, cols);
    CentreStep(s.top, s.radius, s.change, c, path[k]);
  }
}

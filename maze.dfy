/**
 * The tilt maze: three fixed boards, the ball placed on the start cell, a
 * move for each accelerometer reading unless the ball's centre would leave
 * the board or one of its corners would touch a wall, and a win when a
 * corner and the centre are on the goal. Positions are exact reals; the
 * screen width is a parameter.
 */
module Maze {
  import opened Wrappers

  const PathCell: int := 0
  const WallCell: int := 1
  const StartCell: int := 2
  const GoalCell: int := 3

  /** The three boards, row by row. */
  const Levels: seq<seq<seq<int>>> := [
    [
      [2, 0, 1, 0, 0],
      [0, 0, 1, 0, 1],
      [1, 0, 0, 0, 1],
      [0, 0, 1, 0, 0],
      [1, 0, 1, 1, 3]
    ],
    [
      [2, 0, 0, 0, 1, 0, 0, 0],
      [1, 1, 1, 0, 1, 0, 1, 0],
      [0, 0, 0, 0, 1, 0, 1, 0],
      [0, 1, 1, 1, 1, 0, 0, 0],
      [0, 0, 0, 0, 0, 0, 1, 0],
      [1, 1, 0, 1, 1, 1, 1, 0],
      [0, 0, 0, 0, 0, 0, 0, 0],
      [0, 1, 1, 1, 0, 1, 1, 3]
    ],
    [
      [2, 0, 0, 0, 1, 0, 0, 0, 0, 0, 1, 0],
      [1, 1, 1, 0, 1, 1, 1, 1, 1, 0, 1, 0],
      [0, 0, 0, 0, 0, 0, 0, 0, 1, 0, 0, 0],
      [0, 1, 1, 1, 1, 1, 1, 0, 1, 1, 1, 0],
      [0, 0, 0, 0, 1, 0, 0, 0, 0, 0, 1, 0],
      [1, 1, 1, 0, 1, 0, 1, 1, 1, 0, 1, 0],
      [0, 0, 0, 0, 0, 0, 1, 0, 0, 0, 0, 0],
      [0, 1, 1, 1, 1, 1, 1, 0, 1, 1, 1, 0],
      [0, 0, 0, 0, 0, 0, 0, 0, 1, 0, 0, 0],
      [1, 1, 1, 1, 1, 1, 1, 0, 1, 0, 1, 1],
      [0, 0, 0, 0, 0, 0, 0, 0, 1, 0, 0, 0],
      [0, 1, 1, 1, 1, 1, 0, 1, 1, 0, 0, 3]
    ]
  ]

  const CellSizeMap: seq<real> := [60.0, 40.0, 28.0]
  const BallSizeMap: seq<real> := [40.0, 26.0, 18.0]
  const Sensitivity: real := 5.0
  /** The horizontal padding subtracted from the window width. */
  const ContainerPadding: real := 40.0

  /** One board with the sizes it is drawn at. */
  datatype Board = Board(maze: seq<seq<int>>, cellSize: real, ballSize: real)

  /** `maze.length` and `maze[0].length` are defined and the sizes are positive. */
  predicate WellFormed(b: Board) {
    |b.maze| > 0 && |b.maze[0]| > 0 && b.cellSize > 0.0 && b.ballSize > 0.0
  }

  function Rows(b: Board): int
    requires WellFormed(b)
  {
    |b.maze|
  }

  function Cols(b: Board): int
    requires WellFormed(b)
  {
    |b.maze[0]|
  }

  /** `maze[r][c]`, with `None` for `undefined` (a row or column index out of range). */
  function CellAt(maze: seq<seq<int>>, r: int, c: int): Option<int> {
    if 0 <= r < |maze| && 0 <= c < |maze[r]| then Some(maze[r][c]) else None
  }

  function MinReal(a: real, b: real): (m: real)
    ensures m <= a && m <= b && (m == a || m == b)
  {
    if a <= b then a else b
  }

  /** The board of `level` on a window `windowWidth` wide: the cell is the smaller of the fitted width and the level's size. */
  function LevelBoard(level: int, windowWidth: real): (b: Board)
    requires 0 <= level < |Levels| && windowWidth > ContainerPadding
    ensures WellFormed(b) && b.maze == Levels[level]
    ensures b.cellSize == MinReal((windowWidth - ContainerPadding) / (|Levels[level][0]| as real), CellSizeMap[level])
    ensures b.cellSize <= CellSizeMap[level] && b.ballSize == BallSizeMap[level]
  {
    var maze := Levels[level];
    assert |maze| > 0 && |maze[0]| > 0;
    Board(maze, MinReal((windowWidth - ContainerPadding) / (|maze[0]| as real), CellSizeMap[level]), BallSizeMap[level])
  }

  // ---------------------------------------------------------------------
  // Start cell
  // ---------------------------------------------------------------------

  /** The last index of a start cell in `row`. */
  function LastStartInRow(row: seq<int>): (k: Option<int>)
    ensures k.Some? ==> 0 <= k.value < |row| && row[k.value] == StartCell
                        && forall j :: k.value < j < |row| ==> row[j] != StartCell
    ensures k.None? ==> forall j :: 0 <= j < |row| ==> row[j] != StartCell
    decreases |row|
  {
    if row == [] then None
    else if row[|row| - 1] == StartCell then Some(|row| - 1)
    else LastStartInRow(row[..|row| - 1])
  }

  /** `(r, c)` comes after `(r0, c0)` in row-major order. */
  predicate After(r: int, c: int, r0: int, c0: int) {
    r > r0 || (r == r0 && c > c0)
  }

  /** The last start cell, in row-major order, among the first `n` rows. */
  function LastStartCell(maze: seq<seq<int>>, n: nat): (p: Option<(int, int)>)
    requires n <= |maze|
    ensures p.Some? ==> 0 <= p.value.0 < n && 0 <= p.value.1 < |maze[p.value.0]|
                        && maze[p.value.0][p.value.1] == StartCell
                        && forall r, c :: 0 <= r < n && 0 <= c < |maze[r]| && After(r, c, p.value.0, p.value.1) ==>
                                           maze[r][c] != StartCell
    ensures p.None? ==> forall r, c :: 0 <= r < n && 0 <= c < |maze[r]| ==> maze[r][c] != StartCell
    decreases n
  {
    if n == 0 then None
    else
      var k := LastStartInRow(maze[n - 1]);
      if k.Some? then Some((n - 1, k.value)) else LastStartCell(maze, n - 1)
  }

  /** The cell the ball starts on: the last start cell in row-major order, `(0, 0)` when there is none. */
  function StartPosition(maze: seq<seq<int>>): (int, int) {
    var p := LastStartCell(maze, |maze|);
    if p.Some? then p.value else (0, 0)
  }

  /** The start-cell search: the nested `forEach` overwriting `startR`/`startC` at every start cell. */
  method FindStart(maze: seq<seq<int>>) returns (startR: int, startC: int)
    ensures (startR, startC) == StartPosition(maze)
  {
    startR, startC := 0, 0;
    for r := 0 to |maze|
      invariant (startR, startC) == (var p := LastStartCell(maze, r); if p.Some? then p.value else (0, 0))
    {
      ghost var before := (startR, startC);
      var row := maze[r];
      for c := 0 to |row|
        invariant (startR, startC) ==
                  (var k := LastStartInRow(row[..c]); if k.Some? then (r, k.value) else before)
      {
        assert row[..c + 1][..c] == row[..c];
        if row[c] == StartCell {
          startR, startC := r, c;
        }
      }
      assert row[..|row|] == row;
    }
  }

  /** `startC * cellSize + (cellSize - ballSize) / 2`, and the same for the row. */
  function Placement(b: Board, start: (int, int)): (pos: (real, real)) {
    ((start.1 as real) * b.cellSize + (b.cellSize - b.ballSize) / 2.0,
     (start.0 as real) * b.cellSize + (b.cellSize - b.ballSize) / 2.0)
  }

  /** The placed ball is centred on its cell. */
  lemma PlacementCentred(b: Board, start: (int, int))
    ensures Placement(b, start).0 + b.ballSize / 2.0 == (start.1 as real) * b.cellSize + b.cellSize / 2.0
    ensures Placement(b, start).1 + b.ballSize / 2.0 == (start.0 as real) * b.cellSize + b.cellSize / 2.0
  {
  }

  // ---------------------------------------------------------------------
  // One accelerometer reading
  // ---------------------------------------------------------------------

  /** An accelerometer reading; only `x` and `y` move the ball. */
  datatype Reading = Reading(x: real, y: real, z: real)

  /** What one reading does: move the ball, leave it, win the level, or throw (a `TypeError` reading `maze[goalR][goalC]` past the last row). */
  datatype Outcome = Moved(x: real, y: real) | Stayed | Won | Crashed

  /** What a corner of the ball contributes to the scan. */
  datatype CornerEffect = Pass | Hit | WinHere | Crash

  /** `current + (5x, -5y)`. */
  function Proposed(current: (real, real), reading: Reading): (real, real) {
    (current.0 + reading.x * Sensitivity, current.1 + -reading.y * Sensitivity)
  }

  function Centre(b: Board, next: (real, real)): (real, real) {
    (next.0 + b.ballSize / 2.0, next.1 + b.ballSize / 2.0)
  }

  /** The centre is outside `[0, cols·cellSize] × [0, rows·cellSize]`. */
  predicate OffBoard(b: Board, centre: (real, real))
    requires WellFormed(b)
  {
    centre.0 < 0.0 || centre.0 > (Cols(b) as real) * b.cellSize
    || centre.1 < 0.0 || centre.1 > (Rows(b) as real) * b.cellSize
  }

  /** The ball's corners, in the scan order top-left, top-right, bottom-left, bottom-right. */
  function Corners(b: Board, next: (real, real)): seq<(real, real)> {
    [next, (next.0 + b.ballSize, next.1), (next.0, next.1 + b.ballSize), (next.0 + b.ballSize, next.1 + b.ballSize)]
  }

  /** The cell `(row, column)` a point falls in. */
  function CellOf(b: Board, p: (real, real)): (int, int)
    requires b.cellSize > 0.0
  {
    ((p.1 / b.cellSize).Floor, (p.0 / b.cellSize).Floor)
  }

  predicate InGrid(b: Board, cell: (int, int))
    requires WellFormed(b)
  {
    0 <= cell.0 < Rows(b) && 0 <= cell.1 < Cols(b)
  }

  /** One pass of the corner loop's body. */
  function EffectOf(b: Board, next: (real, real), corner: (real, real)): CornerEffect
    requires WellFormed(b)
  {
    var cell := CellOf(b, corner);
    if !InGrid(b, cell) then Pass
    else if CellAt(b.maze, cell.0, cell.1) == Some(WallCell) then Hit
    else if CellAt(b.maze, cell.0, cell.1) == Some(GoalCell) then
      var goal := CellOf(b, Centre(b, next));
      if !(0 <= goal.0 < |b.maze|) then Crash
      else if CellAt(b.maze, goal.0, goal.1) == Some(GoalCell) then WinHere
      else Pass
    else Pass
  }

  /** The first effect that stops the scan, `Pass` when none does. */
  function FirstStop(es: seq<CornerEffect>): (e: CornerEffect)
    ensures e == Pass <==> forall k :: 0 <= k < |es| ==> es[k] == Pass
    ensures e != Pass ==> exists k :: 0 <= k < |es| && es[k] == e && forall j :: 0 <= j < k ==> es[j] == Pass
  {
    if es == [] then Pass
    else if es[0] != Pass then es[0]
    else
      var e := FirstStop(es[1..]);
      FirstStopShift(es, e);
      e
  }

  lemma FirstStopShift(es: seq<CornerEffect>, e: CornerEffect)
    requires es != [] && es[0] == Pass
    requires e == Pass <==> forall k :: 0 <= k < |es[1..]| ==> es[1..][k] == Pass
    requires e != Pass ==> exists k :: 0 <= k < |es[1..]| && es[1..][k] == e && forall j :: 0 <= j < k ==> es[1..][j] == Pass
    ensures e == Pass <==> forall k :: 0 <= k < |es| ==> es[k] == Pass
    ensures e != Pass ==> exists k :: 0 <= k < |es| && es[k] == e && forall j :: 0 <= j < k ==> es[j] == Pass
  {
    assert forall k :: 1 <= k < |es| ==> es[k] == es[1..][k - 1];
    if e != Pass {
      var k :| 0 <= k < |es[1..]| && es[1..][k] == e && forall j :: 0 <= j < k ==> es[1..][j] == Pass;
      assert es[k + 1] == e && forall j :: 0 <= j < k + 1 ==> es[j] == Pass;
    }
  }

  function Effects(b: Board, next: (real, real)): seq<CornerEffect>
    requires WellFormed(b)
  {
    var cs := Corners(b, next);
    [EffectOf(b, next, cs[0]), EffectOf(b, next, cs[1]), EffectOf(b, next, cs[2]), EffectOf(b, next, cs[3])]
  }

  /** The reference reading of the listener: the boundary check, then the first corner that stops the scan decides. */
  function TiltOutcome(b: Board, current: (real, real), reading: Reading): Outcome
    requires WellFormed(b)
  {
    var next := Proposed(current, reading);
    if OffBoard(b, Centre(b, next)) then Stayed
    else match FirstStop(Effects(b, next))
      case Pass => Moved(next.0, next.1)
      case Hit => Stayed
      case WinHere => Won
      case Crash => Crashed
  }

  /** The accelerometer listener. */
  method Tilt(b: Board, currentX: real, currentY: real, reading: Reading) returns (o: Outcome)
    requires WellFormed(b)
    ensures o == TiltOutcome(b, (currentX, currentY), reading)
  {
    var nextX := currentX + reading.x * Sensitivity;
    var nextY := currentY + -reading.y * Sensitivity;
    var next := (nextX, nextY);
    var centre := Centre(b, next);
    if OffBoard(b, centre) {
      return Stayed;
    }
    var corners := Corners(b, next);
    ghost var es := Effects(b, next);
    var collision := false;
    var k := 0;
    while k < |corners|
      invariant 0 <= k <= |corners| == 4 && !collision
      invariant forall j :: 0 <= j < k ==> es[j] == Pass
    {
      EffectsIndex(b, next, k);
      var cell := CellOf(b, corners[k]);
      if 0 <= cell.0 < Rows(b) && 0 <= cell.1 < Cols(b) {
        if CellAt(b.maze, cell.0, cell.1) == Some(WallCell) {
          collision := true;
          break;
        }
        if CellAt(b.maze, cell.0, cell.1) == Some(GoalCell) {
          var goal := CellOf(b, centre);
          if !(0 <= goal.0 < |b.maze|) {
            FirstStopAt(es, k);
            return Crashed;
          }
          if CellAt(b.maze, goal.0, goal.1) == Some(GoalCell) {
            FirstStopAt(es, k);
            return Won;
          }
        }
      }
      k := k + 1;
    }
    if !collision {
      o := Moved(nextX, nextY);
    } else {
      FirstStopAt(es, k);
      o := Stayed;
    }
  }

  /** Effect `k` is that of corner `k`. */
  lemma EffectsIndex(b: Board, next: (real, real), k: int)
    requires WellFormed(b) && 0 <= k < 4
    ensures Effects(b, next)[k] == EffectOf(b, next, Corners(b, next)[k])
  {
  }

  lemma FirstStopAt(es: seq<CornerEffect>, k: int)
    requires 0 <= k < |es| && es[k] != Pass && forall j :: 0 <= j < k ==> es[j] == Pass
    ensures FirstStop(es) == es[k]
  {
    var e := FirstStop(es);
    assert e != Pass;
    var i :| 0 <= i < |es| && es[i] == e && forall j :: 0 <= j < i ==> es[j] == Pass;
    assert !(i < k) && !(k < i);
  }

  /** A move is by the tilt times the sensitivity, keeps the centre on the board, and puts no corner on a wall or a winning goal. */
  lemma MoveRules(b: Board, current: (real, real), reading: Reading)
    requires WellFormed(b)
    requires TiltOutcome(b, current, reading).Moved?
    ensures var o := TiltOutcome(b, current, reading);
      && o.x == current.0 + 5.0 * reading.x && o.y == current.1 - 5.0 * reading.y
      && !OffBoard(b, Centre(b, (o.x, o.y)))
      && forall k :: 0 <= k < 4 ==> EffectOf(b, (o.x, o.y), Corners(b, (o.x, o.y))[k]) == Pass
  {
    var next := Proposed(current, reading);
    assert forall k :: 0 <= k < 4 ==> Effects(b, next)[k] == EffectOf(b, next, Corners(b, next)[k]);
  }

  /** The cell under corner `k` of the ball at `next`. */
  function CornerCell(b: Board, next: (real, real), k: int): (int, int)
    requires b.cellSize > 0.0 && 0 <= k < 4
  {
    CellOf(b, Corners(b, next)[k])
  }

  /** The ball never moves onto a wall: a proposed position with an in-grid corner on a wall is not taken. */
  lemma WallBlocks(b: Board, current: (real, real), reading: Reading, k: int)
    requires WellFormed(b) && 0 <= k < 4
    requires var cell := CornerCell(b, Proposed(current, reading), k);
      InGrid(b, cell) && CellAt(b.maze, cell.0, cell.1) == Some(WallCell)
    ensures !TiltOutcome(b, current, reading).Moved?
  {
    var next := Proposed(current, reading);
    var es := Effects(b, next);
    assert es[k] == EffectOf(b, next, Corners(b, next)[k]);
    assert es[k] == Hit;
  }

  /** Leaving the board is refused before any corner is looked at. */
  lemma OffBoardStays(b: Board, current: (real, real), reading: Reading)
    requires WellFormed(b) && OffBoard(b, Centre(b, Proposed(current, reading)))
    ensures TiltOutcome(b, current, reading) == Stayed
  {
  }

  /** Corner `k` is on a goal cell of the board while the ball's centre is on a goal cell too. */
  predicate GoalReached(b: Board, next: (real, real), k: int)
    requires WellFormed(b) && 0 <= k < 4
  {
    var cell := CornerCell(b, next, k);
    var goal := CellOf(b, Centre(b, next));
    InGrid(b, cell) && CellAt(b.maze, cell.0, cell.1) == Some(GoalCell)
    && CellAt(b.maze, goal.0, goal.1) == Some(GoalCell)
  }

  /** A win needs a corner and the centre on goal cells, with no earlier corner on a wall (or on a goal without the centre). */
  lemma WinRules(b: Board, current: (real, real), reading: Reading)
    requires WellFormed(b) && TiltOutcome(b, current, reading) == Won
    ensures var next := Proposed(current, reading);
      !OffBoard(b, Centre(b, next))
      && exists k :: 0 <= k < 4 && GoalReached(b, next, k)
                     && forall j :: 0 <= j < k ==> EffectOf(b, next, Corners(b, next)[j]) == Pass
  {
    var next := Proposed(current, reading);
    var es := Effects(b, next);
    var k :| 0 <= k < |es| && es[k] == WinHere && forall j :: 0 <= j < k ==> es[j] == Pass;
    assert es[k] == EffectOf(b, next, Corners(b, next)[k]);
    assert GoalReached(b, next, k);
    assert forall j :: 0 <= j < k ==> es[j] == EffectOf(b, next, Corners(b, next)[j]);
  }

  // ---------------------------------------------------------------------
  // The game
  // ---------------------------------------------------------------------

  /** The level after `nextLevel`: the next board, or back to the first after the last. */
  function LevelAfter(level: int): (next: int)
    requires 0 <= level < |Levels|
    ensures 0 <= next < |Levels|
    ensures level < |Levels| - 1 ==> next == level + 1
    ensures level == |Levels| - 1 ==> next == 0
  {
    if level < |Levels| - 1 then level + 1 else 0
  }

  /** Clearing the boards one after another comes back to the first board after all three. */
  lemma LevelsCycle(level: int)
    requires 0 <= level < |Levels|
    ensures LevelAfter(LevelAfter(LevelAfter(level))) == level
  {
  }

  /** The game's state: the level, the ball's position, and how often `onComplete` was called. */
  class MazeGame {
    var level: int
    var ballX: real
    var ballY: real
    var completions: nat
    const windowWidth: real
    const hasOnComplete: bool

    ghost predicate Valid()
      reads this
    {
      0 <= level < |Levels| && windowWidth > ContainerPadding
    }

    function CurrentBoard(): (b: Board)
      reads this
      requires Valid()
      ensures WellFormed(b)
    {
      LevelBoard(level, windowWidth)
    }

    /** Mounting: the first level, with the ball on its start cell. */
    constructor (windowWidth: real, hasOnComplete: bool)
      requires windowWidth > ContainerPadding
      ensures Valid() && level == 0 && completions == 0
      ensures (ballX, ballY) == Placement(CurrentBoard(), StartPosition(Levels[0]))
    {
      level := 0;
      completions := 0;
      this.windowWidth := windowWidth;
      this.hasOnComplete := hasOnComplete;
      new;
      PlaceBall();
    }

    /** The `[level]` effect: the ball is put on the start cell of the current board. */
    method PlaceBall()
      requires Valid()
      modifies this`ballX, this`ballY
      ensures (ballX, ballY) == Placement(CurrentBoard(), StartPosition(Levels[level]))
    {
      var b := CurrentBoard();
      var startR, startC := FindStart(b.maze);
      var pos := Placement(b, (startR, startC));
      ballX, ballY := pos.0, pos.1;
    }

    /** `nextLevel`. */
    method NextLevel()
      requires Valid()
      modifies this`level, this`completions
      ensures Valid()
      ensures level == LevelAfter(old(level))
      ensures completions == old(completions) + (if old(level) == |Levels| - 1 && hasOnComplete then 1 else 0)
    {
      if level < |Levels| - 1 {
        level := level + 1;
      } else {
        if hasOnComplete {
          completions := completions + 1;
        }
        level := 0;
      }
    }

    /** One accelerometer reading: move, stay, or win and go on to the next board with the ball on its start. */
    method OnReading(reading: Reading) returns (o: Outcome)
      requires Valid()
      modifies this
      ensures Valid()
      ensures o == TiltOutcome(old(CurrentBoard()), (old(ballX), old(ballY)), reading)
      ensures o.Moved? ==> (ballX, ballY) == (o.x, o.y) && level == old(level) && completions == old(completions)
      ensures (o.Stayed? || o.Crashed?) ==>
                ballX == old(ballX) && ballY == old(ballY) && level == old(level) && completions == old(completions)
      ensures o.Won? ==> level == LevelAfter(old(level))
                         && completions == old(completions) + (if old(level) == |Levels| - 1 && hasOnComplete then 1 else 0)
                         && (ballX, ballY) == Placement(CurrentBoard(), StartPosition(Levels[level]))
    {
      o := Tilt(CurrentBoard(), ballX, ballY, reading);
      match o {
        case Moved(x, y) =>
          ballX, ballY := x, y;
        case Won =>
          NextLevel();
          PlaceBall();
        case Stayed =>
        case Crashed =>
      }
    }
  }
}

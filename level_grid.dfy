/** The level maps of both `setup` methods: each character of a map row
    places zero, one or two sprites at the tile it stands for. Sprites are
    recorded as placements (kind and centre) in the order the loops visit
    the map, row by row from the top and left to right; the per-kind sprite
    lists of the source are this sequence filtered by kind. */
module LevelGrid {

  /** The side of a square tile, in pixels. */
  const TILE: int := 64
  /** How far above its tile centre the player starts. */
  const PLAYER_LIFT: int := 20

  const LEVEL_1: seq<string> := [
    "11111111111d1",
    "1P000000000E1",
    "1011101110111",
    "100000C000001",
    "1011110111101",
    "1C00000000K01",
    "1111111111111"
  ]

  const LEVEL_2: seq<string> := [
    "11111111111111",
    "1000m0s000d001",
    "1000111000E001",
    "10000g00011101",
    "1FD02200C00001",
    "11100001100001",
    "100000C0M00T01",
    "10011111111L01",
    "1m000000000L01",
    "12200000000L01",
    "1000C0000BKL01",
    "10011100011101",
    "1P000mSSS0C001",
    "11111211111111"
  ]

  datatype Level = One | Two

  datatype Kind = Wall | Ladder | Spike | Bomb | Coin | Diamond | Key | Mouse | Frog | Mushroom | Door | Player

  /** A sprite placed by `setup`: what it is and where its centre is. */
  datatype Placement = Placement(kind: Kind, x: int, y: int)

  /** The centre of column `col`: `col * TILE + TILE // 2`. */
  function TileX(col: nat): int {
    col * TILE + TILE / 2
  }

  /** The height of row `row` of a map with `rows` rows: `(rows - row) * TILE`,
      so the top row is highest. */
  function TileY(rows: nat, row: nat): int {
    (rows - row) * TILE
  }

  /** The sprites the first level's `setup` places for one character. The
      top of the door is a wall tile as well, with the door sprite lowered
      by `TILE // 6`. */
  function CellOne(ch: char, x: int, y: int): seq<Placement> {
    match ch
    case '1' => [Placement(Wall, x, y)]
    case 'd' => [Placement(Wall, x, y), Placement(Door, x, y - TILE / 6)]
    case 'E' => [Placement(Door, x, y)]
    case 'P' => [Placement(Player, x, y + PLAYER_LIFT)]
    case 'C' => [Placement(Coin, x, y)]
    case 'K' => [Placement(Key, x, y)]
    case _ => []
  }

  /** The sprites the second level's `setup` places for one character: four
      wall tiles, two ladder tiles, and the door top without a wall. */
  function CellTwo(ch: char, x: int, y: int): seq<Placement> {
    match ch
    case '1' => [Placement(Wall, x, y)]
    case '2' => [Placement(Wall, x, y)]
    case 's' => [Placement(Wall, x, y)]
    case 'g' => [Placement(Wall, x, y)]
    case 'L' => [Placement(Ladder, x, y)]
    case 'T' => [Placement(Ladder, x, y)]
    case 'S' => [Placement(Spike, x, y)]
    case 'B' => [Placement(Bomb, x, y)]
    case 'C' => [Placement(Coin, x, y)]
    case 'D' => [Placement(Diamond, x, y)]
    case 'K' => [Placement(Key, x, y)]
    case 'M' => [Placement(Mouse, x, y)]
    case 'F' => [Placement(Frog, x, y)]
    case 'm' => [Placement(Mushroom, x, y)]
    case 'd' => [Placement(Door, x, y)]
    case 'E' => [Placement(Door, x, y)]
    case 'P' => [Placement(Player, x, y + PLAYER_LIFT)]
    case _ => []
  }

  function Cell(level: Level, ch: char, x: int, y: int): seq<Placement> {
    if level == One then CellOne(ch, x, y) else CellTwo(ch, x, y)
  }

  /** The placements of the first `|line|` columns of row `row`. */
  function RowLayout(level: Level, line: string, rows: nat, row: nat): seq<Placement> {
    if line == [] then []
    else
      var col := |line| - 1;
      RowLayout(level, line[..col], rows, row) + Cell(level, line[col], TileX(col), TileY(rows, row))
  }

  /** The placements of the first `|grid|` rows of a map with `rows` rows. */
  function GridLayout(level: Level, grid: seq<string>, rows: nat): seq<Placement> {
    if grid == [] then []
    else
      var row := |grid| - 1;
      GridLayout(level, grid[..row], rows) + RowLayout(level, grid[row], rows, row)
  }

  /** Everything `setup` places for a whole map. */
  function Layout(level: Level, grid: seq<string>): seq<Placement> {
    GridLayout(level, grid, |grid|)
  }

  /** The map loops of `setup`: every row from the top, every column from the
      left, each character's sprites appended in turn. */
  method Setup(level: Level, grid: seq<string>) returns (placed: seq<Placement>)
    ensures placed == Layout(level, grid)
  {
    placed := [];
    var row := 0;
    while row < |grid|
      invariant 0 <= row <= |grid|
      invariant placed == GridLayout(level, grid[..row], |grid|)
    {
      var sprites := PlaceRow(level, grid[row], |grid|, row);
      GridLayoutSnoc(level, grid, |grid|, row);
      placed := placed + sprites;
      row := row + 1;
    }
    assert grid[..row] == grid;
  }

  /** The inner loop of `setup`: the sprites of one map row. */
  method PlaceRow(level: Level, line: string, rows: nat, row: nat) returns (placed: seq<Placement>)
    ensures placed == RowLayout(level, line, rows, row)
  {
    placed := [];
    var col := 0;
    while col < |line|
      invariant 0 <= col <= |line|
      invariant placed == RowLayout(level, line[..col], rows, row)
    {
      var x := col * TILE + TILE / 2;
      var y := (rows - row) * TILE;
      RowLayoutSnoc(level, line, rows, row, col);
      placed := placed + Cell(level, line[col], x, y);
      col := col + 1;
    }
    assert line[..col] == line;
  }

  lemma RowLayoutSnoc(level: Level, line: string, rows: nat, row: nat, col: nat)
    requires col < |line|
    ensures RowLayout(level, line[..col + 1], rows, row) ==
            RowLayout(level, line[..col], rows, row) + Cell(level, line[col], TileX(col), TileY(rows, row))
  {
    assert line[..col + 1][..col] == line[..col];
  }

  lemma GridLayoutSnoc(level: Level, grid: seq<string>, rows: nat, row: nat)
    requires row < |grid|
    ensures GridLayout(level, grid[..row + 1], rows) ==
            GridLayout(level, grid[..row], rows) + RowLayout(level, grid[row], rows, row)
  {
    assert grid[..row + 1][..row] == grid[..row];
  }

  /** Different tiles of one map have different centres. */
  lemma TileCentresDistinct(rows: nat, r1: nat, c1: nat, r2: nat, c2: nat)
    requires r1 < rows && r2 < rows
    requires (r1, c1) != (r2, c2)
    ensures (TileX(c1), TileY(rows, r1)) != (TileX(c2), TileY(rows, r2))
  {
    if c1 != c2 {
      assert TileX(c1) - TileX(c2) == (c1 - c2) * TILE;
    } else {
      assert TileY(rows, r1) - TileY(rows, r2) == (r2 - r1) * TILE;
    }
  }

  /** Every sprite of a character is centred on its tile horizontally; the
      player starts PLAYER_LIFT above the tile centre, the first level's door
      top sits `TILE // 6` below it, and every other sprite is on it. */
  lemma CellPosition(level: Level, ch: char, x: int, y: int, p: Placement)
    requires p in Cell(level, ch, x, y)
    ensures p.x == x
    ensures p.kind == Player ==> p.y == y + PLAYER_LIFT
    ensures p.kind != Player && !(level == One && ch == 'd' && p.kind == Door) ==> p.y == y
    ensures level == One && ch == 'd' && p.kind == Door ==> p.y == y - 10
  {
  }

  /** A character places the player exactly when it is `P`, in both levels. */
  lemma PlayerOnlyFromP(level: Level, ch: char, x: int, y: int)
    ensures (exists p :: p in Cell(level, ch, x, y) && p.kind == Player) <==> ch == 'P'
  {
    if ch == 'P' {
      assert Placement(Player, x, y + PLAYER_LIFT) in Cell(level, ch, x, y);
    }
  }

  /** The door top differs between the levels: a wall and a lowered door in
      the first, a door alone in the second. */
  lemma DoorTops(x: int, y: int)
    ensures Cell(One, 'd', x, y) == [Placement(Wall, x, y), Placement(Door, x, y - 10)]
    ensures Cell(Two, 'd', x, y) == [Placement(Door, x, y)]
  {
  }

  /** Column `col` of `line`, in row `row`, places `p`. */
  predicate InRowAt(level: Level, line: string, rows: nat, row: nat, col: nat, p: Placement) {
    col < |line| && p in Cell(level, line[col], TileX(col), TileY(rows, row))
  }

  /** The tile at `row`, `col` of `grid` places `p`. */
  predicate InGridAt(level: Level, grid: seq<string>, rows: nat, row: nat, col: nat, p: Placement) {
    row < |grid| && InRowAt(level, grid[row], rows, row, col, p)
  }

  /** Every column's sprites are in the row's layout. */
  lemma {:induction false} RowHasColumn(level: Level, line: string, rows: nat, row: nat, col: nat, p: Placement)
    requires InRowAt(level, line, rows, row, col, p)
    ensures p in RowLayout(level, line, rows, row)
  {
    var n := |line| - 1;
    if col < n {
      assert InRowAt(level, line[..n], rows, row, col, p);
      RowHasColumn(level, line[..n], rows, row, col, p);
    }
  }

  /** The row's layout holds nothing no column placed. */
  lemma {:induction false} RowOnlyColumns(level: Level, line: string, rows: nat, row: nat, p: Placement)
    requires p in RowLayout(level, line, rows, row)
    ensures exists col :: InRowAt(level, line, rows, row, col, p)
  {
    var n := |line| - 1;
    if p in Cell(level, line[n], TileX(n), TileY(rows, row)) {
      assert InRowAt(level, line, rows, row, n, p);
    } else {
      RowOnlyColumns(level, line[..n], rows, row, p);
      var col :| InRowAt(level, line[..n], rows, row, col, p);
      assert InRowAt(level, line, rows, row, col, p);
    }
  }

  /** Every tile's sprites are in the map's layout. */
  lemma {:induction false} GridHasTile(level: Level, grid: seq<string>, rows: nat, row: nat, col: nat, p: Placement)
    requires InGridAt(level, grid, rows, row, col, p)
    ensures p in GridLayout(level, grid, rows)
  {
    var n := |grid| - 1;
    if row < n {
      assert InGridAt(level, grid[..n], rows, row, col, p);
      GridHasTile(level, grid[..n], rows, row, col, p);
    } else {
      RowHasColumn(level, grid[n], rows, n, col, p);
    }
  }

  /** The map's layout holds nothing no tile placed. */
  lemma {:induction false} GridOnlyTiles(level: Level, grid: seq<string>, rows: nat, p: Placement)
    requires p in GridLayout(level, grid, rows)
    ensures exists row, col :: InGridAt(level, grid, rows, row, col, p)
  {
    var n := |grid| - 1;
    if p in RowLayout(level, grid[n], rows, n) {
      RowOnlyColumns(level, grid[n], rows, n, p);
      var col :| InRowAt(level, grid[n], rows, n, col, p);
      assert InGridAt(level, grid, rows, n, col, p);
    } else {
      GridOnlyTiles(level, grid[..n], rows, p);
      var row, col :| InGridAt(level, grid[..n], rows, row, col, p);
      assert InGridAt(level, grid, rows, row, col, p);
    }
  }

  /** A sprite is placed by `setup` exactly when the character of some tile
      places it at that tile's centre. */
  lemma LayoutMembers(level: Level, grid: seq<string>, p: Placement)
    ensures p in Layout(level, grid) <==> exists row, col :: InGridAt(level, grid, |grid|, row, col, p)
  {
    if p in Layout(level, grid) {
      GridOnlyTiles(level, grid, |grid|, p);
    }
    if exists row, col :: InGridAt(level, grid, |grid|, row, col, p) {
      var row, col :| InGridAt(level, grid, |grid|, row, col, p);
      GridHasTile(level, grid, |grid|, row, col, p);
    }
  }

  /** The player of the first level starts above the tile of its `P`, the
      second column of the second row. */
  lemma PlayerStartOne()
    ensures Placement(Player, 96, 404) in Layout(One, LEVEL_1)
  {
    assert LEVEL_1[1][1] == 'P';
    GridHasTile(One, LEVEL_1, 7, 1, 1, Placement(Player, 96, 404));
  }

  /** The player of the second level starts above the tile of its `P`, the
      second column of the thirteenth row. */
  lemma PlayerStartTwo()
    ensures Placement(Player, 96, 148) in Layout(Two, LEVEL_2)
  {
    assert LEVEL_2[12][1] == 'P';
    GridHasTile(Two, LEVEL_2, 14, 12, 1, Placement(Player, 96, 148));
  }
}

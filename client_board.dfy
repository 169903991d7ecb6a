/** The client's board: the last outcome grid it was given and the sparse
    table of tiles drawn for it. The service call is outside the model: the
    methods that follow it take the outcome it answered with. */
module ClientBoard {
  import opened SharedUtils
  import opened ClientTile

  /** `tileBoard[r][c]`: the tile, `undefined` for a missing cell of an
      existing row, or the TypeError raised when row r does not exist. */
  datatype TileLookup = Found(tile: Tile) | Undefined | RowMissing

  /** The sparse table after `setBoardTile(r, c, t)`. */
  function Placed(tb: map<nat, map<nat, Tile>>, r: nat, c: nat, t: Tile): map<nat, map<nat, Tile>>
  {
    var row: map<nat, Tile> := if r in tb then tb[r] else map[];
    tb[r := row[c := t]]
  }

  /** Reading cell (r, c) of the sparse table. */
  function Lookup(tb: map<nat, map<nat, Tile>>, r: int, c: int): TileLookup
  {
    if r < 0 || r as nat !in tb then RowMissing
    else if c >= 0 && c as nat in tb[r as nat] then Found(tb[r as nat][c as nat])
    else Undefined
  }

  /** After placing t at (r, c), reading (r, c) gives t; cells of other
      rows read as before; other cells of row r read as before, except that
      a row that was missing now exists, so they read `undefined` instead of
      failing; and no row disappears. */
  lemma PlacedThenLookup(tb: map<nat, map<nat, Tile>>, r: nat, c: nat, t: Tile)
    ensures Lookup(Placed(tb, r, c, t), r, c) == Found(t)
    ensures forall r', c' :: r' != r ==> Lookup(Placed(tb, r, c, t), r', c') == Lookup(tb, r', c')
    ensures forall c' :: c' != c ==>
              Lookup(Placed(tb, r, c, t), r, c') == if r in tb then Lookup(tb, r, c') else Undefined
    ensures tb.Keys + {r} == Placed(tb, r, c, t).Keys
  {
  }

  /** The table after placing tiles[0], tiles[1], ... at columns 0, 1, ...
      of row r, in that order. */
  function PlacedRow(tb: map<nat, map<nat, Tile>>, r: nat, tiles: seq<Tile>): map<nat, map<nat, Tile>>
    decreases |tiles|
  {
    if tiles == [] then tb
    else Placed(PlacedRow(tb, r, tiles[..|tiles| - 1]), r, |tiles| - 1, tiles[|tiles| - 1])
  }

  /** Placing a row of tiles creates row r exactly when at least one tile
      is placed, and no other row. */
  lemma {:induction false} PlacedRowKeys(tb: map<nat, map<nat, Tile>>, r: nat, tiles: seq<Tile>)
    ensures PlacedRow(tb, r, tiles).Keys == tb.Keys + (if |tiles| > 0 then {r} else {})
    decreases |tiles|
  {
    if tiles != [] {
      PlacedRowKeys(tb, r, tiles[..|tiles| - 1]);
    }
  }

  /** Placing a row of tiles: column c of row r holds tiles[c], row r exists
      once a tile is placed and no other row is created, every other entry
      keeps its tile, and nothing else is added. */
  lemma {:induction false} PlacedRowFacts(tb: map<nat, map<nat, Tile>>, r: nat, tiles: seq<Tile>)
    ensures var p := PlacedRow(tb, r, tiles);
            && p.Keys == tb.Keys + (if |tiles| > 0 then {r} else {})
            && (forall c :: 0 <= c < |tiles| ==> r in p && c in p[r] && p[r][c] == tiles[c])
            && (forall q, c :: q in tb && c in tb[q] && !(q == r && 0 <= c < |tiles|) ==>
                  c in p[q] && p[q][c] == tb[q][c])
            && (forall q, c :: q in p && c in p[q] ==>
                  (q in tb && c in tb[q] && !(q == r && 0 <= c < |tiles|) && p[q][c] == tb[q][c])
                  || (q == r && 0 <= c < |tiles|))
    decreases |tiles|
  {
    PlacedRowKeys(tb, r, tiles);
    if tiles != [] {
      var n := |tiles| - 1;
      var front := tiles[..n];
      PlacedRowFacts(tb, r, front);
      forall c | 0 <= c < n
        ensures front[c] == tiles[c]
      {
      }
    }
  }

  /** The sequence in reverse order (`Array.prototype.reverse`). */
  function Reverse<T>(s: seq<T>): (r: seq<T>)
    ensures |r| == |s|
  {
    if s == [] then [] else Reverse(s[1..]) + [s[0]]
  }

  lemma {:induction false} ReverseAt<T>(s: seq<T>, i: nat)
    requires i < |s|
    ensures Reverse(s)[i] == s[|s| - 1 - i]
  {
    if i < |s| - 1 {
      ReverseAt(s[1..], i);
    }
  }

  /** Reversing twice restores the original order. */
  lemma ReverseTwice<T>(s: seq<T>)
    ensures Reverse(Reverse(s)) == s
  {
    forall i | 0 <= i < |s|
      ensures Reverse(Reverse(s))[i] == s[i]
    {
      ReverseAt(Reverse(s), i);
      ReverseAt(s, |s| - 1 - i);
    }
  }

  /** Every cell of the grid is a type a tile can be drawn for. */
  predicate DrawableGrid(g: seq<seq<Cell>>)
  {
    forall r, c :: 0 <= r < |g| && 0 <= c < |g[r]| ==> ValidType(g[r][c])
  }

  lemma ReverseDrawable(g: seq<seq<Cell>>)
    requires DrawableGrid(g)
    ensures DrawableGrid(Reverse(g))
  {
    forall r, c | 0 <= r < |g| && 0 <= c < |Reverse(g)[r]|
      ensures ValidType(Reverse(g)[r][c])
    {
      ReverseAt(g, r);
    }
  }

  /** The rows of a grid that have at least one cell: the rows `drawBoard`
      creates in the tile table. */
  function FilledRows(g: seq<seq<Cell>>): (rows: set<int>)
    ensures forall r :: r in rows <==> 0 <= r < |g| && |g[r]| > 0
  {
    set r | 0 <= r < |g| && |g[r]| > 0
  }

  /** t was drawn for a cell of the given type at (r, c) in the given mode,
      and has not been destroyed. */
  predicate DrawnFor(t: Tile, tileType: Cell, r: int, c: int, standBy: bool)
    reads t
  {
    t.tileType == tileType && t.row == r && t.column == c && t.standBy == standBy && !t.disposed
  }

  class Board {
    var board: seq<seq<Cell>>
    var tileBoard: map<nat, map<nat, Tile>>

    /** Every tile the sparse table refers to. */
    function Tiles(): set<Tile>
      reads this
    {
      set r, c | r in tileBoard && c in tileBoard[r] :: tileBoard[r][c]
    }

    /** A board with no grid and no tiles. */
    constructor ()
      ensures board == [] && tileBoard == map[]
    {
      board := [];
      tileBoard := map[];
    }

    /** The continuation of `shuffleBoard` once the service has answered:
        keep the grid, draw it rolling, and hand the outcome to the
        callback. The grid is shared with the outcome, so the callback
        receives it reversed. */
    method ShuffleBoard(outcome: GameOutcome) returns (delivered: GameOutcome)
      requires DrawableGrid(outcome.board)
      modifies this, Tiles()`disposed
      ensures board == Reverse(outcome.board)
      ensures delivered == outcome.(board := board)
      ensures Drawn(old(tileBoard), old(Tiles()), false)
    {
      board := outcome.board;
      DrawBoard(false);
      delivered := outcome.(board := board);
    }

    /** The continuation of `standBy` once the service has answered: keep
        the grid and draw it with the stand-by animation. */
    method StandBy(outcome: GameOutcome)
      requires DrawableGrid(outcome.board)
      modifies this, Tiles()`disposed
      ensures board == Reverse(outcome.board)
      ensures Drawn(old(tileBoard), old(Tiles()), true)
    {
      board := outcome.board;
      DrawBoard(true);
    }

    /** Store t at (r, c), creating row r when it is missing. */
    method SetBoardTile(r: nat, c: nat, t: Tile)
      modifies this`tileBoard
      ensures tileBoard == Placed(old(tileBoard), r, c, t)
    {
      if r !in tileBoard {
        tileBoard := tileBoard[r := map[]];
      }
      var row: map<nat, Tile> := tileBoard[r];
      tileBoard := tileBoard[r := row[c := t]];
    }

    /** The tile stored at (r, c): a TypeError exactly when row r was never
        created (no negative row ever is), `undefined` exactly for a missing
        cell of an existing row. */
    function GetBoardTile(r: int, c: int): (res: TileLookup)
      reads this
      ensures res.RowMissing? <==> r < 0 || r as nat !in tileBoard
      ensures res.Undefined? <==> r >= 0 && r as nat in tileBoard && (c < 0 || c as nat !in tileBoard[r as nat])
      ensures res.Found? ==> r >= 0 && c >= 0 && r as nat in tileBoard && c as nat in tileBoard[r as nat]
                             && res.tile == tileBoard[r as nat][c as nat]
    {
      Lookup(tileBoard, r, c)
    }

    /** Destroy every stored tile; the entries stay in the table. */
    method ClearBoard()
      modifies Tiles()`disposed
      ensures forall t :: t in Tiles() ==> t.disposed
    {
      forall t | t in Tiles() {
        t.disposed := true;
      }
    }

    /** What `drawBoard` leaves: every tile of `oldTable` is disposed; every
        cell of the (already reversed) grid holds a fresh tile drawn for it;
        every other entry of `oldTable` is still there; the rows are the old
        ones plus the non-empty rows of the grid; and nothing else was added. */
    twostate predicate Drawn(oldTable: map<nat, map<nat, Tile>>, oldTiles: set<Tile>, standBy: bool)
      reads this, Tiles(), oldTiles
    {
      && (forall t :: t in oldTiles ==> t.disposed)
      && (forall r :: 0 <= r < |board| && |board[r]| > 0 ==> r in tileBoard)
      && (forall r, c :: 0 <= r < |board| && 0 <= c < |board[r]| ==>
            && c in tileBoard[r] && fresh(tileBoard[r][c])
            && DrawnFor(tileBoard[r][c], board[r][c], r, c, standBy) && tileBoard[r][c] !in oldTiles)
      && (forall r :: r in oldTable ==> r in tileBoard)
      && tileBoard.Keys == oldTable.Keys + FilledRows(board)
      && (forall r, c :: r in oldTable && c in oldTable[r] && !(0 <= r < |board| && 0 <= c < |board[r]|) ==>
            c in tileBoard[r] && tileBoard[r][c] == oldTable[r][c])
      && (forall r, c :: r in tileBoard && c in tileBoard[r] ==>
            (r in oldTable && c in oldTable[r]) || (0 <= r < |board| && 0 <= c < |board[r]|))
    }

    /** Destroy the old tiles, reverse the grid in place and draw one new
        tile per cell of the reversed grid. */
    method DrawBoard(standBy: bool)
      requires DrawableGrid(board)
      modifies this, Tiles()`disposed
      ensures board == Reverse(old(board))
      ensures Drawn(old(tileBoard), old(Tiles()), standBy)
    {
      ClearBoard();
      ReverseDrawable(board);
      board := Reverse(board);
      DrawTiles(standBy);
    }

    /** The outer `forEach` of `drawBoard`: one new tile per cell of the
        grid; entries of the table off the grid are kept. */
    method DrawTiles(standBy: bool)
      requires DrawableGrid(board)
      modifies this`tileBoard
      ensures forall r, c :: r in tileBoard && c in tileBoard[r] ==>
                (r in old(tileBoard) && c in old(tileBoard)[r]) || (0 <= r < |board| && 0 <= c < |board[r]|)
      ensures tileBoard.Keys == old(tileBoard).Keys + FilledRows(board)
      ensures forall r, c :: r in old(tileBoard) && c in old(tileBoard)[r] && !(0 <= r < |board| && 0 <= c < |board[r]|) ==>
                c in tileBoard[r] && tileBoard[r][c] == old(tileBoard)[r][c]
      ensures forall r :: 0 <= r < |board| && |board[r]| > 0 ==> r in tileBoard
      ensures forall r, c :: 0 <= r < |board| && 0 <= c < |board[r]| ==>
                && c in tileBoard[r] && fresh(tileBoard[r][c])
                && DrawnFor(tileBoard[r][c], board[r][c], r, c, standBy)
    {
      var rowIndex := 0;
      while rowIndex < |board|
        invariant 0 <= rowIndex <= |board|
        invariant forall r, c :: r in tileBoard && c in tileBoard[r] ==>
                    (r in old(tileBoard) && c in old(tileBoard)[r]) || (0 <= r < rowIndex && 0 <= c < |board[r]|)
        invariant tileBoard.Keys == old(tileBoard).Keys + FilledRows(board[..rowIndex])
        invariant forall r, c :: r in old(tileBoard) && c in old(tileBoard)[r] && !(0 <= r < rowIndex && 0 <= c < |board[r]|) ==>
                    c in tileBoard[r] && tileBoard[r][c] == old(tileBoard)[r][c]
        invariant forall r :: 0 <= r < rowIndex && |board[r]| > 0 ==> r in tileBoard
        invariant forall r, c :: 0 <= r < rowIndex && 0 <= c < |board[r]| ==>
                    && c in tileBoard[r] && fresh(tileBoard[r][c])
                    && DrawnFor(tileBoard[r][c], board[r][c], r, c, standBy)
      {
        DrawRow(rowIndex, standBy);
        assert FilledRows(board[..rowIndex + 1]) ==
          FilledRows(board[..rowIndex]) + (if |board[rowIndex]| > 0 then {rowIndex} else {});
        rowIndex := rowIndex + 1;
      }
      assert board[..rowIndex] == board;
    }

    /** Draw the tiles of one row (the inner `forEach` of `drawBoard`). */
    method DrawRow(rowIndex: nat, standBy: bool)
      requires rowIndex < |board| && DrawableGrid(board)
      modifies this`tileBoard
      ensures forall r, c :: r in tileBoard && c in tileBoard[r] ==>
                (r in old(tileBoard) && c in old(tileBoard)[r] && !(r == rowIndex && 0 <= c < |board[r]|)
                  && tileBoard[r][c] == old(tileBoard)[r][c])
                || (r == rowIndex && 0 <= c < |board[r]|)
      ensures tileBoard.Keys == old(tileBoard).Keys + (if |board[rowIndex]| > 0 then {rowIndex} else {})
      ensures forall r, c :: r in old(tileBoard) && c in old(tileBoard)[r] && !(r == rowIndex && 0 <= c < |board[r]|) ==>
                c in tileBoard[r] && tileBoard[r][c] == old(tileBoard)[r][c]
      ensures |board[rowIndex]| > 0 ==> rowIndex in tileBoard
      ensures forall c :: 0 <= c < |board[rowIndex]| ==>
                rowIndex in tileBoard && c in tileBoard[rowIndex] && fresh(tileBoard[rowIndex][c])
                && DrawnFor(tileBoard[rowIndex][c], board[rowIndex][c], rowIndex, c, standBy)
    {
      var row := board[rowIndex];
      ghost var made: seq<Tile> := [];
      var tileIndex: nat := 0;
      while tileIndex < |row|
        invariant 0 <= tileIndex <= |row| && |made| == tileIndex
        invariant tileBoard == PlacedRow(old(tileBoard), rowIndex, made)
        invariant forall c :: 0 <= c < tileIndex ==>
                    fresh(made[c]) && DrawnFor(made[c], row[c], rowIndex, c, standBy)
      {
        var tile := new Tile(row[tileIndex], rowIndex, tileIndex, standBy);
        SetBoardTile(rowIndex, tileIndex, tile);
        assert (made + [tile])[..tileIndex] == made;
        made := made + [tile];
        tileIndex := tileIndex + 1;
      }
      PlacedRowFacts(old(tileBoard), rowIndex, made);
    }
  }
}

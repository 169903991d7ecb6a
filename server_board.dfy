/** The server's outcome generator: it fills a sizeY x sizeX grid from the
    symbol table, classifies wins from symbol frequencies and draws a bonus.
    The two random sources are parameters: `random(y, x)` is the
    `Math.random()` value drawn for cell (y, x) and `dice` the one drawn for
    the bonus. */
module ServerBoard {
  import opened SharedUtils

  // ---------------------------------------------------------------------
  // Drawing one cell
  // ---------------------------------------------------------------------

  /** The index `Math.round(r * limit)` drawn for one cell. */
  function DrawIndex(r: real, limit: nat): int
  {
    Round(r * limit as real)
  }

  /** The cell `TILES_ARRAY[Math.round(r * limit) - 1]`. */
  function CellFor(r: real, limit: nat): Cell
  {
    TileAt(DrawIndex(r, limit) - 1)
  }

  /** For a draw r in [0, 1) the index lies in [0, limit]; it is 0 exactly
      when r * limit < 1/2. */
  lemma DrawIndexRange(r: real, limit: nat)
    requires 0.0 <= r < 1.0
    ensures 0 <= DrawIndex(r, limit) <= limit
    ensures DrawIndex(r, limit) == 0 <==> r * limit as real < 0.5
  {
    var x := r * limit as real;
    ScaledDrawBelowLimit(r, limit as real);
    RoundBounds(x, limit);
  }

  /** Rounding a value in [0, l] gives an integer in [0, l], which is 0
      exactly for values below 1/2. */
  lemma RoundBounds(x: real, l: nat)
    requires 0.0 <= x <= l as real
    ensures 0 <= Round(x) <= l
    ensures Round(x) == 0 <==> x < 0.5
  {
    var n := Round(x);
    assert n as real - 0.5 <= x < n as real + 0.5;
    assert -1.0 < n as real < l as real + 1.0;
  }

  /** A fraction in [0, 1) of a non-negative amount is between 0 and it. */
  lemma ScaledDrawBelowLimit(r: real, l: real)
    requires 0.0 <= r < 1.0 && 0.0 <= l
    ensures 0.0 <= r * l <= l
  {
    assert l - r * l == (1.0 - r) * l;
    assert 0.0 <= (1.0 - r) * l;
  }

  /** With the server's limit (the table size), a drawn cell is a member of
      the table exactly when the index is at least 1; index 0 gives the
      undefined cell. */
  lemma CellForMembership(r: real)
    requires 0.0 <= r < 1.0
    ensures var k := DrawIndex(r, |TILES_ARRAY|);
            && (CellFor(r, |TILES_ARRAY|).Symbol? <==> 1 <= k <= |TILES_ARRAY|)
            && (CellFor(r, |TILES_ARRAY|).Symbol? ==> CellFor(r, |TILES_ARRAY|).code == TILES_ARRAY[k - 1])
            && (k == 0 <==> CellFor(r, |TILES_ARRAY|) == Missing)
  {
    DrawIndexRange(r, |TILES_ARRAY|);
  }

  /** A draw of exactly 0 (or anything below 1/12) yields the undefined cell. */
  lemma SmallDrawGivesUndefinedCell(r: real)
    requires 0.0 <= r < 1.0 / 12.0
    ensures CellFor(r, |TILES_ARRAY|) == Missing
  {
    assert r * 6.0 < 0.5;
    DrawIndexRange(r, |TILES_ARRAY|);
  }

  // ---------------------------------------------------------------------
  // Frequencies
  // ---------------------------------------------------------------------

  /** All cells of the grid, row after row. */
  function Cells(g: seq<seq<Cell>>): seq<Cell>
  {
    if g == [] then [] else Cells(g[..|g| - 1]) + g[|g| - 1]
  }

  /** How many cells of the grid hold c. */
  function Frequency(g: seq<seq<Cell>>, c: Cell): nat
  {
    multiset(Cells(g))[c]
  }

  /** Some value occurs in exactly n cells. */
  ghost predicate HasFrequency(g: seq<seq<Cell>>, n: nat)
  {
    exists c :: Frequency(g, c) == n
  }

  /** One more occurrence of v in a frequency table. */
  function Count(counts: map<Cell, nat>, v: Cell): map<Cell, nat>
  {
    counts[v := (if v in counts then counts[v] else 0) + 1]
  }

  /** The table built by counting the cells of s one after the other. */
  function TallyOf(s: seq<Cell>): map<Cell, nat>
  {
    if s == [] then map[] else Count(TallyOf(s[..|s| - 1]), s[|s| - 1])
  }

  /** The counted table is the frequency table: a key for each value that
      occurs, holding its number of occurrences. */
  lemma {:induction false} TallyOfIsFrequency(s: seq<Cell>, c: Cell)
    ensures c in TallyOf(s) <==> c in multiset(s)
    ensures c in TallyOf(s) ==> TallyOf(s)[c] == multiset(s)[c]
  {
    if s != [] {
      var t := s[..|s| - 1];
      assert s == t + [s[|s| - 1]];
      TallyOfIsFrequency(t, c);
    }
  }

  /** The counted table of a board's cells is its frequency table. */
  lemma TallyOfCells(board: seq<seq<Cell>>)
    ensures forall c :: c in TallyOf(Cells(board)) <==> Frequency(board, c) > 0
    ensures forall c :: c in TallyOf(Cells(board)) ==> TallyOf(Cells(board))[c] == Frequency(board, c)
  {
    forall c | true
      ensures (c in TallyOf(Cells(board)) <==> Frequency(board, c) > 0)
      ensures (c in TallyOf(Cells(board)) ==> TallyOf(Cells(board))[c] == Frequency(board, c))
    {
      TallyOfIsFrequency(Cells(board), c);
    }
  }

  /** The `counts` dictionary of `checkForWins`: one entry per value on the
      board, holding the number of cells with that value. */
  method Tally(board: seq<seq<Cell>>) returns (counts: map<Cell, nat>)
    ensures forall c :: c in counts <==> Frequency(board, c) > 0
    ensures forall c :: c in counts ==> counts[c] == Frequency(board, c)
  {
    counts := map[];
    var y := 0;
    while y < |board|
      invariant 0 <= y <= |board|
      invariant counts == TallyOf(Cells(board[..y]))
    {
      counts := TallyRow(counts, Cells(board[..y]), board[y]);
      CellsOfPrefix(board, y);
      y := y + 1;
    }
    assert board[..y] == board;
    TallyOfCells(board);
  }

  /** Counting one more cell of a row extends the table of the cells
      counted so far. */
  lemma TallyOfExtend(seen: seq<Cell>, row: seq<Cell>, x: nat)
    requires x < |row|
    ensures TallyOf(seen + row[..x + 1]) == Count(TallyOf(seen + row[..x]), row[x])
  {
    assert (seen + row[..x + 1])[..|seen + row[..x + 1]| - 1] == seen + row[..x];
  }

  /** The inner `forEach` of the tally: count the cells of one row on top
      of the table of the cells seen before it. */
  method TallyRow(counts0: map<Cell, nat>, ghost seen: seq<Cell>, row: seq<Cell>) returns (counts: map<Cell, nat>)
    requires counts0 == TallyOf(seen)
    ensures counts == TallyOf(seen + row)
  {
    counts := counts0;
    var x := 0;
    assert seen + row[..0] == seen;
    while x < |row|
      invariant 0 <= x <= |row|
      invariant counts == TallyOf(seen + row[..x])
    {
      TallyOfExtend(seen, row, x);
      counts := counts[row[x] := (if row[x] in counts then counts[row[x]] else 0) + 1];
      x := x + 1;
    }
    assert row[..x] == row;
  }

  /** The cells of the first y + 1 rows are those of the first y rows
      followed by row y. */
  lemma CellsOfPrefix(g: seq<seq<Cell>>, y: nat)
    requires y < |g|
    ensures Cells(g[..y + 1]) == Cells(g[..y]) + g[y]
  {
    assert g[..y + 1][..y] == g[..y];
  }

  /** Two different values together occupy at most all the cells. */
  lemma {:induction false} TwoValuesBounded(s: seq<Cell>, a: Cell, b: Cell)
    requires a != b
    ensures multiset(s)[a] + multiset(s)[b] <= |s|
  {
    if s != [] {
      var t := s[..|s| - 1];
      assert s == t + [s[|s| - 1]];
      TwoValuesBounded(t, a, b);
    }
  }

  /** On a board of three cells a pair and a triple cannot both occur, so
      `smallWin` and `bigWin` are never both set on the default 1 x 3 board. */
  lemma NoDoubleWinOnThreeCells(g: seq<seq<Cell>>)
    requires |Cells(g)| == 3
    ensures !(HasFrequency(g, 2) && HasFrequency(g, 3))
  {
    if HasFrequency(g, 2) && HasFrequency(g, 3) {
      var a :| Frequency(g, a) == 2;
      var b :| Frequency(g, b) == 3;
      TwoValuesBounded(Cells(g), a, b);
    }
  }

  /** Sum of the frequencies in s of the listed values. */
  function SumOfCounts(s: seq<Cell>, values: seq<Cell>): nat
  {
    if values == [] then 0 else multiset(s)[values[0]] + SumOfCounts(s, values[1..])
  }

  /** Number of positions of `values` holding e. */
  function Occurrences(values: seq<Cell>, e: Cell): nat
  {
    multiset(values)[e]
  }

  lemma {:induction false} SumOfCountsSnoc(s: seq<Cell>, e: Cell, values: seq<Cell>)
    ensures SumOfCounts(s + [e], values) == SumOfCounts(s, values) + Occurrences(values, e)
  {
    if values != [] {
      assert values == [values[0]] + values[1..];
      SumOfCountsSnoc(s, e, values[1..]);
    }
  }

  lemma {:induction false} DistinctOccursOnce(values: seq<Cell>, e: Cell)
    requires forall i, j :: 0 <= i < j < |values| ==> values[i] != values[j]
    requires e in values
    ensures Occurrences(values, e) == 1
  {
    assert values == [values[0]] + values[1..];
    if values[0] == e {
      assert e !in values[1..];
    } else {
      DistinctOccursOnce(values[1..], e);
    }
  }

  /** The frequencies of any duplicate-free list of values covering all the
      cells add up to the number of cells. */
  lemma {:induction false} SumOfCountsIsLength(s: seq<Cell>, values: seq<Cell>)
    requires forall i, j :: 0 <= i < j < |values| ==> values[i] != values[j]
    requires forall c :: c in s ==> c in values
    ensures SumOfCounts(s, values) == |s|
  {
    if s == [] {
      EmptyCounts(values);
    } else {
      var t := s[..|s| - 1];
      var e := s[|s| - 1];
      assert s == t + [e];
      SumOfCountsIsLength(t, values);
      SumOfCountsSnoc(t, e, values);
      DistinctOccursOnce(values, e);
    }
  }

  lemma {:induction false} EmptyCounts(values: seq<Cell>)
    ensures SumOfCounts([], values) == 0
  {
    if values != [] {
      EmptyCounts(values[1..]);
    }
  }

  /** The frequency counts of a board sum to its number of cells. */
  lemma FrequenciesSumToCellCount(g: seq<seq<Cell>>, values: seq<Cell>)
    requires forall i, j :: 0 <= i < j < |values| ==> values[i] != values[j]
    requires forall c :: c in Cells(g) ==> c in values
    ensures SumOfCounts(Cells(g), values) == |Cells(g)|
  {
    SumOfCountsIsLength(Cells(g), values);
  }

  /** Replacing one row changes the count of each value by exactly that
      row's contribution. */
  lemma {:induction false} CellsUpdate(g: seq<seq<Cell>>, y: nat, row: seq<Cell>, c: Cell)
    requires y < |g|
    ensures multiset(Cells(g[y := row]))[c] + multiset(g[y])[c] == multiset(Cells(g))[c] + multiset(row)[c]
  {
    var n := |g| - 1;
    var h := g[y := row];
    assert multiset(Cells(h))[c] == multiset(Cells(h[..n]))[c] + multiset(h[n])[c] by {
      assert Cells(h) == Cells(h[..n]) + h[n];
    }
    assert multiset(Cells(g))[c] == multiset(Cells(g[..n]))[c] + multiset(g[n])[c] by {
      assert Cells(g) == Cells(g[..n]) + g[n];
    }
    if y < n {
      assert h[..n] == g[..n][y := row];
      assert g[..n][y] == g[y];
      CellsUpdate(g[..n], y, row, c);
    } else {
      assert h[..n] == g[..n];
    }
  }

  /** The grid with cells (y1, x1) and (y2, x2) exchanged. */
  function SwapCells(g: seq<seq<Cell>>, y1: nat, x1: nat, y2: nat, x2: nat): seq<seq<Cell>>
    requires y1 < |g| && x1 < |g[y1]| && y2 < |g| && x2 < |g[y2]|
  {
    var a := g[y1][x1];
    var b := g[y2][x2];
    var g1 := g[y1 := g[y1][x1 := b]];
    g1[y2 := g1[y2][x2 := a]]
  }

  /** Exchanging two cells keeps the multiset of cells, so the win
      classification does not depend on positions. */
  lemma SwapKeepsClassification(g: seq<seq<Cell>>, y1: nat, x1: nat, y2: nat, x2: nat)
    requires y1 < |g| && x1 < |g[y1]| && y2 < |g| && x2 < |g[y2]|
    ensures multiset(Cells(SwapCells(g, y1, x1, y2, x2))) == multiset(Cells(g))
    ensures forall n :: HasFrequency(SwapCells(g, y1, x1, y2, x2), n) <==> HasFrequency(g, n)
  {
    var h := SwapCells(g, y1, x1, y2, x2);
    forall c ensures multiset(Cells(h))[c] == multiset(Cells(g))[c] {
      SwapKeepsCount(g, y1, x1, y2, x2, c);
    }
    assert multiset(Cells(h)) == multiset(Cells(g));
    forall n ensures HasFrequency(h, n) <==> HasFrequency(g, n) {
      if HasFrequency(h, n) {
        var c :| Frequency(h, c) == n;
        assert Frequency(g, c) == n;
      }
      if HasFrequency(g, n) {
        var c :| Frequency(g, c) == n;
        assert Frequency(h, c) == n;
      }
    }
  }

  lemma SwapKeepsCount(g: seq<seq<Cell>>, y1: nat, x1: nat, y2: nat, x2: nat, c: Cell)
    requires y1 < |g| && x1 < |g[y1]| && y2 < |g| && x2 < |g[y2]|
    ensures multiset(Cells(SwapCells(g, y1, x1, y2, x2)))[c] == multiset(Cells(g))[c]
  {
    var a := g[y1][x1];
    var b := g[y2][x2];
    var g1 := g[y1 := g[y1][x1 := b]];
    assert g1[y2][x2] == b;
    ReplaceOne(g, y1, x1, b, c);
    ReplaceOne(g1, y2, x2, a, c);
  }

  /** Writing v into one cell trades one occurrence of its old value for v. */
  lemma ReplaceOne(g: seq<seq<Cell>>, y: nat, x: nat, v: Cell, c: Cell)
    requires y < |g| && x < |g[y]|
    ensures multiset(Cells(g[y := g[y][x := v]]))[c] + multiset{g[y][x]}[c]
         == multiset(Cells(g))[c] + multiset{v}[c]
  {
    var row := g[y][x := v];
    CellsUpdate(g, y, row, c);
    UpdateOne(g[y], x, v);
  }

  lemma UpdateOne(s: seq<Cell>, x: nat, v: Cell)
    requires x < |s|
    ensures multiset(s[x := v]) + multiset{s[x]} == multiset(s) + multiset{v}
  {
    assert s == s[..x] + [s[x]] + s[x + 1..];
    assert s[x := v] == s[..x] + [v] + s[x + 1..];
  }

  // ---------------------------------------------------------------------
  // Bonus over several shuffles
  // ---------------------------------------------------------------------

  /** The bonus flag after one `checkForBonus` per dice value, starting from b. */
  function BonusAfter(b: bool, dice: seq<real>, chance: real): bool
    decreases |dice|
  {
    if dice == [] then b else BonusAfter(b || dice[0] < chance, dice[1..], chance)
  }

  /** The flag ends up set exactly when it started set or some dice value
      fell below the chance: it is never cleared. */
  lemma {:induction false} BonusIsSticky(b: bool, dice: seq<real>, chance: real)
    ensures BonusAfter(b, dice, chance) <==> b || exists i :: 0 <= i < |dice| && dice[i] < chance
    decreases |dice|
  {
    if dice != [] {
      BonusIsSticky(b || dice[0] < chance, dice[1..], chance);
      if exists i :: 0 <= i < |dice[1..]| && dice[1..][i] < chance {
        var i :| 0 <= i < |dice[1..]| && dice[1..][i] < chance;
        assert dice[i + 1] < chance;
      }
      if exists i :: 0 <= i < |dice| && dice[i] < chance {
        var i :| 0 <= i < |dice| && dice[i] < chance;
        if i > 0 {
          assert dice[1..][i - 1] < chance;
        }
      }
    }
  }

  // ---------------------------------------------------------------------
  // The board object
  // ---------------------------------------------------------------------

  function Max(a: nat, b: nat): nat { if a < b then b else a }

  /** Row y of g, or the empty row a missing one is created as. */
  function RowOrEmpty(g: seq<seq<Cell>>, y: nat): seq<Cell>
  {
    if y < |g| then g[y] else []
  }

  /** JavaScript's `row[x] = v` for x at most the row's length: overwrite,
      or append at the end. */
  function SetCell(row: seq<Cell>, x: nat, v: Cell): (r: seq<Cell>)
    requires x <= |row|
    ensures |r| == Max(|row|, x + 1) && r[x] == v
    ensures forall i :: 0 <= i < |row| && i != x ==> r[i] == row[i]
  {
    if x < |row| then row[x := v] else row + [v]
  }

  /** `row` is `before` with its first n cells drawn from row y of the
      random source; cells past n (of a longer earlier row) are kept. */
  ghost predicate RowRefilled(before: seq<Cell>, row: seq<Cell>, y: nat, n: nat, limit: nat,
                              random: (nat, nat) -> real)
  {
    && |row| == Max(|before|, n)
    && forall x :: 0 <= x < |row| ==> row[x] == if x < n then CellFor(random(y, x), limit) else before[x]
  }

  /** `after` is `before` with rows 0..sizeY-1 (created when missing) given
      fresh cells in columns 0..sizeX-1; every other row and cell is kept. */
  ghost predicate Refilled(before: seq<seq<Cell>>, after: seq<seq<Cell>>, sizeY: nat, sizeX: nat,
                           limit: nat, random: (nat, nat) -> real)
  {
    && |after| == Max(|before|, sizeY)
    && (forall y :: sizeY <= y < |after| ==> after[y] == before[y])
    && (forall y :: 0 <= y < sizeY ==> RowRefilled(RowOrEmpty(before, y), after[y], y, sizeX, limit, random))
  }

  lemma RowRefillStep(before: seq<Cell>, row: seq<Cell>, y: nat, n: nat, limit: nat, random: (nat, nat) -> real)
    requires RowRefilled(before, row, y, n, limit, random)
    ensures n <= |row|
    ensures RowRefilled(before, SetCell(row, n, CellFor(random(y, n), limit)), y, n + 1, limit, random)
  {
  }

  /** The inner loop of `shuffleBoard`: draw columns 0..sizeX-1 of row y
      in order, writing each cell over the earlier one or at the end. */
  method RefillRow(before: seq<Cell>, y: nat, sizeX: nat, limit: nat, random: (nat, nat) -> real)
    returns (row: seq<Cell>)
    ensures RowRefilled(before, row, y, sizeX, limit, random)
  {
    row := before;
    var x := 0;
    while x < sizeX
      invariant 0 <= x <= sizeX
      invariant RowRefilled(before, row, y, x, limit, random)
    {
      RowRefillStep(before, row, y, x, limit, random);
      row := SetCell(row, x, TileAt(Round(random(y, x) * limit as real) - 1));
      x := x + 1;
    }
  }

  class Board {
    var sizeX: nat
    var sizeY: nat
    var tileIndexLimit: nat
    var response: GameOutcome
    var bonusChance: real

    /** A 1 x 3 board over the six symbols with a bonus chance of 0.1,
        shuffled once with the given draws. */
    constructor (random: (nat, nat) -> real, dice: real)
      ensures sizeX == 3 && sizeY == 1 && tileIndexLimit == |TILES_ARRAY| && bonusChance == 0.1
      ensures Refilled([], response.board, 1, 3, |TILES_ARRAY|, random)
      ensures response.smallWin == HasFrequency(response.board, 2)
      ensures response.bigWin == HasFrequency(response.board, 3)
      ensures response.bonus == (dice < 0.1)
    {
      sizeX := 3;
      sizeY := 1;
      tileIndexLimit := |TILES_ARRAY|;
      response := GameOutcome([], false, false, false);
      bonusChance := 0.1;
      new;
      ShuffleBoard(random, dice);
    }

    /** Refill the grid in place, then reclassify wins and draw the bonus. */
    method ShuffleBoard(random: (nat, nat) -> real, dice: real)
      modifies this`response
      ensures Refilled(old(response.board), response.board, sizeY, sizeX, tileIndexLimit, random)
      ensures response.smallWin == HasFrequency(response.board, 2)
      ensures response.bigWin == HasFrequency(response.board, 3)
      ensures response.bonus == (old(response.bonus) || dice < bonusChance)
    {
      ghost var before := response.board;
      var y := 0;
      while y < sizeY
        invariant 0 <= y <= sizeY
        invariant response.bonus == old(response.bonus)
        invariant |response.board| == Max(|before|, y)
        invariant forall j :: y <= j < |response.board| ==> response.board[j] == before[j]
        invariant forall j :: 0 <= j < y ==>
          RowRefilled(RowOrEmpty(before, j), response.board[j], j, sizeX, tileIndexLimit, random)
      {
        if y == |response.board| {
          response := response.(board := response.board + [[]]);
        }
        FillRow(y, random);
        y := y + 1;
      }
      CheckForWins();
      CheckForBonus(dice);
    }

    /** The inner loop of the refill: draw columns 0..sizeX-1 of row y,
        writing each cell into the existing row. */
    method FillRow(y: nat, random: (nat, nat) -> real)
      requires y < |response.board|
      modifies this`response
      ensures |response.board| == old(|response.board|)
      ensures response == old(response).(board := old(response.board)[y := response.board[y]])
      ensures RowRefilled(old(response.board[y]), response.board[y], y, sizeX, tileIndexLimit, random)
    {
      var row := RefillRow(response.board[y], y, sizeX, tileIndexLimit, random);
      response := response.(board := response.board[y := row]);
    }

    /** Reclassify wins from the symbol frequencies of the current grid. */
    method CheckForWins()
      modifies this`response
      ensures response.board == old(response.board) && response.bonus == old(response.bonus)
      ensures response.smallWin == HasFrequency(response.board, 2)
      ensures response.bigWin == HasFrequency(response.board, 3)
    {
      var counts := Tally(response.board);
      response := response.(smallWin := 2 in counts.Values, bigWin := 3 in counts.Values);
    }

    /** Set the bonus flag when the dice falls below the chance; never clear it. */
    method CheckForBonus(dice: real)
      modifies this`response
      ensures response == old(response).(bonus := old(response.bonus) || dice < bonusChance)
    {
      if dice < bonusChance {
        response := response.(bonus := true);
      }
    }
  }

  /** The HTTP handler: a new board (which shuffles once) is shuffled a
      second time and its response sent. The bonus flag therefore reflects
      either of two dice. */
  method MainController(random1: (nat, nat) -> real, dice1: real, random2: (nat, nat) -> real, dice2: real)
    returns (result: GameOutcome)
    ensures |result.board| == 1 && |result.board[0]| == 3
    ensures forall x :: 0 <= x < 3 ==> result.board[0][x] == CellFor(random2(0, x), |TILES_ARRAY|)
    ensures result.smallWin == HasFrequency(result.board, 2)
    ensures result.bigWin == HasFrequency(result.board, 3)
    ensures result.bonus == (dice1 < 0.1 || dice2 < 0.1)
  {
    var board := new Board(random1, dice1);
    board.ShuffleBoard(random2, dice2);
    result := board.response;
  }
}

# pokeslot — a Dafny model of the slot machine's logic

pokeslot is a browser slot machine. A server draws a 1 × 3 board of
Pokémon symbols and decides from it whether the spin is a small win (some
symbol twice), a big win (some symbol three times) and, by a separate dice,
whether it grants a bonus. The client stakes the bet, asks for a board,
shows it as rolling tiles and, after a fixed settle delay, credits wins and
plays a free bonus spin or, when auto-play is checked, the next spin.

The model covers that logic, file by file:

- `shared.dfy` (`SharedUtils`): the symbol codes 1..6, the table they are
  drawn from, `getKeyValue`, JavaScript's `Math.round`, the cell value
  (`Missing` is the `undefined` that an index of -1 yields, sent to the
  client as `null`) and the outcome record.
- `server_board.dfy` (`ServerBoard`): the server's `Board` class. It fills
  the grid in place, tallies symbol frequencies, classifies wins and draws
  the bonus, and the HTTP handler shuffles a new board a second time. Each
  `Math.random()` value is a parameter: `random(y, x)` for cell (y, x) and
  `dice` for the bonus.
- `client_tile.dfy` (`ClientTile`): a reel tile. It holds the animation
  choice and the order and offsets in which the strip images are painted;
  the texture is the list of draw commands.
- `client_board.dfy` (`ClientBoard`): the client's `Board`. It reverses the
  grid in place, keeps the sparse tile table, and destroys and redraws the
  tiles.
- `gui_manager.dfy` (`Gui`): the spin button's state machine (Normal, Hover,
  Pressed, Disabled) and the controls it drives.
- `game_mode.dfy` (`Game`): the score ledger and the spin sequencing. The
  service request, the 3600 ms settle timer and the button's re-enable
  timer are explicit events; the requests and timers that have not yet
  answered or fired are counted in fields.

Some behaviours of the code are kept as written:

- A draw below 1/12 gives index -1 and an undefined cell. The server tallies
  all undefined cells under one key, so three of them make a big win.
- The bonus flag is only ever set. The constructor shuffles and the handler
  shuffles again, so a served outcome has a bonus when either of two dice
  fell below 0.1.
- The client's `board.reverse()` reverses the very array the callback later
  receives, so the outcome handed on has its rows reversed.
- The client has no guard against a second spin while a board request or a
  settle timer is pending: every operation can be called in every state.

## Model

| member | source | states |
|---|---|---|
| SharedUtils.GetKeyValue | src/shared/SharedUtils.ts:8-11 | the projection is defined on every object that has the key and returns exactly `obj[key]` |
| SharedUtils.TileAt | src/shared/SharedUtils.ts:13-20 | indexing the table gives a symbol exactly for indices 0..5, with code index + 1; any other index gives `undefined` |
| SharedUtils.Round | src/server/classes/Board.class.ts:32 | `Math.round` gives the integer n with n - 1/2 <= x < n + 1/2, so halves round up |
| SharedUtils.TilesArrayShape | src/shared/SharedUtils.ts:1-20 | the table has six entries, entry i is i + 1, and the entries are strictly increasing and hence pairwise distinct |
| SharedUtils.SymbolMembership | src/shared/SharedUtils.ts:13-20 | a value is in the table exactly when it is 1..6 |
| ServerBoard.DrawIndexRange | src/server/classes/Board.class.ts:31-32 | for a random value in [0, 1) the drawn index `round(r * limit)` lies in [0, limit], and is 0 exactly when r * limit < 1/2 |
| ServerBoard.CellForMembership | src/server/classes/Board.class.ts:31-32 | a drawn cell is a table symbol exactly when the index k is in 1..6, and then it is `TILES_ARRAY[k - 1]`; k = 0 exactly when the cell is undefined |
| ServerBoard.RoundBounds | src/server/classes/Board.class.ts:32 | rounding a value in [0, l] gives an integer in [0, l], which is 0 exactly for values below 1/2 |
| ServerBoard.SmallDrawGivesUndefinedCell | src/server/classes/Board.class.ts:32 | every random value below 1/12 yields the undefined cell |
| ServerBoard.Tally | src/server/classes/Board.class.ts:41-46 | the `counts` table has a key exactly for each value on the board (undefined included), and each entry is that value's number of cells |
| ServerBoard.TallyRow | src/server/classes/Board.class.ts:43-45 | counting a row's cells on top of the table of the cells before it gives the table of all those cells |
| ServerBoard.TallyOfIsFrequency | src/server/classes/Board.class.ts:44 | the table built by counting cells one by one has a key exactly for each value that occurs, holding its number of occurrences |
| ServerBoard.TallyOfCells | src/server/classes/Board.class.ts:41-46 | the counted table of a board's cells is its frequency table |
| ServerBoard.TwoValuesBounded | src/server/classes/Board.class.ts:41-46 | two different values together occupy at most as many cells as there are |
| ServerBoard.NoDoubleWinOnThreeCells | src/server/classes/Board.class.ts:41-54 | on a three-cell board no value can occur twice while another occurs three times, so the small and big win are never both set |
| ServerBoard.SumOfCountsIsLength | src/server/classes/Board.class.ts:42-46 | the frequencies of any duplicate-free list of values covering the cells add up to the number of cells |
| ServerBoard.FrequenciesSumToCellCount | src/server/classes/Board.class.ts:42-46 | the frequency counts of a board sum to its number of cells |
| ServerBoard.CellsUpdate | src/server/classes/Board.class.ts:31 | replacing one row changes each value's count by exactly the difference between the new and the old row |
| ServerBoard.SwapKeepsClassification | src/server/classes/Board.class.ts:41-54 | exchanging two cells keeps the multiset of cells, and so keeps which frequencies occur: win classification does not depend on positions |
| ServerBoard.BonusIsSticky | src/server/classes/Board.class.ts:57-63 | after any number of bonus checks the flag is set exactly when it started set or some dice fell below the chance; it is never cleared |
| ServerBoard.SetCell | src/server/classes/Board.class.ts:31 | writing cell x of a row overwrites that cell (or appends at the end) and keeps every other cell |
| ServerBoard.RowRefillStep | src/server/classes/Board.class.ts:30-33 | drawing the next column extends a partly refilled row by exactly that cell |
| ServerBoard.Board.constructor | src/server/classes/Board.class.ts:11-23 | a 1 × 3 board over the six symbols with bonus chance 0.1, shuffled once: three drawn cells, win flags that match the frequencies, bonus exactly when the dice is below 0.1 |
| ServerBoard.Board.ShuffleBoard | src/server/classes/Board.class.ts:25-38 | rows 0..sizeY-1 are created when missing and get fresh cells in columns 0..sizeX-1 while every other row and cell is kept (the row count never shrinks); small win iff some value occurs twice, big win iff some value occurs three times; bonus becomes old bonus or dice < chance |
| ServerBoard.RefillRow | src/server/classes/Board.class.ts:30-33 | the row comes back with columns 0..sizeX-1 holding the cells drawn for them, in order, and the earlier row's later cells kept; it is as long as the longer of the two |
| ServerBoard.Board.FillRow | src/server/classes/Board.class.ts:30-33 | row y gets the drawn cell in each of columns 0..sizeX-1, its later cells and all other rows and flags are unchanged |
| ServerBoard.Board.CheckForWins | src/server/classes/Board.class.ts:40-55 | both win flags are overwritten from the current frequencies (pair for small, triple for big); board and bonus unchanged |
| ServerBoard.Board.CheckForBonus | src/server/classes/Board.class.ts:57-63 | the bonus is set when the dice is below the chance and otherwise left as it was; nothing else changes |
| ServerBoard.MainController | src/server/controllers/main.ts:4-10 | the served outcome is a 1 × 3 board from the second shuffle's draws with win flags that match it, and a bonus exactly when either shuffle's dice fell below 0.1 |
| ClientTile.NextTileImageIndex | src/client/classes/Tile.class.ts:217-220 | the centre image is type + 1 for types -1..4 and 0 for 5 and above; for every drawable type it is a slot 0..5; a missing cell (`null + 1`) gives 1 |
| ClientTile.LastTwoSymbolsShareCentre | src/client/classes/Tile.class.ts:217-220 | symbols 5 and 6 both get centre image 0 |
| ClientTile.StripDraws | src/client/classes/Tile.class.ts:223-251 | the strip has six draws: the centre image at the centre transform, then for k = 1..5 the slot k places back at k margins above the centre |
| ClientTile.StripStep | src/client/classes/Tile.class.ts:229-251 | the walk starts one slot back from the centre; each slot it visits before returning is not the centre, its draw extends the strip drawn so far, and the next slot is one further back, wrapping to 5; after five back images it is at the centre and the strip is complete |
| ClientTile.BackSlotReturns | src/client/classes/Tile.class.ts:229-232 | stepping back k places (1 <= k <= 6) from a slot, wrapping from 0 to 5, gives a slot that equals the start exactly after 6 steps |
| ClientTile.StripIsPermutation | src/client/classes/Tile.class.ts:236-251 | the five images behind the centre are the five other slots, pairwise different, every slot appears at a known place, and image k sits k margins above the centre |
| ClientTile.Tile.constructor | src/client/classes/Tile.class.ts:54-123 | the stand-by animation iff stand-by; delay 200 if stand-by else column × 200; length 180 if stand-by else 90; the texture holds the painted strip |
| ClientTile.Tile.DrawAllTilesToCanvas | src/client/classes/Tile.class.ts:212-253 | the walk ends, and the texture is exactly the strip for the tile's centre image: six draws in order |
| ClientTile.Tile.ClearCanvas | src/client/classes/Tile.class.ts:256-266 | the texture is wiped |
| ClientTile.Tile.DrawTileToCanvas | src/client/classes/Tile.class.ts:269-288 | one draw of the given image at the given place is added after the earlier ones |
| ClientTile.Tile.Destroy | src/client/classes/Tile.class.ts:291-293 | the tile is disposed |
| ClientBoard.PlacedThenLookup | src/client/classes/Board.class.ts:34-45 | after placing a tile at (r, c), reading (r, c) gives it; cells of other rows read as before; other cells of row r read as before, or `undefined` when the row was just created; no row disappears |
| ClientBoard.PlacedRowKeys | src/client/classes/Board.class.ts:34-37 | placing a row of tiles adds row r to the table exactly when at least one tile is placed, and no other row |
| ClientBoard.PlacedRowFacts | src/client/classes/Board.class.ts:34-40 | placing a row of tiles column by column leaves tile c at column c of that row, creates that row exactly when at least one tile is placed and no other row, keeps every other entry and adds nothing else |
| ClientBoard.ReverseAt | src/client/classes/Board.class.ts:58 | element i of the reversed grid is element n - 1 - i of the original |
| ClientBoard.ReverseTwice | src/client/classes/Board.class.ts:58 | reversing twice restores the original order, so drawing the same grid twice restores it |
| ClientBoard.ReverseDrawable | src/client/classes/Board.class.ts:58 | reversing keeps every cell drawable |
| ClientBoard.Board.constructor | src/client/classes/Board.class.ts:11-16 | a new board has an empty grid and an empty tile table |
| ClientBoard.Board.ShuffleBoard | src/client/classes/Board.class.ts:19-24 | the grid is the outcome's grid reversed, drawn rolling (not stand-by), and the callback receives the outcome with that reversed grid and the same flags |
| ClientBoard.Board.StandBy | src/client/classes/Board.class.ts:27-31 | the grid is the outcome's grid reversed and drawn with the stand-by animation |
| ClientBoard.Board.SetBoardTile | src/client/classes/Board.class.ts:34-40 | the table becomes the old table with row r created when missing and (r, c) set to the tile |
| ClientBoard.Board.GetBoardTile | src/client/classes/Board.class.ts:43-45 | reading (r, c) fails exactly when row r was never created (always for a negative row), gives `undefined` exactly for an empty cell of an existing row, and otherwise the stored tile |
| ClientBoard.Board.ClearBoard | src/client/classes/Board.class.ts:48-52 | every stored tile is destroyed (all keys are array indices, so `forEach` visits each one) and the table keeps all its entries |
| ClientBoard.Board.DrawBoard | src/client/classes/Board.class.ts:55-80 | the grid is reversed in place; all old tiles are destroyed; each cell (r, c) of the reversed grid holds a new tile of that cell's type with row r, column c and the given mode; old entries off the grid stay; the table's rows are the old rows plus the grid's non-empty rows, and nothing else is added |
| ClientBoard.Board.DrawTiles | src/client/classes/Board.class.ts:58-79 | one new tile per cell, of the cell's type and coordinates; entries off the grid stay; exactly the grid's non-empty rows are added to the table's rows, and no other entry is added |
| ClientBoard.Board.DrawRow | src/client/classes/Board.class.ts:60-78 | every cell of the row gets a new tile of its type and coordinates; the table gains that row exactly when the row has cells, and no other row; other rows and other cells are unchanged |
| Gui.ImagesDistinct | src/client/classes/GUIManager.class.ts:202-224 | each button state shows its own image |
| Gui.Change | src/client/classes/GUIManager.class.ts:196-224 | the state is set; when both controls exist the state's image is shown, the button is enabled in Normal, disabled in Disabled and left as it was in Hover and Pressed; otherwise neither control changes |
| Gui.StepStates | src/client/classes/GUIManager.class.ts:151-184 | pointer-enter moves Normal to Hover and nothing else; pointer-out moves Hover to Normal and nothing else; pointer-down always gives Pressed; pointer-up Disabled; the timer Normal; Hover is entered only from Normal by pointer-enter |
| Gui.StepConsistent | src/client/classes/GUIManager.class.ts:151-224 | one event keeps the button consistent: the image shows the state, enabled in Normal and Hover, disabled in Disabled |
| Gui.RunConsistent | src/client/classes/GUIManager.class.ts:151-224 | no sequence of pointer and timer events breaks that consistency |
| Gui.ReleaseThenTimerEnables | src/client/classes/GUIManager.class.ts:179-184 | a release followed by its timer leaves the button Normal and enabled, whatever its state before |
| Gui.SliderBetInRange | src/client/classes/GUIManager.class.ts:125-128 | a slider value in [1, 100] rounds to an integer bet in [1, 100] |
| Gui.GUIManager.constructor | src/client/classes/GUIManager.class.ts:43-69 | the button starts Normal and no control is known |
| Gui.GUIManager.SetupControls | src/client/classes/GUIManager.class.ts:88-131 | without a loaded layout nothing changes; with one the controls are taken from it and the slider's range is [1, 100] |
| Gui.GUIManager.SetupButton | src/client/classes/GUIManager.class.ts:187-193 | with a button: painted Normal (hence consistent) and the observers registered; without one nothing changes |
| Gui.GUIManager.SetButtonObservables | src/client/classes/GUIManager.class.ts:151-176 | the observers are registered exactly when there is a button |
| Gui.GUIManager.ChangeButtonState | src/client/classes/GUIManager.class.ts:196-199 | the state is always set to the argument, then repainted |
| Gui.GUIManager.UpdateButtonImage | src/client/classes/GUIManager.class.ts:202-224 | the button is repainted for the current state as `Change` describes |
| Gui.GUIManager.OnPointerEnter | src/client/classes/GUIManager.class.ts:153-158 | Normal becomes Hover; any other state is left alone |
| Gui.GUIManager.OnPointerOut | src/client/classes/GUIManager.class.ts:160-165 | Hover becomes Normal; any other state is left alone |
| Gui.GUIManager.OnPointerDown | src/client/classes/GUIManager.class.ts:167-169 | every state becomes Pressed |
| Gui.GUIManager.OnPointerUp | src/client/classes/GUIManager.class.ts:171-174 | the button becomes Disabled and one more re-enable timer is pending |
| Gui.GUIManager.ButtonPressedToggle | src/client/classes/GUIManager.class.ts:179-184 | the button becomes Disabled and one more re-enable timer is pending |
| Gui.GUIManager.EnableTimerFires | src/client/classes/GUIManager.class.ts:181-183 | the button returns to Normal and one timer fewer is pending |
| Game.Stake | src/client/classes/GameMode.class.ts:166-170 | the bet leaves coins and earnings alike; nothing else changes |
| Game.CreditSmall | src/client/classes/GameMode.class.ts:96-99 | one more small win; coins and earnings both rise by twice the bet; nothing else changes |
| Game.CreditBig | src/client/classes/GameMode.class.ts:109-112 | one more big win; coins and earnings both rise by five times the bet; nothing else changes |
| Game.CountBonus | src/client/classes/GameMode.class.ts:85-86 | one more bonus and no stake; nothing else changes |
| Game.ScoredIsAdditive | src/client/classes/GameMode.class.ts:123-135 | the small, big and bonus effects of an outcome are independent and add up; an outcome with no flag set changes nothing |
| Game.Autoplays | src/client/classes/GameMode.class.ts:151-154 | play continues by itself exactly when the checkbox exists and is checked and the outcome has no bonus |
| Game.SettleStartsAtMostOneSpin | src/client/classes/GameMode.class.ts:132-154 | settling one outcome starts at most one new spin: the bonus re-roll or the auto-play spin, never both |
| Game.BalanceKept | src/client/classes/GameMode.class.ts:96-170 | over any sequence of stakes, wins, bonuses and bet changes, coins − earnings never changes, so from the start it stays 10000 |
| Game.CountsNeverDecrease | src/client/classes/GameMode.class.ts:85-112 | the small, big and bonus counters never go down |
| Game.BetStaysInSliderRange | src/client/classes/GameMode.class.ts:160-163 | while every bet comes from the slider's range [1, 100], the bet stays an integer in that range |
| Game.ServedBoardIsDrawable | src/server/controllers/main.ts:4-10 | every board the handler serves (1 × 3 drawn cells) holds only table symbols and undefined cells, so the client can draw it |
| Game.FirstSmallWin | src/client/classes/GameMode.class.ts:57-62 | from the initial ledger, a staked spin that wins small gives 10050 coins, 50 earned and one small win |
| Game.GameMode.constructor | src/client/classes/GameMode.class.ts:44-64 | all win counters 0, coins 10000, earnings 0, bet 50; a new button manager and board; nothing pending |
| Game.GameMode.ShuffleBoard | src/client/classes/GameMode.class.ts:138-157 | one more board request is pending |
| Game.GameMode.PlayButtonCallback | src/client/classes/GameMode.class.ts:166-170 | the bet is debited from coins and earnings, then one more request is pending |
| Game.GameMode.SmallWin | src/client/classes/GameMode.class.ts:96-106 | the ledger is credited as `CreditSmall` says |
| Game.GameMode.BigWin | src/client/classes/GameMode.class.ts:109-120 | the ledger is credited as `CreditBig` says |
| Game.GameMode.BonusRoll | src/client/classes/GameMode.class.ts:85-93 | one more bonus, the button disabled with a re-enable timer pending, and one more request pending without a stake |
| Game.GameMode.UpdateScore | src/client/classes/GameMode.class.ts:123-135 | the ledger becomes the outcome's score; a bonus also disables the button and starts a request; otherwise the button is untouched |
| Game.GameMode.UpdateBet | src/client/classes/GameMode.class.ts:160-163 | the bet becomes the rounded value and no other counter changes |
| Game.GameMode.SpinOutcomeArrives | src/client/classes/GameMode.class.ts:146-149 | an answered request is drawn rolling on the board (grid reversed, old tiles destroyed, new ones drawn) and its outcome, with the reversed grid, waits for its settle timer |
| Game.GameMode.StartSettleTimer | src/client/classes/GameMode.class.ts:148-155 | the outcome is queued behind every settle timer already pending, and the queue is otherwise unchanged |
| Game.GameMode.SpinRequestFails | src/client/classes/Service.class.ts:11-14 | a failed request is no longer pending; its stake is not returned and nothing is scored |
| Game.GameMode.SettleTimerFires | src/client/classes/GameMode.class.ts:148-155 | the oldest waiting outcome is scored; the game then spins again by itself (a stake and a request, button disabled) exactly when auto-play is checked and the outcome had no bonus |
| Game.GameMode.SpinButtonReleased | src/client/classes/GUIManager.class.ts:171-174 | releasing the button disables it, starts its re-enable timer, then stakes the bet and requests a board |

## Left out

- ClientBoard.Board.SetBoardTile: row and column are natural numbers. JavaScript would also store a tile under a negative key, as a property that `length` and `forEach` do not see, so `clearBoard` would never destroy it; the only caller, `drawBoard`, passes array indices.
- Rendering is not modelled: meshes, materials, textures and their canvas transforms, animation keyframes, camera, lights and the machine mesh import. The texture is the list of draw commands.
- Mesh positions and rotations in the client's `drawBoard` are float arithmetic and are not modelled.
- `Math.random()` values are real-number parameters. `r * limit`, `Math.round` and `dice < 0.1` are computed exactly on reals, so floating-point rounding of the product is not modelled.
- The HTTP service is not modelled: fetch, JSON encoding, the Express server, the GUI controller and the Netlify function. Requests are a pending count and their answers are parameters. The Netlify function does what the modelled handler does. The JSON conversion of `undefined` to `null` keeps the same `Missing` value.
- Loading the GUI layout from its URL is not modelled; its result is the `Layout` parameter of `SetupControls`.
- The label updates (`updateAllCounters`, the six `update*Counter` methods, `updateCounters`) are not modelled. Neither are the cursor style and the DOM highlight classes with their 2000 ms timers. `updateScoreAndCounters` is therefore only its score part, inside `SettleTimerFires`.
- The lever animation in GameMode's `shuffleBoard` is not modelled.
- `initializeBabylonApp`, `setup` and `CreateScene` are not modelled. This includes the start-up `board.standBy()` request; the board's `StandBy` continuation itself is modelled.
- The tile's `setup` (its delayed animation start and second painting of the same strip), image loading and mesh setters are not modelled.
- Gui.GUIManager.SetupControls: the TypeError thrown when the layout lacks the background image or the bet slider is not modelled; the slider is always given its range.
- The user ticking the auto-play checkbox is handled inside the GUI library and is not modelled; the checkbox value comes with the layout.
- Whether the GUI library suppresses pointer events on a disabled button is library behaviour; the handlers are modelled as the code writes them, with no guard.
- ClientTile.Tile.constructor: requires a type of -1 or above, or a missing cell. For a lower code the centre image index is negative, the first draw gets no image and throws; only if it did not would the strip walk never end. The server only sends 1..6 and `null` (Game.ServedBoardIsDrawable), so the client board's operations require drawable grids.

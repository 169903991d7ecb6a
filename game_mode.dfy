/** The client's game loop: the score ledger (win counters, coins,
    earnings, bet) and the sequencing of spins. The service request, the
    3600 ms settle timer and the button's re-enable timer are asynchronous
    in the program; here each one is an explicit event method, and the
    requests and timers not yet answered or fired are fields. Rendering,
    the lever animation and the DOM highlights are not modelled. */
module Game {
  import opened SharedUtils
  import opened Gui
  import ClientBoard
  import ClientTile
  import ServerBoard

  const INITIAL_COINS: int := 10000
  const INITIAL_BET: int := 50
  /** A small win pays twice the bet, a big win five times. */
  const SMALL_WIN_FACTOR: int := 2
  const BIG_WIN_FACTOR: int := 5

  /** The six score counters. */
  datatype Ledger = Ledger(smallCount: int, bigCount: int, bonusCount: int, coins: int, earnings: int, bet: int)

  const INITIAL_LEDGER: Ledger := Ledger(0, 0, 0, INITIAL_COINS, 0, INITIAL_BET)

  /** The stake of a spin: the bet leaves both coins and earnings. */
  function Stake(l: Ledger): (r: Ledger)
    ensures r.coins == l.coins - l.bet && r.earnings == l.earnings - l.bet
    ensures r.(coins := l.coins, earnings := l.earnings) == l
  {
    l.(coins := l.coins - l.bet, earnings := l.earnings - l.bet)
  }

  /** A small win: one more small win, twice the bet credited. */
  function CreditSmall(l: Ledger): (r: Ledger)
    ensures r.smallCount == l.smallCount + 1
    ensures r.coins - l.coins == r.earnings - l.earnings == SMALL_WIN_FACTOR * l.bet
    ensures r.(smallCount := l.smallCount, coins := l.coins, earnings := l.earnings) == l
  {
    l.(smallCount := l.smallCount + 1, coins := l.coins + l.bet * 2, earnings := l.earnings + l.bet * 2)
  }

  /** A big win: one more big win, five times the bet credited. */
  function CreditBig(l: Ledger): (r: Ledger)
    ensures r.bigCount == l.bigCount + 1
    ensures r.coins - l.coins == r.earnings - l.earnings == BIG_WIN_FACTOR * l.bet
    ensures r.(bigCount := l.bigCount, coins := l.coins, earnings := l.earnings) == l
  {
    l.(bigCount := l.bigCount + 1, coins := l.coins + l.bet * 5, earnings := l.earnings + l.bet * 5)
  }

  /** A bonus: one more bonus; the free re-roll stakes nothing. */
  function CountBonus(l: Ledger): (r: Ledger)
    ensures r.bonusCount == l.bonusCount + 1
    ensures r.(bonusCount := l.bonusCount) == l
  {
    l.(bonusCount := l.bonusCount + 1)
  }

  /** `updateScore`: the small, big and bonus effects, in that order. */
  function Scored(l: Ledger, o: GameOutcome): Ledger
  {
    var afterSmall := if o.smallWin then CreditSmall(l) else l;
    var afterBig := if o.bigWin then CreditBig(afterSmall) else afterSmall;
    if o.bonus then CountBonus(afterBig) else afterBig
  }

  function Indicator(b: bool): int
  {
    if b then 1 else 0
  }

  /** The three effects are independent and add up; an outcome with no
      flag set changes nothing. */
  lemma ScoredIsAdditive(l: Ledger, o: GameOutcome)
    ensures Scored(l, o).smallCount == l.smallCount + Indicator(o.smallWin)
    ensures Scored(l, o).bigCount == l.bigCount + Indicator(o.bigWin)
    ensures Scored(l, o).bonusCount == l.bonusCount + Indicator(o.bonus)
    ensures Scored(l, o).coins
              == l.coins + SMALL_WIN_FACTOR * l.bet * Indicator(o.smallWin) + BIG_WIN_FACTOR * l.bet * Indicator(o.bigWin)
    ensures Scored(l, o).earnings
              == l.earnings + SMALL_WIN_FACTOR * l.bet * Indicator(o.smallWin) + BIG_WIN_FACTOR * l.bet * Indicator(o.bigWin)
    ensures Scored(l, o).bet == l.bet
    ensures !o.smallWin && !o.bigWin && !o.bonus ==> Scored(l, o) == l
  {
  }

  /** The game plays on by itself after a settled outcome exactly when the
      auto-play checkbox exists and is checked and the outcome carried no
      bonus (a bonus has already started its own free spin). */
  function Autoplays(checkBox: Option<CheckBoxControl>, o: GameOutcome): (play: bool)
    ensures play ==> !o.bonus
    ensures play <==> checkBox == Some(CheckBoxControl(true)) && !o.bonus
  {
    checkBox.Some? && checkBox.value.isChecked && !o.bonus
  }

  /** What one settled outcome does to the ledger, auto-play included. */
  function Settled(l: Ledger, checkBox: Option<CheckBoxControl>, o: GameOutcome): Ledger
  {
    if Autoplays(checkBox, o) then Stake(Scored(l, o)) else Scored(l, o)
  }

  /** Settling an outcome starts at most one new spin: the bonus re-roll or
      the auto-play spin, never both. */
  lemma SettleStartsAtMostOneSpin(checkBox: Option<CheckBoxControl>, o: GameOutcome)
    ensures Indicator(o.bonus) + Indicator(Autoplays(checkBox, o)) <= 1
  {
  }

  /** The operations that change the ledger. */
  datatype LedgerOp = StakeOp | SmallWinOp | BigWinOp | BonusOp | BetOp(value: real)

  function Apply(l: Ledger, op: LedgerOp): Ledger
  {
    match op
    case StakeOp => Stake(l)
    case SmallWinOp => CreditSmall(l)
    case BigWinOp => CreditBig(l)
    case BonusOp => CountBonus(l)
    case BetOp(v) => l.(bet := Round(v))
  }

  function ApplyAll(l: Ledger, ops: seq<LedgerOp>): Ledger
    decreases |ops|
  {
    if ops == [] then l else ApplyAll(Apply(l, ops[0]), ops[1..])
  }

  /** Every operation moves coins and earnings by the same amount, so their
      difference never changes: from the initial ledger it stays 10000. */
  lemma {:induction false} BalanceKept(l: Ledger, ops: seq<LedgerOp>)
    ensures ApplyAll(l, ops).coins - ApplyAll(l, ops).earnings == l.coins - l.earnings
    decreases |ops|
  {
    if ops != [] {
      BalanceKept(Apply(l, ops[0]), ops[1..]);
    }
  }

  /** The win and bonus counters never go down. */
  lemma {:induction false} CountsNeverDecrease(l: Ledger, ops: seq<LedgerOp>)
    ensures ApplyAll(l, ops).smallCount >= l.smallCount
    ensures ApplyAll(l, ops).bigCount >= l.bigCount
    ensures ApplyAll(l, ops).bonusCount >= l.bonusCount
    decreases |ops|
  {
    if ops != [] {
      CountsNeverDecrease(Apply(l, ops[0]), ops[1..]);
    }
  }

  /** While every bet comes from the slider's range, the bet stays an
      integer in that range. */
  lemma {:induction false} BetStaysInSliderRange(l: Ledger, ops: seq<LedgerOp>)
    requires BET_MINIMUM <= l.bet <= BET_MAXIMUM
    requires forall i :: 0 <= i < |ops| && ops[i].BetOp? ==>
               BET_MINIMUM as real <= ops[i].value <= BET_MAXIMUM as real
    ensures BET_MINIMUM <= ApplyAll(l, ops).bet <= BET_MAXIMUM
    decreases |ops|
  {
    if ops != [] {
      if ops[0].BetOp? {
        SliderBetInRange(ops[0].value);
      }
      BetStaysInSliderRange(Apply(l, ops[0]), ops[1..]);
    }
  }

  /** From the start, a spin that wins small nets the bet: 10050 coins,
      50 earned, one small win. */
  lemma FirstSmallWin()
    ensures ApplyAll(INITIAL_LEDGER, [StakeOp, SmallWinOp]) == Ledger(1, 0, 0, 10050, 50, 50)
  {
    assert [StakeOp, SmallWinOp][1..] == [SmallWinOp];
    assert [SmallWinOp][1..] == [];
  }

  /** The boards the server's handler serves are ones the client can draw:
      a 1 × 3 grid of drawn cells holds only table symbols and undefined
      cells, whatever the random values were. */
  lemma ServedBoardIsDrawable(g: seq<seq<Cell>>, random: (nat, nat) -> real)
    requires |g| == 1 && |g[0]| == 3
    requires forall x :: 0 <= x < 3 ==> g[0][x] == ServerBoard.CellFor(random(0, x), |TILES_ARRAY|)
    ensures forall r, c :: 0 <= r < |g| && 0 <= c < |g[r]| ==> g[r][c] == Missing || g[r][c].code in TILES_ARRAY
    ensures ClientBoard.DrawableGrid(g)
  {
    forall r, c | 0 <= r < |g| && 0 <= c < |g[r]|
      ensures g[r][c] == Missing || g[r][c].code in TILES_ARRAY
      ensures ClientTile.ValidType(g[r][c])
    {
      assert g[r][c] == ServerBoard.CellFor(random(0, c), |TILES_ARRAY|);
      if g[r][c].Symbol? {
        SymbolMembership(g[r][c].code);
      }
    }
  }

  class GameMode {
    const gui: GUIManager
    const board: ClientBoard.Board
    var smallCount: int
    var bigCount: int
    var bonusCount: int
    var coins: int
    var earnings: int
    var bet: int
    /** Board requests sent to the service and not yet answered. */
    var spinRequests: nat
    /** Outcomes delivered and waiting for their 3600 ms timer, in the order
        the timers fire. */
    var settleTimers: seq<GameOutcome>

    function Counters(): Ledger
      reads this
    {
      Ledger(smallCount, bigCount, bonusCount, coins, earnings, bet)
    }

    /** A fresh GUI manager and board; counters at 0, 10000 coins, bet 50. */
    constructor ()
      ensures fresh(gui) && fresh(board)
      ensures Counters() == INITIAL_LEDGER
      ensures gui.buttonState == Normal && gui.buttonCtrl == None && gui.checkBox == None
      ensures gui.pendingEnableTimers == 0 && !gui.handlersAttached
      ensures board.board == [] && board.tileBoard == map[]
      ensures spinRequests == 0 && settleTimers == []
    {
      gui := new GUIManager();
      board := new ClientBoard.Board();
      smallCount := 0;
      bigCount := 0;
      bonusCount := 0;
      coins := 10000;
      earnings := 0;
      bet := 50;
      spinRequests := 0;
      settleTimers := [];
    }

    /** Ask the board for a new outcome. */
    method ShuffleBoard()
      modifies this`spinRequests
      ensures spinRequests == old(spinRequests) + 1
    {
      spinRequests := spinRequests + 1;
    }

    /** The spin action: stake the bet, then spin. */
    method PlayButtonCallback()
      modifies this`coins, this`earnings, this`spinRequests
      ensures Counters() == Stake(old(Counters()))
      ensures spinRequests == old(spinRequests) + 1
    {
      coins := coins - bet;
      earnings := earnings - bet;
      ShuffleBoard();
    }

    method SmallWin()
      modifies this`smallCount, this`coins, this`earnings
      ensures Counters() == CreditSmall(old(Counters()))
    {
      smallCount := smallCount + 1;
      coins := coins + bet * 2;
      earnings := earnings + bet * 2;
    }

    method BigWin()
      modifies this`bigCount, this`coins, this`earnings
      ensures Counters() == CreditBig(old(Counters()))
    {
      bigCount := bigCount + 1;
      coins := coins + bet * 5;
      earnings := earnings + bet * 5;
    }

    /** The free re-roll: count it, disable the button, spin without a stake. */
    method BonusRoll()
      modifies this`bonusCount, this`spinRequests
      modifies gui`buttonState, gui`buttonCtrl, gui`imageCtrl, gui`pendingEnableTimers
      ensures Counters() == CountBonus(old(Counters()))
      ensures spinRequests == old(spinRequests) + 1
      ensures gui.Ui() == Step(old(gui.Ui()), PointerUp)
      ensures gui.pendingEnableTimers == old(gui.pendingEnableTimers) + 1
    {
      bonusCount := bonusCount + 1;
      gui.ButtonPressedToggle();
      ShuffleBoard();
    }

    /** Apply an outcome's small, big and bonus effects. */
    method UpdateScore(outcome: GameOutcome)
      modifies this`smallCount, this`bigCount, this`bonusCount, this`coins, this`earnings, this`spinRequests
      modifies gui`buttonState, gui`buttonCtrl, gui`imageCtrl, gui`pendingEnableTimers
      ensures Counters() == Scored(old(Counters()), outcome)
      ensures spinRequests == old(spinRequests) + Indicator(outcome.bonus)
      ensures gui.Ui() == if outcome.bonus then Step(old(gui.Ui()), PointerUp) else old(gui.Ui())
      ensures gui.pendingEnableTimers == old(gui.pendingEnableTimers) + Indicator(outcome.bonus)
    {
      if outcome.smallWin {
        SmallWin();
      }
      if outcome.bigWin {
        BigWin();
      }
      if outcome.bonus {
        BonusRoll();
      }
    }

    /** Set the bet from the slider: the value rounded to an integer. */
    method UpdateBet(value: real)
      modifies this`bet
      ensures Counters() == old(Counters()).(bet := Round(value))
    {
      bet := Round(value);
    }

    /** The service answered a board request: the board draws it rolling
        and hands the outcome (sharing the now reversed grid) to the
        callback, which starts the settle timer. */
    method SpinOutcomeArrives(outcome: GameOutcome)
      requires spinRequests > 0
      requires ClientBoard.DrawableGrid(outcome.board)
      modifies this`spinRequests, this`settleTimers, board, board.Tiles()`disposed
      ensures spinRequests == old(spinRequests) - 1
      ensures board.board == ClientBoard.Reverse(outcome.board)
      ensures settleTimers == old(settleTimers) + [outcome.(board := board.board)]
      ensures board.Drawn(old(board.tileBoard), old(board.Tiles()), false)
    {
      spinRequests := spinRequests - 1;
      var delivered := board.ShuffleBoard(outcome);
      StartSettleTimer(delivered);
    }

    /** The outcome callback starts the settle timer for the outcome. */
    method StartSettleTimer(outcome: GameOutcome)
      modifies this`settleTimers
      ensures settleTimers == old(settleTimers) + [outcome]
    {
      settleTimers := settleTimers + [outcome];
    }

    /** A board request failed: its callback never runs. */
    method SpinRequestFails()
      requires spinRequests > 0
      modifies this`spinRequests
      ensures spinRequests == old(spinRequests) - 1
    {
      spinRequests := spinRequests - 1;
    }

    /** The oldest settle timer fires: score its outcome, then play on by
        itself when auto-play is checked and there was no bonus. */
    method SettleTimerFires()
      requires |settleTimers| > 0
      modifies this`smallCount, this`bigCount, this`bonusCount, this`coins, this`earnings
      modifies this`spinRequests, this`settleTimers
      modifies gui`buttonState, gui`buttonCtrl, gui`imageCtrl, gui`pendingEnableTimers
      ensures var o := old(settleTimers[0]);
              var more := Indicator(o.bonus) + Indicator(Autoplays(gui.checkBox, o));
              && settleTimers == old(settleTimers[1..])
              && Counters() == Settled(old(Counters()), gui.checkBox, o)
              && spinRequests == old(spinRequests) + more
              && gui.pendingEnableTimers == old(gui.pendingEnableTimers) + more
              && gui.Ui() == if more == 1 then Step(old(gui.Ui()), PointerUp) else old(gui.Ui())
    {
      var outcome := settleTimers[0];
      settleTimers := settleTimers[1..];
      UpdateScore(outcome);
      if gui.checkBox.Some? && gui.checkBox.value.isChecked && !outcome.bonus {
        gui.ButtonPressedToggle();
        PlayButtonCallback();
      }
    }

    /** The spin button is released: the button's own handler, then the
        spin action registered with it. */
    method SpinButtonReleased()
      requires gui.handlersAttached
      modifies this`coins, this`earnings, this`spinRequests
      modifies gui`buttonState, gui`buttonCtrl, gui`imageCtrl, gui`pendingEnableTimers
      ensures Counters() == Stake(old(Counters()))
      ensures spinRequests == old(spinRequests) + 1
      ensures gui.Ui() == Step(old(gui.Ui()), PointerUp)
      ensures gui.pendingEnableTimers == old(gui.pendingEnableTimers) + 1
    {
      gui.OnPointerUp();
      PlayButtonCallback();
    }
  }
}

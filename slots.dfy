/**
 * The slot machine (components/slot-machine.tsx): the three-reel payout table,
 * the bet stepping, and the two steps of a spin — the click, which places the
 * bet, and the two-second timeout, which stops the reels and settles the win.
 * The final reel symbols, drawn with `Math.random` in the source, are an input.
 */
module Slots {
  import opened Wrappers
  import opened Transactions

  /** The game's key in the `game_type` column. */
  const GameType: string := "slots"

  datatype Symbol = Cherry | Lemon | Orange | Grape | Diamond | Seven | Star

  const MinBet: int := 10
  const MaxBet: int := 100
  const BetStep: int := 10

  /** The amount won by a spin of `bet` that stops on `reels`. */
  function Payout(bet: int, reels: seq<Symbol>): int
    requires |reels| == 3
  {
    if reels[0] == reels[1] && reels[1] == reels[2] then
      if reels[0] == Diamond then bet * 100
      else if reels[0] == Seven then bet * 50
      else if reels[0] == Star then bet * 25
      else bet * 10
    else if reels[0] == reels[1] || reels[1] == reels[2] then
      bet * 2
    else
      0
  }

  /** The multiplier of a three-of-a-kind of `s`. */
  function TripleMultiplier(s: Symbol): (m: int)
    ensures m in {100, 50, 25, 10}
  {
    match s
    case Diamond => 100
    case Seven => 50
    case Star => 25
    case _ => 10
  }

  /**
   * The payout table: three equal symbols pay by their symbol, an adjacent pair
   * (left two or right two, not all three) pays double, and anything else —
   * including equal outer reels around a different middle one — pays nothing.
   */
  lemma PayoutTable(bet: int, reels: seq<Symbol>)
    requires |reels| == 3
    ensures reels[0] == reels[1] == reels[2] ==> Payout(bet, reels) == bet * TripleMultiplier(reels[0])
    ensures !(reels[0] == reels[1] == reels[2]) && (reels[0] == reels[1] || reels[1] == reels[2])
            ==> Payout(bet, reels) == bet * 2
    ensures reels[0] != reels[1] && reels[1] != reels[2] ==> Payout(bet, reels) == 0
  {
  }

  /** For a positive bet, a spin pays exactly when some adjacent pair of reels agrees. */
  lemma PaysIffAdjacentPair(bet: int, reels: seq<Symbol>)
    requires |reels| == 3 && bet > 0
    ensures Payout(bet, reels) > 0 <==> reels[0] == reels[1] || reels[1] == reels[2]
    ensures Payout(bet, reels) >= 0
  {
  }

  /** The outer reels alone never pay. */
  lemma OuterPairPaysNothing(bet: int, a: Symbol, b: Symbol)
    requires a != b
    ensures Payout(bet, [a, b, a]) == 0
  {
  }

  /** Diamonds with a bet of 10 win 1000; cherry-cherry-lemon wins 20; cherry-lemon-cherry nothing. */
  lemma PayoutExamples()
    ensures Payout(10, [Diamond, Diamond, Diamond]) == 1000
    ensures Payout(10, [Cherry, Cherry, Lemon]) == 20
    ensures Payout(10, [Cherry, Lemon, Cherry]) == 0
  {
  }

  /** A bet the controls can reach: a multiple of 10 between 10 and 100. */
  predicate ValidBet(bet: int)
  {
    MinBet <= bet <= MaxBet && bet % BetStep == 0
  }

  class SlotMachine {
    var bet: int
    var reels: seq<Symbol>
    var spinning: bool
    var lastWin: int
    /** The balance shown by the game (the `balance` prop). */
    var balance: int
    /** The bet and the balance the pending timeout captured when the spin began. */
    var spinBet: int
    var spinBalance: int

    ghost predicate Valid()
      reads this
    {
      && ValidBet(bet)
      && |reels| == 3
      && (spinning ==> balance == spinBalance - spinBet)
    }

    constructor (balance: int)
      ensures Valid()
      ensures this.balance == balance && bet == 10 && reels == [Cherry, Lemon, Orange]
      ensures !spinning && lastWin == 0
    {
      this.balance := balance;
      bet := 10;
      reels := [Cherry, Lemon, Orange];
      spinning := false;
      lastWin := 0;
      spinBet := 0;
      spinBalance := 0;
    }

    /** `increaseBet`: one step up, only while the bet is below the balance and below 100. */
    method IncreaseBet()
      requires Valid()
      modifies this`bet
      ensures Valid()
      ensures bet == StepOnce(old(bet), balance, true)
      ensures bet > old(bet) ==> old(bet) < balance
    {
      if bet < balance && bet < MaxBet {
        bet := bet + BetStep;
      }
    }

    /** `decreaseBet`: one step down, never below 10. */
    method DecreaseBet()
      requires Valid()
      modifies this`bet
      ensures Valid()
      ensures bet == StepOnce(old(bet), balance, false)
    {
      if bet > MinBet {
        bet := bet - BetStep;
      }
    }

    /**
     * `spin`, up to the scheduling of its timeout: ignored while spinning or when
     * the shown balance is below the bet; a bet the ledger refuses clears
     * `spinning` and changes nothing else; an accepted bet lowers the shown
     * balance and leaves the spin pending.
     */
    method Spin(ledger: Ledger, userId: string, insertOk: bool) returns (betResult: Option<TransactionResponse>)
      requires Valid() && ledger.Valid()
      modifies this, ledger, ledger.store
      ensures Valid() && ledger.Valid()
      ensures bet == old(bet) && reels == old(reels) && lastWin == old(lastWin)
      ensures old(spinning) || old(balance) < old(bet) ==>
        && betResult == None
        && unchanged(this) && unchanged(ledger) && unchanged(ledger.store)
      ensures !old(spinning) && old(balance) >= old(bet) ==>
        && betResult.Some?
        && (betResult.value.success <==> old(ledger.store.GetUserBalance(userId)) >= old(bet) && insertOk)
      ensures betResult.Some? && betResult.value.success ==>
        var before := old(ledger.store.GetUserBalance(userId));
        var row := Transaction(userId, GameType, Bet, old(bet), before, before - old(bet));
        && betResult.value.transaction == Some(row)
        && ledger.table == old(ledger.table) + [row]
        && spinning && balance == old(balance) - old(bet)
        && spinBet == old(bet) && spinBalance == old(balance)
      ensures betResult.Some? && !betResult.value.success ==>
        && ledger.table == old(ledger.table) && ledger.store.storage == old(ledger.store.storage)
        && !spinning && balance == old(balance)
    {
      if spinning || balance < bet {
        return None;
      }
      // `spinning` is raised before the bet and lowered again if the bet is
      // refused; nothing observes it in between, so it is set once here.
      var r := ledger.CreateBetTransaction(userId, GameType, bet, insertOk);
      betResult := Some(r);
      if r.success {
        spinning := true;
        spinBet, spinBalance := bet, balance;
        balance := balance - bet;
      }
    }

    /**
     * The spin's timeout: the reels stop on `finalReels`; a positive payout is
     * written as a win (whatever the insert's outcome) and the shown balance
     * becomes the captured balance minus the bet plus the win; a zero payout
     * writes nothing and sets `lastWin` to 0. Without a pending spin there is no
     * timeout and nothing happens.
     */
    method FinishSpin(ledger: Ledger, userId: string, finalReels: seq<Symbol>, winInsertOk: bool)
      requires Valid() && ledger.Valid()
      requires |finalReels| == 3
      modifies this, ledger, ledger.store
      ensures Valid() && ledger.Valid()
      ensures bet == old(bet) && !spinning
      ensures !old(spinning) ==> unchanged(this) && unchanged(ledger) && unchanged(ledger.store)
      ensures old(spinning) ==>
        var win := Payout(old(spinBet), finalReels);
        && reels == finalReels
        && lastWin == (if win > 0 then win else 0)
        && balance == old(spinBalance) - old(spinBet) + (if win > 0 then win else 0)
        && balance == old(balance) + (if win > 0 then win else 0)
        && (win > 0 && winInsertOk ==>
              ledger.table == old(ledger.table)
                + [Transaction(userId, GameType, Win, win,
                               old(ledger.store.GetUserBalance(userId)),
                               old(ledger.store.GetUserBalance(userId)) + win)])
        && (win <= 0 || !winInsertOk ==>
              ledger.table == old(ledger.table) && ledger.store.storage == old(ledger.store.storage))
    {
      if !spinning {
        return;
      }
      reels := finalReels;
      var winAmount := Payout(spinBet, finalReels);
      if winAmount > 0 {
        var _ := ledger.CreateWinTransaction(userId, GameType, winAmount, winInsertOk);
        balance := spinBalance - spinBet + winAmount;
        lastWin := winAmount;
      } else {
        lastWin := 0;
      }
      spinning := false;
    }
  }

  /** Starting from 10, any sequence of steps keeps the bet a multiple of 10 in [10, 100]. */
  lemma StepsKeepBetValid(bet: int, balance: int, ups: seq<bool>)
    requires ValidBet(bet)
    ensures ValidBet(StepBet(bet, balance, ups))
    decreases |ups|
  {
    if ups != [] {
      StepsKeepBetValid(StepOnce(bet, balance, ups[0]), balance, ups[1..]);
    }
  }

  /** One press of the up (`true`) or down (`false`) control, as `IncreaseBet` and `DecreaseBet` do it. */
  function StepOnce(bet: int, balance: int, up: bool): int
  {
    if up then (if bet < balance && bet < MaxBet then bet + BetStep else bet)
    else (if bet > MinBet then bet - BetStep else bet)
  }

  function StepBet(bet: int, balance: int, ups: seq<bool>): int
    decreases |ups|
  {
    if ups == [] then bet else StepBet(StepOnce(bet, balance, ups[0]), balance, ups[1..])
  }
}

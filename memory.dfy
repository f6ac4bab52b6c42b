/**
 * The memory game (components/memory-game.tsx): a 16-card board holding each of
 * 8 symbols twice, a click handler that turns up at most two cards, the two
 * `setTimeout` callbacks that settle a pair, and the effect that pays a
 * completed board.
 *
 * The shuffle (`sort(() => Math.random() - 0.5)`) is an input: some arrangement
 * of the 16 symbols. Each timeout is an explicit step, `FireTimer`, and carries
 * what its closure captured: the `cards` array of the render in which the
 * second card was clicked. Timers may fire in any order.
 */
module Memory {
  import opened Wrappers
  import opened Transactions

  /** The game's key in the `game_type` column. */
  const GameType: string := "memory"

  datatype Symbol = Cherry | Lemon | Orange | Grape | Diamond | Seven | Star | SlotMachine

  const CardSymbols: seq<Symbol> := [Cherry, Lemon, Orange, Grape, Diamond, Seven, Star, SlotMachine]

  /** The fixed price of a game. */
  const BetAmount: int := 20

  const BoardSize: int := 16

  datatype MemoryCard = MemoryCard(id: int, symbol: Symbol, isFlipped: bool, isMatched: bool)

  /** A pending `setTimeout` callback of `handleCardClick`. */
  datatype Timer = Timer(snapshot: seq<MemoryCard>, firstId: int, secondId: int, matched: bool)

  // ---------------------------------------------------------------------------
  // The board

  /** An arrangement that sorting the doubled symbol list can produce. */
  predicate IsShuffle(symbols: seq<Symbol>)
  {
    multiset(symbols) == multiset(CardSymbols + CardSymbols)
  }

  /** The symbols of the cards, in board order. */
  function SymbolsOf(cards: seq<MemoryCard>): (s: seq<Symbol>)
    ensures |s| == |cards|
    ensures forall i :: 0 <= i < |cards| ==> s[i] == cards[i].symbol
  {
    seq(|cards|, i requires 0 <= i < |cards| => cards[i].symbol)
  }

  /** 16 cards with ids 0..15 in order, each symbol on exactly two of them. */
  predicate IsBoard(cards: seq<MemoryCard>)
  {
    && |cards| == BoardSize
    && IdsInOrder(cards)
    && forall s: Symbol :: multiset(SymbolsOf(cards))[s] == 2
  }

  /** Each card's id is its position. */
  predicate IdsInOrder(cards: seq<MemoryCard>)
  {
    forall i :: 0 <= i < |cards| ==> cards[i].id == i
  }

  /** `.map((symbol, index) => ({ id: index, symbol, isFlipped: false, isMatched: false }))` */
  function Deal(symbols: seq<Symbol>): seq<MemoryCard>
  {
    seq(|symbols|, i requires 0 <= i < |symbols| => MemoryCard(i, symbols[i], false, false))
  }

  lemma DoubledSymbols(s: Symbol)
    ensures multiset(CardSymbols + CardSymbols)[s] == 2
  {
    var once := multiset{Cherry, Lemon, Orange, Grape, Diamond, Seven, Star, SlotMachine};
    assert once[s] == 1;
    assert multiset(CardSymbols) == once;
    assert multiset(CardSymbols + CardSymbols) == once + once;
  }

  /** A board with every card face down and unmatched. */
  predicate FreshBoard(cards: seq<MemoryCard>)
  {
    IsBoard(cards) && forall c <- cards :: !c.isFlipped && !c.isMatched
  }

  /** A new board: 16 cards, ids 0..15, each symbol twice, all face down and unmatched. */
  lemma NewBoard(symbols: seq<Symbol>)
    requires IsShuffle(symbols)
    ensures FreshBoard(Deal(symbols))
  {
    var cards := Deal(symbols);
    assert |symbols| == |CardSymbols + CardSymbols| == BoardSize by {
      assert |multiset(symbols)| == |multiset(CardSymbols + CardSymbols)|;
    }
    assert SymbolsOf(cards) == symbols;
    forall s: Symbol
      ensures multiset(SymbolsOf(cards))[s] == 2
    {
      DoubledSymbols(s);
    }
  }

  /** Two boards with the same ids and symbols in the same places. */
  predicate SameLayout(a: seq<MemoryCard>, b: seq<MemoryCard>)
  {
    |a| == |b| && forall i :: 0 <= i < |a| ==> a[i].id == b[i].id && a[i].symbol == b[i].symbol
  }

  lemma SameLayoutKeepsBoard(a: seq<MemoryCard>, b: seq<MemoryCard>)
    requires IsBoard(a) && SameLayout(a, b)
    ensures IsBoard(b)
  {
    assert SymbolsOf(a) == SymbolsOf(b);
  }

  /** Every matched card has a matched partner with the same symbol. */
  predicate MatchedInPairs(cards: seq<MemoryCard>)
  {
    forall i {:trigger MatchedAt(cards, i)} :: 0 <= i < |cards| && MatchedAt(cards, i) ==>
      exists j :: 0 <= j < |cards| && j != i && cards[j].symbol == cards[i].symbol && cards[j].isMatched
  }

  /** Card `i` is matched. */
  predicate MatchedAt(cards: seq<MemoryCard>, i: int)
    requires 0 <= i < |cards|
  {
    cards[i].isMatched
  }

  /** Turning cards up or down, which leaves symbols and matches in place, keeps the pairs. */
  lemma SameMatchesKeepPairs(a: seq<MemoryCard>, b: seq<MemoryCard>)
    requires MatchedInPairs(a)
    requires |a| == |b|
    requires forall i :: 0 <= i < |a| ==> a[i].symbol == b[i].symbol && a[i].isMatched == b[i].isMatched
    ensures MatchedInPairs(b)
  {
    forall i | 0 <= i < |b| && MatchedAt(b, i)
      ensures exists j :: 0 <= j < |b| && j != i && b[j].symbol == b[i].symbol && b[j].isMatched
    {
      assert MatchedAt(a, i);
      var j :| 0 <= j < |a| && j != i && a[j].symbol == a[i].symbol && a[j].isMatched;
      assert b[j].isMatched;
    }
  }

  /** Every card is matched: the board is solved. */
  predicate AllMatched(cards: seq<MemoryCard>)
  {
    forall c <- cards :: c.isMatched
  }

  // ---------------------------------------------------------------------------
  // Card lookups and updates

  /** `cards.find((c) => c.id === id)`, as an index. */
  function FindCard(cards: seq<MemoryCard>, id: int): (r: Option<nat>)
    ensures r.Some? ==> r.value < |cards| && cards[r.value].id == id
    ensures r.Some? ==> forall j :: 0 <= j < r.value ==> cards[j].id != id
    ensures r.None? ==> forall j :: 0 <= j < |cards| ==> cards[j].id != id
  {
    if cards == [] then None
    else if cards[0].id == id then Some(0)
    else match FindCard(cards[1..], id)
      case None => None
      case Some(k) => Some(k + 1)
  }

  /** On a board, card `id` sits at index `id`, and no other id is found. */
  lemma FindOnBoard(cards: seq<MemoryCard>, id: int)
    requires IdsInOrder(cards)
    ensures FindCard(cards, id) == if 0 <= id < |cards| then Some(id) else None
  {
    if 0 <= id < |cards| {
      assert cards[id].id == id;
    }
  }

  /** `firstCard?.symbol`: the symbol of card `id`, if there is such a card. */
  function SymbolOf(cards: seq<MemoryCard>, id: int): Option<Symbol>
  {
    match FindCard(cards, id)
    case None => None
    case Some(i) => Some(cards[i].symbol)
  }

  /** The card with this id turned face up. */
  function FlipUp(cards: seq<MemoryCard>, id: int): seq<MemoryCard>
  {
    seq(|cards|, i requires 0 <= i < |cards| =>
      if cards[i].id == id then cards[i].(isFlipped := true) else cards[i])
  }

  /** The two cards with these ids marked as matched. */
  function MarkMatched(cards: seq<MemoryCard>, a: int, b: int): seq<MemoryCard>
  {
    seq(|cards|, i requires 0 <= i < |cards| =>
      if cards[i].id == a || cards[i].id == b then cards[i].(isMatched := true) else cards[i])
  }

  /** The two cards with these ids turned face down. */
  function TurnDown(cards: seq<MemoryCard>, a: int, b: int): seq<MemoryCard>
  {
    seq(|cards|, i requires 0 <= i < |cards| =>
      if cards[i].id == a || cards[i].id == b then cards[i].(isFlipped := false) else cards[i])
  }

  /** Matching two different cards of one symbol keeps the matched cards in pairs. */
  lemma MarkMatchedKeepsPairs(cards: seq<MemoryCard>, a: int, b: int)
    requires IdsInOrder(cards) && MatchedInPairs(cards)
    requires 0 <= a < |cards| && 0 <= b < |cards| && a != b
    requires cards[a].symbol == cards[b].symbol
    ensures MatchedInPairs(MarkMatched(cards, a, b))
  {
    var after := MarkMatched(cards, a, b);
    forall i | 0 <= i < |after| && MatchedAt(after, i)
      ensures exists j :: 0 <= j < |after| && j != i && after[j].symbol == after[i].symbol && after[j].isMatched
    {
      if i == a {
        assert after[b].isMatched;
      } else if i == b {
        assert after[a].isMatched;
      } else {
        assert MatchedAt(cards, i);
        var j :| 0 <= j < |cards| && j != i && cards[j].symbol == cards[i].symbol && cards[j].isMatched;
        assert after[j].isMatched;
      }
    }
  }

  // ---------------------------------------------------------------------------
  // The payout

  /** `Math.max(betAmount * 3 - moves * 5, betAmount)` */
  function WinAmount(moves: nat): int
  {
    if BetAmount * 3 - moves * 5 > BetAmount then BetAmount * 3 - moves * 5 else BetAmount
  }

  /** The prize lies between the bet and three times the bet and never grows with the moves. */
  lemma WinAmountBounds(moves: nat, more: nat)
    requires moves <= more
    ensures BetAmount <= WinAmount(moves) <= 3 * BetAmount
    ensures WinAmount(more) <= WinAmount(moves)
    ensures WinAmount(moves) == BetAmount <==> moves >= 8
  {
  }

  /** Eight moves, the fewest that can clear the board, pay 20; four would pay 40. */
  lemma WinAmountExamples()
    ensures WinAmount(8) == 20 && WinAmount(4) == 40 && WinAmount(0) == 60
  {
  }

  // ---------------------------------------------------------------------------
  // The component

  /** A pending timer carries a well-formed board and a pair of two different cards. */
  predicate TimerValid(t: Timer)
  {
    && IsBoard(t.snapshot)
    && MatchedInPairs(t.snapshot)
    && 0 <= t.firstId < BoardSize && 0 <= t.secondId < BoardSize && t.firstId != t.secondId
    && (t.matched <==> t.snapshot[t.firstId].symbol == t.snapshot[t.secondId].symbol)
  }

  /**
   * At most two cards are turned up, each of them face up and unmatched on the
   * board; matched cards come in pairs of one symbol; every pending timer holds
   * a well-formed pair.
   */
  predicate Playable(cards: seq<MemoryCard>, flippedCards: seq<int>, gameStarted: bool, timers: seq<Timer>)
  {
    && |flippedCards| <= 2
    && (gameStarted ==> IsBoard(cards))
    && (!gameStarted ==> cards == [] && flippedCards == [] && timers == [])
    && (forall k :: 0 <= k < |flippedCards| ==>
          0 <= flippedCards[k] < |cards|
          && cards[flippedCards[k]].isFlipped && !cards[flippedCards[k]].isMatched)
    && (|flippedCards| == 2 ==> flippedCards[0] != flippedCards[1])
    && MatchedInPairs(cards)
    && (forall k :: 0 <= k < |timers| ==> TimerValid(timers[k]))
  }

  /** The timer a second click schedules, none after a first click. */
  function Scheduled(cards: seq<MemoryCard>, flippedCards: seq<int>, id: int): seq<Timer>
    requires |flippedCards| == 1 ==> 0 <= flippedCards[0] < |cards| && 0 <= id < |cards|
  {
    if |flippedCards| == 1 then
      [Timer(cards, flippedCards[0], id, cards[flippedCards[0]].symbol == cards[id].symbol)]
    else []
  }

  /** Turning up a face-down, unmatched card while fewer than two are up keeps the game playable. */
  lemma ClickKeepsPlayable(cards: seq<MemoryCard>, flippedCards: seq<int>, timers: seq<Timer>, id: int)
    requires Playable(cards, flippedCards, true, timers)
    requires |flippedCards| < 2 && 0 <= id < |cards| && !cards[id].isFlipped && !cards[id].isMatched
    ensures Playable(FlipUp(cards, id), flippedCards + [id], true, timers + Scheduled(cards, flippedCards, id))
  {
    var after := FlipUp(cards, id);
    assert SameLayout(cards, after);
    SameLayoutKeepsBoard(cards, after);
    SameMatchesKeepPairs(cards, after);
    var newTimers := timers + Scheduled(cards, flippedCards, id);
    forall k | 0 <= k < |newTimers|
      ensures TimerValid(newTimers[k])
    {
      if k == |timers| {
        assert newTimers[k] == Timer(cards, flippedCards[0], id, cards[flippedCards[0]].symbol == cards[id].symbol);
      }
    }
  }

  /** The board a timer leaves behind: its pair matched, or turned face down. */
  function Settled(t: Timer): seq<MemoryCard>
  {
    if t.matched then MarkMatched(t.snapshot, t.firstId, t.secondId)
    else TurnDown(t.snapshot, t.firstId, t.secondId)
  }

  /**
   * A timer's pair is matched exactly when the two captured cards share a
   * symbol; the settled board is the captured one with those two cards marked
   * matched, or turned face down, and every other card as captured.
   */
  lemma SettledCards(t: Timer)
    requires TimerValid(t)
    ensures var (a, b) := (t.firstId, t.secondId);
      && (t.matched <==> t.snapshot[a].symbol == t.snapshot[b].symbol)
      && |Settled(t)| == |t.snapshot| == BoardSize
      && (forall i :: 0 <= i < BoardSize && i != a && i != b ==> Settled(t)[i] == t.snapshot[i])
      && (t.matched ==>
            Settled(t)[a] == t.snapshot[a].(isMatched := true) && Settled(t)[b] == t.snapshot[b].(isMatched := true))
      && (!t.matched ==>
            Settled(t)[a] == t.snapshot[a].(isFlipped := false) && Settled(t)[b] == t.snapshot[b].(isFlipped := false))
  {
    assert IdsInOrder(t.snapshot);
  }

  /** Firing a pending timer leaves a playable game with nothing turned up. */
  lemma FireKeepsPlayable(cards: seq<MemoryCard>, flippedCards: seq<int>, gameStarted: bool, timers: seq<Timer>, k: nat)
    requires Playable(cards, flippedCards, gameStarted, timers)
    requires k < |timers|
    ensures gameStarted
    ensures Playable(Settled(timers[k]), [], true, timers[..k] + timers[k + 1..])
  {
    var t := timers[k];
    assert TimerValid(t);
    var next := Settled(t);
    if t.matched {
      MarkMatchedKeepsPairs(t.snapshot, t.firstId, t.secondId);
    } else {
      SameMatchesKeepPairs(t.snapshot, next);
    }
    assert SameLayout(t.snapshot, next);
    SameLayoutKeepsBoard(t.snapshot, next);
    var rest := timers[..k] + timers[k + 1..];
    forall j | 0 <= j < |rest|
      ensures TimerValid(rest[j])
    {
      if j < k {
        assert rest[j] == timers[j];
      } else {
        assert rest[j] == timers[j + 1];
      }
    }
  }

  class MemoryGame {
    var cards: seq<MemoryCard>
    var flippedCards: seq<int>
    var moves: nat
    var gameStarted: bool
    var gameWon: bool
    /** The balance shown by the game (the `balance` prop). */
    var balance: int
    /** The `setTimeout` callbacks not yet run. */
    var timers: seq<Timer>

    /** The component's state satisfies `Playable`. */
    ghost predicate Valid()
      reads this
    {
      Playable(cards, flippedCards, gameStarted, timers)
    }

    constructor (balance: int)
      ensures Valid()
      ensures this.balance == balance && cards == [] && flippedCards == [] && moves == 0
      ensures !gameStarted && !gameWon && timers == []
    {
      this.balance := balance;
      cards, flippedCards, moves := [], [], 0;
      gameStarted, gameWon := false, false;
      timers := [];
    }

    /**
     * `initializeGame`: nothing happens when the shown balance is below 20 or
     * the ledger refuses the bet; otherwise the balance drops by 20 and a fresh
     * board is dealt with no turned-up cards, no moves and no win. Timers still
     * pending from an earlier game are not cancelled.
     */
    method InitializeGame(ledger: Ledger, userId: string, symbols: seq<Symbol>, insertOk: bool)
      requires Valid() && ledger.Valid()
      requires IsShuffle(symbols)
      modifies this`balance, this`cards, this`flippedCards, this`moves, this`gameStarted, this`gameWon
      modifies ledger, ledger.store
      ensures Valid() && ledger.Valid()
      ensures timers == old(timers)
      ensures var before := old(ledger.store.GetUserBalance(userId));
        old(balance) >= BetAmount && before >= BetAmount && insertOk ==>
          && ledger.table == old(ledger.table)
               + [Transaction(userId, GameType, Bet, BetAmount, before, before - BetAmount)]
          && balance == old(balance) - BetAmount
          && cards == Deal(symbols) && flippedCards == [] && moves == 0
          && gameStarted && !gameWon
      ensures var before := old(ledger.store.GetUserBalance(userId));
        !(old(balance) >= BetAmount && before >= BetAmount && insertOk) ==>
          && unchanged(this)
          && ledger.table == old(ledger.table) && ledger.store.storage == old(ledger.store.storage)
    {
      var placed := PlaceBet(ledger, userId, insertOk);
      if placed {
        var shuffledCards := Deal(symbols);
        NewBoard(symbols);
        ResetBoard(shuffledCards);
      }
    }

    /**
     * The bet of `initializeGame`: refused when the shown balance is below 20,
     * otherwise passed to the ledger; an accepted bet lowers the shown balance.
     */
    method PlaceBet(ledger: Ledger, userId: string, insertOk: bool) returns (placed: bool)
      requires ledger.Valid()
      modifies this`balance, ledger, ledger.store
      ensures ledger.Valid()
      ensures var before := old(ledger.store.GetUserBalance(userId));
        && (placed <==> old(balance) >= BetAmount && before >= BetAmount && insertOk)
        && (placed ==>
              && ledger.table == old(ledger.table)
                   + [Transaction(userId, GameType, Bet, BetAmount, before, before - BetAmount)]
              && balance == old(balance) - BetAmount)
        && (!placed ==>
              && balance == old(balance)
              && ledger.table == old(ledger.table) && ledger.store.storage == old(ledger.store.storage))
    {
      if balance < BetAmount {
        return false;
      }
      var betResult := ledger.CreateBetTransaction(userId, GameType, BetAmount, insertOk);
      placed := betResult.success;
      if placed {
        balance := balance - BetAmount;
      }
    }

    /** The state updates of `initializeGame` once the bet is placed. */
    method ResetBoard(shuffledCards: seq<MemoryCard>)
      requires Valid()
      requires FreshBoard(shuffledCards)
      modifies this`cards, this`flippedCards, this`moves, this`gameStarted, this`gameWon
      ensures Valid()
      ensures cards == shuffledCards && flippedCards == [] && moves == 0 && gameStarted && !gameWon
    {
      cards := shuffledCards;
      flippedCards := [];
      moves := 0;
      gameStarted := true;
      gameWon := false;
    }

    /**
     * `handleCardClick`: ignored before the game starts, after it is won, while
     * two cards are up, and for a card that is up or matched. Otherwise the card
     * turns up and joins the turned-up list; on the second card `moves` goes up
     * by one and a timer is scheduled that will settle the pair.
     */
    method HandleCardClick(id: int)
      requires Valid()
      modifies this`cards, this`flippedCards, this`moves, this`timers
      ensures Valid()
      ensures var ignored :=
          || !old(gameStarted) || old(gameWon) || |old(flippedCards)| == 2
          || !(0 <= id < |old(cards)|) || old(cards)[id].isFlipped || old(cards)[id].isMatched;
        && (ignored ==> unchanged(this))
        && (!ignored ==>
              && flippedCards == old(flippedCards) + [id]
              && |cards| == |old(cards)|
              && cards[id] == old(cards)[id].(isFlipped := true)
              && (forall i :: 0 <= i < |cards| && i != id ==> cards[i] == old(cards)[i])
              && moves == old(moves) + (if |old(flippedCards)| == 1 then 1 else 0)
              && timers == old(timers) + Scheduled(old(cards), old(flippedCards), id))
    {
      if !gameStarted || gameWon || |flippedCards| == 2 {
        return;
      }
      FindOnBoard(cards, id);
      var found := FindCard(cards, id);
      if found.None? || cards[found.value].isFlipped || cards[found.value].isMatched {
        return;
      }
      var before := cards;
      var newFlippedCards := flippedCards + [id];
      var newMoves, newTimers := moves, timers;
      if |newFlippedCards| == 2 {
        newMoves := moves + 1;
        var firstId, secondId := newFlippedCards[0], newFlippedCards[1];
        FindOnBoard(before, firstId);
        FindOnBoard(before, secondId);
        var matched := SymbolOf(before, firstId) == SymbolOf(before, secondId);
        newTimers := timers + [Timer(before, firstId, secondId, matched)];
      }
      ClickKeepsPlayable(before, flippedCards, timers, id);
      cards, flippedCards, moves, timers := FlipUp(before, id), newFlippedCards, newMoves, newTimers;
    }

    /**
     * The `k`-th pending timer fires: the board becomes the captured board with
     * the pair marked matched (equal symbols) or turned face down (different
     * symbols), and the turned-up list is emptied. Then the win effect runs:
     * when every card is matched the game is won and `max(60 - 5 * moves, 20)`
     * is written as a win (whatever the insert's outcome) and added to the shown
     * balance.
     */
    method FireTimer(k: nat, ledger: Ledger, userId: string, winInsertOk: bool)
      requires Valid() && ledger.Valid()
      modifies this`timers, this`cards, this`flippedCards, this`gameWon, this`balance, ledger, ledger.store
      ensures Valid() && ledger.Valid()
      ensures k >= |old(timers)| ==> unchanged(this) && unchanged(ledger) && unchanged(ledger.store)
      ensures k < |old(timers)| ==>
        && timers == old(timers)[..k] + old(timers)[k + 1..]
        && cards == Settled(old(timers)[k])
        && flippedCards == [] && moves == old(moves) && gameStarted
        && gameWon == (old(gameWon) || AllMatched(cards))
        && (AllMatched(cards) ==>
              && balance == old(balance) + WinAmount(moves)
              && var before := old(ledger.store.GetUserBalance(userId));
                 ledger.table == old(ledger.table)
                   + (if winInsertOk then
                        [Transaction(userId, GameType, Win, WinAmount(moves), before, before + WinAmount(moves))]
                      else []))
        && (!AllMatched(cards) ==>
              && balance == old(balance)
              && ledger.table == old(ledger.table) && ledger.store.storage == old(ledger.store.storage))
    {
      if k >= |timers| {
        return;
      }
      var t := timers[k];
      FireKeepsPlayable(cards, flippedCards, gameStarted, timers, k);
      var next;
      if t.matched {
        next := MarkMatched(t.snapshot, t.firstId, t.secondId);
      } else {
        next := TurnDown(t.snapshot, t.firstId, t.secondId);
      }
      timers := timers[..k] + timers[k + 1..];
      cards := next;
      flippedCards := [];
      CheckWin(ledger, userId, winInsertOk);
    }

    /**
     * The effect that watches `cards`: a started game whose board is non-empty
     * and fully matched is won and paid.
     */
    method CheckWin(ledger: Ledger, userId: string, winInsertOk: bool)
      requires Valid() && ledger.Valid()
      modifies this`gameWon, this`balance, ledger, ledger.store
      ensures Valid() && ledger.Valid()
      ensures var won := gameStarted && |cards| > 0 && AllMatched(cards);
        && gameWon == (old(gameWon) || won)
        && (won ==>
              && balance == old(balance) + WinAmount(moves)
              && var before := old(ledger.store.GetUserBalance(userId));
                 ledger.table == old(ledger.table)
                   + (if winInsertOk then
                        [Transaction(userId, GameType, Win, WinAmount(moves), before, before + WinAmount(moves))]
                      else []))
        && (!won ==>
              && balance == old(balance)
              && ledger.table == old(ledger.table) && ledger.store.storage == old(ledger.store.storage))
    {
      if gameStarted && |cards| > 0 && AllMatched(cards) {
        gameWon := true;
        var winAmount := WinAmount(moves);
        var _ := ledger.CreateWinTransaction(userId, GameType, winAmount, winInsertOk);
        balance := balance + winAmount;
      }
    }
  }
}

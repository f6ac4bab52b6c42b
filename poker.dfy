/**
 * Video poker (components/poker-game.tsx): the 52-card deck, the hand
 * evaluator with its payout table, the hold toggle, the draw that replaces the
 * cards not held, and the deal and draw steps with their bet and win.
 *
 * A card's value is held as its index in "A", "2", ..., "10", "J", "Q", "K"
 * (so A = 0, 10 = 9, J = 10, Q = 11, K = 12), which is also the index the
 * evaluator's `valueOrder.indexOf` gives it. The shuffle
 * (`sort(() => Math.random() - 0.5)`) is an input: some arrangement of the
 * full deck.
 */
module Poker {
  import opened Wrappers
  import opened Transactions
  import Sorting

  /** The game's key in the `game_type` column. */
  const GameType: string := "poker"

  /** The fixed price of a hand. */
  const BetAmount: int := 25

  /** The suits in deck order: ♠, ♥, ♦, ♣. */
  datatype Suit = Spades | Hearts | Diamonds | Clubs

  const Suits: seq<Suit> := [Spades, Hearts, Diamonds, Clubs]

  /** The index of a value in "A", "2", ..., "10", "J", "Q", "K". */
  type Rank = v: int | 0 <= v < 13

  datatype Card = Card(suit: Suit, value: Rank, held: bool)

  /** Two cards are the same card when suit and value agree, whatever `held` says. */
  predicate SameCard(a: Card, b: Card)
  {
    a.suit == b.suit && a.value == b.value
  }

  /** No card occurs twice. */
  predicate DistinctCards(cards: seq<Card>)
  {
    forall i, j :: 0 <= i < j < |cards| ==> !SameCard(cards[i], cards[j])
  }

  /** `hand.some((c) => c.suit === card.suit && c.value === card.value)` */
  predicate InHand(hand: seq<Card>, card: Card)
  {
    exists k :: 0 <= k < |hand| && SameCard(hand[k], card)
  }

  // ---------------------------------------------------------------------------
  // The deck

  /** The deck `createDeck` builds before shuffling: suit by suit, value by value. */
  function FullDeck(): seq<Card>
  {
    seq(52, i requires 0 <= i < 52 => Card(Suits[i / 13], i % 13, false))
  }

  /** `createDeck`'s two nested loops. */
  method CreateDeck() returns (deck: seq<Card>)
    ensures deck == FullDeck()
  {
    deck := [];
    for s := 0 to |Suits|
      invariant deck == FullDeck()[..13 * s]
    {
      for v := 0 to 13
        invariant deck == FullDeck()[..13 * s + v]
      {
        deck := deck + [Card(Suits[s], v, false)];
      }
    }
  }

  /** 52 cards, none held, no card twice, and every suit-value pair present. */
  lemma FullDeckContents()
    ensures |FullDeck()| == 52
    ensures forall c <- FullDeck() :: !c.held
    ensures DistinctCards(FullDeck())
    ensures forall s: Suit, v: Rank :: Card(s, v, false) in FullDeck()
  {
    var deck := FullDeck();
    forall s: Suit, v: Rank
      ensures Card(s, v, false) in deck
    {
      var k := if s == Spades then 0 else if s == Hearts then 1 else if s == Diamonds then 2 else 3;
      assert deck[13 * k + v] == Card(s, v, false);
    }
    forall i, j | 0 <= i < j < 52
      ensures !SameCard(deck[i], deck[j])
    {
      if i / 13 == j / 13 {
        assert i == 13 * (i / 13) + i % 13 && j == 13 * (j / 13) + j % 13;
      }
    }
  }

  /** An arrangement that shuffling the full deck can produce. */
  predicate IsShuffle(deck: seq<Card>)
  {
    |deck| == 52 && multiset(deck) == multiset(FullDeck())
  }

  lemma DistinctCount(s: seq<Card>, x: Card)
    requires forall i, j :: 0 <= i < j < |s| ==> s[i] != s[j]
    ensures multiset(s)[x] <= 1
  {
    if s != [] {
      assert s == [s[0]] + s[1..];
      DistinctCount(s[1..], x);
      if s[0] == x {
        assert x !in s[1..];
      }
    }
  }

  lemma TwiceCount(s: seq<Card>, i: int, j: int)
    requires 0 <= i < j < |s| && s[i] == s[j]
    ensures multiset(s)[s[i]] >= 2
  {
    assert s == s[..j] + s[j..];
    assert s[i] in s[..j];
    assert s[j] in s[j..];
  }

  /** A shuffled deck still holds 52 different cards, none of them held. */
  lemma ShuffleContents(deck: seq<Card>)
    requires IsShuffle(deck)
    ensures |deck| == 52
    ensures forall c <- deck :: !c.held
    ensures DistinctCards(deck)
  {
    FullDeckContents();
    assert |deck| == |multiset(deck)| == |multiset(FullDeck())| == 52;
    forall c | c in deck
      ensures !c.held
    {
      assert c in multiset(FullDeck());
    }
    forall i, j | 0 <= i < j < |deck|
      ensures !SameCard(deck[i], deck[j])
    {
      if SameCard(deck[i], deck[j]) {
        assert deck[i] in multiset(FullDeck()) && deck[j] in multiset(FullDeck());
        assert deck[i] == deck[j];
        TwiceCount(deck, i, j);
        DistinctCount(FullDeck(), deck[i]);
        assert false;
      }
    }
  }

  // ---------------------------------------------------------------------------
  // The evaluator

  /** The rows of the payout table, best first. */
  datatype Hand =
    | StraightFlush | FourOfAKind | FullHouse | Flush | Straight
    | ThreeOfAKind | TwoPair | HighPair | Nothing
  {
    /** The name the evaluator reports. */
    function Name(): string
    {
      match this
      case StraightFlush => "Escalera de Color"
      case FourOfAKind => "Poker"
      case FullHouse => "Full House"
      case Flush => "Color"
      case Straight => "Escalera"
      case ThreeOfAKind => "Trío"
      case TwoPair => "Doble Pareja"
      case HighPair => "Pareja Alta"
      case Nothing => "Nada"
    }

    /** The payout multiplier: 50, 25, 9, 6, 4, 3, 2, 1 or 0, falling down the table. */
    function Multiplier(): (m: int)
      ensures m in {50, 25, 9, 6, 4, 3, 2, 1, 0}
      ensures m == 0 <==> this == Nothing
    {
      match this
      case StraightFlush => 50
      case FourOfAKind => 25
      case FullHouse => 9
      case Flush => 6
      case Straight => 4
      case ThreeOfAKind => 3
      case TwoPair => 2
      case HighPair => 1
      case Nothing => 0
    }
  }

  /** The better hand pays strictly more. */
  lemma PayoutTableDecreasing()
    ensures StraightFlush.Multiplier() > FourOfAKind.Multiplier() > FullHouse.Multiplier()
        > Flush.Multiplier() > Straight.Multiplier() > ThreeOfAKind.Multiplier()
        > TwoPair.Multiplier() > HighPair.Multiplier() > Nothing.Multiplier() == 0
  {
  }

  /** How many of the cards have value `v`. */
  function RankCount(cards: seq<Card>, v: int): (n: nat)
    ensures n <= |cards|
  {
    if cards == [] then 0
    else RankCount(Front(cards), v) + (if Last(cards).value == v then 1 else 0)
  }

  /** How many of the cards have suit `s`. */
  function SuitCount(cards: seq<Card>, s: Suit): (n: nat)
    ensures n <= |cards|
  {
    if cards == [] then 0
    else SuitCount(Front(cards), s) + (if Last(cards).suit == s then 1 else 0)
  }

  /** The non-zero value counts of the values below `hi`, in value order. */
  function PresentCounts(cards: seq<Card>, hi: nat): seq<int>
    requires hi <= 13
  {
    if hi == 0 then []
    else PresentCounts(cards, hi - 1) + (if RankCount(cards, hi - 1) > 0 then [RankCount(cards, hi - 1)] else [])
  }

  /**
   * `Object.values(valueCounts).sort((a, b) => b - a)`: the value counts,
   * largest first. Only one sequence is that arrangement (`SortedUnique`).
   */
  ghost function Counts(cards: seq<Card>): (r: seq<int>)
    ensures Sorting.IsSorted(r, true)
    ensures multiset(r) == multiset(PresentCounts(cards, 13))
  {
    var sorted := Sorting.Sort(PresentCounts(cards, 13), true);
    assert Sorting.IsSorted(sorted, true) && multiset(sorted) == multiset(PresentCounts(cards, 13));
    var r :| Sorting.IsSorted(r, true) && multiset(r) == multiset(PresentCounts(cards, 13));
    r
  }

  /** `counts[k]`, with 0 for a position past the end, which compares like `undefined`. */
  function Nth(counts: seq<int>, k: nat): int
  {
    if k < |counts| then counts[k] else 0
  }

  /** `Object.values(suitCounts).some((count) => count === 5)` */
  predicate IsFlush(cards: seq<Card>)
  {
    exists s: Suit :: SuitCount(cards, s) == 5
  }

  /** The values of the cards, in hand order. */
  function Ranks(cards: seq<Card>): (r: seq<int>)
    ensures |r| == |cards|
    ensures forall i :: 0 <= i < |cards| ==> r[i] == cards[i].value
  {
    seq(|cards|, i requires 0 <= i < |cards| => cards[i].value)
  }

  /** Each value one above the one before it. */
  predicate Consecutive(sv: seq<int>)
  {
    forall i :: 0 < i < |sv| ==> sv[i] == sv[i - 1] + 1
  }

  /**
   * The straight test on the ascending values: consecutive, or the special case
   * meant for A-10-J-Q-K, which looks only at the first, second and fifth value.
   */
  predicate StraightRanks(sv: seq<int>)
    requires |sv| == 5
  {
    Consecutive(sv) || (sv[0] == 0 && sv[4] == 12 && sv[1] == 9)
  }

  /**
   * `cards.map(...).sort((a, b) => a - b)`: the values, smallest first. Only
   * one sequence is that arrangement (`SortedUnique`).
   */
  ghost function AscendingRanks(cards: seq<Card>): (r: seq<int>)
    ensures |r| == |cards|
    ensures Sorting.IsSorted(r, false)
    ensures multiset(r) == multiset(Ranks(cards))
  {
    var sorted := Sorting.Sort(Ranks(cards), false);
    assert Sorting.IsSorted(sorted, false) && multiset(sorted) == multiset(Ranks(cards));
    var r :| Sorting.IsSorted(r, false) && multiset(r) == multiset(Ranks(cards));
    assert |r| == |multiset(r)| == |multiset(Ranks(cards))|;
    r
  }

  ghost predicate IsStraight(cards: seq<Card>)
    requires |cards| == 5
  {
    StraightRanks(AscendingRanks(cards))
  }

  /** `v` occurs exactly twice and no lower value does. */
  predicate IsFirstPair(cards: seq<Card>, v: int)
  {
    0 <= v < 13 && RankCount(cards, v) == 2 && forall w :: 0 <= w < v ==> RankCount(cards, w) != 2
  }

  /**
   * The lowest value that occurs exactly twice, if any. The source takes the
   * first key of `valueCounts` whose count is 2; it asks only when one value
   * is paired, so which key comes first does not change the hand.
   */
  ghost function FirstPair(cards: seq<Card>): (r: Option<Rank>)
    ensures r.Some? ==> IsFirstPair(cards, r.value)
    ensures r.None? ==> forall v :: 0 <= v < 13 ==> RankCount(cards, v) != 2
  {
    if exists v :: 0 <= v < 13 && RankCount(cards, v) == 2 then
      var u :| 0 <= u < 13 && RankCount(cards, u) == 2;
      LowestPairExists(cards, u, 13);
      var v: Rank :| IsFirstPair(cards, v);
      Some(v)
    else
      None
  }

  /** Below `hi`, a value occurring twice means there is a lowest one. */
  lemma {:induction false} LowestPairExists(cards: seq<Card>, u: int, hi: nat)
    requires 0 <= u < hi <= 13 && RankCount(cards, u) == 2
    ensures exists v :: IsFirstPair(cards, v)
    decreases hi
  {
    if forall w :: 0 <= w < hi - 1 ==> RankCount(cards, w) != 2 {
      assert IsFirstPair(cards, u);
    } else {
      var w :| 0 <= w < hi - 1 && RankCount(cards, w) == 2;
      LowestPairExists(cards, w, hi - 1);
    }
  }

  /** At most one value is the first pair. */
  lemma FirstPairUnique(cards: seq<Card>, v: int, w: int)
    requires IsFirstPair(cards, v) && IsFirstPair(cards, w)
    ensures v == w
  {
  }

  /** The values a single pair must have to pay: J, Q, K or A. */
  const HighRanks: set<int> := {10, 11, 12, 0}

  /** The classification chain, best hand first. */
  function ClassifyFrom(counts: seq<int>, isFlush: bool, isStraight: bool, pairValue: Option<Rank>): Hand
  {
    if isFlush && isStraight then StraightFlush
    else if Nth(counts, 0) == 4 then FourOfAKind
    else if Nth(counts, 0) == 3 && Nth(counts, 1) == 2 then FullHouse
    else if isFlush then Flush
    else if isStraight then Straight
    else if Nth(counts, 0) == 3 then ThreeOfAKind
    else if Nth(counts, 0) == 2 && Nth(counts, 1) == 2 then TwoPair
    else if Nth(counts, 0) == 2 && pairValue.Some? && pairValue.value in HighRanks then HighPair
    else Nothing
  }

  /** `evaluateHand` as a function of the five cards. */
  ghost function Classify(cards: seq<Card>): Hand
    requires |cards| == 5
  {
    ClassifyFrom(Counts(cards), IsFlush(cards), IsStraight(cards), FirstPair(cards))
  }

  /** The count `RankCount` gives after one more card. */
  lemma RankCountSnoc(cards: seq<Card>, c: Card, v: int)
    ensures RankCount(cards + [c], v) == RankCount(cards, v) + (if c.value == v then 1 else 0)
    ensures SuitCount(cards + [c], c.suit) == SuitCount(cards, c.suit) + 1
    ensures forall s :: s != c.suit ==> SuitCount(cards + [c], s) == SuitCount(cards, s)
  {
    assert Front(cards + [c]) == cards;
  }

  /** The value and suit counts `evaluateHand` keeps: an entry for each value or suit present. */
  predicate CountMaps(cards: seq<Card>, valueCounts: map<Rank, nat>, suitCounts: map<Suit, nat>)
  {
    && (forall v: Rank :: v in valueCounts <==> RankCount(cards, v) > 0)
    && (forall v :: v in valueCounts ==> valueCounts[v] == RankCount(cards, v))
    && (forall s: Suit :: s in suitCounts <==> SuitCount(cards, s) > 0)
    && (forall s :: s in suitCounts ==> suitCounts[s] == SuitCount(cards, s))
  }

  /** `cards.forEach(...)`: count the cards by value and by suit. */
  method CountCards(cards: seq<Card>) returns (valueCounts: map<Rank, nat>, suitCounts: map<Suit, nat>)
    ensures CountMaps(cards, valueCounts, suitCounts)
  {
    valueCounts, suitCounts := map[], map[];
    for i := 0 to |cards|
      invariant CountMaps(cards[..i], valueCounts, suitCounts)
    {
      var card := cards[i];
      assert cards[..i + 1] == cards[..i] + [card];
      forall v: Rank
        ensures RankCount(cards[..i + 1], v) == RankCount(cards[..i], v) + (if card.value == v then 1 else 0)
      {
        RankCountSnoc(cards[..i], card, v);
      }
      RankCountSnoc(cards[..i], card, card.value);
      valueCounts := valueCounts[card.value := (if card.value in valueCounts then valueCounts[card.value] else 0) + 1];
      suitCounts := suitCounts[card.suit := (if card.suit in suitCounts then suitCounts[card.suit] else 0) + 1];
    }
    assert cards[..|cards|] == cards;
  }

  /**
   * `Object.values(valueCounts)`, visited in value order; the order is
   * immaterial, since the list is sorted next.
   */
  method CountValues(cards: seq<Card>, valueCounts: map<Rank, nat>) returns (present: seq<int>)
    requires forall v: Rank :: v in valueCounts <==> RankCount(cards, v) > 0
    requires forall v :: v in valueCounts ==> valueCounts[v] == RankCount(cards, v)
    ensures present == PresentCounts(cards, 13)
  {
    present := [];
    for v := 0 to 13
      invariant present == PresentCounts(cards, v)
    {
      if v in valueCounts {
        present := present + [valueCounts[v]];
      }
    }
  }

  /**
   * `Object.keys(valueCounts).find((k) => valueCounts[k] === 2)`, visited in
   * value order; `SinglePairPays` shows that the order does not matter where the
   * result is used.
   */
  method FindPair(cards: seq<Card>, valueCounts: map<Rank, nat>) returns (pairValue: Option<Rank>)
    requires forall v: Rank :: v in valueCounts <==> RankCount(cards, v) > 0
    requires forall v :: v in valueCounts ==> valueCounts[v] == RankCount(cards, v)
    ensures pairValue == FirstPair(cards)
  {
    pairValue := None;
    for v := 0 to 13
      invariant pairValue.None? ==> forall w :: 0 <= w < v ==> RankCount(cards, w) != 2
      invariant pairValue.Some? ==> IsFirstPair(cards, pairValue.value)
    {
      if pairValue.None? && v in valueCounts && valueCounts[v] == 2 {
        pairValue := Some(v);
      }
    }
    var first := FirstPair(cards);
    if pairValue.Some? && first.Some? {
      FirstPairUnique(cards, pairValue.value, first.value);
    }
  }

  /**
   * `evaluateHand`: one pass over the cards fills the value and suit counts,
   * then the counts, the flush and straight tests and the pair value feed the
   * classification chain. The result is the hand `Classify` gives.
   */
  method EvaluateHand(cards: seq<Card>) returns (h: Hand)
    requires |cards| == 5
    ensures h == Classify(cards)
  {
    var valueCounts, suitCounts := CountCards(cards);
    var present := CountValues(cards, valueCounts);
    var counts := Sorting.Sort(present, true);
    SortedUnique(counts, Counts(cards), true);
    var isFlush := exists s | s in suitCounts :: suitCounts[s] == 5;
    assert isFlush == IsFlush(cards) by {
      if IsFlush(cards) {
        var s :| SuitCount(cards, s) == 5;
        assert s in suitCounts;
      }
    }
    var sortedValues := Sorting.Sort(Ranks(cards), false);
    SortedUnique(sortedValues, AscendingRanks(cards), false);
    var isStraight := StraightRanks(sortedValues);
    var pairValue := FindPair(cards, valueCounts);
    h := ClassifyFrom(counts, isFlush, isStraight, pairValue);
  }

  // ---------------------------------------------------------------------------
  // The draw

  /** What makes a card the card it is: its suit and its value. */
  function Key(c: Card): (Suit, Rank)
  {
    (c.suit, c.value)
  }

  /** The suit-value pairs of the cards. */
  function KeysOf(cards: seq<Card>): set<(Suit, Rank)>
  {
    set k | 0 <= k < |cards| :: Key(cards[k])
  }

  lemma KeysOfSnoc(cards: seq<Card>, c: Card)
    ensures KeysOf(cards + [c]) == KeysOf(cards) + {Key(c)}
  {
    var s := cards + [c];
    forall x | x in KeysOf(cards)
      ensures x in KeysOf(s)
    {
      var k :| 0 <= k < |cards| && Key(cards[k]) == x;
      assert Key(s[k]) == x;
    }
    assert Key(s[|cards|]) == Key(c);
  }

  /** A hand of n cards has at most n suit-value pairs. */
  lemma {:induction false} KeysOfSize(cards: seq<Card>)
    ensures |KeysOf(cards)| <= |cards|
  {
    if cards != [] {
      KeysOfSize(Front(cards));
      FrontThenLast(cards);
      KeysOfSnoc(Front(cards), Last(cards));
    }
  }

  lemma InHandKeys(hand: seq<Card>, c: Card)
    ensures InHand(hand, c) <==> Key(c) in KeysOf(hand)
  {
    if Key(c) in KeysOf(hand) {
      var k :| 0 <= k < |hand| && Key(hand[k]) == Key(c);
      assert SameCard(hand[k], c);
    }
  }

  /** In a deck of different cards, a card's pair is not among those of the cards before it. */
  lemma FreshKey(deck: seq<Card>, i: int)
    requires DistinctCards(deck) && 0 <= i < |deck|
    ensures Key(deck[i]) !in KeysOf(deck[..i])
  {
  }

  lemma SubsetSize<T>(a: set<T>, b: set<T>)
    requires a <= b
    ensures |a| <= |b|
  {
    assert b == a + (b - a);
  }

  /**
   * The inner `while` of `draw`: walk the deck from `from`, skipping cards
   * already in the hand, and stop after the first card that is not. The ghost
   * `skipped` collects the pairs of the skipped cards.
   */
  method NextFresh(hand: seq<Card>, deck: seq<Card>, from: nat, ghost skipped: set<(Suit, Rank)>)
    returns (found: Option<nat>, next: nat, ghost skippedAfter: set<(Suit, Rank)>)
    requires from <= |deck|
    requires skipped <= KeysOf(hand) && skipped <= KeysOf(deck[..from])
    ensures from <= next <= |deck|
    ensures found.Some? ==> from <= found.value == next - 1 && !InHand(hand, deck[found.value])
    ensures found.None? ==> next == |deck|
    ensures forall j :: from <= j < next && (found.None? || j < found.value) ==> InHand(hand, deck[j])
    ensures skippedAfter <= KeysOf(hand) && skippedAfter <= KeysOf(deck[..next])
    ensures DistinctCards(deck) ==>
      |skippedAfter| == |skipped| + (next - from) - (if found.Some? then 1 else 0)
  {
    found, next, skippedAfter := None, from, skipped;
    while next < |deck|
      invariant from <= next <= |deck|
      invariant forall j :: from <= j < next ==> InHand(hand, deck[j])
      invariant skippedAfter <= KeysOf(hand) && skippedAfter <= KeysOf(deck[..next])
      invariant DistinctCards(deck) ==> |skippedAfter| == |skipped| + (next - from)
    {
      var newCard := deck[next];
      next := next + 1;
      if !InHand(hand, newCard) {
        found := Some(next - 1);
        return;
      }
      InHandKeys(hand, newCard);
      assert deck[..next] == deck[..next - 1] + [newCard];
      KeysOfSnoc(deck[..next - 1], newCard);
      if DistinctCards(deck) {
        FreshKey(deck, next - 1);
      }
      skippedAfter := skippedAfter + {Key(newCard)};
    }
  }

  /** How many of the positions drew a card from the deck (a non-negative entry). */
  function Used(pos: seq<int>): (n: nat)
    ensures n <= |pos|
  {
    if pos == [] then 0 else Used(Front(pos)) + (if Last(pos) >= 0 then 1 else 0)
  }

  lemma UsedSnoc(pos: seq<int>, p: int)
    ensures Used(pos + [p]) == Used(pos) + (if p >= 0 then 1 else 0)
  {
    assert Front(pos + [p]) == pos;
  }

  /** A position that drew nothing leaves fewer draws than positions. */
  lemma {:induction false} UsedBelow(pos: seq<int>, j: int)
    requires 0 <= j < |pos| && pos[j] < 0
    ensures Used(pos) < |pos|
  {
    if j < |pos| - 1 {
      UsedBelow(Front(pos), j);
    }
  }

  /**
   * The first `|pos|` positions of `newHand` are the draw's result so far, with
   * `deckIndex` cards of the deck consumed: `pos[j]` is the deck position the
   * j-th card came from, or negative when the card was kept.
   */
  ghost predicate Tracks(hand: seq<Card>, deck: seq<Card>, newHand: seq<Card>, pos: seq<int>, deckIndex: int)
  {
    && |newHand| == |pos| <= |hand|
    && 0 <= deckIndex <= |deck|
    && (forall j :: 0 <= j < |pos| && pos[j] < 0 ==> newHand[j] == hand[j])
    && (forall j :: 0 <= j < |pos| && hand[j].held ==> pos[j] < 0)
    && (forall j :: 0 <= j < |pos| && pos[j] >= 0 ==>
          && pos[j] < deckIndex
          && newHand[j] == deck[pos[j]].(held := false)
          && !InHand(hand, deck[pos[j]]))
    && (forall j1, j2 :: 0 <= j1 < j2 < |pos| && pos[j1] >= 0 && pos[j2] >= 0 ==> pos[j1] < pos[j2])
    && (forall j :: 0 <= j < |pos| && !hand[j].held && pos[j] < 0 ==> deckIndex == |deck|)
  }

  /** Keeping the next card: it is held, or the deck is used up. */
  lemma TracksKeep(hand: seq<Card>, deck: seq<Card>, newHand: seq<Card>, pos: seq<int>, deckIndex: int, next: int)
    requires Tracks(hand, deck, newHand, pos, deckIndex)
    requires |pos| < |hand| && deckIndex <= next <= |deck|
    requires hand[|pos|].held || next == |deck|
    ensures Tracks(hand, deck, newHand + [hand[|pos|]], pos + [-1], next)
  {
  }

  /** Replacing the next card by deck card `f`, which is not in the hand. */
  lemma TracksDraw(hand: seq<Card>, deck: seq<Card>, newHand: seq<Card>, pos: seq<int>, deckIndex: int, f: int)
    requires Tracks(hand, deck, newHand, pos, deckIndex)
    requires |pos| < |hand| && !hand[|pos|].held
    requires deckIndex <= f < |deck| && !InHand(hand, deck[f])
    ensures Tracks(hand, deck, newHand + [deck[f].(held := false)], pos + [f], f + 1)
  {
  }

  /** The finished draw: every replaced card is a deck card that was not in the hand. */
  lemma TracksReplaced(hand: seq<Card>, deck: seq<Card>, newHand: seq<Card>, pos: seq<int>, deckIndex: int)
    requires Tracks(hand, deck, newHand, pos, deckIndex) && |pos| == |hand|
    ensures forall k :: 0 <= k < |hand| && !hand[k].held ==>
      || newHand[k] == hand[k]
      || exists j :: 0 <= j < |deck| && newHand[k] == deck[j].(held := false) && !InHand(hand, deck[j])
  {
    forall k | 0 <= k < |hand| && !hand[k].held && pos[k] >= 0
      ensures exists j :: 0 <= j < |deck| && newHand[k] == deck[j].(held := false) && !InHand(hand, deck[j])
    {
      assert newHand[k] == deck[pos[k]].(held := false);
    }
  }

  /** From a hand and a deck of different cards, the draw gives a hand of different cards. */
  lemma TracksDistinct(hand: seq<Card>, deck: seq<Card>, newHand: seq<Card>, pos: seq<int>, deckIndex: int)
    requires Tracks(hand, deck, newHand, pos, deckIndex)
    requires DistinctCards(hand) && DistinctCards(deck)
    ensures DistinctCards(newHand)
  {
    forall j1, j2 | 0 <= j1 < j2 < |newHand|
      ensures !SameCard(newHand[j1], newHand[j2])
    {
      if pos[j1] >= 0 && pos[j2] < 0 {
        assert !SameCard(deck[pos[j1]], hand[j2]);
      } else if pos[j1] < 0 && pos[j2] >= 0 {
        assert !SameCard(deck[pos[j2]], hand[j1]);
      }
    }
  }

  /**
   * Each skipped deck card has the pair of a different hand card, and each
   * replacement used one deck card, so a deck of different cards at least
   * twice the hand's size is never used up: every card not held is replaced.
   */
  lemma TracksNeverRunsOut(hand: seq<Card>, deck: seq<Card>, newHand: seq<Card>, pos: seq<int>,
                           deckIndex: int, skipped: set<(Suit, Rank)>)
    requires Tracks(hand, deck, newHand, pos, deckIndex) && |pos| == |hand|
    requires skipped <= KeysOf(hand)
    requires DistinctCards(deck) && deckIndex == |skipped| + Used(pos)
    requires 2 * |hand| <= |deck|
    ensures forall k :: 0 <= k < |hand| && !hand[k].held ==> !newHand[k].held && !InHand(hand, newHand[k])
  {
    forall k | 0 <= k < |hand| && !hand[k].held
      ensures pos[k] >= 0
    {
      if pos[k] < 0 {
        UsedBelow(pos, k);
        KeysOfSize(hand);
        SubsetSize(skipped, KeysOf(hand));
      }
    }
  }

  /**
   * One pass of the `map` in `draw`, for the card at position `k`: a held
   * card is kept; any other card is replaced by the next deck card not in the
   * hand, or kept when the deck runs out.
   */
  method DrawStep(hand: seq<Card>, deck: seq<Card>, k: nat, newHand: seq<Card>, deckIndex: nat,
                  ghost pos: seq<int>, ghost skipped: set<(Suit, Rank)>)
    returns (nextHand: seq<Card>, nextIndex: nat, ghost nextPos: seq<int>, ghost nextSkipped: set<(Suit, Rank)>)
    requires k == |pos| < |hand|
    requires Tracks(hand, deck, newHand, pos, deckIndex)
    requires skipped <= KeysOf(hand) && skipped <= KeysOf(deck[..deckIndex])
    requires DistinctCards(deck) ==> deckIndex == |skipped| + Used(pos)
    ensures |nextPos| == |pos| + 1
    ensures Tracks(hand, deck, nextHand, nextPos, nextIndex)
    ensures nextSkipped <= KeysOf(hand) && nextSkipped <= KeysOf(deck[..nextIndex])
    ensures DistinctCards(deck) ==> nextIndex == |nextSkipped| + Used(nextPos)
  {
    var card := hand[k];
    if card.held {
      TracksKeep(hand, deck, newHand, pos, deckIndex, deckIndex);
      UsedSnoc(pos, -1);
      return newHand + [card], deckIndex, pos + [-1], skipped;
    }
    var found, next, skippedAfter := NextFresh(hand, deck, deckIndex, skipped);
    if found.Some? {
      TracksDraw(hand, deck, newHand, pos, deckIndex, found.value);
      UsedSnoc(pos, found.value);
      nextHand, nextPos := newHand + [deck[found.value].(held := false)], pos + [found.value];
    } else {
      TracksKeep(hand, deck, newHand, pos, deckIndex, next);
      UsedSnoc(pos, -1);
      nextHand, nextPos := newHand + [card], pos + [-1];
    }
    nextIndex, nextSkipped := next, skippedAfter;
  }

  /**
   * The replacement step of `draw`: every held card stays where it is; every
   * other card is replaced by the next deck card not in the pre-draw hand, or
   * kept when the deck runs out. Deck cards are taken in deck order, so from a
   * deck of different cards the replacements differ from each other and from
   * the old hand, and a deck at least twice the hand's size never runs out.
   */
  method DrawReplacements(hand: seq<Card>, deck: seq<Card>) returns (newHand: seq<Card>)
    ensures |newHand| == |hand|
    ensures forall k :: 0 <= k < |hand| && hand[k].held ==> newHand[k] == hand[k]
    ensures forall k :: 0 <= k < |hand| && !hand[k].held ==>
      || newHand[k] == hand[k]
      || exists j :: 0 <= j < |deck| && newHand[k] == deck[j].(held := false) && !InHand(hand, deck[j])
    ensures DistinctCards(hand) && DistinctCards(deck) ==> DistinctCards(newHand)
    ensures DistinctCards(deck) && 2 * |hand| <= |deck| ==>
      forall k :: 0 <= k < |hand| && !hand[k].held ==> !newHand[k].held && !InHand(hand, newHand[k])
  {
    var deckIndex := 0;
    newHand := [];
    ghost var pos: seq<int> := [];
    ghost var skipped: set<(Suit, Rank)> := {};
    for k := 0 to |hand|
      invariant |pos| == k
      invariant Tracks(hand, deck, newHand, pos, deckIndex)
      invariant skipped <= KeysOf(hand) && skipped <= KeysOf(deck[..deckIndex])
      invariant DistinctCards(deck) ==> deckIndex == |skipped| + Used(pos)
    {
      newHand, deckIndex, pos, skipped := DrawStep(hand, deck, k, newHand, deckIndex, pos, skipped);
    }
    TracksReplaced(hand, deck, newHand, pos, deckIndex);
    if DistinctCards(hand) && DistinctCards(deck) {
      TracksDistinct(hand, deck, newHand, pos, deckIndex);
    }
    if DistinctCards(deck) && 2 * |hand| <= |deck| {
      TracksNeverRunsOut(hand, deck, newHand, pos, deckIndex, skipped);
    }
  }

  // ---------------------------------------------------------------------------
  // The hold toggle and the game

  /** The `map` of `toggleHold`: the card at `index` has its hold flipped; every other card is as it was. */
  function ToggleAt(hand: seq<Card>, index: int): (r: seq<Card>)
    ensures |r| == |hand|
    ensures forall i :: 0 <= i < |hand| && i != index ==> r[i] == hand[i]
    ensures 0 <= index < |hand| ==> r[index] == hand[index].(held := !hand[index].held)
  {
    seq(|hand|, i requires 0 <= i < |hand| => if i == index then hand[i].(held := !hand[i].held) else hand[i])
  }

  /** Toggling the same card twice restores the hand. */
  lemma ToggleTwice(hand: seq<Card>, index: int)
    ensures ToggleAt(ToggleAt(hand, index), index) == hand
  {
    assert forall i :: 0 <= i < |hand| ==> ToggleAt(ToggleAt(hand, index), index)[i] == hand[i];
  }

  /** Toggling changes no card's suit or value, so a hand of different cards stays one. */
  lemma ToggleKeepsCards(hand: seq<Card>, index: int)
    ensures forall i :: 0 <= i < |hand| ==> SameCard(ToggleAt(hand, index)[i], hand[i])
    ensures DistinctCards(hand) ==> DistinctCards(ToggleAt(hand, index))
  {
  }

  /**
   * The state of the `PokerGame` component. `result` is `None` where the
   * component shows the empty string. Once the draw is made, the win shown is
   * 25 times the multiplier of the hand shown; before it, nothing is shown.
   */
  class PokerGame {
    var hand: seq<Card>
    var gameStarted: bool
    var hasDrawn: bool
    var lastWin: int
    var result: Option<Hand>
    /** The balance shown by the game (the `balance` prop). */
    var balance: int

    ghost predicate Valid()
      reads this
    {
      && (gameStarted ==> |hand| == 5 && DistinctCards(hand))
      && (!gameStarted ==> hand == [] && !hasDrawn)
      && (hasDrawn ==> result.Some? && lastWin == BetAmount * result.value.Multiplier())
      && (!hasDrawn ==> result == None && lastWin == 0)
    }

    constructor (balance: int)
      ensures Valid()
      ensures this.balance == balance && hand == [] && !gameStarted
    {
      this.balance := balance;
      hand := [];
      gameStarted := false;
      hasDrawn := false;
      lastWin := 0;
      result := None;
    }

    /**
     * `dealHand`: refused when the shown balance is below the bet of 25; a
     * bet the ledger refuses changes nothing here; an accepted bet lowers the
     * shown balance and deals the first five cards of the shuffled deck.
     */
    method DealHand(ledger: Ledger, userId: string, deck: seq<Card>, insertOk: bool)
      returns (betResult: Option<TransactionResponse>)
      requires Valid() && ledger.Valid()
      requires IsShuffle(deck)
      modifies this, ledger, ledger.store
      ensures Valid() && ledger.Valid()
      ensures old(balance) < BetAmount ==>
        && betResult == None
        && unchanged(this) && unchanged(ledger) && unchanged(ledger.store)
      ensures old(balance) >= BetAmount ==>
        && betResult.Some?
        && (betResult.value.success <==> old(ledger.store.GetUserBalance(userId)) >= BetAmount && insertOk)
      ensures betResult.Some? && betResult.value.success ==>
        var before := old(ledger.store.GetUserBalance(userId));
        && ledger.table == old(ledger.table) + [Transaction(userId, GameType, Bet, BetAmount, before, before - BetAmount)]
        && balance == old(balance) - BetAmount
        && hand == deck[..5] && gameStarted && !hasDrawn
        && lastWin == 0 && result == None
      ensures betResult.Some? && !betResult.value.success ==>
        && unchanged(this)
        && ledger.table == old(ledger.table) && ledger.store.storage == old(ledger.store.storage)
    {
      betResult := PlaceBet(ledger, userId, insertOk);
      if betResult.Some? && betResult.value.success {
        DealCards(deck);
      }
    }

    /** The bet of `dealHand`, written to the ledger when the shown balance covers it. */
    method PlaceBet(ledger: Ledger, userId: string, insertOk: bool)
      returns (betResult: Option<TransactionResponse>)
      requires ledger.Valid()
      modifies this`balance, ledger, ledger.store
      ensures ledger.Valid()
      ensures old(balance) < BetAmount ==>
        && betResult == None
        && unchanged(this) && unchanged(ledger) && unchanged(ledger.store)
      ensures old(balance) >= BetAmount ==>
        && betResult.Some?
        && (betResult.value.success <==> old(ledger.store.GetUserBalance(userId)) >= BetAmount && insertOk)
      ensures betResult.Some? && betResult.value.success ==>
        var before := old(ledger.store.GetUserBalance(userId));
        && ledger.table == old(ledger.table) + [Transaction(userId, GameType, Bet, BetAmount, before, before - BetAmount)]
        && balance == old(balance) - BetAmount
      ensures betResult.Some? && !betResult.value.success ==>
        && unchanged(this)
        && ledger.table == old(ledger.table) && ledger.store.storage == old(ledger.store.storage)
    {
      if balance < BetAmount {
        return None;
      }
      var r := ledger.CreateBetTransaction(userId, GameType, BetAmount, insertOk);
      betResult := Some(r);
      if r.success {
        balance := balance - BetAmount;
      }
    }

    /** The state updates of `dealHand` once the bet is placed. */
    method DealCards(deck: seq<Card>)
      requires IsShuffle(deck)
      modifies this`hand, this`gameStarted, this`hasDrawn, this`lastWin, this`result
      ensures Valid()
      ensures hand == deck[..5] && gameStarted && !hasDrawn && lastWin == 0 && result == None
    {
      ShuffleContents(deck);
      hand := deck[..5];
      gameStarted := true;
      hasDrawn := false;
      lastWin := 0;
      result := None;
    }

    /** `toggleHold`: flips the hold of one card, until the draw has been made. */
    method ToggleHold(index: int)
      requires Valid()
      modifies this`hand
      ensures Valid()
      ensures hand == if old(hasDrawn) then old(hand) else ToggleAt(old(hand), index)
    {
      if hasDrawn {
        return;
      }
      ToggleKeepsCards(hand, index);
      hand := ToggleAt(hand, index);
    }

    /**
     * `draw`: only once per deal. Held cards stay in place, the others are
     * replaced from a freshly shuffled deck by cards not in the hand, the new
     * hand is evaluated, and a paying hand (multiplier above 0) wins 25 times
     * the multiplier, written to the ledger whatever the insert's outcome.
     */
    method Draw(ledger: Ledger, userId: string, deck: seq<Card>, winInsertOk: bool)
      requires Valid() && ledger.Valid()
      requires IsShuffle(deck)
      modifies this, ledger, ledger.store
      ensures Valid() && ledger.Valid()
      ensures !old(gameStarted) || old(hasDrawn) ==>
        unchanged(this) && unchanged(ledger) && unchanged(ledger.store)
      ensures old(gameStarted) && !old(hasDrawn) ==>
        && gameStarted && hasDrawn && |hand| == 5
        && (forall k :: 0 <= k < 5 && old(hand)[k].held ==> hand[k] == old(hand)[k])
        && (forall k :: 0 <= k < 5 && !old(hand)[k].held ==> !hand[k].held && !InHand(old(hand), hand[k]))
        && result == Some(Classify(hand))
        && balance == old(balance) + lastWin
      ensures old(gameStarted) && !old(hasDrawn) ==>
        var before := old(ledger.store.GetUserBalance(userId));
        && lastWin == BetAmount * result.value.Multiplier()
        && (lastWin > 0 && winInsertOk ==>
              ledger.table == old(ledger.table) + [Transaction(userId, GameType, Win, lastWin, before, before + lastWin)])
        && (lastWin == 0 || !winInsertOk ==>
              ledger.table == old(ledger.table) && ledger.store.storage == old(ledger.store.storage))
    {
      if !gameStarted || hasDrawn {
        return;
      }
      ReplaceCards(deck);
      Settle(ledger, userId, hand, winInsertOk);
    }

    /** The end of `draw`, after the replacements: the hand is evaluated and its win paid. */
    method Settle(ledger: Ledger, userId: string, cards: seq<Card>, winInsertOk: bool)
      requires ledger.Valid() && |cards| == 5 && lastWin == 0
      modifies this`hasDrawn, this`result, this`lastWin, this`balance, ledger, ledger.store
      ensures ledger.Valid()
      ensures hasDrawn && result == Some(Classify(cards))
      ensures var before := old(ledger.store.GetUserBalance(userId));
        && lastWin == BetAmount * result.value.Multiplier()
        && balance == old(balance) + lastWin
        && (lastWin > 0 && winInsertOk ==>
              ledger.table == old(ledger.table) + [Transaction(userId, GameType, Win, lastWin, before, before + lastWin)])
        && (lastWin == 0 || !winInsertOk ==>
              ledger.table == old(ledger.table) && ledger.store.storage == old(ledger.store.storage))
    {
      var evaluation := EvaluateHand(cards);
      hasDrawn := true;
      result := Some(evaluation);
      PayWin(ledger, userId, evaluation, winInsertOk);
    }

    /** The replacement loop of `draw`, on the dealt hand. */
    method ReplaceCards(deck: seq<Card>)
      requires gameStarted && |hand| == 5 && DistinctCards(hand)
      requires IsShuffle(deck)
      modifies this`hand
      ensures |hand| == 5 && DistinctCards(hand)
      ensures forall k :: 0 <= k < 5 && old(hand)[k].held ==> hand[k] == old(hand)[k]
      ensures forall k :: 0 <= k < 5 && !old(hand)[k].held ==> !hand[k].held && !InHand(old(hand), hand[k])
    {
      ShuffleContents(deck);
      hand := DrawReplacements(hand, deck);
    }

    /**
     * The end of `draw`: a hand with a multiplier above 0 wins 25 times the
     * multiplier, which is written to the ledger (whatever the insert's
     * outcome) and added to the shown balance; a hand that pays nothing
     * changes nothing.
     */
    method PayWin(ledger: Ledger, userId: string, evaluation: Hand, winInsertOk: bool)
      requires ledger.Valid() && lastWin == 0
      modifies this`lastWin, this`balance, ledger, ledger.store
      ensures ledger.Valid()
      ensures var win := BetAmount * evaluation.Multiplier();
        var before := old(ledger.store.GetUserBalance(userId));
        && lastWin == win
        && balance == old(balance) + win
        && (win > 0 && winInsertOk ==>
              ledger.table == old(ledger.table) + [Transaction(userId, GameType, Win, win, before, before + win)])
        && (win == 0 || !winInsertOk ==>
              ledger.table == old(ledger.table) && ledger.store.storage == old(ledger.store.storage))
    {
      if evaluation.Multiplier() > 0 {
        var winAmount := BetAmount * evaluation.Multiplier();
        var _ := ledger.CreateWinTransaction(userId, GameType, winAmount, winInsertOk);
        lastWin := winAmount;
        balance := balance + winAmount;
      }
    }
  }

  // ---------------------------------------------------------------------------
  // Properties of the evaluator

  /** How many values below `hi` occur exactly `n` times. */
  function RanksWithCount(cards: seq<Card>, n: nat, hi: nat): (k: nat)
    requires hi <= 13
    ensures k <= hi
  {
    if hi == 0 then 0
    else RanksWithCount(cards, n, hi - 1) + (if RankCount(cards, hi - 1) == n then 1 else 0)
  }

  /** No value occurs `n` times, so none is counted. */
  lemma {:induction false} RanksWithCountZero(cards: seq<Card>, n: nat, hi: nat)
    requires hi <= 13
    requires forall v :: 0 <= v < hi ==> RankCount(cards, v) != n
    ensures RanksWithCount(cards, n, hi) == 0
  {
    if hi > 0 {
      RanksWithCountZero(cards, n, hi - 1);
    }
  }

  /** Only the value `v` occurs `n` times, so exactly one is counted. */
  lemma {:induction false} RanksWithCountOne(cards: seq<Card>, n: nat, hi: nat, v: int)
    requires hi <= 13 && 0 <= v < hi && RankCount(cards, v) == n
    requires forall w :: 0 <= w < hi && w != v ==> RankCount(cards, w) != n
    ensures RanksWithCount(cards, n, hi) == 1
  {
    if v == hi - 1 {
      RanksWithCountZero(cards, n, hi - 1);
    } else {
      RanksWithCountOne(cards, n, hi - 1, v);
    }
  }

  /** The present counts are exactly the non-zero counts of the values below `hi`. */
  lemma {:induction false} PresentCountsMembers(cards: seq<Card>, hi: nat)
    requires hi <= 13
    ensures forall x :: x in PresentCounts(cards, hi) ==> x > 0
    ensures forall v :: 0 <= v < hi && RankCount(cards, v) > 0 ==> RankCount(cards, v) in PresentCounts(cards, hi)
  {
    if hi > 0 {
      PresentCountsMembers(cards, hi - 1);
    }
  }

  /** The value below `hi` whose count a present count is. */
  lemma {:induction false} PresentCountOwner(cards: seq<Card>, hi: nat, x: int) returns (v: int)
    requires hi <= 13 && x in PresentCounts(cards, hi)
    ensures 0 <= v < hi && RankCount(cards, v) == x
  {
    if x in PresentCounts(cards, hi - 1) {
      v := PresentCountOwner(cards, hi - 1, x);
    } else {
      v := hi - 1;
    }
  }

  /** A positive count occurs in the present counts once per value having it. */
  lemma {:induction false} PresentCountsOccurrences(cards: seq<Card>, n: nat, hi: nat)
    requires hi <= 13 && n > 0
    ensures multiset(PresentCounts(cards, hi))[n] == RanksWithCount(cards, n, hi)
  {
    if hi > 0 {
      PresentCountsOccurrences(cards, n, hi - 1);
    }
  }

  /** The head of a descending sequence is at least each of its elements. */
  lemma HeadIsMax(counts: seq<int>, x: int)
    requires Sorting.IsSorted(counts, true) && x in counts
    ensures x <= Nth(counts, 0)
  {
    var i :| 0 <= i < |counts| && counts[i] == x;
    if i > 0 {
      assert Sorting.InOrder(counts[0], counts[i], true);
    }
  }

  /** `TopCount` over any descending arrangement of the present counts. */
  lemma TopCountOf(cards: seq<Card>, counts: seq<int>)
    requires Sorting.IsSorted(counts, true)
    requires multiset(counts) == multiset(PresentCounts(cards, 13))
    ensures forall v :: 0 <= v < 13 ==> RankCount(cards, v) <= Nth(counts, 0)
    ensures cards != [] ==> exists v :: 0 <= v < 13 && RankCount(cards, v) == Nth(counts, 0)
  {
    TopCountBound(cards, counts);
    if cards != [] {
      var v := TopCountOwner(cards, counts);
    }
  }

  /** No value occurs more often than the first of the descending counts says. */
  lemma TopCountBound(cards: seq<Card>, counts: seq<int>)
    requires Sorting.IsSorted(counts, true)
    requires multiset(counts) == multiset(PresentCounts(cards, 13))
    ensures forall v :: 0 <= v < 13 ==> RankCount(cards, v) <= Nth(counts, 0)
  {
    PresentCountsMembers(cards, 13);
    if counts != [] {
      assert counts[0] in multiset(PresentCounts(cards, 13));
      assert counts[0] in PresentCounts(cards, 13);
    }
    assert Nth(counts, 0) >= 0;
    forall v | 0 <= v < 13
      ensures RankCount(cards, v) <= Nth(counts, 0)
    {
      if RankCount(cards, v) > 0 {
        assert RankCount(cards, v) in PresentCounts(cards, 13);
        assert RankCount(cards, v) in multiset(counts);
        assert RankCount(cards, v) in counts;
        HeadIsMax(counts, RankCount(cards, v));
      }
    }
  }

  /** Some value occurs as often as the first of the descending counts says. */
  lemma TopCountOwner(cards: seq<Card>, counts: seq<int>) returns (v: int)
    requires cards != []
    requires multiset(counts) == multiset(PresentCounts(cards, 13))
    ensures 0 <= v < 13 && RankCount(cards, v) == Nth(counts, 0)
  {
    var present := PresentCounts(cards, 13);
    PresentCountsMembers(cards, 13);
    assert RankCount(cards, Last(cards).value) in present;
    assert RankCount(cards, Last(cards).value) in multiset(counts);
    assert counts[0] in multiset(present);
    v := PresentCountOwner(cards, 13, counts[0]);
  }

  /** The first sorted count is the largest number of cards sharing a value. */
  lemma TopCount(cards: seq<Card>)
    ensures forall v :: 0 <= v < 13 ==> RankCount(cards, v) <= Nth(Counts(cards), 0)
    ensures cards != [] ==> exists v :: 0 <= v < 13 && RankCount(cards, v) == Nth(Counts(cards), 0)
  {
    TopCountOf(cards, Counts(cards));
  }

  /** The number of cards of value `v` is how often `v` occurs among the values. */
  lemma {:induction false} RankCountIsMultiplicity(cards: seq<Card>, v: int)
    ensures RankCount(cards, v) == multiset(Ranks(cards))[v]
  {
    if cards != [] {
      RankCountIsMultiplicity(Front(cards), v);
      assert Ranks(cards) == Ranks(Front(cards)) + [Last(cards).value];
    }
  }

  /** All the cards have suit `s` exactly when the count of `s` is the number of cards. */
  lemma {:induction false} SuitCountAll(cards: seq<Card>, s: Suit)
    ensures SuitCount(cards, s) == |cards| <==> forall i :: 0 <= i < |cards| ==> cards[i].suit == s
  {
    if cards != [] {
      SuitCountAll(Front(cards), s);
      assert forall i :: 0 <= i < |cards| - 1 ==> cards[i] == Front(cards)[i];
    }
  }

  /** A flush is five cards of one suit. */
  lemma FlushIffOneSuit(cards: seq<Card>)
    requires |cards| == 5
    ensures IsFlush(cards) <==> forall i :: 0 <= i < 5 ==> cards[i].suit == cards[0].suit
  {
    SuitCountAll(cards, cards[0].suit);
    if IsFlush(cards) {
      var s :| SuitCount(cards, s) == 5;
      SuitCountAll(cards, s);
    }
  }

  /** The hand's values, ascending, are `sorted`. */
  lemma SortedRanks(cards: seq<Card>, sorted: seq<int>)
    requires |cards| == 5 && Sorting.IsSorted(sorted, false)
    requires multiset(Ranks(cards)) == multiset(sorted)
    ensures AscendingRanks(cards) == sorted
  {
    SortedUnique(AscendingRanks(cards), sorted, false);
  }

  /** Values that arrange into a straight make the hand a straight. */
  lemma StraightOfSorted(cards: seq<Card>, sorted: seq<int>)
    requires |cards| == 5 && |sorted| == 5 && Sorting.IsSorted(sorted, false)
    requires multiset(Ranks(cards)) == multiset(sorted) && StraightRanks(sorted)
    ensures IsStraight(cards)
  {
    SortedRanks(cards, sorted);
  }

  /** Five values each one above the previous are a straight. */
  lemma RunIsStraight(sv: seq<int>, low: int)
    requires sv == [low, low + 1, low + 2, low + 3, low + 4]
    ensures StraightRanks(sv)
  {
    assert Consecutive(sv);
  }

  /** Sorted values A, 10, ..., K take the ace-high branch of the straight test. */
  lemma AceHighBranch(sv: seq<int>)
    requires |sv| == 5 && sv[0] == 0 && sv[1] == 9 && sv[4] == 12
    ensures StraightRanks(sv)
  {
  }

  /** A-2-3-4-5 is a straight: the ace sits at index 0. */
  lemma WheelIsStraight(cards: seq<Card>)
    requires |cards| == 5 && multiset(Ranks(cards)) == multiset([0, 1, 2, 3, 4])
    ensures IsStraight(cards)
  {
    var sorted := [0, 1, 2, 3, 4];
    AscendingFive(0, 1, 2, 3, 4);
    assert multiset(Ranks(cards)) == multiset(sorted);
    RunIsStraight(sorted, 0);
    StraightOfSorted(cards, sorted);
  }

  /** A-10-J-Q-K is a straight through the special case. */
  lemma BroadwayIsStraight(cards: seq<Card>)
    requires |cards| == 5 && multiset(Ranks(cards)) == multiset([0, 9, 10, 11, 12])
    ensures IsStraight(cards)
  {
    var sorted := [0, 9, 10, 11, 12];
    AscendingFive(0, 9, 10, 11, 12);
    assert multiset(Ranks(cards)) == multiset(sorted);
    AceHighBranch(sorted);
    StraightOfSorted(cards, sorted);
  }

  /** Five values that ascend step by step are sorted ascending. */
  lemma AscendingFive(a: int, b: int, c: int, d: int, e: int)
    requires a <= b <= c <= d <= e
    ensures Sorting.IsSorted([a, b, c, d, e], false)
  {
  }

  /**
   * With a leading count of 2, the second count is not 2 exactly when 2
   * occurs once among the counts.
   */
  lemma PairsInCounts(counts: seq<int>)
    requires Sorting.IsSorted(counts, true) && Nth(counts, 0) == 2
    ensures Nth(counts, 1) != 2 <==> multiset(counts)[2] == 1
  {
    if Nth(counts, 1) == 2 {
      assert counts == [counts[0], counts[1]] + counts[2..];
    } else {
      forall i | 1 <= i < |counts|
        ensures counts[i] < 2
      {
        assert Sorting.InOrder(counts[0], counts[1], true);
        if i > 1 {
          assert Sorting.InOrder(counts[1], counts[i], true);
        }
      }
      assert counts == [counts[0]] + counts[1..];
      assert 2 !in multiset(counts[1..]);
    }
  }

  /**
   * A,10,10,10,K holds three tens, yet the special straight case sees an ace
   * first, a 10 second and a king last, and the straight test comes before
   * three of a kind: the hand is classed as a straight.
   */
  lemma AceTensKingIsStraight(cards: seq<Card>)
    requires |cards| == 5 && !IsFlush(cards)
    requires multiset(Ranks(cards)) == multiset([0, 9, 9, 9, 12])
    ensures RankCount(cards, 9) == 3
    ensures Classify(cards) == Straight
  {
    var sorted := [0, 9, 9, 9, 12];
    AscendingFive(0, 9, 9, 9, 12);
    assert multiset(Ranks(cards)) == multiset(sorted);
    AceHighBranch(sorted);
    StraightOfSorted(cards, sorted);
    AceTensKingCounts(cards);
    var counts := Counts(cards);
    ThreeAndSinglesCounts(cards, counts, 9);
    assert Classify(cards) == ClassifyFrom(counts, false, true, FirstPair(cards));
  }

  /** The value counts of A,10,10,10,K: three tens, nothing else twice. */
  lemma AceTensKingCounts(cards: seq<Card>)
    requires multiset(Ranks(cards)) == multiset([0, 9, 9, 9, 12])
    ensures RankCount(cards, 9) == 3
    ensures forall w :: w != 9 ==> RankCount(cards, w) < 2
  {
    forall w
      ensures RankCount(cards, w) == multiset([0, 9, 9, 9, 12])[w]
    {
      RankCountIsMultiplicity(cards, w);
    }
  }

  /** One value three times and no other value twice: the counts start 3 and then not 2. */
  lemma ThreeAndSinglesCounts(cards: seq<Card>, counts: seq<int>, t: int)
    requires Sorting.IsSorted(counts, true)
    requires multiset(counts) == multiset(PresentCounts(cards, 13))
    requires 0 <= t < 13 && RankCount(cards, t) == 3
    requires forall w :: w != t ==> RankCount(cards, w) < 2
    ensures Nth(counts, 0) == 3 && Nth(counts, 1) != 2
  {
    TopCountOf(cards, counts);
    RanksWithCountZero(cards, 2, 13);
    PresentCountsOccurrences(cards, 2, 13);
    if 1 < |counts| {
      assert counts[1] in multiset(counts);
    }
  }

  /**
   * A hand with one value twice, no value three times and no flush or straight
   * pays as a high pair when that value is J, Q, K or A, and nothing otherwise.
   */
  lemma SinglePairPays(cards: seq<Card>, v: Rank)
    requires |cards| == 5 && !IsFlush(cards) && !IsStraight(cards)
    requires OnlyPair(cards, v)
    ensures FirstPair(cards) == Some(v)
    ensures Classify(cards) == (if v in HighRanks then HighPair else Nothing)
  {
    var counts := Counts(cards);
    TopCountOf(cards, counts);
    assert Nth(counts, 0) == 2;
    RanksWithCountOne(cards, 2, 13, v);
    PresentCountsOccurrences(cards, 2, 13);
    PairsInCounts(counts);
  }

  /** Two different values together occur at most as often as there are cards. */
  lemma {:induction false} RankCountsDisjoint(cards: seq<Card>, v: int, w: int)
    requires v != w
    ensures RankCount(cards, v) + RankCount(cards, w) <= |cards|
  {
    if cards != [] {
      RankCountsDisjoint(Front(cards), v, w);
    }
  }

  /**
   * The top of the payout table: a straight flush is exactly a flush that is a
   * straight, and four of a kind is exactly four cards of one value in a hand
   * that is not a straight flush.
   */
  lemma TopRows(cards: seq<Card>)
    requires |cards| == 5
    ensures Classify(cards) == StraightFlush <==> IsFlush(cards) && IsStraight(cards)
    ensures Classify(cards) == FourOfAKind <==>
      !(IsFlush(cards) && IsStraight(cards)) && exists v :: 0 <= v < 13 && RankCount(cards, v) == 4
  {
    TopCount(cards);
    if exists v :: 0 <= v < 13 && RankCount(cards, v) == 4 {
      var v :| 0 <= v < 13 && RankCount(cards, v) == 4;
      var w :| 0 <= w < 13 && RankCount(cards, w) == Nth(Counts(cards), 0);
      if w != v {
        RankCountsDisjoint(cards, v, w);
      }
    }
  }

  /**
   * One value three times, every other value once, and neither a flush nor a
   * straight: three of a kind.
   */
  lemma ThreeOfAKindRow(cards: seq<Card>, t: int)
    requires |cards| == 5 && !IsFlush(cards) && !IsStraight(cards)
    requires 0 <= t < 13 && RankCount(cards, t) == 3
    requires forall w :: w != t ==> RankCount(cards, w) < 2
    ensures Classify(cards) == ThreeOfAKind
  {
    ThreeAndSinglesCounts(cards, Counts(cards), t);
  }

  /** Conversely, every high pair is a hand of the kind `SinglePairPays` describes, with a high value. */
  lemma HighPairIsSinglePair(cards: seq<Card>)
    requires |cards| == 5 && Classify(cards) == HighPair
    ensures exists v :: v in HighRanks && OnlyPair(cards, v)
  {
    HighPairChain(cards);
    var v := FirstPair(cards).value;
    FirstPairIsOnlyPair(cards);
    assert v in HighRanks && OnlyPair(cards, v);
  }

  /** `v` is paired and no other value is. */
  predicate OnlyPair(cards: seq<Card>, v: int)
  {
    RankCount(cards, v) == 2 && forall w :: 0 <= w < 13 && w != v ==> RankCount(cards, w) < 2
  }

  /** When the sorted counts start 2 and then not 2, the first pair is the only pair. */
  lemma FirstPairIsOnlyPair(cards: seq<Card>)
    requires FirstPair(cards).Some?
    requires Nth(Counts(cards), 0) == 2 && Nth(Counts(cards), 1) != 2
    ensures OnlyPair(cards, FirstPair(cards).value)
  {
    SinglePairCounts(cards, Counts(cards), FirstPair(cards).value);
  }

  /** What the classification chain has established when it arrives at a high pair. */
  lemma HighPairChain(cards: seq<Card>)
    requires |cards| == 5 && Classify(cards) == HighPair
    ensures FirstPair(cards).Some? && FirstPair(cards).value in HighRanks
    ensures Nth(Counts(cards), 0) == 2 && Nth(Counts(cards), 1) != 2
  {
  }

  /** Counts that start 2 and then not 2 come from one value twice and the rest once. */
  lemma SinglePairCounts(cards: seq<Card>, counts: seq<int>, v: int)
    requires Sorting.IsSorted(counts, true)
    requires multiset(counts) == multiset(PresentCounts(cards, 13))
    requires Nth(counts, 0) == 2 && Nth(counts, 1) != 2
    requires 0 <= v < 13 && RankCount(cards, v) == 2
    ensures forall w :: 0 <= w < 13 && w != v ==> RankCount(cards, w) < 2
  {
    PairsInCounts(counts);
    PresentCountsOccurrences(cards, 2, 13);
    TopCountOf(cards, counts);
    forall w | 0 <= w < 13 && w != v
      ensures RankCount(cards, w) < 2
    {
      if RankCount(cards, w) == 2 {
        RanksWithCountTwo(cards, 2, 13, v, w);
      }
    }
  }

  /** Two different values occurring `n` times are both counted. */
  lemma {:induction false} RanksWithCountTwo(cards: seq<Card>, n: nat, hi: nat, v: int, w: int)
    requires hi <= 13 && 0 <= v < hi && 0 <= w < hi && v != w
    requires RankCount(cards, v) == n && RankCount(cards, w) == n
    ensures RanksWithCount(cards, n, hi) >= 2
  {
    if v == hi - 1 {
      RanksWithCountAtLeastOne(cards, n, hi - 1, w);
    } else if w == hi - 1 {
      RanksWithCountAtLeastOne(cards, n, hi - 1, v);
    } else {
      RanksWithCountTwo(cards, n, hi - 1, v, w);
    }
  }

  /** A value occurring `n` times is counted. */
  lemma {:induction false} RanksWithCountAtLeastOne(cards: seq<Card>, n: nat, hi: nat, v: int)
    requires hi <= 13 && 0 <= v < hi && RankCount(cards, v) == n
    ensures RanksWithCount(cards, n, hi) >= 1
  {
    if v < hi - 1 {
      RanksWithCountAtLeastOne(cards, n, hi - 1, v);
    }
  }

  /** The head of a sorted sequence may precede each of its elements. */
  lemma HeadPrecedesAll(s: seq<int>, x: int, descending: bool)
    requires Sorting.IsSorted(s, descending) && x in s
    ensures Sorting.InOrder(s[0], x, descending)
  {
    var i :| 0 <= i < |s| && s[i] == x;
    if i > 0 {
      assert Sorting.InOrder(s[0], s[i], descending);
    }
  }

  /** Two sorted sequences with the same elements start alike. */
  lemma SameHead(a: seq<int>, b: seq<int>, descending: bool)
    requires Sorting.IsSorted(a, descending) && Sorting.IsSorted(b, descending)
    requires multiset(a) == multiset(b) && a != []
    ensures b != [] && a[0] == b[0]
  {
    assert a[0] in multiset(b);
    assert b[0] in multiset(a);
    HeadPrecedesAll(a, b[0], descending);
    HeadPrecedesAll(b, a[0], descending);
  }

  lemma TailMultiset(a: seq<int>)
    requires a != []
    ensures multiset(a[1..]) == multiset(a) - multiset{a[0]}
  {
    assert a == [a[0]] + a[1..];
  }

  /** Two sorted sequences with the same elements are equal. */
  lemma {:induction false} SortedUnique(a: seq<int>, b: seq<int>, descending: bool)
    requires Sorting.IsSorted(a, descending) && Sorting.IsSorted(b, descending)
    requires multiset(a) == multiset(b)
    ensures a == b
    decreases |a|
  {
    if a == [] {
      assert |multiset(b)| == 0;
    } else {
      SameHead(a, b, descending);
      TailMultiset(a);
      TailMultiset(b);
      assert Sorting.IsSorted(a[1..], descending);
      assert Sorting.IsSorted(b[1..], descending);
      SortedUnique(a[1..], b[1..], descending);
      assert a == [a[0]] + a[1..] && b == [b[0]] + b[1..];
    }
  }


}

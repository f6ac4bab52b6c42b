/**
 * The ledger of lib/transactions.ts: every bet and every win is written to the
 * `transactions` table with the balance before and after it, and the balance
 * store is updated only once that write has succeeded.
 *
 * The table is a sequence in insertion order; an insert that the database
 * rejects is an input (`insertOk`). Row ids and dates, which the database
 * assigns, are not modelled: insertion order stands for date order.
 */
module Transactions {
  import opened Wrappers
  import opened Auth

  datatype TransactionType = Bet | Win

  /** One row of the `transactions` table. */
  datatype Transaction = Transaction(
    userId: string,
    gameType: string,
    transactionType: TransactionType,
    amount: int,
    amountBefore: int,
    amountAfter: int)

  datatype TransactionResponse = TransactionResponse(
    success: bool,
    message: string,
    transaction: Option<Transaction>)

  /** The balance change a row records: a bet takes its amount away, a win adds it. */
  function Delta(t: Transaction): int
  {
    if t.transactionType == Bet then -t.amount else t.amount
  }

  /** A row whose after-balance is its before-balance moved by its amount. */
  predicate WellFormed(t: Transaction)
  {
    t.amountAfter == t.amountBefore + Delta(t)
  }

  function Last<T>(s: seq<T>): T
    requires s != []
  {
    s[|s| - 1]
  }

  function Front<T>(s: seq<T>): seq<T>
    requires s != []
  {
    s[..|s| - 1]
  }

  /** A non-empty sequence is its front followed by its last element. */
  lemma FrontThenLast<T>(s: seq<T>)
    requires s != []
    ensures Front(s) + [Last(s)] == s
  {
  }

  /** `sub` is `s` with some elements dropped and the rest in their original order. */
  predicate IsSubsequence<T(==)>(sub: seq<T>, s: seq<T>)
  {
    if sub == [] then true
    else if s == [] then false
    else (Last(sub) == Last(s) && IsSubsequence(Front(sub), Front(s))) || IsSubsequence(sub, Front(s))
  }

  lemma SubsequenceOfSnoc<T>(sub: seq<T>, s: seq<T>, x: T)
    requires IsSubsequence(sub, s)
    ensures IsSubsequence(sub, s + [x])
    ensures IsSubsequence(sub + [x], s + [x])
  {
    assert Front(s + [x]) == s;
    assert Front(sub + [x]) == sub;
  }

  /**
   * The rows of one user (`.eq("user_id", userId)`): every row of that user,
   * as often as it occurs, no row of another user, in table order.
   */
  function ForUser(table: seq<Transaction>, userId: string): (rows: seq<Transaction>)
    ensures |rows| <= |table|
    ensures forall t <- rows :: t.userId == userId && t in table
    ensures forall t <- table :: t.userId == userId ==> multiset(rows)[t] == multiset(table)[t]
    ensures IsSubsequence(rows, table)
  {
    if table == [] then []
    else
      var (front, last) := (Front(table), Last(table));
      var kept := ForUser(front, userId);
      FrontThenLast(table);
      assert multiset(table) == multiset(front) + multiset{last};
      SubsequenceOfSnoc(kept, front, last);
      if last.userId == userId then kept + [last] else kept
  }

  lemma ForUserAppend(table: seq<Transaction>, t: Transaction, userId: string)
    ensures ForUser(table + [t], userId)
         == ForUser(table, userId) + (if t.userId == userId then [t] else [])
  {
    assert Front(table + [t]) == table;
  }

  /** Sum of wins minus sum of bets. */
  function Net(rows: seq<Transaction>): int
  {
    if rows == [] then 0 else Net(Front(rows)) + Delta(Last(rows))
  }

  /**
   * Each row starts from the balance the previous one left: the first from
   * `from`, and the last one leaves `to`.
   */
  predicate Chained(rows: seq<Transaction>, from: int, to: int)
  {
    if rows == [] then from == to
    else Chained(Front(rows), from, Last(rows).amountBefore) && Last(rows).amountAfter == to
  }

  /** A row that starts where a chain ends extends it. */
  lemma ChainedSnoc(rows: seq<Transaction>, from: int, t: Transaction)
    requires Chained(rows, from, t.amountBefore)
    ensures Chained(rows + [t], from, t.amountAfter)
  {
    assert Front(rows + [t]) == rows;
  }

  /** User `u`'s rows lead from `u`'s opening balance to `u`'s balance in `storage`. */
  ghost predicate ChainedFor(table: seq<Transaction>, opening: map<string, int>, storage: map<string, int>, u: string)
  {
    Chained(ForUser(table, u), BalanceIn(opening, u), BalanceIn(storage, u))
  }

  /**
   * Appending a row that starts from its user's current balance, and writing its
   * after-balance to the store, keeps user `u`'s rows chained to the store.
   */
  lemma ChainAfterAppend(table: seq<Transaction>, t: Transaction, opening: map<string, int>,
                         storage: map<string, int>, u: string)
    requires ChainedFor(table, opening, storage, u)
    requires t.amountBefore == BalanceIn(storage, t.userId)
    ensures ChainedFor(table + [t], opening, storage[BalanceKey(t.userId) := t.amountAfter], u)
  {
    ForUserAppend(table, t, u);
    WriteThenRead(storage, t.userId, t.amountAfter, u);
    if u == t.userId {
      ChainedSnoc(ForUser(table, u), BalanceIn(opening, u), t);
    } else {
      assert ForUser(table + [t], u) == ForUser(table, u) + [] == ForUser(table, u);
    }
  }

  /** A chain of well-formed rows moves the balance by exactly its net amount. */
  lemma {:induction false} ChainedNet(rows: seq<Transaction>, from: int, to: int)
    requires forall t <- rows :: WellFormed(t)
    requires Chained(rows, from, to)
    ensures to == from + Net(rows)
  {
    if rows != [] {
      assert Last(rows) in rows;
      ChainedNet(Front(rows), from, Last(rows).amountBefore);
    }
  }

  // ---------------------------------------------------------------------------
  // getUserStats

  datatype UserStats = UserStats(
    totalBets: int,
    totalWins: int,
    totalBetAmount: int,
    totalWinAmount: int,
    netProfit: int)

  const ZeroStats: UserStats := UserStats(0, 0, 0, 0, 0)

  /** The `reduce` callback: count and sum the row under its type. */
  function Tally(acc: UserStats, t: Transaction): UserStats
  {
    if t.transactionType == Bet then
      acc.(totalBets := acc.totalBets + 1, totalBetAmount := acc.totalBetAmount + t.amount)
    else
      acc.(totalWins := acc.totalWins + 1, totalWinAmount := acc.totalWinAmount + t.amount)
  }

  /** `data.reduce(Tally, acc)`, a left fold. */
  function Reduce(acc: UserStats, rows: seq<Transaction>): UserStats
    decreases |rows|
  {
    if rows == [] then acc else Reduce(Tally(acc, rows[0]), rows[1..])
  }

  /** Number of rows of a type. */
  function CountOf(rows: seq<Transaction>, ty: TransactionType): nat
  {
    if rows == [] then 0
    else CountOf(Front(rows), ty) + (if Last(rows).transactionType == ty then 1 else 0)
  }

  /** Sum of the amounts of the rows of a type. */
  function AmountOf(rows: seq<Transaction>, ty: TransactionType): int
  {
    if rows == [] then 0
    else AmountOf(Front(rows), ty) + (if Last(rows).transactionType == ty then Last(rows).amount else 0)
  }

  lemma {:induction false} ReduceSnoc(acc: UserStats, rows: seq<Transaction>, t: Transaction)
    ensures Reduce(acc, rows + [t]) == Tally(Reduce(acc, rows), t)
    decreases |rows|
  {
    if rows != [] {
      assert (rows + [t])[1..] == rows[1..] + [t];
      ReduceSnoc(Tally(acc, rows[0]), rows[1..], t);
    }
  }

  /** The fold counts and sums every row exactly once under its own type. */
  lemma {:induction false} ReduceCounts(rows: seq<Transaction>)
    ensures Reduce(ZeroStats, rows)
         == UserStats(CountOf(rows, Bet), CountOf(rows, Win), AmountOf(rows, Bet), AmountOf(rows, Win), 0)
  {
    if rows != [] {
      ReduceCounts(Front(rows));
      FrontThenLast(rows);
      ReduceSnoc(ZeroStats, Front(rows), Last(rows));
    }
  }

  /** Every row is a bet or a win. */
  lemma {:induction false} CountsCover(rows: seq<Transaction>)
    ensures CountOf(rows, Bet) + CountOf(rows, Win) == |rows|
    ensures Net(rows) == AmountOf(rows, Win) - AmountOf(rows, Bet)
  {
    if rows != [] {
      CountsCover(Front(rows));
    }
  }

  /**
   * `getUserStats`: a failed query gives all zeros; otherwise the user's rows are
   * counted and summed by type and `netProfit` is wins minus bets.
   */
  function GetUserStats(table: seq<Transaction>, userId: string, queryFails: bool): (s: UserStats)
    ensures queryFails ==> s == ZeroStats
    ensures !queryFails ==>
      var rows := ForUser(table, userId);
      && s.totalBets == CountOf(rows, Bet)
      && s.totalWins == CountOf(rows, Win)
      && s.totalBetAmount == AmountOf(rows, Bet)
      && s.totalWinAmount == AmountOf(rows, Win)
      && s.totalBets + s.totalWins == |rows|
      && s.netProfit == s.totalWinAmount - s.totalBetAmount == Net(rows)
  {
    if queryFails then ZeroStats
    else
      var rows := ForUser(table, userId);
      var stats := Reduce(ZeroStats, rows);
      ReduceCounts(rows);
      CountsCover(rows);
      stats.(netProfit := stats.totalWinAmount - stats.totalBetAmount)
  }

  /** A user without rows has all-zero statistics. */
  lemma StatsOfNoRows(table: seq<Transaction>, userId: string, queryFails: bool)
    requires ForUser(table, userId) == []
    ensures GetUserStats(table, userId, queryFails) == ZeroStats
  {
  }

  // ---------------------------------------------------------------------------
  // getUserTransactions

  function Reverse<T>(s: seq<T>): (r: seq<T>)
    ensures |r| == |s|
    ensures forall i :: 0 <= i < |s| ==> r[i] == s[|s| - 1 - i]
  {
    if s == [] then [] else [Last(s)] + Reverse(Front(s))
  }

  /** `.order("date", { ascending: false }).limit(limit)` on rows kept oldest first. */
  function NewestFirst<T>(rows: seq<T>, limit: nat): (r: seq<T>)
    ensures |r| == (if limit < |rows| then limit else |rows|)
    ensures forall i :: 0 <= i < |r| ==> r[i] == rows[|rows| - 1 - i]
  {
    var newestFirst := Reverse(rows);
    if limit < |newestFirst| then newestFirst[..limit] else newestFirst
  }

  /** `getUserTransactions`: the user's rows, newest first, at most `limit` of them. */
  function GetUserTransactions(table: seq<Transaction>, userId: string, limit: nat, queryFails: bool)
    : (r: seq<Transaction>)
    ensures queryFails ==> r == []
    ensures !queryFails ==>
      var rows := ForUser(table, userId);
      && |r| == (if limit < |rows| then limit else |rows|)
      && forall i :: 0 <= i < |r| ==> r[i] == rows[|rows| - 1 - i]
  {
    if queryFails then [] else NewestFirst(ForUser(table, userId), limit)
  }

  // ---------------------------------------------------------------------------
  // createBetTransaction / createWinTransaction

  /** The messages of the ledger's responses. */
  const InsufficientBalance: string := "Balance insuficiente"
  const BetInsertFailed: string := "Error al registrar la apuesta"
  const BetRecorded: string := "Apuesta registrada"
  const WinInsertFailed: string := "Error al registrar la ganancia"
  const WinRecorded: string := "Ganancia registrada"

  /**
   * The ledger: the balance store it reads and writes, and the table it appends to.
   * `opening` is the store's content when the ledger began; from then on only
   * the two methods below change the store or the table.
   */
  class Ledger {
    const store: BalanceStore
    var table: seq<Transaction>
    ghost var opening: map<string, int>

    /**
     * Every row is well formed, and each user's rows chain from the user's
     * opening balance to the balance the store holds now.
     */
    ghost predicate Valid()
      reads this, store
    {
      && (forall t <- table :: WellFormed(t))
      && forall u :: ChainedFor(table, opening, store.storage, u)
    }

    constructor (store: BalanceStore)
      ensures this.store == store && table == [] && opening == store.storage
      ensures Valid()
    {
      this.store := store;
      table := [];
      opening := store.storage;
    }

    /** Append a row for `userId` and write its after-balance to the store. */
    method Record(t: Transaction)
      requires Valid()
      requires WellFormed(t) && t.amountBefore == store.GetUserBalance(t.userId)
      modifies this, store
      ensures Valid()
      ensures opening == old(opening)
      ensures table == old(table) + [t]
      ensures store.storage == old(store.storage)[BalanceKey(t.userId) := t.amountAfter]
    {
      ghost var (before, was) := (table, store.storage);
      table := table + [t];
      var _ := store.UpdateUserBalance(t.userId, t.amountAfter);
      forall u
        ensures ChainedFor(table, opening, store.storage, u)
      {
        assert ChainedFor(before, opening, was, u);
        ChainAfterAppend(before, t, opening, was, u);
      }
    }

    /**
     * `createBetTransaction`: refused without any write when the stored balance
     * is below the bet; otherwise a bet row is inserted and, only if the insert
     * succeeds, the store is lowered by the bet.
     */
    method CreateBetTransaction(userId: string, gameType: string, betAmount: int, insertOk: bool)
      returns (r: TransactionResponse)
      requires Valid()
      modifies this, store
      ensures Valid() && opening == old(opening)
      ensures r.success <==> old(store.GetUserBalance(userId)) >= betAmount && insertOk
      ensures !r.success ==>
        && r.message == (if old(store.GetUserBalance(userId)) < betAmount then InsufficientBalance
                         else BetInsertFailed)
        && r.transaction == None
        && table == old(table) && store.storage == old(store.storage)
      ensures r.success ==>
        var before := old(store.GetUserBalance(userId));
        var row := Transaction(userId, gameType, Bet, betAmount, before, before - betAmount);
        && r == TransactionResponse(true, BetRecorded, Some(row))
        && table == old(table) + [row]
        && store.storage == old(store.storage)[BalanceKey(userId) := before - betAmount]
        && store.GetUserBalance(userId) == before - betAmount >= 0
    {
      var currentBalance := store.GetUserBalance(userId);
      if currentBalance < betAmount {
        return TransactionResponse(false, InsufficientBalance, None);
      }
      var newBalance := currentBalance - betAmount;
      if !insertOk {
        return TransactionResponse(false, BetInsertFailed, None);
      }
      var row := Transaction(userId, gameType, Bet, betAmount, currentBalance, newBalance);
      Record(row);
      r := TransactionResponse(true, BetRecorded, Some(row));
    }

    /**
     * `createWinTransaction`: no balance check; a win row is inserted and, only
     * if the insert succeeds, the store is raised by the win.
     */
    method CreateWinTransaction(userId: string, gameType: string, winAmount: int, insertOk: bool)
      returns (r: TransactionResponse)
      requires Valid()
      modifies this, store
      ensures Valid() && opening == old(opening)
      ensures r.success <==> insertOk
      ensures !r.success ==>
        && r == TransactionResponse(false, WinInsertFailed, None)
        && table == old(table) && store.storage == old(store.storage)
      ensures r.success ==>
        var before := old(store.GetUserBalance(userId));
        var row := Transaction(userId, gameType, Win, winAmount, before, before + winAmount);
        && r == TransactionResponse(true, WinRecorded, Some(row))
        && table == old(table) + [row]
        && store.storage == old(store.storage)[BalanceKey(userId) := before + winAmount]
        && store.GetUserBalance(userId) == before + winAmount
    {
      var currentBalance := store.GetUserBalance(userId);
      var newBalance := currentBalance + winAmount;
      if !insertOk {
        return TransactionResponse(false, WinInsertFailed, None);
      }
      var row := Transaction(userId, gameType, Win, winAmount, currentBalance, newBalance);
      Record(row);
      r := TransactionResponse(true, WinRecorded, Some(row));
    }
  }

  /**
   * The ledger invariant: each user's stored balance is the opening balance plus
   * the user's wins minus the user's bets, i.e. plus `getUserStats`' net profit.
   */
  lemma BalanceIsOpeningPlusNet(ledger: Ledger, userId: string)
    requires ledger.Valid()
    ensures ledger.store.GetUserBalance(userId)
         == BalanceIn(ledger.opening, userId) + Net(ForUser(ledger.table, userId))
    ensures ledger.store.GetUserBalance(userId)
         == BalanceIn(ledger.opening, userId) + GetUserStats(ledger.table, userId, false).netProfit
  {
    assert ChainedFor(ledger.table, ledger.opening, ledger.store.storage, userId);
    ChainedNet(ForUser(ledger.table, userId), BalanceIn(ledger.opening, userId),
               ledger.store.GetUserBalance(userId));
  }

  /** For a user with no balance stored when the ledger began: 1000 + wins - bets. */
  lemma NewUserBalance(ledger: Ledger, userId: string)
    requires ledger.Valid()
    requires BalanceKey(userId) !in ledger.opening
    ensures var rows := ForUser(ledger.table, userId);
      ledger.store.GetUserBalance(userId) == InitialBalance + AmountOf(rows, Win) - AmountOf(rows, Bet)
  {
    BalanceIsOpeningPlusNet(ledger, userId);
    CountsCover(ForUser(ledger.table, userId));
  }
}

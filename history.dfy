/**
 * The pure parts of the transaction history screen
 * (components/transaction-history.tsx): the type filter, the per-type counts
 * shown on the filter buttons, and the game-name lookup.
 */
module History {
  import opened Transactions

  /** The filter buttons: all rows, bets only, wins only. */
  datatype Filter = All | Only(transactionType: TransactionType)

  /** `filteredTransactions`: "all" keeps every row, otherwise the rows of that type. */
  function FilterTransactions(rows: seq<Transaction>, filter: Filter): seq<Transaction>
  {
    if rows == [] then []
    else
      var keep := filter.All? || Last(rows).transactionType == filter.transactionType;
      FilterTransactions(Front(rows), filter) + (if keep then [Last(rows)] else [])
  }

  /** The "all" filter returns the list unchanged. */
  lemma {:induction false} FilterAllIsIdentity(rows: seq<Transaction>)
    ensures FilterTransactions(rows, All) == rows
  {
    if rows != [] {
      FilterAllIsIdentity(Front(rows));
      assert FilterTransactions(rows, All) == Front(rows) + [Last(rows)];
      FrontThenLast(rows);
    }
  }

  /** A type filter keeps only rows of that type. */
  lemma {:induction false} FilterKeepsType(rows: seq<Transaction>, ty: TransactionType)
    ensures forall t <- FilterTransactions(rows, Only(ty)) :: t.transactionType == ty
  {
    if rows != [] {
      FilterKeepsType(Front(rows), ty);
    }
  }

  /** A type filter keeps every row of that type, as many times as it occurs. */
  lemma {:induction false} FilterKeepsAllOfType(rows: seq<Transaction>, ty: TransactionType)
    ensures forall t: Transaction :: t.transactionType == ty ==>
      multiset(FilterTransactions(rows, Only(ty)))[t] == multiset(rows)[t]
  {
    if rows != [] {
      var (front, last) := (Front(rows), Last(rows));
      var keptFront := FilterTransactions(front, Only(ty));
      FilterKeepsAllOfType(front, ty);
      FrontThenLast(rows);
      assert multiset(rows) == multiset(front) + multiset{last};
      if last.transactionType == ty {
        assert multiset(keptFront + [last]) == multiset(keptFront) + multiset{last};
      }
    }
  }

  /** A type filter keeps the rows in their original order. */
  lemma {:induction false} FilterKeepsOrder(rows: seq<Transaction>, filter: Filter)
    ensures IsSubsequence(FilterTransactions(rows, filter), rows)
  {
    if rows != [] {
      var keptFront := FilterTransactions(Front(rows), filter);
      FilterKeepsOrder(Front(rows), filter);
      FrontThenLast(rows);
      SubsequenceOfSnoc(keptFront, Front(rows), Last(rows));
      assert FilterTransactions(rows, filter) == keptFront + [Last(rows)]
          || FilterTransactions(rows, filter) == keptFront;
    }
  }

  /** The bet button's count plus the win button's count is the "all" button's count. */
  lemma {:induction false} TypeCountsAddUp(rows: seq<Transaction>)
    ensures |FilterTransactions(rows, Only(Bet))| + |FilterTransactions(rows, Only(Win))|
         == |FilterTransactions(rows, All)| == |rows|
  {
    FilterAllIsIdentity(rows);
    if rows != [] {
      TypeCountsAddUp(Front(rows));
    }
  }

  /** `getGameName`: the display name of a known game, otherwise the key itself. */
  function GetGameName(gameType: string): (name: string)
    ensures gameType == "slots" ==> name == "Tragaperras"
    ensures gameType == "memory" ==> name == "Memoria"
    ensures gameType == "poker" ==> name == "Poker"
    ensures gameType !in {"slots", "memory", "poker"} ==> name == gameType
  {
    var games := map["slots" := "Tragaperras", "memory" := "Memoria", "poker" := "Poker"];
    if gameType in games then games[gameType] else gameType
  }
}

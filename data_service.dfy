/**
 * The dashboard's data layer (frontend/src/services/dataService.js): CSV text
 * to transaction records, the three mock account balances derived from them,
 * and the newest-first window of transactions.
 *
 * `parseFloat` is a parameter `parse` (a total map from text to a number: NaN
 * is not modelled), and `new Date(s)` is a parameter `dateKey` giving each
 * date text an ordered timestamp.
 */
module DataService {
  import opened Wrappers
  import opened JsStrings
  import opened Sorting

  datatype Transaction = Transaction(
    transactionId: string,
    accountId: string,
    amount: real,
    date: string,
    name: string,
    merchantName: string,
    category: seq<string>,
    pending: bool,
    paymentChannel: string,
    isExpense: bool)

  // ---------------------------------------------------------------------------
  // parseTransactionsCSV
  // ---------------------------------------------------------------------------

  /** `csvText.trim().split('\n')`: line 0 is the header. */
  function CsvLines(csvText: string): (lines: seq<string>)
    ensures |lines| >= 1
  {
    Split(Trim(csvText), '\n')
  }

  /** A data line yields a transaction when it is not blank and has at least four comma fields. */
  predicate Accepted(line: string) {
    Trim(line) != "" && |Split(line, ',')| >= 4
  }

  function Abs(x: real): real {
    if x < 0.0 then -x else x
  }

  /** The record built from line `i`: date, description, category and amount are its first four fields. */
  function Row(i: nat, line: string, parse: string -> real): (t: Transaction)
    requires |Split(line, ',')| >= 4
    ensures var v := Split(line, ',');
      && t.amount >= 0.0 && (t.amount == parse(v[3]) || t.amount == -parse(v[3]))
      && (t.isExpense <==> parse(v[3]) < 0.0)
      && t.date == v[0] && t.name == v[1] && t.merchantName == v[1] && t.category == [v[2]]
  {
    var v := Split(line, ',');
    var amount := parse(v[3]);
    Transaction("tx_" + NatToString(i), "acc_1", Abs(amount), v[0], v[1], v[1], [v[2]],
                false, "other", amount < 0.0)
  }

  /** The transactions produced by lines 1 .. n-1, in line order. */
  function ParseLines(lines: seq<string>, n: nat, parse: string -> real): seq<Transaction>
    requires n <= |lines|
  {
    if n <= 1 then []
    else ParseLines(lines, n - 1, parse)
         + (if Accepted(lines[n - 1]) then [Row(n - 1, lines[n - 1], parse)] else [])
  }

  /** The indices among 1 .. n-1 whose element satisfies `keep`, in increasing order. */
  function IndicesWhere<T>(s: seq<T>, n: nat, keep: T -> bool): (r: seq<nat>)
    requires n <= |s|
    ensures forall k :: 0 <= k < |r| ==> 1 <= r[k] < n
  {
    if n <= 1 then []
    else IndicesWhere(s, n - 1, keep) + (if keep(s[n - 1]) then [n - 1] else [])
  }

  /** The indices of the lines among 1 .. n-1 that yield a transaction. */
  function KeptLines(lines: seq<string>, n: nat): seq<nat>
    requires n <= |lines|
  {
    IndicesWhere(lines, n, Accepted)
  }

  /** The transactions of a whole CSV text. */
  function Parsed(csvText: string, parse: string -> real): seq<Transaction> {
    ParseLines(CsvLines(csvText), |CsvLines(csvText)|, parse)
  }

  /** `parseTransactionsCSV(csvText)`: one pass over the lines after the header. */
  method ParseTransactionsCSV(csvText: string, parse: string -> real) returns (transactions: seq<Transaction>)
    ensures transactions == Parsed(csvText, parse)
  {
    var lines := Split(Trim(csvText), '\n');
    transactions := [];
    for i := 1 to |lines|
      invariant transactions == ParseLines(lines, i, parse)
    {
      ghost var before := ParseLines(lines, i + 1, parse);
      assert before == transactions + (if Accepted(lines[i]) then [Row(i, lines[i], parse)] else []);
      if Trim(lines[i]) == "" {
        assert before == transactions;
        continue;
      }
      var values := Split(lines[i], ',');
      if |values| < 4 {
        assert before == transactions;
        continue;
      }
      var date := values[0];
      var description := values[1];
      var category := values[2];
      var amount := parse(values[3]);
      transactions := transactions + [Transaction(
        "tx_" + NatToString(i), "acc_1", Abs(amount), date, description, description, [category],
        false, "other", amount < 0.0)];
    }
  }

  predicate Increasing(r: seq<nat>) {
    forall j, k :: 0 <= j < k < |r| ==> r[j] < r[k]
  }

  /** The selected indices increase, so a selection keeps the order of its source. */
  lemma {:induction false} IndicesIncreasing<T>(s: seq<T>, n: nat, keep: T -> bool)
    requires n <= |s|
    ensures Increasing(IndicesWhere(s, n, keep))
  {
    if n > 1 {
      IndicesIncreasing(s, n - 1, keep);
      var prev := IndicesWhere(s, n - 1, keep);
      var r := IndicesWhere(s, n, keep);
      assert r == prev + (if keep(s[n - 1]) then [n - 1] else []);
      forall j, k | 0 <= j < k < |r|
        ensures r[j] < r[k]
      {
        assert r[j] == prev[j] < n - 1;
        if k < |prev| {
          assert r[k] == prev[k];
        } else {
          assert r[k] == n - 1;
        }
      }
    }
  }

  /** An index after the first is selected exactly when its element satisfies `keep`. */
  lemma {:induction false} IndicesComplete<T>(s: seq<T>, n: nat, keep: T -> bool)
    requires n <= |s|
    ensures forall i :: 1 <= i < n ==> (i in IndicesWhere(s, n, keep) <==> keep(s[i]))
  {
    if n > 1 {
      IndicesComplete(s, n - 1, keep);
      var prev := IndicesWhere(s, n - 1, keep);
      assert n - 1 !in prev;
    }
  }

  /** The kept lines are exactly the accepted lines after the header, in increasing order. */
  lemma {:induction false} KeptLinesExact(lines: seq<string>, n: nat)
    requires n <= |lines|
    ensures var kept := KeptLines(lines, n);
      && (forall k :: 0 <= k < |kept| ==> 1 <= kept[k] < n)
      && (forall j, k :: 0 <= j < k < |kept| ==> kept[j] < kept[k])
      && (forall i :: 1 <= i < n ==> (i in kept <==> Accepted(lines[i])))
  {
    var kept := KeptLines(lines, n);
    assert kept == IndicesWhere(lines, n, Accepted);
    IndicesIncreasing(lines, n, Accepted);
    IndicesComplete(lines, n, Accepted);
  }

  /** The k-th transaction is the record of the k-th kept line. */
  lemma {:induction false} ParseLinesRows(lines: seq<string>, n: nat, parse: string -> real)
    requires n <= |lines|
    ensures var kept := KeptLines(lines, n);
      var txs := ParseLines(lines, n, parse);
      && |txs| == |kept|
      && forall k :: 0 <= k < |txs| ==>
           Accepted(lines[kept[k]]) && txs[k] == Row(kept[k], lines[kept[k]], parse)
  {
    if n > 1 {
      ParseLinesRows(lines, n - 1, parse);
    }
  }

  /** The blank-line check never decides anything: four fields already mean three commas. */
  lemma {:induction false} AcceptedIffFourFields(line: string)
    ensures Accepted(line) <==> |Split(line, ',')| >= 4
  {
    if |Split(line, ',')| >= 4 {
      SplitLength(line, ',');
      CountedOccurs(line, ',');
      var i :| 0 <= i < |line| && line[i] == ',';
      TrimEmptyIffAllWhitespace(line);
    }
  }

  /** Fields after the fourth change nothing in the record. */
  lemma {:induction false} ExtraFieldsIgnored(i: nat, line: string, extra: string, parse: string -> real)
    requires |Split(line, ',')| >= 4
    ensures Accepted(line + [','] + extra)
    ensures Row(i, line + [','] + extra, parse) == Row(i, line, parse)
  {
    SplitAppend(line, extra, ',');
    var v := Split(line, ',');
    var w := Split(line + [','] + extra, ',');
    assert w[..4] == v[..4];
    assert w[0] == v[0] && w[1] == v[1] && w[2] == v[2] && w[3] == v[3];
    AcceptedIffFourFields(line + [','] + extra);
  }

  /** Transaction ids are distinct: each is `tx_` and the number of a different line. */
  lemma {:induction false} ParsedIdsDistinct(lines: seq<string>, n: nat, parse: string -> real)
    requires n <= |lines|
    ensures var txs := ParseLines(lines, n, parse);
      forall j, k :: 0 <= j < k < |txs| ==> txs[j].transactionId != txs[k].transactionId
  {
    var txs := ParseLines(lines, n, parse);
    var kept := KeptLines(lines, n);
    ParseLinesRows(lines, n, parse);
    KeptLinesExact(lines, n);
    forall j, k | 0 <= j < k < |txs|
      ensures txs[j].transactionId != txs[k].transactionId
    {
      var a := NatToString(kept[j]);
      var b := NatToString(kept[k]);
      NatToStringInjective(kept[j], kept[k]);
      assert ("tx_" + a)[3..] == a;
      assert ("tx_" + b)[3..] == b;
    }
  }

  /** Every transaction carries a non-negative amount; the sign survives only as `isExpense`. */
  lemma {:induction false} ParsedAmounts(lines: seq<string>, n: nat, parse: string -> real)
    requires n <= |lines|
    ensures var kept := KeptLines(lines, n);
      var txs := ParseLines(lines, n, parse);
      |txs| == |kept| &&
      forall k :: 0 <= k < |txs| ==>
        && txs[k].amount >= 0.0
        && Accepted(lines[kept[k]])
        && var v := Split(lines[kept[k]], ',');
           (txs[k].isExpense <==> parse(v[3]) < 0.0) && txs[k].amount == Abs(parse(v[3]))
  {
    ParseLinesRows(lines, n, parse);
  }

  // ---------------------------------------------------------------------------
  // calculateAccountBalances
  // ---------------------------------------------------------------------------

  datatype Balances = Balances(available: real, current: real, limit: Option<real>, isoCurrencyCode: string)

  datatype BankAccount = BankAccount(
    accountId: string,
    name: string,
    officialName: string,
    accountType: string,
    subtype: string,
    mask: string,
    balances: Balances)

  /** `filter(tx => tx.isExpense).reduce((sum, tx) => sum + tx.amount, 0)`. */
  function TotalSpent(txs: seq<Transaction>): real {
    if |txs| == 0 then 0.0
    else TotalSpent(txs[..|txs| - 1]) + (if txs[|txs| - 1].isExpense then txs[|txs| - 1].amount else 0.0)
  }

  predicate IsExpense(t: Transaction) {
    t.isExpense
  }

  /** `transactions.filter(tx => tx.isExpense)`. */
  function Expenses(txs: seq<Transaction>): (r: seq<Transaction>)
    ensures forall t :: t in r <==> t in txs && t.isExpense
    ensures |r| == CountWhere(txs, IsExpense)
  {
    if |txs| == 0 then []
    else
      var init, last := txs[..|txs| - 1], txs[|txs| - 1];
      assert txs == init + [last];
      CountAppend(init, [last], IsExpense);
      assert [last][1..] == [];
      Expenses(init) + (if last.isExpense then [last] else [])
  }

  /** The filter keeps order: filtering a concatenation is concatenating the filtered parts. */
  lemma {:induction false} ExpensesAppend(a: seq<Transaction>, b: seq<Transaction>)
    ensures Expenses(a + b) == Expenses(a) + Expenses(b)
    decreases |b|
  {
    if |b| == 0 {
      assert a + b == a;
    } else {
      var init := b[..|b| - 1];
      assert (a + b)[..|a + b| - 1] == a + init;
      assert (a + b)[|a + b| - 1] == b[|b| - 1];
      ExpensesAppend(a, init);
    }
  }

  function Max(a: real, b: real): real {
    if a >= b then a else b
  }

  function Account(id: string, name: string, officialName: string, accountType: string, subtype: string,
                   mask: string, balance: real, limit: Option<real>): BankAccount {
    BankAccount(id, name, officialName, accountType, subtype, mask, Balances(balance, balance, limit, "USD"))
  }

  function CheckingBalance(txs: seq<Transaction>): real {
    Max(5000.0 - TotalSpent(txs) * 0.6, 100.0)
  }

  function SavingsBalance(txs: seq<Transaction>): real {
    Max(10000.0 - TotalSpent(txs) * 0.3, 200.0)
  }

  const CreditAvailable: real := 2000.0

  /** `calculateAccountBalances(transactions)`: checking, savings and credit, in that order. */
  function CalculateAccountBalances(txs: seq<Transaction>): (accounts: seq<BankAccount>)
    ensures |accounts| == 3
    ensures accounts[0].accountId == "acc_1" && accounts[1].accountId == "acc_2" && accounts[2].accountId == "acc_3"
    ensures forall k :: 0 <= k < 3 ==>
      accounts[k].balances.available == accounts[k].balances.current && accounts[k].balances.isoCurrencyCode == "USD"
    ensures accounts[0].balances.current >= 100.0 && accounts[1].balances.current >= 200.0
    ensures accounts[2].balances.current == 2000.0
    ensures accounts[0].balances.limit == None && accounts[1].balances.limit == None
    ensures accounts[2].balances.limit == Some(2000.0)
  {
    [ Account("acc_1", "Checking Account", "Primary Checking", "depository", "checking", "0000",
              CheckingBalance(txs), None),
      Account("acc_2", "Savings Account", "High Yield Savings", "depository", "savings", "1111",
              SavingsBalance(txs), None),
      Account("acc_3", "Credit Card", "Rewards Credit Card", "credit", "credit card", "3333",
              CreditAvailable, Some(2000.0)) ]
  }

  lemma {:induction false} SpentOfExpenses(txs: seq<Transaction>)
    ensures TotalSpent(Expenses(txs)) == TotalSpent(txs)
  {
    if |txs| > 0 {
      var init := txs[..|txs| - 1];
      SpentOfExpenses(init);
      var e := Expenses(init);
      if txs[|txs| - 1].isExpense {
        assert (e + [txs[|txs| - 1]])[..|e|] == e;
      } else {
        assert e + [] == e;
      }
    }
  }

  /** Income never moves a balance: only the expense transactions matter. */
  lemma {:induction false} BalancesIgnoreIncome(txs: seq<Transaction>)
    ensures CalculateAccountBalances(txs) == CalculateAccountBalances(Expenses(txs))
  {
    SpentOfExpenses(txs);
  }

  /** Appending an income transaction leaves every balance as it was. */
  lemma {:induction false} IncomeAppendedChangesNothing(txs: seq<Transaction>, income: Transaction)
    requires !income.isExpense
    ensures CalculateAccountBalances(txs + [income]) == CalculateAccountBalances(txs)
  {
    assert (txs + [income])[..|txs|] == txs;
  }

  /** More spending never raises a balance. */
  lemma {:induction false} BalancesMonotone(less: seq<Transaction>, more: seq<Transaction>)
    requires TotalSpent(less) <= TotalSpent(more)
    ensures var a := CalculateAccountBalances(less);
      var b := CalculateAccountBalances(more);
      && b[0].balances.current <= a[0].balances.current
      && b[1].balances.current <= a[1].balances.current
      && b[2] == a[2]
  {
  }

  /** The checking balance is floored at 100 exactly once 60% of spending reaches 4900. */
  lemma {:induction false} CheckingFloor(txs: seq<Transaction>)
    ensures CalculateAccountBalances(txs)[0].balances.current == 100.0 <==> TotalSpent(txs) * 0.6 >= 4900.0
  {
  }

  lemma {:induction false} SpentNonNegative(txs: seq<Transaction>)
    requires forall k :: 0 <= k < |txs| ==> txs[k].amount >= 0.0
    ensures TotalSpent(txs) >= 0.0
  {
    if |txs| > 0 {
      SpentNonNegative(txs[..|txs| - 1]);
    }
  }

  /** For parsed transactions (amounts never negative), balances never exceed their starting values. */
  lemma {:induction false} ParsedBalancesBounded(lines: seq<string>, parse: string -> real)
    ensures var a := CalculateAccountBalances(ParseLines(lines, |lines|, parse));
      && 100.0 <= a[0].balances.current <= 5000.0
      && 200.0 <= a[1].balances.current <= 10000.0
  {
    var txs := ParseLines(lines, |lines|, parse);
    ParsedAmounts(lines, |lines|, parse);
    assert forall k :: 0 <= k < |txs| ==> txs[k].amount >= 0.0;
    SpentNonNegative(txs);
  }

  // ---------------------------------------------------------------------------
  // getRecentTransactions
  // ---------------------------------------------------------------------------

  const DefaultLimit: int := 20

  /** `new Date(tx.date)` as an ordered key. */
  function DateKeyOf(dateKey: string -> int): Transaction -> int {
    (t: Transaction) => dateKey(t.date)
  }

  /** Where `slice(0, end)` stops on a sequence of length `n`; a negative end counts from the back. */
  function SliceEnd(n: nat, end: int): (k: nat)
    ensures k <= n
    ensures end >= 0 ==> k <= end && (k == end || k == n)
    ensures end < 0 ==> k == (if n + end > 0 then n + end else 0)
  {
    if end < 0 then (if n + end > 0 then n + end else 0)
    else if end < n then end else n
  }

  /**
   * `getRecentTransactions(transactions, limit = 20)`: sorts the caller's array
   * in place, newest first, and returns its first `limit` elements.
   */
  method GetRecentTransactions(transactions: array<Transaction>, limit: Option<int>, dateKey: string -> int)
    returns (recent: seq<Transaction>)
    modifies transactions
    ensures SortedDescending(transactions[..], DateKeyOf(dateKey))
    ensures multiset(transactions[..]) == old(multiset(transactions[..]))
    ensures recent == transactions[..SliceEnd(transactions.Length, limit.GetOr(DefaultLimit))]
    ensures limit.GetOr(DefaultLimit) >= 0 ==> |recent| <= limit.GetOr(DefaultLimit)
    ensures multiset(recent) <= old(multiset(transactions[..]))
    ensures forall i, j :: 0 <= i < |recent| <= j < transactions.Length ==>
      dateKey(recent[i].date) >= dateKey(transactions[j].date)
  {
    SortDescending(transactions, DateKeyOf(dateKey));
    var end := SliceEnd(transactions.Length, limit.GetOr(DefaultLimit));
    recent := transactions[..end];
    assert transactions[..] == recent + transactions[end..];
  }
}

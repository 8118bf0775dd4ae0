/**
 * The mock transaction generator (backend/models/mockData.js).
 *
 * `Math.random()` is an oracle `rand`: the i-th call returns `rand(i)`, a
 * number in [0, 1).  `new Date()` is a day number `now`, and a date `d` days
 * back is `now - d`.  Amounts are integer cents: `Math.round(x * 100) / 100`
 * keeps exactly the cent count `Math.round(x * 100)`.
 */
module MockData {
  import opened Wrappers
  import opened Sorting

  const Categories: seq<string> := [
    "Food & Dining",
    "Shopping",
    "Transportation",
    "Bills & Utilities",
    "Entertainment",
    "Healthcare",
    "Groceries",
    "Travel",
    "Personal Care",
    "Other"
  ]

  /** The merchants of each category. */
  const Merchants: map<string, seq<string>> := map[
    "Food & Dining" := ["Starbucks", "McDonald's", "Chipotle", "Subway", "Pizza Hut", "Local Restaurant", "Cafe Luna"],
    "Shopping" := ["Amazon", "Target", "Walmart", "Best Buy", "Apple Store", "Nike", "H&M"],
    "Transportation" := ["Uber", "Lyft", "Shell Gas", "Chevron", "Public Transit", "Airport Parking"],
    "Bills & Utilities" := ["Electric Company", "Water Utility", "Internet Provider", "Phone Bill", "Rent Payment"],
    "Entertainment" := ["Netflix", "Spotify", "Movie Theater", "Concert Tickets", "Gaming Store"],
    "Healthcare" := ["CVS Pharmacy", "Doctor Visit", "Dentist", "Medical Lab", "Health Insurance"],
    "Groceries" := ["Whole Foods", "Trader Joe's", "Safeway", "Costco", "Local Market"],
    "Travel" := ["Airbnb", "Hotel", "United Airlines", "Expedia", "Car Rental"],
    "Personal Care" := ["Salon", "Gym Membership", "Spa", "Barber Shop"],
    "Other" := ["Miscellaneous", "Cash Withdrawal", "Transfer", "Online Purchase"]
  ]

  const IncomeDescriptions: seq<string> :=
    ["Salary", "Freelance Work", "Investment Return", "Bonus", "Side Project", "Refund"]

  datatype Kind = Income | Expense

  datatype MockTransaction = MockTransaction(
    id: nat,
    userId: string,
    amountCents: int,
    kind: Kind,
    category: string,
    description: string,
    date: int,
    isManual: bool,
    createdAt: int)

  /** Every category of the list has a non-empty merchant list. */
  lemma CategoriesHaveMerchants()
    ensures forall k :: 0 <= k < |Categories| ==> Categories[k] in Merchants && |Merchants[Categories[k]]| > 0
  {
  }

  // ---------------------------------------------------------------------------
  // Random draws
  // ---------------------------------------------------------------------------

  /** A value `Math.random()` can return. */
  predicate IsRandom(r: real) {
    0.0 <= r < 1.0
  }

  ghost predicate ValidOracle(rand: nat -> real) {
    forall i :: IsRandom(rand(i))
  }

  lemma {:induction false} ScaledBelow(r: real, d: real)
    requires IsRandom(r) && d >= 0.0
    ensures 0.0 <= r * d <= d
    ensures d > 0.0 ==> r * d < d
  {
  }

  /** `Math.floor(Math.random() * length)`: a valid index. */
  function RandomIndex(r: real, length: nat): (k: nat)
    requires IsRandom(r) && length > 0
    ensures k < length
  {
    ScaledBelow(r, length as real);
    (r * length as real).Floor
  }

  /**
   * `getRandomAmount(min, max)` in cents: `Math.round` of the scaled draw,
   * the nearest cent (halves rounding up), never outside `[min, max]`.
   */
  function RandomAmount(min: int, max: int, r: real): (cents: int)
    requires min <= max && IsRandom(r)
    ensures 100 * min <= cents <= 100 * max
    ensures var x := (r * (max - min) as real + min as real) * 100.0;
      cents as real - 0.5 <= x < cents as real + 0.5
  {
    ScaledBelow(r, (max - min) as real);
    ((r * (max - min) as real + min as real) * 100.0 + 0.5).Floor
  }

  /** `getRandomDate(Math.floor(Math.random() * 90))`: today or up to 89 days back. */
  function RandomDate(now: int, r: real): (date: int)
    requires IsRandom(r)
    ensures now - 89 <= date <= now
  {
    now - RandomIndex(r, 90)
  }

  // ---------------------------------------------------------------------------
  // The records drawn by each loop
  // ---------------------------------------------------------------------------

  /** The amount range, in dollars, of each expense category. */
  function ExpenseRange(category: string): (range: (int, int))
    ensures range.0 < range.1
  {
    if category == "Bills & Utilities" then (50, 300)
    else if category == "Shopping" || category == "Travel" then (20, 500)
    else if category == "Groceries" then (30, 200)
    else if category == "Food & Dining" then (10, 80)
    else (15, 150)
  }

  /** `floor(count * 0.2)` income records (none for a negative count). */
  function IncomeCount(count: int): nat {
    if count / 5 > 0 then count / 5 else 0
  }

  /** `count - incomeCount` expense records (none when that is not positive). */
  function ExpenseCount(count: int): nat {
    if count - count / 5 > 0 then count - count / 5 else 0
  }

  function Max0(x: int): nat {
    if x > 0 then x else 0
  }

  /** The i-th income record: draws 3i (amount), 3i+1 (description) and 3i+2 (date). */
  function IncomeRecord(userId: string, now: int, rand: nat -> real, i: nat): MockTransaction
    requires ValidOracle(rand)
  {
    MockTransaction(i + 1, userId, RandomAmount(1000, 5000, rand(3 * i)), Income, "Income",
                    IncomeDescriptions[RandomIndex(rand(3 * i + 1), |IncomeDescriptions|)],
                    RandomDate(now, rand(3 * i + 2)), false, now)
  }

  /** The expense record with id `id` built from the four draws starting at `b`: category, merchant, amount, date. */
  function ExpenseDraw(userId: string, now: int, rand: nat -> real, id: nat, b: nat): MockTransaction
    requires ValidOracle(rand)
  {
    var category := Categories[RandomIndex(rand(b), |Categories|)];
    CategoriesHaveMerchants();
    var merchantList := Merchants[category];
    var merchant := merchantList[RandomIndex(rand(b + 1), |merchantList|)];
    var range := ExpenseRange(category);
    MockTransaction(id, userId, RandomAmount(range.0, range.1, rand(b + 2)), Expense,
                    category, merchant, RandomDate(now, rand(b + 3)), false, now)
  }

  /** The j-th expense record after `incomes` income records. */
  function ExpenseRecord(userId: string, now: int, rand: nat -> real, incomes: nat, j: nat): MockTransaction
    requires ValidOracle(rand)
  {
    ExpenseDraw(userId, now, rand, incomes + j + 1, 3 * incomes + 4 * j)
  }

  /** The records in the order the two loops push them, before the sort. */
  function Unsorted(userId: string, count: int, now: int, rand: nat -> real): seq<MockTransaction>
    requires ValidOracle(rand)
  {
    var incomes := IncomeCount(count);
    seq(incomes, i requires 0 <= i < incomes => IncomeRecord(userId, now, rand, i))
    + seq(ExpenseCount(count), j requires 0 <= j < ExpenseCount(count) =>
            ExpenseRecord(userId, now, rand, incomes, j))
  }

  // ---------------------------------------------------------------------------
  // What every record satisfies
  // ---------------------------------------------------------------------------

  function IdOf(t: MockTransaction): int { t.id }
  function DateOf(t: MockTransaction): int { t.date }
  predicate IsIncome(t: MockTransaction) { t.kind == Income }

  predicate AmountWithin(cents: int, range: (int, int)) {
    100 * range.0 <= cents <= 100 * range.1
  }

  /** What the generator promises of each record it returns. */
  predicate WellFormed(t: MockTransaction, userId: string, now: int, incomes: nat) {
    && t.userId == userId && !t.isManual && t.createdAt == now
    && now - 89 <= t.date <= now
    && (t.kind == Income <==> t.id <= incomes)
    && (t.kind == Income ==>
          t.category == "Income" && t.description in IncomeDescriptions && AmountWithin(t.amountCents, (1000, 5000)))
    && (t.kind == Expense ==>
          && t.category in Categories && t.category in Merchants
          && t.description in Merchants[t.category]
          && AmountWithin(t.amountCents, ExpenseRange(t.category)))
  }

  lemma {:induction false} IncomeRecordWellFormed(userId: string, now: int, rand: nat -> real, count: int, i: nat)
    requires ValidOracle(rand) && i < IncomeCount(count)
    ensures WellFormed(IncomeRecord(userId, now, rand, i), userId, now, IncomeCount(count))
  {
  }

  lemma {:induction false} ExpenseRecordWellFormed(userId: string, now: int, rand: nat -> real, count: int, j: nat)
    requires ValidOracle(rand)
    ensures WellFormed(ExpenseRecord(userId, now, rand, IncomeCount(count), j), userId, now, IncomeCount(count))
  {
    CategoriesHaveMerchants();
    var b := 3 * IncomeCount(count) + 4 * j;
    var k := RandomIndex(rand(b), |Categories|);
    assert ExpenseRecord(userId, now, rand, IncomeCount(count), j).category == Categories[k];
    assert Categories[k] in Categories;
  }

  /** The generator returns `count` records (none for a negative count). */
  lemma {:induction false} CountsAddUp(count: int)
    ensures IncomeCount(count) + ExpenseCount(count) == Max0(count)
  {
  }

  /**
   * Before the sort, record k has id k + 1, the first `floor(count * 0.2)`
   * records are income and the rest expenses, and each is well formed.
   */
  lemma {:induction false} UnsortedShape(userId: string, count: int, now: int, rand: nat -> real)
    requires ValidOracle(rand)
    ensures var u := Unsorted(userId, count, now, rand);
      && |u| == Max0(count)
      && forall k :: 0 <= k < |u| ==>
           && u[k].id == k + 1
           && (IsIncome(u[k]) <==> k < IncomeCount(count))
           && WellFormed(u[k], userId, now, IncomeCount(count))
  {
    var u := Unsorted(userId, count, now, rand);
    var incomes := IncomeCount(count);
    CountsAddUp(count);
    forall k | 0 <= k < |u|
      ensures u[k].id == k + 1
      ensures IsIncome(u[k]) <==> k < incomes
      ensures WellFormed(u[k], userId, now, incomes)
    {
      if k < incomes {
        assert u[k] == IncomeRecord(userId, now, rand, k);
        IncomeRecordWellFormed(userId, now, rand, count, k);
      } else {
        assert u[k] == ExpenseRecord(userId, now, rand, incomes, k - incomes);
        ExpenseRecordWellFormed(userId, now, rand, count, k - incomes);
      }
    }
  }

  /** Expense amounts by category, as the table in the generator lays them out. */
  lemma {:induction false} ExpenseAmountTable(t: MockTransaction, userId: string, now: int, incomes: nat)
    requires WellFormed(t, userId, now, incomes) && t.kind == Expense
    ensures t.category == "Bills & Utilities" ==> 5000 <= t.amountCents <= 30000
    ensures t.category in {"Shopping", "Travel"} ==> 2000 <= t.amountCents <= 50000
    ensures t.category == "Groceries" ==> 3000 <= t.amountCents <= 20000
    ensures t.category == "Food & Dining" ==> 1000 <= t.amountCents <= 8000
    ensures t.category in {"Transportation", "Entertainment", "Healthcare", "Personal Care", "Other"} ==>
      1500 <= t.amountCents <= 15000
  {
  }

  // ---------------------------------------------------------------------------
  // generateTransactions
  // ---------------------------------------------------------------------------

  /** The income loop: `incomeCount` records, three draws each. */
  method PushIncome(userId: string, count: int, now: int, rand: nat -> real)
    returns (txs: seq<MockTransaction>, id: nat, next: nat)
    requires ValidOracle(rand)
    ensures |txs| == IncomeCount(count) && id == |txs| + 1 && next == 3 * |txs|
    ensures forall k :: 0 <= k < |txs| ==> txs[k] == IncomeRecord(userId, now, rand, k)
  {
    txs := [];
    id := 1;
    next := 0;
    var incomeCount := count / 5;
    var i := 0;
    while i < incomeCount
      invariant 0 <= i <= IncomeCount(count)
      invariant |txs| == i && id == i + 1 && next == 3 * i
      invariant forall k :: 0 <= k < i ==> txs[k] == IncomeRecord(userId, now, rand, k)
    {
      var amount := RandomAmount(1000, 5000, rand(next));
      var description := IncomeDescriptions[RandomIndex(rand(next + 1), |IncomeDescriptions|)];
      var date := RandomDate(now, rand(next + 2));
      next := next + 3;
      txs := txs + [MockTransaction(id, userId, amount, Income, "Income", description, date, false, now)];
      id := id + 1;
      i := i + 1;
    }
  }

  /** One pass of the expense loop body: four draws starting at `next`. */
  method DrawExpense(userId: string, now: int, rand: nat -> real, id: nat, next: nat)
    returns (t: MockTransaction)
    requires ValidOracle(rand)
    ensures t == ExpenseDraw(userId, now, rand, id, next)
  {
    CategoriesHaveMerchants();
    var category := Categories[RandomIndex(rand(next), |Categories|)];
    var merchantList := Merchants[category];
    var merchant := merchantList[RandomIndex(rand(next + 1), |merchantList|)];
    var amount;
    if category == "Bills & Utilities" {
      amount := RandomAmount(50, 300, rand(next + 2));
    } else if category == "Shopping" || category == "Travel" {
      amount := RandomAmount(20, 500, rand(next + 2));
    } else if category == "Groceries" {
      amount := RandomAmount(30, 200, rand(next + 2));
    } else if category == "Food & Dining" {
      amount := RandomAmount(10, 80, rand(next + 2));
    } else {
      amount := RandomAmount(15, 150, rand(next + 2));
    }
    var date := RandomDate(now, rand(next + 3));
    t := MockTransaction(id, userId, amount, Expense, category, merchant, date, false, now);
  }

  /** The expense loop: `count - incomeCount` records, four draws each, ids continuing from the income loop. */
  method PushExpenses(userId: string, count: int, now: int, rand: nat -> real,
                      start: seq<MockTransaction>, id0: nat, next0: nat)
    returns (txs: seq<MockTransaction>)
    requires ValidOracle(rand)
    requires |start| == IncomeCount(count) && id0 == |start| + 1 && next0 == 3 * |start|
    ensures |txs| == |start| + ExpenseCount(count) && txs[..|start|] == start
    ensures forall k :: 0 <= k < ExpenseCount(count) ==>
      txs[|start| + k] == ExpenseRecord(userId, now, rand, |start|, k)
  {
    txs := start;
    var id := id0;
    var next := next0;
    var incomeCount := count / 5;
    var expenseCount := count - incomeCount;
    var j := 0;
    while j < expenseCount
      invariant 0 <= j <= ExpenseCount(count)
      invariant |txs| == |start| + j && id == |start| + j + 1 && next == 3 * |start| + 4 * j
      invariant txs[..|start|] == start
      invariant forall k :: 0 <= k < j ==> txs[|start| + k] == ExpenseRecord(userId, now, rand, |start|, k)
    {
      var t := DrawExpense(userId, now, rand, id, next);
      assert t == ExpenseRecord(userId, now, rand, |start|, j);
      next := next + 4;
      txs := txs + [t];
      id := id + 1;
      j := j + 1;
    }
  }

  /** What the two loops push is the income records followed by the expense records. */
  lemma {:induction false} PushedInOrder(userId: string, count: int, now: int, rand: nat -> real,
                                         incomeTxs: seq<MockTransaction>, txs: seq<MockTransaction>)
    requires ValidOracle(rand)
    requires |incomeTxs| == IncomeCount(count)
    requires forall k :: 0 <= k < |incomeTxs| ==> incomeTxs[k] == IncomeRecord(userId, now, rand, k)
    requires |txs| == |incomeTxs| + ExpenseCount(count) && txs[..|incomeTxs|] == incomeTxs
    requires forall k :: 0 <= k < ExpenseCount(count) ==>
      txs[|incomeTxs| + k] == ExpenseRecord(userId, now, rand, |incomeTxs|, k)
    ensures txs == Unsorted(userId, count, now, rand)
  {
    var incomes := IncomeCount(count);
    var front := seq(incomes, i requires 0 <= i < incomes => IncomeRecord(userId, now, rand, i));
    var back := seq(ExpenseCount(count), j requires 0 <= j < ExpenseCount(count) =>
                      ExpenseRecord(userId, now, rand, incomes, j));
    assert Unsorted(userId, count, now, rand) == front + back;
    forall k | 0 <= k < |txs|
      ensures txs[k] == (front + back)[k]
    {
      if k < incomes {
        assert txs[k] == txs[..incomes][k] == front[k];
      } else {
        assert txs[k] == txs[incomes + (k - incomes)] == back[k - incomes];
      }
    }
  }

  /**
   * Any reordering of the generated records keeps what the generator promises:
   * distinct ids in 1..count, well-formed records, and `floor(count * 0.2)`
   * income records.
   */
  lemma {:induction false} ReorderedKeepsShape(userId: string, count: int, now: int, rand: nat -> real,
                                               ts: seq<MockTransaction>)
    requires ValidOracle(rand)
    requires multiset(ts) == multiset(Unsorted(userId, count, now, rand))
    ensures |ts| == Max0(count)
    ensures forall i, j :: 0 <= i < j < |ts| ==> ts[i].id != ts[j].id
    ensures forall t :: t in ts ==> 1 <= t.id <= |ts| && WellFormed(t, userId, now, IncomeCount(count))
    ensures CountWhere(ts, IsIncome) == IncomeCount(count)
  {
    var u := Unsorted(userId, count, now, rand);
    UnsortedShape(userId, count, now, rand);
    assert |ts| == |multiset(ts)| == |u|;
    assert forall i, j :: 0 <= i < j < |u| ==> IdOf(u[i]) != IdOf(u[j]);
    DistinctKeysPreserved(ts, u, IdOf);
    CountPreserved(ts, u, IsIncome);
    CountsAddUp(count);
    IncomeFirst(u, IncomeCount(count));
    forall t | t in ts
      ensures 1 <= t.id <= |ts| && WellFormed(t, userId, now, IncomeCount(count))
    {
      assert t in multiset(u);
      var k :| 0 <= k < |u| && u[k] == t;
    }
  }

  /** The number of records generated when the caller gives none. */
  const DefaultCount: int := 80

  /**
   * `generateTransactions(userId, count = 80)`: the two loops, then the
   * in-place sort newest first.  Every property holds for every sequence of
   * draws.
   */
  method GenerateTransactions(userId: string, count: Option<int>, now: int, rand: nat -> real)
    returns (transactions: seq<MockTransaction>)
    requires ValidOracle(rand)
    ensures |transactions| == Max0(count.GetOr(DefaultCount))
    ensures multiset(transactions) == multiset(Unsorted(userId, count.GetOr(DefaultCount), now, rand))
    ensures SortedDescending(transactions, DateOf)
    ensures forall i, j :: 0 <= i < j < |transactions| ==> transactions[i].id != transactions[j].id
    ensures forall t :: t in transactions ==>
      1 <= t.id <= |transactions| && WellFormed(t, userId, now, IncomeCount(count.GetOr(DefaultCount)))
    ensures CountWhere(transactions, IsIncome) == IncomeCount(count.GetOr(DefaultCount))
  {
    var n := count.GetOr(DefaultCount);
    var incomeTxs, id, next := PushIncome(userId, n, now, rand);
    var txs := PushExpenses(userId, n, now, rand, incomeTxs, id, next);
    PushedInOrder(userId, n, now, rand, incomeTxs, txs);

    var a := new MockTransaction[|txs|](k requires 0 <= k < |txs| => txs[k]);
    assert a[..] == txs;
    SortDescending(a, DateOf);
    transactions := a[..];
    ReorderedKeepsShape(userId, n, now, rand, transactions);
  }

  /** A sequence whose first `incomes` elements are income and no other is holds exactly `incomes` of them. */
  lemma {:induction false} IncomeFirst(u: seq<MockTransaction>, incomes: nat)
    requires incomes <= |u|
    requires forall k :: 0 <= k < |u| ==> (IsIncome(u[k]) <==> k < incomes)
    ensures CountWhere(u, IsIncome) == incomes
  {
    assert u == u[..incomes] + u[incomes..];
    CountAppend(u[..incomes], u[incomes..], IsIncome);
    CountAll(u[..incomes], IsIncome);
    CountNone(u[incomes..], IsIncome);
  }
}

/**
  The client-side computations of the transaction service over a list of
  the user's transactions: the transactions of one month, newest first; the
  monthly totals and balance; the per-category breakdown; the overall
  balance; and the most recent transactions. Fetching the list from the
  database is not part of this model: every operation takes it as input.
*/
module TransactionService {
  import opened Dates
  import opened Lists
  import opened Model
  import opened Catalog
  import opened Grouping

  // ---------------------------------------------------------------- month

  /** `transactions.filter(t => t.date >= startOfMonth && t.date <= endOfMonth)` */
  function InMonth(s: seq<Transaction>, month: int, year: int): (r: seq<Transaction>)
    ensures |r| <= |s|
  {
    if s == [] then []
    else (if WithinMonth(s[0].date, month, year) then [s[0]] else []) + InMonth(s[1..], month, year)
  }

  /** The filter of `getMonthlyTransactions`, then `.sort((a, b) => b.date - a.date)`. */
  function MonthlyTransactions(s: seq<Transaction>, month: int, year: int): seq<Transaction>
  {
    SortDesc(InMonth(s, month, year), DateKey)
  }

  lemma {:induction false} InMonthCounts(s: seq<Transaction>, month: int, year: int)
    ensures forall x :: multiset(InMonth(s, month, year))[x] ==
                        (if WithinMonth(x.date, month, year) then multiset(s)[x] else 0)
  {
    if s != [] {
      InMonthCounts(s[1..], month, year);
      assert s == [s[0]] + s[1..];
    }
  }

  /**
    The month's transactions are every copy of each transaction dated from
    midnight on day 1 to 23:59:59 on the last day and nothing else, newest
    first, and transactions with the same date keep their input order.
  */
  lemma MonthlyTransactionsSpec(s: seq<Transaction>, month: int, year: int)
    ensures var r := MonthlyTransactions(s, month, year);
      && (forall x :: multiset(r)[x] == if WithinMonth(x.date, month, year) then multiset(s)[x] else 0)
      && (forall x :: x in r <==> x in s && WithinMonth(x.date, month, year))
      && (forall i, j :: 0 <= i < j < |r| ==> r[i].date >= r[j].date)
      && (forall d :: WithKey(r, DateKey, d) == WithKey(InMonth(s, month, year), DateKey, d))
  {
    var r := MonthlyTransactions(s, month, year);
    InMonthCounts(s, month, year);
    SortDescSorted(InMonth(s, month, year), DateKey);
    forall d ensures WithKey(r, DateKey, d) == WithKey(InMonth(s, month, year), DateKey, d) {
      SortDescStable(InMonth(s, month, year), DateKey, d);
    }
    forall x ensures x in r <==> x in s && WithinMonth(x.date, month, year) {
      assert x in r <==> x in multiset(r);
      assert x in s <==> x in multiset(s);
    }
    forall i, j | 0 <= i < j < |r| ensures r[i].date >= r[j].date {
      assert DateKey(r[i]) >= DateKey(r[j]);
    }
  }

  // ------------------------------------------------------------ breakdown

  const FallbackColor: string := "#64748b"
  const FallbackIcon: string := "category"

  /** JavaScript's `a || b` on strings: the empty string is falsy. */
  function OrElse(a: string, b: string): string
  {
    if a != "" then a else b
  }

  /** The entry the `.map` callback of `calculateCategoryBreakdown` builds for one category. */
  function BreakdownEntry(categoryId: string, amount: real, total: real): CategoryBreakdown
  {
    var cat := GetCategoryById(categoryId);
    CategoryBreakdown(
      OrElse(if cat.Some? then cat.value.name else "", categoryId),
      amount,
      Share(amount, total),
      OrElse(if cat.Some? then cat.value.color else "", FallbackColor),
      OrElse(if cat.Some? then cat.value.icon else "", FallbackIcon))
  }

  function BreakdownAmount(e: CategoryBreakdown): real { e.amount }
  function BreakdownPercentage(e: CategoryBreakdown): real { e.percentage }

  /** `categoryTotals` after the walk: each category that occurs, with the sum of its amounts. */
  function TotalsMap(s: seq<Transaction>): map<string, real>
  {
    map c | c in CategoryKeys(s) :: SumFor(s, c)
  }

  /** `Array.from(m.values()).reduce((sum, amount) => sum + amount, 0)`, keys in order `keys`. */
  function SumValues(keys: seq<string>, m: map<string, real>): real
    requires forall k :: k in keys ==> k in m
  {
    if keys == [] then 0.0 else m[keys[0]] + SumValues(keys[1..], m)
  }

  /** `Array.from(m.entries()).map(([categoryId, amount]) => ...)`, keys in order `keys`. */
  function MapEntries(keys: seq<string>, m: map<string, real>, total: real): (r: seq<CategoryBreakdown>)
    requires forall k :: k in keys ==> k in m
    ensures |r| == |keys|
  {
    if keys == [] then []
    else [BreakdownEntry(keys[0], m[keys[0]], total)] + MapEntries(keys[1..], m, total)
  }

  /** `calculateCategoryBreakdown(transactions)` */
  function CategoryBreakdownOf(s: seq<Transaction>): seq<CategoryBreakdown>
  {
    var keys := CategoryKeys(s);
    var totals := TotalsMap(s);
    SortDesc(MapEntries(keys, totals, SumValues(keys, totals)), BreakdownAmount)
  }

  /** One step of the walk: `set(category, (get(category) || 0) + amount)`. */
  lemma TotalsStep(s: seq<Transaction>, i: nat)
    requires i < |s|
    ensures var m := TotalsMap(s[..i]);
      TotalsMap(s[..i + 1])
        == m[s[i].category := (if s[i].category in m then m[s[i].category] else 0.0) + s[i].amount]
  {
    var p := s[..i];
    var m := TotalsMap(p);
    var c := s[i].category;
    var m' := m[c := (if c in m then m[c] else 0.0) + s[i].amount];
    var n := TotalsMap(s[..i + 1]);
    assert s[..i + 1][..i] == p;
    assert n.Keys == m'.Keys;
    if c !in m {
      AbsentZero(p, c);
    }
    forall k | k in n ensures n[k] == m'[k] {
      StepAt(s, i, k);
    }
  }

  /**
    `calculateCategoryBreakdown`: one walk fills the `Map` from category to
    running sum (`get(...) || 0`, then `set`); the entries are then mapped
    and sorted by amount, largest first.
  */
  method CalculateCategoryBreakdown(transactions: seq<Transaction>) returns (breakdown: seq<CategoryBreakdown>)
    ensures breakdown == CategoryBreakdownOf(transactions)
  {
    var keys: seq<string> := [];
    var categoryTotals: map<string, real> := map[];
    var i := 0;
    while i < |transactions|
      invariant 0 <= i <= |transactions|
      invariant keys == CategoryKeys(transactions[..i])
      invariant categoryTotals == TotalsMap(transactions[..i])
    {
      var t := transactions[i];
      var current := if t.category in categoryTotals then categoryTotals[t.category] else 0.0;
      if t.category !in categoryTotals {
        keys := keys + [t.category];
      }
      categoryTotals := categoryTotals[t.category := current + t.amount];
      Step(transactions, i);
      TotalsStep(transactions, i);
      i := i + 1;
    }
    assert transactions[..i] == transactions;
    var total := SumValues(keys, categoryTotals);
    breakdown := SortDesc(MapEntries(keys, categoryTotals, total), BreakdownAmount);
  }

  lemma {:induction false} SumValuesOfTotals(keys: seq<string>, s: seq<Transaction>)
    requires forall k :: k in keys ==> k in CategoryKeys(s)
    ensures SumValues(keys, TotalsMap(s)) == SumOver(keys, s)
  {
    if keys != [] {
      SumValuesOfTotals(keys[1..], s);
    }
  }

  /** `(amount / total) * 100` when the total is positive, else 0. */
  function Share(amount: real, total: real): real
  {
    if total > 0.0 then amount / total * 100.0 else 0.0
  }

  /** Shares of one total add up like the amounts. */
  lemma ShareAdds(a: real, b: real, total: real)
    ensures Share(a, total) + Share(b, total) == Share(a + b, total)
  {
    if total > 0.0 {
      assert (a + b) / total == a / total + b / total;
    }
  }

  /** Each entry carries its category's amount and its share of `total`. */
  lemma EntryFields(categoryId: string, amount: real, total: real)
    ensures BreakdownAmount(BreakdownEntry(categoryId, amount, total)) == amount
    ensures BreakdownPercentage(BreakdownEntry(categoryId, amount, total))
         == Share(amount, total)
  {
  }

  lemma ShareOfWhole(total: real)
    ensures Share(total, total) == if total > 0.0 then 100.0 else 0.0
  {
  }

  lemma {:induction false} MapEntriesAmounts(keys: seq<string>, m: map<string, real>, total: real)
    requires forall k :: k in keys ==> k in m
    ensures SumBy(MapEntries(keys, m, total), BreakdownAmount) == SumValues(keys, m)
  {
    if keys != [] {
      MapEntriesAmounts(keys[1..], m, total);
      EntryFields(keys[0], m[keys[0]], total);
    }
  }

  lemma {:induction false} MapEntriesPercentages(keys: seq<string>, m: map<string, real>, total: real)
    requires forall k :: k in keys ==> k in m
    ensures SumBy(MapEntries(keys, m, total), BreakdownPercentage)
         == Share(SumValues(keys, m), total)
  {
    if keys != [] {
      var e := MapEntries(keys, m, total);
      var a, rest := m[keys[0]], SumValues(keys[1..], m);
      MapEntriesPercentages(keys[1..], m, total);
      EntryFields(keys[0], a, total);
      assert e[1..] == MapEntries(keys[1..], m, total);
      assert SumBy(e, BreakdownPercentage) == BreakdownPercentage(e[0]) + SumBy(e[1..], BreakdownPercentage);
      assert SumValues(keys, m) == a + rest;
      ShareAdds(a, rest, total);
    }
  }

  lemma {:induction false} MapEntriesMembers(keys: seq<string>, m: map<string, real>, total: real)
    requires forall k :: k in keys ==> k in m
    ensures forall e :: e in MapEntries(keys, m, total) <==>
      exists c :: c in keys && e == BreakdownEntry(c, m[c], total)
  {
    if keys != [] {
      MapEntriesMembers(keys[1..], m, total);
      assert keys == [keys[0]] + keys[1..];
    }
  }

  /**
    One entry per distinct category among ALL transactions, income
    included: the entry of category `c` carries the sum of its amounts,
    and its percentage is that sum over the sum of all amounts, times 100
    (0 when that sum is not positive).
  */
  lemma BreakdownOnePerCategory(s: seq<Transaction>)
    ensures |CategoryBreakdownOf(s)| == |CategoryKeys(s)|
    ensures Distinct(CategoryKeys(s))
    ensures forall c :: c in CategoryKeys(s) <==> exists t :: t in s && t.category == c
    ensures forall e :: e in CategoryBreakdownOf(s) <==>
      exists c :: c in CategoryKeys(s) && e == BreakdownEntry(c, SumFor(s, c), Total(s))
  {
    var keys := CategoryKeys(s);
    var totals := TotalsMap(s);
    KeysExact(s);
    SumValuesOfTotals(keys, s);
    GroupSumsReconcile(s);
    MapEntriesMembers(keys, totals, SumValues(keys, totals));
    var u := MapEntries(keys, totals, SumValues(keys, totals));
    forall e ensures e in CategoryBreakdownOf(s) <==> e in u {
      assert e in CategoryBreakdownOf(s) <==> e in multiset(CategoryBreakdownOf(s));
      assert e in u <==> e in multiset(u);
    }
  }

  /** The total the percentages are taken of is the sum of all amounts. */
  lemma BreakdownTotal(s: seq<Transaction>)
    ensures SumValues(CategoryKeys(s), TotalsMap(s)) == Total(s)
  {
    SumValuesOfTotals(CategoryKeys(s), s);
    GroupSumsReconcile(s);
  }

  /** The breakdown is sorted by amount, largest first, and its amounts add up to the sum of all amounts. */
  lemma BreakdownSortedAndReconciled(s: seq<Transaction>)
    ensures SortedDesc(CategoryBreakdownOf(s), BreakdownAmount)
    ensures SumBy(CategoryBreakdownOf(s), BreakdownAmount) == Total(s)
  {
    var keys := CategoryKeys(s);
    var totals := TotalsMap(s);
    var u := MapEntries(keys, totals, SumValues(keys, totals));
    SortDescSorted(u, BreakdownAmount);
    SortDescSum(u, BreakdownAmount, BreakdownAmount);
    BreakdownTotal(s);
    MapEntriesAmounts(keys, totals, SumValues(keys, totals));
  }

  /** With a positive total the percentages add up to exactly 100; otherwise every percentage is 0. */
  lemma BreakdownPercentages(s: seq<Transaction>)
    ensures Total(s) > 0.0 ==> SumBy(CategoryBreakdownOf(s), BreakdownPercentage) == 100.0
    ensures Total(s) <= 0.0 ==> forall e :: e in CategoryBreakdownOf(s) ==> e.percentage == 0.0
  {
    var keys := CategoryKeys(s);
    var totals := TotalsMap(s);
    var u := MapEntries(keys, totals, SumValues(keys, totals));
    SortDescSum(u, BreakdownAmount, BreakdownPercentage);
    BreakdownTotal(s);
    MapEntriesPercentages(keys, totals, SumValues(keys, totals));
    ShareOfWhole(Total(s));
    if Total(s) <= 0.0 {
      MapEntriesMembers(keys, totals, SumValues(keys, totals));
      forall e | e in CategoryBreakdownOf(s) ensures e.percentage == 0.0 {
        assert e in multiset(CategoryBreakdownOf(s));
        assert e in u;
        var c :| c in keys && e == BreakdownEntry(c, totals[c], Total(s));
        EntryFields(c, totals[c], Total(s));
      }
    }
  }

  /** An id with no catalog entry is shown under its own id, in `#64748b`, with the `category` icon. */
  lemma BreakdownEntryNames(categoryId: string, amount: real, total: real)
    ensures var e := BreakdownEntry(categoryId, amount, total);
      && e.amount == amount
      && (GetCategoryById(categoryId).None? ==>
            e.category == categoryId && e.color == "#64748b" && e.icon == "category")
      && (forall c :: c in DefaultCategories && c.id == categoryId ==>
            e.category == c.name && e.color == c.color && e.icon == c.icon)
  {
    GetCategoryByIdExact(categoryId);
    var e := BreakdownEntry(categoryId, amount, total);
    forall c | c in DefaultCategories && c.id == categoryId
      ensures e.category == c.name && e.color == c.color && e.icon == c.icon
    {
      CatalogFieldsNonEmpty(c);
    }
  }

  // ------------------------------------------------------ monthly analysis

  /** The value `getMonthlyAnalysis(month, year)` emits for the user's transactions `s`. */
  function MonthlyAnalysisOf(s: seq<Transaction>, month: int, year: int): MonthlyAnalysis
  {
    var transactions := MonthlyTransactions(s, month, year);
    var totalIncome := Total(OfType(transactions, Income));
    var totalExpense := Total(OfType(transactions, Expense));
    MonthlyAnalysis(month, year, totalIncome, totalExpense, totalIncome - totalExpense,
                    transactions, CategoryBreakdownOf(transactions))
  }

  /** The `map` body of `getMonthlyAnalysis`. */
  method GetMonthlyAnalysis(s: seq<Transaction>, month: int, year: int) returns (analysis: MonthlyAnalysis)
    ensures analysis == MonthlyAnalysisOf(s, month, year)
  {
    var transactions := MonthlyTransactions(s, month, year);
    var totalIncome := Total(OfType(transactions, Income));
    var totalExpense := Total(OfType(transactions, Expense));
    var categoryBreakdown := CalculateCategoryBreakdown(transactions);
    analysis := MonthlyAnalysis(month, year, totalIncome, totalExpense, totalIncome - totalExpense,
                                transactions, categoryBreakdown);
  }

  /**
    Month and year are echoed; the totals are the income and expense sums of
    the month's transactions; the balance is their difference; income and
    expense together account for every amount of the month, and so do the
    breakdown's entries.
  */
  lemma MonthlyTotals(s: seq<Transaction>, month: int, year: int)
    ensures var a := MonthlyAnalysisOf(s, month, year);
      && a.month == month && a.year == year
      && a.transactions == MonthlyTransactions(s, month, year)
      && a.totalIncome == Total(OfType(a.transactions, Income))
      && a.totalExpense == Total(OfType(a.transactions, Expense))
      && a.balance == a.totalIncome - a.totalExpense
      && a.totalIncome + a.totalExpense == Total(a.transactions)
      && SumBy(a.categoryBreakdown, BreakdownAmount) == a.totalIncome + a.totalExpense
  {
    var a := MonthlyAnalysisOf(s, month, year);
    IncomeExpensePartition(a.transactions);
    BreakdownSortedAndReconciled(a.transactions);
  }

  // -------------------------------------------- current balance and recent

  /** The `map` body of `getCurrentBalance`. */
  function CurrentBalance(s: seq<Transaction>): real
  {
    if |s| == 0 then 0.0
    else Total(OfType(s, Income)) - Total(OfType(s, Expense))
  }

  /** The explicit 0 for an empty list agrees with income minus expense; the balance adds up over lists. */
  lemma CurrentBalanceIsNet(a: seq<Transaction>, b: seq<Transaction>)
    ensures CurrentBalance(a) == Total(OfType(a, Income)) - Total(OfType(a, Expense))
    ensures CurrentBalance(a + b) == CurrentBalance(a) + CurrentBalance(b)
  {
    OfTypeAppend(a, b, Income);
    OfTypeAppend(a, b, Expense);
    SumByAppend(OfType(a, Income), OfType(b, Income), Amount);
    SumByAppend(OfType(a, Expense), OfType(b, Expense), Amount);
  }

  const DefaultRecentLimit: int := 5

  /** `transactions.slice(0, limit)`: a negative end counts back from the length. */
  function RecentTransactions(s: seq<Transaction>, limit: int): (r: seq<Transaction>)
    ensures r <= s
    ensures 0 <= limit ==> |r| == if limit < |s| then limit else |s|
    ensures limit < 0 ==> |r| == if |s| + limit > 0 then |s| + limit else 0
  {
    var end := if limit >= 0 then (if limit < |s| then limit else |s|)
               else (if |s| + limit > 0 then |s| + limit else 0);
    s[..end]
  }

  /**
    Taking the first `a` and then the first `b` is taking the first
    `min(a, b)`; in particular taking the same non-negative limit twice
    changes nothing, and the default takes at most five.
  */
  lemma RecentOfRecent(s: seq<Transaction>, a: int, b: int)
    requires 0 <= a && 0 <= b
    ensures RecentTransactions(RecentTransactions(s, a), b) == RecentTransactions(s, if a < b then a else b)
    ensures RecentTransactions(RecentTransactions(s, a), a) == RecentTransactions(s, a)
    ensures |RecentTransactions(s, DefaultRecentLimit)| <= 5
  {
  }

  /**
    Among limits of the same sign a larger one extends the result (a
    negative limit counts from the end, so `-1` keeps more than `0`).
  */
  lemma RecentMonotone(s: seq<Transaction>, a: int, b: int)
    requires a <= b
    requires 0 <= a || b < 0
    ensures RecentTransactions(s, a) <= RecentTransactions(s, b)
  {
    var ra, rb := RecentTransactions(s, a), RecentTransactions(s, b);
    assert |ra| <= |rb|;
    assert ra == s[..|ra|] && rb == s[..|rb|];
    assert ra == rb[..|ra|];
  }
}

/**
  The monthly analysis screen: its own breakdown of the month's expenses by
  catalog category, the pie chart built from that breakdown, the month and
  year navigation, and the percentages and message shown for the month.

  The screen reads "now" (the current month and year) from the clock; here
  it is a parameter of every operation that needs it. The service call and
  the callbacks it delivers are modelled as separate methods: loading
  resets the screen, and a delivered analysis or an error then completes it.
*/
module Analysis {
  import opened Lists
  import opened Model
  import opened Catalog
  import opened Grouping
  import opened TransactionService

  datatype CategoryExpense = CategoryExpense(
    id: string,
    name: string,
    icon: string,
    color: string,
    amount: real,
    percentage: real,
    transactionCount: nat)

  /** A pie slice; the SVG `path` string is not modelled, only the flag it is drawn with. */
  datatype PieSegment = PieSegment(color: string, startAngle: real, endAngle: real, largeArc: int)

  datatype MonthlyData = MonthlyData(
    totalIncome: real, totalExpense: real, balance: real, transactions: seq<Transaction>)

  /** The `{ amount, count }` value of the grouping map. */
  datatype Tally = Tally(amount: real, count: nat)

  // ------------------------------------------------------------- rounding

  /** `Math.round`: the nearest integer, halves rounded up. */
  function Round(x: real): (n: int)
    ensures x - 0.5 < n as real <= x + 0.5
  {
    (x + 0.5).Floor
  }

  /** `Math.round((amount / totalExpense) * 100 * 10) / 10`, or 0 with no positive expense total. */
  function ExpensePercentage(amount: real, totalExpense: real): real
  {
    if totalExpense > 0.0 then Round(amount / totalExpense * 100.0 * 10.0) as real / 10.0 else 0.0
  }

  /**
    The shown percentage is the exact share rounded to one decimal: within
    0.05 of it, and between 0 and 100 for an amount between 0 and the total.
  */
  lemma ExpensePercentageRounds(amount: real, totalExpense: real)
    requires totalExpense > 0.0
    ensures var p := ExpensePercentage(amount, totalExpense);
      var exact := amount / totalExpense * 100.0;
      exact - 0.05 < p <= exact + 0.05
    ensures 0.0 <= amount <= totalExpense ==> 0.0 <= ExpensePercentage(amount, totalExpense) <= 100.0
  {
    var q := amount / totalExpense;
    var x := q * 100.0 * 10.0;
    var n := Round(x);
    assert x - 0.5 < n as real <= x + 0.5;
    if 0.0 <= amount <= totalExpense {
      UnitShare(amount, totalExpense);
      assert 0.0 <= x <= 1000.0;
      assert 0 <= n <= 1000;
    }
  }

  /** A part of a positive whole is a fraction between 0 and 1 of it. */
  lemma UnitShare(a: real, t: real)
    requires t > 0.0 && 0.0 <= a <= t
    ensures 0.0 <= a / t <= 1.0
  {
    var q := a / t;
    assert q * t == a;
    assert (1.0 - q) * t == t - a;
  }

  // --------------------------------------------------- expenses by category

  function ExpenseAmount(e: CategoryExpense): real { e.amount }
  function ExpenseId(e: CategoryExpense): string { e.id }
  function ExpenseShare(e: CategoryExpense): real { e.percentage }

  /** Sum and count of each category of `s`, keyed by the categories that occur. */
  function TallyMap(s: seq<Transaction>): map<string, Tally>
  {
    map c | c in CategoryKeys(s) :: Tally(SumFor(s, c), CountFor(s, c))
  }

  /** One step of the walk: `set(category, { amount: current.amount + amount, count: current.count + 1 })`. */
  lemma TallyStep(s: seq<Transaction>, i: nat)
    requires i < |s|
    ensures var m := TallyMap(s[..i]);
      var cur := if s[i].category in m then m[s[i].category] else Tally(0.0, 0);
      TallyMap(s[..i + 1]) == m[s[i].category := Tally(cur.amount + s[i].amount, cur.count + 1)]
  {
    var p := s[..i];
    var m := TallyMap(p);
    var c := s[i].category;
    var cur := if c in m then m[c] else Tally(0.0, 0);
    var m' := m[c := Tally(cur.amount + s[i].amount, cur.count + 1)];
    var n := TallyMap(s[..i + 1]);
    assert s[..i + 1][..i] == p;
    assert n.Keys == m'.Keys;
    if c !in m {
      AbsentZero(p, c);
    }
    forall k | k in n ensures n[k] == m'[k] {
      StepAt(s, i, k);
    }
  }

  /** The entry pushed for a category id found in the catalog. */
  function EntryFor(c: string, expenses: seq<Transaction>, totalExpense: real): CategoryExpense
    requires GetCategoryById(c).Some?
  {
    var cat := GetCategoryById(c).value;
    CategoryExpense(c, cat.name, cat.icon, cat.color,
                    SumFor(expenses, c), ExpensePercentage(SumFor(expenses, c), totalExpense),
                    CountFor(expenses, c))
  }

  /** The `categoryMap.forEach` push loop over the keys `keys`, in order: unknown ids are skipped. */
  function KnownExpenses(keys: seq<string>, expenses: seq<Transaction>, totalExpense: real): seq<CategoryExpense>
  {
    if keys == [] then []
    else
      var rest := KnownExpenses(keys[..|keys| - 1], expenses, totalExpense);
      var c := keys[|keys| - 1];
      if GetCategoryById(c).Some? then rest + [EntryFor(c, expenses, totalExpense)] else rest
  }

  /** One step of the push loop. */
  lemma KnownStep(keys: seq<string>, j: nat, expenses: seq<Transaction>, total: real)
    requires j < |keys|
    ensures KnownExpenses(keys[..j + 1], expenses, total)
         == KnownExpenses(keys[..j], expenses, total)
            + (if Known(keys[j]) then [EntryFor(keys[j], expenses, total)] else [])
  {
    assert keys[..j + 1][..j] == keys[..j];
  }

  /** The push loop's step, in the terms the loop computes it: the map's value and the looked-up category. */
  lemma PushStep(keys: seq<string>, j: nat, categoryMap: map<string, Tally>, expenses: seq<Transaction>, total: real)
    requires j < |keys|
    requires forall c :: c in keys ==> c in categoryMap && categoryMap[c] == Tally(SumFor(expenses, c), CountFor(expenses, c))
    ensures var c := keys[j];
      var data := categoryMap[c];
      var cat := GetCategoryById(c);
      KnownExpenses(keys[..j + 1], expenses, total)
        == KnownExpenses(keys[..j], expenses, total)
           + (if cat.Some?
              then [CategoryExpense(c, cat.value.name, cat.value.icon, cat.value.color, data.amount,
                      ExpensePercentage(data.amount, total), data.count)]
              else [])
  {
    KnownStep(keys, j, expenses, total);
    var c := keys[j];
    assert categoryMap[c] == Tally(SumFor(expenses, c), CountFor(expenses, c));
  }

  predicate Known(c: string)
  {
    GetCategoryById(c).Some?
  }

  /** `processExpensesByCategory(analysis)` */
  function ExpensesByCategoryOf(a: MonthlyAnalysis): seq<CategoryExpense>
  {
    var expenses := OfType(a.transactions, Expense);
    SortDesc(KnownExpenses(CategoryKeys(expenses), expenses, a.totalExpense), ExpenseAmount)
  }

  /** The pushed entries are exactly the entries of the known keys, one per key. */
  lemma {:induction false} KnownExpensesMembers(keys: seq<string>, expenses: seq<Transaction>, total: real)
    requires Distinct(keys)
    ensures var r := KnownExpenses(keys, expenses, total);
      && (forall e :: e in r ==> e.id in keys && Known(e.id) && e == EntryFor(e.id, expenses, total))
      && (forall c :: c in keys && Known(c) ==> EntryFor(c, expenses, total) in r)
      && DistinctBy(r, ExpenseId)
  {
    if keys != [] {
      var n := |keys| - 1;
      var p := keys[..n];
      var c := keys[n];
      assert keys == p + [c];
      assert Distinct(p);
      assert c !in p;
      KnownExpensesMembers(p, expenses, total);
      var rest := KnownExpenses(p, expenses, total);
      if Known(c) {
        var r := rest + [EntryFor(c, expenses, total)];
        forall i, j | 0 <= i < j < |r| ensures ExpenseId(r[i]) != ExpenseId(r[j]) {
          if j == |rest| {
            assert r[i] in rest;
          } else {
            assert r[i] == rest[i] && r[j] == rest[j];
          }
        }
      }
    }
  }

  /** With every key in the catalog, the entries account for the sums of all keys. */
  lemma {:induction false} KnownExpensesSum(keys: seq<string>, expenses: seq<Transaction>, total: real)
    requires forall c :: c in keys ==> Known(c)
    ensures SumBy(KnownExpenses(keys, expenses, total), ExpenseAmount) == SumOver(keys, expenses)
  {
    if keys != [] {
      var n := |keys| - 1;
      var p := keys[..n];
      var c := keys[n];
      assert keys == p + [c];
      assert Known(c) && forall k :: k in p ==> k in keys;
      KnownExpensesSum(p, expenses, total);
      SumOverAppend(p, c, expenses);
      SumByAppend(KnownExpenses(p, expenses, total), [EntryFor(c, expenses, total)], ExpenseAmount);
    }
  }

  /**
    One entry per distinct expense category that is in the catalog, and no
    other: income transactions and unknown ids contribute nothing. Each
    entry carries the catalog's name, icon and color, the sum and number of
    that category's expenses (at least one), and the rounded share of the
    analysis' expense total.
  */
  lemma ExpensesByCategoryEntries(a: MonthlyAnalysis)
    ensures var r := ExpensesByCategoryOf(a);
      var expenses := OfType(a.transactions, Expense);
      && DistinctBy(r, ExpenseId)
      && (forall e :: e in r ==>
            && Known(e.id)
            && (exists t :: t in a.transactions && t.kind == Expense && t.category == e.id)
            && e == EntryFor(e.id, expenses, a.totalExpense)
            && e.transactionCount >= 1)
      && (forall t :: t in a.transactions && t.kind == Expense && Known(t.category) ==>
            EntryFor(t.category, expenses, a.totalExpense) in r)
  {
    var expenses := OfType(a.transactions, Expense);
    var keys := CategoryKeys(expenses);
    var u := KnownExpenses(keys, expenses, a.totalExpense);
    var r := ExpensesByCategoryOf(a);
    KeysExact(expenses);
    OfTypeMembers(a.transactions, Expense);
    KnownExpensesMembers(keys, expenses, a.totalExpense);
    SortDescDistinct(u, ExpenseAmount, ExpenseId);
    forall e ensures e in r <==> e in u {
      assert e in r <==> e in multiset(r);
      assert e in u <==> e in multiset(u);
    }
    forall e | e in r
      ensures exists t :: t in a.transactions && t.kind == Expense && t.category == e.id
    {
      var t :| t in expenses && t.category == e.id;
      assert t in a.transactions && t.kind == Expense;
    }
    forall t | t in a.transactions && t.kind == Expense && Known(t.category)
      ensures EntryFor(t.category, expenses, a.totalExpense) in r
    {
      assert t in expenses;
    }
  }

  /**
    The breakdown is sorted by amount, largest first; when every expense
    category is in the catalog its amounts add up to the sum of all expenses.
  */
  lemma ExpensesByCategorySorted(a: MonthlyAnalysis)
    ensures SortedDesc(ExpensesByCategoryOf(a), ExpenseAmount)
    ensures (forall t :: t in a.transactions && t.kind == Expense ==> Known(t.category)) ==>
      SumBy(ExpensesByCategoryOf(a), ExpenseAmount) == Total(OfType(a.transactions, Expense))
  {
    var expenses := OfType(a.transactions, Expense);
    var keys := CategoryKeys(expenses);
    var u := KnownExpenses(keys, expenses, a.totalExpense);
    SortDescSorted(u, ExpenseAmount);
    if forall t :: t in a.transactions && t.kind == Expense ==> Known(t.category) {
      KeysExact(expenses);
      OfTypeMembers(a.transactions, Expense);
      forall c | c in keys ensures Known(c) {
        var t :| t in expenses && t.category == c;
      }
      KnownExpensesSum(keys, expenses, a.totalExpense);
      SumDescSum(u);
      GroupSumsReconcile(expenses);
    }
  }

  lemma SumDescSum(u: seq<CategoryExpense>)
    ensures SumBy(SortDesc(u, ExpenseAmount), ExpenseAmount) == SumBy(u, ExpenseAmount)
  {
    SortDescSum(u, ExpenseAmount, ExpenseAmount);
  }

  /**
    For an analysis whose expense total is the sum of its expenses, none of
    them negative, every shown percentage lies between 0 and 100 and within
    0.05 of the category's exact share `amount / totalExpense * 100`.
  */
  lemma ExpensesByCategoryPercentages(a: MonthlyAnalysis)
    requires a.totalExpense == Total(OfType(a.transactions, Expense))
    requires forall t :: t in a.transactions ==> t.amount >= 0.0
    ensures forall e :: e in ExpensesByCategoryOf(a) ==>
      && 0.0 <= e.percentage <= 100.0
      && (a.totalExpense > 0.0 ==>
            e.amount / a.totalExpense * 100.0 - 0.05 < e.percentage <= e.amount / a.totalExpense * 100.0 + 0.05)
      && (a.totalExpense <= 0.0 ==> e.percentage == 0.0)
  {
    var expenses := OfType(a.transactions, Expense);
    OfTypeMembers(a.transactions, Expense);
    ExpensesByCategoryEntries(a);
    forall e | e in ExpensesByCategoryOf(a)
      ensures 0.0 <= e.percentage <= 100.0
      ensures a.totalExpense > 0.0 ==>
            e.amount / a.totalExpense * 100.0 - 0.05 < e.percentage <= e.amount / a.totalExpense * 100.0 + 0.05
      ensures a.totalExpense <= 0.0 ==> e.percentage == 0.0
    {
      assert e == EntryFor(e.id, expenses, a.totalExpense);
      assert e.percentage == ExpensePercentage(e.amount, a.totalExpense);
      SumForBounds(expenses, e.id);
      if a.totalExpense > 0.0 {
        ExpensePercentageRounds(e.amount, a.totalExpense);
      }
    }
  }

  /** `expensesByCategory.length > 0 ? expensesByCategory[0] : null` */
  function TopExpense(r: seq<CategoryExpense>): Option<CategoryExpense>
  {
    if |r| > 0 then Some(r[0]) else None
  }

  /** The top category is absent exactly when the breakdown is empty; otherwise no entry spent more. */
  lemma TopExpenseIsLargest(a: MonthlyAnalysis)
    ensures var r := ExpensesByCategoryOf(a);
      && (TopExpense(r).None? <==> r == [])
      && (TopExpense(r).Some? ==>
            TopExpense(r).value in r && (forall e :: e in r ==> e.amount <= TopExpense(r).value.amount))
  {
    var r := ExpensesByCategoryOf(a);
    ExpensesByCategorySorted(a);
    forall e | e in r && |r| > 0 ensures e.amount <= r[0].amount {
      var k :| 0 <= k < |r| && r[k] == e;
      if k > 0 {
        assert ExpenseAmount(r[0]) >= ExpenseAmount(r[k]);
      }
    }
  }

  /**
    For an analysis the service computes from transactions with no negative
    amount, every shown percentage lies between 0 and 100.
  */
  lemma ServiceAnalysisPercentages(s: seq<Transaction>, month: int, year: int)
    requires forall t :: t in s ==> t.amount >= 0.0
    ensures forall e :: e in ExpensesByCategoryOf(MonthlyAnalysisOf(s, month, year)) ==>
      0.0 <= e.percentage <= 100.0
  {
    var a := MonthlyAnalysisOf(s, month, year);
    MonthlyTransactionsSpec(s, month, year);
    ExpensesByCategoryPercentages(a);
  }

  // ------------------------------------------------------------ pie chart

  /** `(percentage / 100) * 360`: the angle of a slice, in degrees. */
  function Span(percentage: real): real
  {
    percentage / 100.0 * 360.0
  }

  function SpanOf(c: CategoryExpense): real { Span(c.percentage) }

  /** The slice of category `c` starting at angle `start`. */
  function SegmentAt(c: CategoryExpense, start: real): PieSegment
  {
    PieSegment(c.color, start, start + Span(c.percentage), if Span(c.percentage) > 180.0 then 1 else 0)
  }

  /** The slices of `cats`, the first starting at `start`, each starting where the one before ends. */
  function PieFrom(cats: seq<CategoryExpense>, start: real): (r: seq<PieSegment>)
    ensures |r| == |cats|
  {
    if cats == [] then [] else [SegmentAt(cats[0], start)] + PieFrom(cats[1..], start + Span(cats[0].percentage))
  }

  /** The chain from category `i` on is its slice followed by the chain from `i + 1`. */
  lemma PieFromUnfold(cats: seq<CategoryExpense>, i: nat, start: real)
    requires i < |cats|
    ensures PieFrom(cats[i..], start)
         == [SegmentAt(cats[i], start)] + PieFrom(cats[i + 1..], start + Span(cats[i].percentage))
  {
    assert cats[i..][1..] == cats[i + 1..];
  }

  /** Emitting the slice of category `i` keeps `done + chain from i` equal to the whole chain. */
  lemma PieFromStep(cats: seq<CategoryExpense>, i: nat, done: seq<PieSegment>, start: real)
    requires i < |cats|
    requires done + PieFrom(cats[i..], start) == PieFrom(cats, 0.0)
    ensures (done + [SegmentAt(cats[i], start)]) + PieFrom(cats[i + 1..], start + Span(cats[i].percentage))
         == PieFrom(cats, 0.0)
  {
    PieFromUnfold(cats, i, start);
    var rest := PieFrom(cats[i + 1..], start + Span(cats[i].percentage));
    assert (done + [SegmentAt(cats[i], start)]) + rest == done + ([SegmentAt(cats[i], start)] + rest);
  }

  /** `generatePieSegments(categories)` */
  function PieSegmentsOf(cats: seq<CategoryExpense>): seq<PieSegment>
  {
    if |cats| == 0 then [] else PieFrom(cats, 0.0)
  }

  /** Slice `k` of the chain is the slice of category `k`, started after the spans of the ones before it. */
  lemma {:induction false} PieFromAt(cats: seq<CategoryExpense>, start: real, k: nat)
    requires k < |cats|
    ensures PieFrom(cats, start)[k] == SegmentAt(cats[k], start + SumBy(cats[..k], SpanOf))
  {
    if k == 0 {
      assert cats[..0] == [];
    } else {
      var next := start + Span(cats[0].percentage);
      PieFromAt(cats[1..], next, k - 1);
      assert cats[..k][0] == cats[0] && cats[..k][1..] == cats[1..][..k - 1];
      assert PieFrom(cats, start)[k] == PieFrom(cats[1..], next)[k - 1];
    }
  }

  /**
    One slice per category, in order and in its color; slice `k` starts at
    `start` plus the spans of the slices before it and spans
    `percentage / 100 * 360` degrees; each slice starts where the previous
    one ends, and `largeArc` is 1 exactly when the span exceeds 180 degrees.
  */
  lemma PieChain(cats: seq<CategoryExpense>, start: real)
    ensures var r := PieFrom(cats, start);
      && (forall k :: 0 <= k < |r| ==>
            && r[k].color == cats[k].color
            && r[k].startAngle == start + SumBy(cats[..k], SpanOf)
            && r[k].endAngle - r[k].startAngle == Span(cats[k].percentage)
            && (r[k].largeArc == 1 <==> Span(cats[k].percentage) > 180.0)
            && (r[k].largeArc == 0 || r[k].largeArc == 1))
      && (forall k :: 0 < k < |r| ==> r[k].startAngle == r[k - 1].endAngle)
      && (|r| > 0 ==> r[|r| - 1].endAngle == start + SumBy(cats, SpanOf))
  {
    var r := PieFrom(cats, start);
    forall k | 0 <= k < |r|
      ensures r[k] == SegmentAt(cats[k], start + SumBy(cats[..k], SpanOf))
      ensures r[k].endAngle == start + SumBy(cats[..k + 1], SpanOf)
    {
      PieSliceEnd(cats, start, k);
    }
    if |r| > 0 {
      assert cats[..|r|] == cats;
    }
  }

  /** Slice `k` ends after the spans of the first `k + 1` categories. */
  lemma PieSliceEnd(cats: seq<CategoryExpense>, start: real, k: nat)
    requires k < |cats|
    ensures PieFrom(cats, start)[k] == SegmentAt(cats[k], start + SumBy(cats[..k], SpanOf))
    ensures PieFrom(cats, start)[k].endAngle == start + SumBy(cats[..k + 1], SpanOf)
  {
    PieFromAt(cats, start, k);
    SumBySnoc(cats, k, SpanOf);
  }

  /** The slices' span is the percentages' sum times 3.6: a full circle when they add up to 100. */
  lemma {:induction false} PieSpanTotal(cats: seq<CategoryExpense>)
    ensures SumBy(cats, SpanOf) == SumBy(cats, ExpenseShare) * 3.6
  {
    if cats != [] {
      PieSpanTotal(cats[1..]);
    }
  }

  lemma FullCircle(cats: seq<CategoryExpense>)
    requires |cats| > 0
    requires SumBy(cats, ExpenseShare) == 100.0
    ensures PieSegmentsOf(cats)[0].startAngle == 0.0
    ensures PieSegmentsOf(cats)[|cats| - 1].endAngle == 360.0
  {
    PieChain(cats, 0.0);
    PieSpanTotal(cats);
    assert cats[..0] == [];
  }

  /** The exact shares `amount / total * 100` of the entries, added up. */
  function ExactShares(u: seq<CategoryExpense>, total: real): real
    requires total > 0.0
  {
    if u == [] then 0.0 else u[0].amount / total * 100.0 + ExactShares(u[1..], total)
  }

  /** The exact shares of entries whose amounts add up to `total` add up to 100. */
  lemma {:induction false} ExactSharesSum(u: seq<CategoryExpense>, total: real)
    requires total > 0.0
    ensures ExactShares(u, total) * total == SumBy(u, ExpenseAmount) * 100.0
  {
    if u != [] {
      ExactSharesSum(u[1..], total);
      var q := u[0].amount / total;
      assert q * total == u[0].amount;
      calc {
        ExactShares(u, total) * total;
        (q * 100.0 + ExactShares(u[1..], total)) * total;
        q * total * 100.0 + ExactShares(u[1..], total) * total;
        u[0].amount * 100.0 + SumBy(u[1..], ExpenseAmount) * 100.0;
      }
    }
  }

  /** Exact shares of entries whose amounts make up the whole `total` add up to 100. */
  lemma ExactSharesHundred(u: seq<CategoryExpense>, total: real)
    requires total > 0.0
    requires SumBy(u, ExpenseAmount) == total
    ensures ExactShares(u, total) == 100.0
  {
    ExactSharesSum(u, total);
    var e := ExactShares(u, total);
    assert e * total == 100.0 * total;
    assert (e - 100.0) * total == 0.0;
  }

  /** Rounding each share to one decimal moves their sum by at most 0.05 per entry. */
  lemma {:induction false} RoundedSharesNear(u: seq<CategoryExpense>, total: real)
    requires total > 0.0
    requires forall e :: e in u ==> e.percentage == ExpensePercentage(e.amount, total)
    ensures ExactShares(u, total) - 0.05 * |u| as real <= SumBy(u, ExpenseShare)
                                                      <= ExactShares(u, total) + 0.05 * |u| as real
  {
    if u != [] {
      assert forall e :: e in u[1..] ==> e in u;
      RoundedSharesNear(u[1..], total);
      ExpensePercentageRounds(u[0].amount, total);
    }
  }

  /**
    Entries whose amounts add up to a positive `total`, each showing its
    rounded share of it: the shares add up to 100 within 0.05 per entry,
    and the pie closes within 0.18 degrees per slice of a full circle.
  */
  lemma SharesNearHundred(r: seq<CategoryExpense>, total: real)
    requires total > 0.0
    requires SumBy(r, ExpenseAmount) == total
    requires forall e :: e in r ==> e.percentage == ExpensePercentage(e.amount, total)
    ensures |r| > 0
    ensures 100.0 - 0.05 * |r| as real <= SumBy(r, ExpenseShare) <= 100.0 + 0.05 * |r| as real
    ensures PieSegmentsOf(r)[0].startAngle == 0.0
    ensures 360.0 - 0.18 * |r| as real <= PieSegmentsOf(r)[|r| - 1].endAngle <= 360.0 + 0.18 * |r| as real
  {
    RoundedSharesNear(r, total);
    ExactSharesHundred(r, total);
    PieEnds(r);
  }

  /** The pie of a non-empty breakdown starts at 0 and ends at 3.6 times the sum of the percentages. */
  lemma PieEnds(r: seq<CategoryExpense>)
    requires |r| > 0
    ensures PieSegmentsOf(r)[0].startAngle == 0.0
    ensures PieSegmentsOf(r)[|r| - 1].endAngle == SumBy(r, ExpenseShare) * 3.6
  {
    PieChain(r, 0.0);
    PieSpanTotal(r);
    assert r[..0] == [];
  }

  /**
    The screen's breakdown of an analysis whose expense total is the positive
    sum of its expenses, all in catalog categories: the rounded percentages
    add up to 100 within 0.05 per entry, so the pie closes within 0.18
    degrees per slice of a full circle. (Three equal expenses show 33.3 each,
    99.9 in all, and the last slice ends at 359.64.)
  */
  lemma FullCircleWithinRounding(a: MonthlyAnalysis)
    requires a.totalExpense == Total(OfType(a.transactions, Expense))
    requires a.totalExpense > 0.0
    requires forall t :: t in a.transactions && t.kind == Expense ==> Known(t.category)
    ensures var r := ExpensesByCategoryOf(a);
      && |r| > 0
      && 100.0 - 0.05 * |r| as real <= SumBy(r, ExpenseShare) <= 100.0 + 0.05 * |r| as real
      && PieSegmentsOf(r)[0].startAngle == 0.0
      && 360.0 - 0.18 * |r| as real <= PieSegmentsOf(r)[|r| - 1].endAngle <= 360.0 + 0.18 * |r| as real
  {
    var r := ExpensesByCategoryOf(a);
    var total := a.totalExpense;
    var expenses := OfType(a.transactions, Expense);
    ExpensesByCategoryEntries(a);
    ExpensesByCategorySorted(a);
    forall e | e in r ensures e.percentage == ExpensePercentage(e.amount, total) {
      assert e == EntryFor(e.id, expenses, total);
    }
    SharesNearHundred(r, total);
  }

  // ----------------------------------------------------------- navigation

  /** Months counted from January of year 0, so that stepping a month is adding one. */
  function MonthIndex(month: int, year: int): int
  {
    year * 12 + month - 1
  }

  /** `previousMonth`: `currentMonth--`, wrapping to December of the previous year. */
  function PreviousOf(month: int, year: int): (int, int)
  {
    if month - 1 < 1 then (12, year - 1) else (month - 1, year)
  }

  /** `nextMonth`: `currentMonth++`, wrapping to January of the next year. */
  function NextOf(month: int, year: int): (int, int)
  {
    if month + 1 > 12 then (1, year + 1) else (month + 1, year)
  }

  /**
    From a month in 1..12 both steps land in 1..12, one month later or
    earlier in time; January steps back to December of the year before,
    December forward to January of the year after; the two steps undo
    each other.
  */
  lemma NavigationSteps(month: int, year: int)
    requires 1 <= month <= 12
    ensures var (pm, py) := PreviousOf(month, year);
      1 <= pm <= 12 && MonthIndex(pm, py) == MonthIndex(month, year) - 1 && NextOf(pm, py) == (month, year)
    ensures var (nm, ny) := NextOf(month, year);
      1 <= nm <= 12 && MonthIndex(nm, ny) == MonthIndex(month, year) + 1 && PreviousOf(nm, ny) == (month, year)
    ensures month == 1 ==> PreviousOf(month, year) == (12, year - 1)
    ensures month == 12 ==> NextOf(month, year) == (1, year + 1)
  {
  }

  const Months: seq<string> := [
    "Janeiro", "Fevereiro", "Março", "Abril", "Maio", "Junho",
    "Julho", "Agosto", "Setembro", "Outubro", "Novembro", "Dezembro"
  ]

  /** `this.months[month - 1]`: `undefined` (here `None`) outside 1..12. */
  function MonthName(month: int): (r: Option<string>)
    ensures r.Some? <==> 1 <= month <= 12
  {
    if 1 <= month <= 12 then Some(Months[month - 1]) else None
  }

  /** Twelve distinct names, January first. */
  lemma MonthNamesDistinct()
    ensures forall m1, m2 :: 1 <= m1 < m2 <= 12 ==> MonthName(m1) != MonthName(m2)
    ensures MonthName(1) == Some("Janeiro") && MonthName(12) == Some("Dezembro")
  {
  }

  // ---------------------------------------------------------- percentages

  function Abs(x: real): real
  {
    if x < 0.0 then -x else x
  }

  /**
    The number `x.toFixed(1)` prints: the nearest tenth, a tie going to
    the larger magnitude (the digits are those of `-x` for a negative `x`).
  */
  function ToFixed1(x: real): real
  {
    if x >= 0.0 then Round(x * 10.0) as real / 10.0 else -(Round(-x * 10.0) as real / 10.0)
  }

  /** The printed value is within 0.05 of the value. */
  lemma ToFixed1Near(x: real)
    ensures x - 0.05 <= ToFixed1(x) <= x + 0.05
  {
  }

  /** A printed value reaches a threshold `t >= 1` exactly when the value reaches `t - 0.05`. */
  lemma ToFixed1Threshold(x: real, t: int)
    requires t >= 1
    ensures ToFixed1(x) >= t as real <==> x >= t as real - 0.05
  {
    if x >= 0.0 {
      var y := x * 10.0 + 0.5;
      assert Round(x * 10.0) == y.Floor;
      assert y.Floor >= 10 * t <==> y >= (10 * t) as real;
    }
  }

  /** `getExpensePercentageOfIncome()`: expenses as a percentage of income, 0 with no data or no income. */
  function ExpensePercentageOfIncome(data: Option<MonthlyData>): real
  {
    if data.None? || data.value.totalIncome == 0.0 then 0.0
    else ToFixed1(data.value.totalExpense / data.value.totalIncome * 100.0)
  }

  /** `getSavingsPercentage()`: the size of the balance as a percentage of income, 0 with no data or no income. */
  function SavingsPercentage(data: Option<MonthlyData>): real
  {
    if data.None? || data.value.totalIncome == 0.0 then 0.0
    else ToFixed1(Abs(data.value.balance) / data.value.totalIncome * 100.0)
  }

  const Excellent: string := "Excelente economia!"
  const Good: string := "Boa economia!"
  const KeepSaving: string := "Continue economizando!"
  const CutSpending: string := "Reduza os gastos!"

  /** `getSavingsMessage()` */
  function SavingsMessage(data: Option<MonthlyData>): string
  {
    if data.None? then ""
    else if data.value.balance >= 0.0 then
      var percentage := SavingsPercentage(data);
      if percentage >= 20.0 then Excellent
      else if percentage >= 10.0 then Good
      else KeepSaving
    else CutSpending
  }

  /**
    Both percentages are 0 without income. With a non-negative balance and
    some income the message depends on the exact savings rate
    `|balance| / totalIncome * 100`: "Excelente" from 19.95 up (shown as
    20.0), "Boa" from 9.95 up to that, "Continue" below; a negative balance
    always gives "Reduza os gastos!".
  */
  lemma SavingsMessageThresholds(data: Option<MonthlyData>)
    ensures data.Some? && data.value.totalIncome == 0.0 ==>
      ExpensePercentageOfIncome(data) == 0.0 && SavingsPercentage(data) == 0.0
    ensures data.None? <==> SavingsMessage(data) == ""
    ensures data.Some? && data.value.balance < 0.0 ==> SavingsMessage(data) == CutSpending
    ensures data.Some? && data.value.balance >= 0.0 && data.value.totalIncome == 0.0 ==>
      SavingsMessage(data) == KeepSaving
    ensures data.Some? && data.value.balance >= 0.0 && data.value.totalIncome != 0.0 ==>
      var rate := Abs(data.value.balance) / data.value.totalIncome * 100.0;
      && (SavingsMessage(data) == Excellent <==> rate >= 19.95)
      && (SavingsMessage(data) == Good <==> 9.95 <= rate < 19.95)
      && (SavingsMessage(data) == KeepSaving <==> rate < 9.95)
  {
    if data.Some? && data.value.totalIncome != 0.0 {
      var rate := Abs(data.value.balance) / data.value.totalIncome * 100.0;
      ToFixed1Threshold(rate, 20);
      ToFixed1Threshold(rate, 10);
    }
  }

  /** `getIncomeTransactionCount()` */
  function IncomeTransactionCount(data: Option<MonthlyData>): nat
  {
    if data.None? then 0 else |OfType(data.value.transactions, Income)|
  }

  /** `getExpenseTransactionCount()` */
  function ExpenseTransactionCount(data: Option<MonthlyData>): nat
  {
    if data.None? then 0 else |OfType(data.value.transactions, Expense)|
  }

  /** The two counters split the month's transactions; both are 0 without data. */
  lemma TransactionCountsSplit(data: Option<MonthlyData>)
    ensures data.Some? ==>
      IncomeTransactionCount(data) + ExpenseTransactionCount(data) == |data.value.transactions|
    ensures data.None? ==> IncomeTransactionCount(data) == 0 && ExpenseTransactionCount(data) == 0
  {
    if data.Some? {
      IncomeExpensePartition(data.value.transactions);
    }
  }

  // ------------------------------------------------------------ component

  /** The part of an analysis the screen keeps as `monthlyData`. */
  function DataOf(a: MonthlyAnalysis): MonthlyData
  {
    MonthlyData(a.totalIncome, a.totalExpense, a.balance, a.transactions)
  }

  class MonthlyAnalysisComponent {
    var currentMonth: int
    var currentYear: int
    var monthlyAnalysis: Option<MonthlyAnalysis>
    var monthlyData: Option<MonthlyData>
    var expensesByCategory: seq<CategoryExpense>
    var topExpenseCategory: Option<CategoryExpense>
    var pieSegments: seq<PieSegment>
    var isLoading: bool
    var isLoadingAnalysis: bool
    var dataReady: bool
    var isMonthDropdownOpen: bool
    /**
      The month and year of the pending `getMonthlyAnalysis` request: the
      values `loadMonthlyAnalysis()` passed when it subscribed, which the
      `next` callback answers even if the displayed month changed since.
    */
    var requestedMonth: int
    var requestedYear: int

    /** The displayed month is a calendar month. */
    predicate Valid()
      reads this
    {
      1 <= currentMonth <= 12
    }

    /** What `loadMonthlyAnalysis` leaves before the analysis arrives: skeletons on, derived data cleared. */
    predicate Cleared()
      reads this
    {
      && isLoading && isLoadingAnalysis && !dataReady
      && monthlyData == None && expensesByCategory == [] && topExpenseCategory == None && pieSegments == []
    }

    /** The field initialisers, with today's month (1..12) and year. */
    constructor (nowMonth: int, nowYear: int)
      requires 1 <= nowMonth <= 12
      ensures Valid()
      ensures currentMonth == nowMonth && currentYear == nowYear
      ensures monthlyAnalysis == None && monthlyData == None
      ensures expensesByCategory == [] && topExpenseCategory == None && pieSegments == []
      ensures isLoading && !isLoadingAnalysis && !dataReady && !isMonthDropdownOpen
      ensures requestedMonth == nowMonth && requestedYear == nowYear
    {
      currentMonth := nowMonth;
      currentYear := nowYear;
      requestedMonth := nowMonth;
      requestedYear := nowYear;
      monthlyAnalysis := None;
      monthlyData := None;
      expensesByCategory := [];
      topExpenseCategory := None;
      pieSegments := [];
      isLoading := true;
      isLoadingAnalysis := false;
      dataReady := false;
      isMonthDropdownOpen := false;
    }

    /**
      `loadMonthlyAnalysis()` up to the subscription: the request is for the
      displayed month, and the previous analysis stays in `monthlyAnalysis`
      until a new one arrives.
    */
    method LoadMonthlyAnalysis()
      modifies this
      ensures Cleared()
      ensures requestedMonth == currentMonth && requestedYear == currentYear
      ensures currentMonth == old(currentMonth) && currentYear == old(currentYear)
      ensures monthlyAnalysis == old(monthlyAnalysis) && isMonthDropdownOpen == old(isMonthDropdownOpen)
    {
      isLoading := true;
      isLoadingAnalysis := true;
      dataReady := false;
      monthlyData := None;
      expensesByCategory := [];
      topExpenseCategory := None;
      pieSegments := [];
      requestedMonth := currentMonth;
      requestedYear := currentYear;
    }

    /**
      The `next` callback, for the analysis the service computes from the
      user's transactions for the requested month, which need not be the
      displayed one any more (the skeleton timers that then clear `isLoading`
      and `isLoadingAnalysis` are not modelled).
    */
    method OnAnalysisLoaded(userTransactions: seq<Transaction>)
      modifies this
      ensures monthlyAnalysis == Some(MonthlyAnalysisOf(userTransactions, requestedMonth, requestedYear))
      ensures monthlyData == Some(DataOf(monthlyAnalysis.value))
      ensures expensesByCategory == ExpensesByCategoryOf(monthlyAnalysis.value)
      ensures topExpenseCategory == TopExpense(expensesByCategory)
      ensures pieSegments == PieSegmentsOf(expensesByCategory)
      ensures dataReady
      ensures currentMonth == old(currentMonth) && currentYear == old(currentYear)
      ensures isLoading == old(isLoading) && isLoadingAnalysis == old(isLoadingAnalysis)
      ensures isMonthDropdownOpen == old(isMonthDropdownOpen)
      ensures requestedMonth == old(requestedMonth) && requestedYear == old(requestedYear)
    {
      var analysis := GetMonthlyAnalysis(userTransactions, requestedMonth, requestedYear);
      monthlyAnalysis := Some(analysis);
      ProcessMonthlyData(analysis);
      dataReady := true;
    }

    /** The `error` callback. */
    method OnAnalysisError()
      modifies this
      ensures !isLoading && !isLoadingAnalysis && !dataReady
      ensures currentMonth == old(currentMonth) && currentYear == old(currentYear)
      ensures monthlyAnalysis == old(monthlyAnalysis) && monthlyData == old(monthlyData)
      ensures expensesByCategory == old(expensesByCategory) && topExpenseCategory == old(topExpenseCategory)
      ensures pieSegments == old(pieSegments) && isMonthDropdownOpen == old(isMonthDropdownOpen)
      ensures requestedMonth == old(requestedMonth) && requestedYear == old(requestedYear)
    {
      isLoading := false;
      isLoadingAnalysis := false;
      dataReady := false;
    }

    /** `processMonthlyData(analysis)` */
    method ProcessMonthlyData(analysis: MonthlyAnalysis)
      modifies this
      ensures monthlyData == Some(DataOf(analysis))
      ensures expensesByCategory == ExpensesByCategoryOf(analysis)
      ensures topExpenseCategory == TopExpense(expensesByCategory)
      ensures pieSegments == PieSegmentsOf(expensesByCategory)
      ensures currentMonth == old(currentMonth) && currentYear == old(currentYear)
      ensures monthlyAnalysis == old(monthlyAnalysis) && dataReady == old(dataReady)
      ensures isLoading == old(isLoading) && isLoadingAnalysis == old(isLoadingAnalysis)
      ensures isMonthDropdownOpen == old(isMonthDropdownOpen)
      ensures requestedMonth == old(requestedMonth) && requestedYear == old(requestedYear)
    {
      var categories := ProcessExpensesByCategory(analysis);
      var segments := GeneratePieSegments(categories);
      monthlyData := Some(DataOf(analysis));
      expensesByCategory := categories;
      topExpenseCategory := if |categories| > 0 then Some(categories[0]) else None;
      pieSegments := segments;
    }

    /**
      The grouping walk of `processExpensesByCategory`: the keys of the map
      in insertion order, and the map from category to `{ amount, count }`.
    */
    method TallyExpenses(expenseTransactions: seq<Transaction>)
      returns (keys: seq<string>, categoryMap: map<string, Tally>)
      ensures keys == CategoryKeys(expenseTransactions)
      ensures categoryMap == TallyMap(expenseTransactions)
    {
      keys := [];
      categoryMap := map[];
      var i := 0;
      while i < |expenseTransactions|
        invariant 0 <= i <= |expenseTransactions|
        invariant keys == CategoryKeys(expenseTransactions[..i])
        invariant categoryMap == TallyMap(expenseTransactions[..i])
      {
        var t := expenseTransactions[i];
        var current := if t.category in categoryMap then categoryMap[t.category] else Tally(0.0, 0);
        if t.category !in categoryMap {
          keys := keys + [t.category];
        }
        categoryMap := categoryMap[t.category := Tally(current.amount + t.amount, current.count + 1)];
        Step(expenseTransactions, i);
        TallyStep(expenseTransactions, i);
        i := i + 1;
      }
      assert expenseTransactions[..i] == expenseTransactions;
    }

    /**
      The `categoryMap.forEach` push loop of `processExpensesByCategory`:
      an entry per key the catalog knows, in the map's insertion order.
    */
    method PushKnown(keys: seq<string>, categoryMap: map<string, Tally>, expenses: seq<Transaction>, totalExpense: real)
      returns (categories: seq<CategoryExpense>)
      requires keys == CategoryKeys(expenses)
      requires forall c :: c in keys ==> c in categoryMap && categoryMap[c] == Tally(SumFor(expenses, c), CountFor(expenses, c))
      ensures categories == KnownExpenses(keys, expenses, totalExpense)
    {
      categories := [];
      var j := 0;
      while j < |keys|
        invariant 0 <= j <= |keys|
        invariant categories == KnownExpenses(keys[..j], expenses, totalExpense)
      {
        var categoryId := keys[j];
        var data := categoryMap[categoryId];
        var category := GetCategoryById(categoryId);
        PushStep(keys, j, categoryMap, expenses, totalExpense);
        if category.Some? {
          categories := categories + [CategoryExpense(
            categoryId, category.value.name, category.value.icon, category.value.color, data.amount,
            ExpensePercentage(data.amount, totalExpense), data.count)];
        }
        j := j + 1;
      }
      assert keys[..j] == keys;
    }

    /**
      `processExpensesByCategory(analysis)`: one walk over the expenses fills
      the map from category to `{ amount, count }`; the map is then walked in
      insertion order, pushing an entry for each id the catalog knows, and
      the entries are sorted by amount, largest first.
    */
    method ProcessExpensesByCategory(analysis: MonthlyAnalysis) returns (categories: seq<CategoryExpense>)
      ensures categories == ExpensesByCategoryOf(analysis)
    {
      var expenseTransactions := OfType(analysis.transactions, Expense);
      var keys, categoryMap := TallyExpenses(expenseTransactions);
      categories := PushKnown(keys, categoryMap, expenseTransactions, analysis.totalExpense);
      categories := SortDesc(categories, ExpenseAmount);
    }

    /** `generatePieSegments(categories)`: a running `currentAngle` accumulates the slice spans. */
    method GeneratePieSegments(categories: seq<CategoryExpense>) returns (segments: seq<PieSegment>)
      ensures segments == PieSegmentsOf(categories)
    {
      if |categories| == 0 {
        return [];
      }
      segments := [];
      var currentAngle := 0.0;
      var i := 0;
      while i < |categories|
        invariant 0 <= i <= |categories|
        invariant segments + PieFrom(categories[i..], currentAngle) == PieFrom(categories, 0.0)
      {
        var category := categories[i];
        var angleSize := (category.percentage / 100.0) * 360.0;
        var startAngle := currentAngle;
        var endAngle := currentAngle + angleSize;
        var largeArc := if angleSize > 180.0 then 1 else 0;
        assert PieSegment(category.color, startAngle, endAngle, largeArc) == SegmentAt(category, startAngle);
        PieFromStep(categories, i, segments, currentAngle);
        segments := segments + [PieSegment(category.color, startAngle, endAngle, largeArc)];
        currentAngle := endAngle;
        i := i + 1;
      }
      assert categories[i..] == [];
      assert segments + [] == segments;
    }

    /** `previousMonth()`, then a reload. */
    method PreviousMonth()
      modifies this
      ensures (currentMonth, currentYear) == PreviousOf(old(currentMonth), old(currentYear))
      ensures old(Valid()) ==> Valid()
      ensures Cleared()
      ensures requestedMonth == currentMonth && requestedYear == currentYear
      ensures monthlyAnalysis == old(monthlyAnalysis) && isMonthDropdownOpen == old(isMonthDropdownOpen)
    {
      currentMonth := currentMonth - 1;
      if currentMonth < 1 {
        currentMonth := 12;
        currentYear := currentYear - 1;
      }
      LoadMonthlyAnalysis();
    }

    /** `nextMonth()`, then a reload. */
    method NextMonth()
      modifies this
      ensures (currentMonth, currentYear) == NextOf(old(currentMonth), old(currentYear))
      ensures old(Valid()) ==> Valid()
      ensures Cleared()
      ensures requestedMonth == currentMonth && requestedYear == currentYear
      ensures monthlyAnalysis == old(monthlyAnalysis) && isMonthDropdownOpen == old(isMonthDropdownOpen)
    {
      currentMonth := currentMonth + 1;
      if currentMonth > 12 {
        currentMonth := 1;
        currentYear := currentYear + 1;
      }
      LoadMonthlyAnalysis();
    }

    /** `isCurrentMonth()`, for today's month `nowMonth` of year `nowYear`. */
    predicate IsCurrentMonth(nowMonth: int, nowYear: int)
      reads this
    {
      currentMonth == nowMonth && currentYear == nowYear
    }

    /** `toggleMonthDropdown()` */
    method ToggleMonthDropdown()
      modifies this
      ensures isMonthDropdownOpen == !old(isMonthDropdownOpen)
      ensures currentMonth == old(currentMonth) && currentYear == old(currentYear)
      ensures monthlyAnalysis == old(monthlyAnalysis) && monthlyData == old(monthlyData)
      ensures expensesByCategory == old(expensesByCategory) && topExpenseCategory == old(topExpenseCategory)
      ensures pieSegments == old(pieSegments) && dataReady == old(dataReady)
      ensures isLoading == old(isLoading) && isLoadingAnalysis == old(isLoadingAnalysis)
      ensures requestedMonth == old(requestedMonth) && requestedYear == old(requestedYear)
    {
      isMonthDropdownOpen := !isMonthDropdownOpen;
    }

    /** `isMonthDisabled(month)`: a month after today's, in the current year. */
    predicate IsMonthDisabled(month: int, nowMonth: int, nowYear: int)
      reads this
    {
      currentYear == nowYear && month > nowMonth
    }

    /** `selectMonth(month)`: a disabled month changes nothing. */
    method SelectMonth(month: int, nowMonth: int, nowYear: int)
      modifies this
      ensures old(IsMonthDisabled(month, nowMonth, nowYear)) ==> unchanged(this)
      ensures !old(IsMonthDisabled(month, nowMonth, nowYear)) ==>
        && currentMonth == month && currentYear == old(currentYear)
        && !isMonthDropdownOpen && Cleared() && monthlyAnalysis == old(monthlyAnalysis)
        && requestedMonth == month && requestedYear == currentYear
    {
      if !IsMonthDisabled(month, nowMonth, nowYear) {
        currentMonth := month;
        isMonthDropdownOpen := false;
        LoadMonthlyAnalysis();
      }
    }

    /** `changeYear(delta)`: applied only when it does not pass today's year; nothing is reloaded. */
    method ChangeYear(delta: int, nowYear: int)
      modifies this
      ensures currentYear == if old(currentYear) + delta <= nowYear then old(currentYear) + delta else old(currentYear)
      ensures currentMonth == old(currentMonth)
      ensures monthlyAnalysis == old(monthlyAnalysis) && monthlyData == old(monthlyData)
      ensures expensesByCategory == old(expensesByCategory) && topExpenseCategory == old(topExpenseCategory)
      ensures pieSegments == old(pieSegments) && dataReady == old(dataReady)
      ensures isLoading == old(isLoading) && isLoadingAnalysis == old(isLoadingAnalysis)
      ensures isMonthDropdownOpen == old(isMonthDropdownOpen)
      ensures requestedMonth == old(requestedMonth) && requestedYear == old(requestedYear)
    {
      var newYear := currentYear + delta;
      if newYear <= nowYear {
        currentYear := newYear;
      }
    }
  }

  /**
    The month picker: with an earlier year shown nothing is disabled; in the
    current year exactly the months after today's are, so today's month and
    every month before it stay selectable.
  */
  lemma MonthDisabledRange(c: MonthlyAnalysisComponent, month: int, nowMonth: int, nowYear: int)
    ensures c.currentYear != nowYear ==> !c.IsMonthDisabled(month, nowMonth, nowYear)
    ensures c.currentYear == nowYear ==> (c.IsMonthDisabled(month, nowMonth, nowYear) <==> month > nowMonth)
    ensures month <= nowMonth ==> !c.IsMonthDisabled(month, nowMonth, nowYear)
    ensures c.IsCurrentMonth(nowMonth, nowYear) ==>
      && !c.IsMonthDisabled(c.currentMonth, nowMonth, nowYear)
      && (c.IsMonthDisabled(month, nowMonth, nowYear) <==> month > c.currentMonth)
  {
  }
}

/**
  The records of the application (a transaction, a catalog category, the
  monthly analysis and its category breakdown) and the two list operations
  that every part of it uses: keeping the transactions of one type, and
  summing their amounts.
*/
module Model {
  import opened Dates
  import opened Lists

  datatype Option<T> = None | Some(value: T)

  /** `'income' | 'expense'` */
  datatype TxType = Income | Expense

  /** The field the source calls `type` is `kind` here (`type` is a keyword). */
  datatype Transaction = Transaction(
    id: Option<string>,
    userId: string,
    kind: TxType,
    amount: real,
    description: string,
    category: string,
    date: Time,
    createdAt: Time,
    updatedAt: Time)

  datatype Category = Category(id: string, name: string, icon: string, kind: TxType, color: string)

  datatype CategoryBreakdown = CategoryBreakdown(
    category: string, amount: real, percentage: real, color: string, icon: string)

  datatype MonthlyAnalysis = MonthlyAnalysis(
    month: int,
    year: int,
    totalIncome: real,
    totalExpense: real,
    balance: real,
    transactions: seq<Transaction>,
    categoryBreakdown: seq<CategoryBreakdown>)

  function Amount(t: Transaction): real { t.amount }

  /** `t.date.getTime()`, as a sort key. */
  function DateKey(t: Transaction): real { t.date as real }

  /** `transactions.reduce((sum, t) => sum + t.amount, 0)` */
  function Total(s: seq<Transaction>): real
  {
    SumBy(s, Amount)
  }

  /** `transactions.filter(t => t.type === kind)` */
  function OfType(s: seq<Transaction>, kind: TxType): (r: seq<Transaction>)
    ensures |r| <= |s|
  {
    if s == [] then []
    else (if s[0].kind == kind then [s[0]] else []) + OfType(s[1..], kind)
  }

  /** Filtering distributes over concatenation: it keeps the input order. */
  lemma {:induction false} OfTypeAppend(a: seq<Transaction>, b: seq<Transaction>, kind: TxType)
    ensures OfType(a + b, kind) == OfType(a, kind) + OfType(b, kind)
  {
    if a == [] {
      assert a + b == b;
    } else {
      var head := if a[0].kind == kind then [a[0]] else [];
      assert (a + b)[0] == a[0] && (a + b)[1..] == a[1..] + b;
      OfTypeAppend(a[1..], b, kind);
      calc {
        OfType(a + b, kind);
        head + OfType(a[1..] + b, kind);
        head + (OfType(a[1..], kind) + OfType(b, kind));
        (head + OfType(a[1..], kind)) + OfType(b, kind);
      }
    }
  }

  /** The filter keeps every copy of an element of that type and no other element. */
  lemma {:induction false} OfTypeCounts(s: seq<Transaction>, kind: TxType)
    ensures forall x :: multiset(OfType(s, kind))[x] == if x.kind == kind then multiset(s)[x] else 0
  {
    if s != [] {
      OfTypeCounts(s[1..], kind);
      assert s == [s[0]] + s[1..];
    }
  }

  lemma OfTypeMembers(s: seq<Transaction>, kind: TxType)
    ensures forall x :: x in OfType(s, kind) <==> x in s && x.kind == kind
  {
    OfTypeCounts(s, kind);
    forall x ensures x in OfType(s, kind) <==> x in s && x.kind == kind {
      assert x in OfType(s, kind) <==> x in multiset(OfType(s, kind));
      assert x in s <==> x in multiset(s);
    }
  }

  /** Every transaction is either income or expense: the two filters split the list. */
  lemma {:induction false} IncomeExpensePartition(s: seq<Transaction>)
    ensures |OfType(s, Income)| + |OfType(s, Expense)| == |s|
    ensures Total(OfType(s, Income)) + Total(OfType(s, Expense)) == Total(s)
  {
    if s != [] {
      IncomeExpensePartition(s[1..]);
      SumByAppend(if s[0].kind == Income then [s[0]] else [], OfType(s[1..], Income), Amount);
      SumByAppend(if s[0].kind == Expense then [s[0]] else [], OfType(s[1..], Expense), Amount);
    }
  }
}

/**
  The transaction list screen: the `all` / `income` / `expense` filter over
  the user's transactions, and the screen's own three lookup tables that
  give a category id its icon, name and color.

  The list arrives through the service's stream; here the latest list the
  stream delivered is a field of the component, and the filter subject's
  current value is another. The filtered list the template shows is the
  filter applied to both.
*/
module TransactionList {
  import opened Model
  import opened Catalog

  /** `'all' | 'income' | 'expense'` */
  datatype FilterType = All | IncomeOnly | ExpenseOnly

  /**
    The `map` callback of `loadTransactions`: `all` passes the list through,
    the two others keep the transactions whose type equals the filter.
  */
  function ApplyFilter(transactions: seq<Transaction>, filter: FilterType): (r: seq<Transaction>)
    ensures filter == All ==> r == transactions
    ensures filter == IncomeOnly ==> forall t :: t in r ==> t.kind == Income
    ensures filter == ExpenseOnly ==> forall t :: t in r ==> t.kind == Expense
  {
    match filter
    case All => transactions
    case IncomeOnly =>
      OfTypeMembers(transactions, Income);
      OfType(transactions, Income)
    case ExpenseOnly =>
      OfTypeMembers(transactions, Expense);
      OfType(transactions, Expense)
  }

  /** The type a non-`all` filter keeps. */
  function FilterKind(filter: FilterType): TxType
    requires filter != All
  {
    if filter == IncomeOnly then Income else Expense
  }

  /**
    A type filter keeps every copy of each transaction of its type and
    nothing else, and keeps their relative order: filtering a list made of
    two parts is filtering each part and joining the results. Filtering
    twice is filtering once.
  */
  lemma FilterExact(transactions: seq<Transaction>, more: seq<Transaction>, filter: FilterType)
    requires filter != All
    ensures var r := ApplyFilter(transactions, filter);
      && (forall x :: multiset(r)[x] == if x.kind == FilterKind(filter) then multiset(transactions)[x] else 0)
      && ApplyFilter(transactions + more, filter) == r + ApplyFilter(more, filter)
      && ApplyFilter(r, filter) == r
  {
    var k := FilterKind(filter);
    OfTypeCounts(transactions, k);
    OfTypeAppend(transactions, more, k);
    OfTypeKeepsAll(OfType(transactions, k), k);
  }

  /** A list all of one type passes its filter whole. */
  lemma {:induction false} OfTypeKeepsAll(s: seq<Transaction>, kind: TxType)
    requires forall t :: t in s ==> t.kind == kind
    ensures OfType(s, kind) == s
  {
    if s != [] {
      assert forall t :: t in s[1..] ==> t in s;
      OfTypeKeepsAll(s[1..], kind);
      assert s == [s[0]] + s[1..];
    }
  }

  /** The `income` and `expense` views split the `all` view between them. */
  lemma FiltersSplit(transactions: seq<Transaction>)
    ensures |ApplyFilter(transactions, IncomeOnly)| + |ApplyFilter(transactions, ExpenseOnly)|
         == |ApplyFilter(transactions, All)|
  {
    IncomeExpensePartition(transactions);
  }

  // --------------------------------------------------------- lookup tables

  const IconTable: map<string, string> := map[
    "food" := "restaurant", "transport" := "directions_car", "entertainment" := "movie",
    "health" := "local_hospital", "shopping" := "shopping_bag", "bills" := "receipt_long",
    "education" := "school", "salary" := "payments", "freelance" := "work",
    "investment" := "trending_up", "gift" := "card_giftcard", "other" := "category"]

  const NameTable: map<string, string> := map[
    "food" := "Alimentação", "transport" := "Transporte", "entertainment" := "Entretenimento",
    "health" := "Saúde", "shopping" := "Compras", "bills" := "Contas",
    "education" := "Educação", "salary" := "Salário", "freelance" := "Freelance",
    "investment" := "Investimento", "gift" := "Presente", "other" := "Outros"]

  const ColorTable: map<string, string> := map[
    "food" := "#FF6B6B", "transport" := "#4ECDC4", "entertainment" := "#45B7D1",
    "health" := "#96CEB4", "shopping" := "#FFEAA7", "bills" := "#DDA0DD",
    "education" := "#74B9FF", "salary" := "#00B894", "freelance" := "#FDCB6E",
    "investment" := "#E17055", "gift" := "#FD79A8", "other" := "#636E72"]

  /** The twelve ids the three tables list. */
  const TableIds: set<string> := {
    "food", "transport", "entertainment", "health", "shopping", "bills",
    "education", "salary", "freelance", "investment", "gift", "other"}

  /** `table[id] || fallback`: a missing key reads `undefined`, and so does the empty string. */
  function LookupOr(table: map<string, string>, id: string, fallback: string): string
  {
    if id in table && table[id] != "" then table[id] else fallback
  }

  /** `getCategoryIcon(categoryId)` */
  function CategoryIcon(categoryId: string): string
  {
    LookupOr(IconTable, categoryId, "category")
  }

  /** `getCategoryName(categoryId)` */
  function CategoryName(categoryId: string): string
  {
    LookupOr(NameTable, categoryId, "Outros")
  }

  /** `getCategoryColor(categoryId)` */
  function CategoryColor(categoryId: string): string
  {
    LookupOr(ColorTable, categoryId, "#636E72")
  }

  /**
    The three lookups are total and never empty: each of the twelve listed
    ids reads its table's value, any other id the fallback `category`,
    `Outros` or `#636E72`. The fallbacks are also the values listed for the
    id `other`.
  */
  lemma LookupsTotal(categoryId: string)
    ensures CategoryIcon(categoryId) != "" && CategoryName(categoryId) != "" && CategoryColor(categoryId) != ""
    ensures categoryId in TableIds ==>
      && CategoryIcon(categoryId) == IconTable[categoryId]
      && CategoryName(categoryId) == NameTable[categoryId]
      && CategoryColor(categoryId) == ColorTable[categoryId]
    ensures categoryId !in TableIds ==>
      && CategoryIcon(categoryId) == "category" == IconTable["other"]
      && CategoryName(categoryId) == "Outros" == NameTable["other"]
      && CategoryColor(categoryId) == "#636E72" == ColorTable["other"]
  {
    IconTableComplete();
    NameTableComplete();
    ColorTableComplete();
    TableLookup(IconTable, categoryId, "category");
    TableLookup(NameTable, categoryId, "Outros");
    TableLookup(ColorTable, categoryId, "#636E72");
  }

  /** Each table lists exactly the twelve ids, every one with a value. */
  lemma IconTableComplete()
    ensures IconTable.Keys == TableIds && forall id :: id in IconTable ==> IconTable[id] != ""
  {
  }

  lemma NameTableComplete()
    ensures NameTable.Keys == TableIds && forall id :: id in NameTable ==> NameTable[id] != ""
  {
  }

  lemma ColorTableComplete()
    ensures ColorTable.Keys == TableIds && forall id :: id in ColorTable ==> ColorTable[id] != ""
  {
  }

  /** A lookup in a table that lists the twelve ids, each with a value, and has a non-empty fallback. */
  lemma TableLookup(table: map<string, string>, id: string, fallback: string)
    requires table.Keys == TableIds && forall k :: k in table ==> table[k] != ""
    requires fallback != ""
    ensures LookupOr(table, id, fallback) != ""
    ensures id in TableIds ==> LookupOr(table, id, fallback) == table[id]
    ensures id !in TableIds ==> LookupOr(table, id, fallback) == fallback
  {
  }

  /**
    The list screen's names against the service catalog: for ten of the
    twelve catalog categories the list shows the catalog's name (the two
    `other_*` ids by falling back to `Outros`); `investment` and
    `entertainment` are shown as `Investimento` and `Entretenimento`
    where the catalog says `Investimentos` and `Lazer`.
  */
  lemma ListNamesAgainstCatalog()
    ensures forall c :: c in DefaultCategories ==>
      (CategoryName(c.id) == c.name <==> c.id != "investment" && c.id != "entertainment")
  {
    forall c | c in DefaultCategories
      ensures CategoryName(c.id) == c.name <==> c.id != "investment" && c.id != "entertainment"
    {
      var i :| 0 <= i < |DefaultCategories| && DefaultCategories[i] == c;
      NameAt(i);
    }
  }

  lemma NameAt(i: int)
    requires 0 <= i < |DefaultCategories|
    ensures var c := DefaultCategories[i];
      CategoryName(c.id) == c.name <==> c.id != "investment" && c.id != "entertainment"
  {
    if i < 4 {
      assert DefaultCategories[i] == IncomeCatalog[i];
    } else {
      assert DefaultCategories[i] == ExpenseCatalog[i - 4];
    }
  }

  // ------------------------------------------------------------ component

  class TransactionListComponent {
    /** The list the service stream delivered last. */
    var transactions: seq<Transaction>
    var selectedFilter: FilterType
    /** The current value of `filterSubject`. */
    var filterValue: FilterType
    var isLoading: bool
    var dataLoaded: bool

    /** What the template lists: `combineLatest` of the stream and the filter, through the `map`. */
    function FilteredTransactions(): (r: seq<Transaction>)
      reads this
      ensures |r| <= |transactions|
    {
      ApplyFilter(transactions, filterValue)
    }

    /** The field initialisers: both the field and the subject start at `all`. */
    constructor ()
      ensures selectedFilter == All && filterValue == All
      ensures transactions == [] && isLoading && !dataLoaded
      ensures FilteredTransactions() == transactions
    {
      transactions := [];
      selectedFilter := All;
      filterValue := All;
      isLoading := true;
      dataLoaded := false;
    }

    /** `loadTransactions()` up to the subscription. */
    method LoadTransactions()
      modifies this
      ensures isLoading && !dataLoaded
      ensures transactions == old(transactions)
      ensures selectedFilter == old(selectedFilter) && filterValue == old(filterValue)
    {
      isLoading := true;
      dataLoaded := false;
    }

    /**
      The stream delivers a list: the filtered view follows it at once (the
      100 ms timer that then clears `isLoading` is not modelled).
    */
    method OnTransactions(delivered: seq<Transaction>)
      modifies this
      ensures transactions == delivered && dataLoaded
      ensures FilteredTransactions() == ApplyFilter(delivered, filterValue)
      ensures isLoading == old(isLoading)
      ensures selectedFilter == old(selectedFilter) && filterValue == old(filterValue)
    {
      transactions := delivered;
      dataLoaded := true;
    }

    /** The stream fails: loading ends and the last list stays. */
    method OnTransactionsError()
      modifies this
      ensures dataLoaded && !isLoading
      ensures transactions == old(transactions)
      ensures selectedFilter == old(selectedFilter) && filterValue == old(filterValue)
    {
      dataLoaded := true;
      isLoading := false;
    }

    /** `setFilter(filter)`: the field and the subject both take the new filter; nothing else changes. */
    method SetFilter(filter: FilterType)
      modifies this
      ensures selectedFilter == filter && filterValue == filter
      ensures transactions == old(transactions)
      ensures isLoading == old(isLoading) && dataLoaded == old(dataLoaded)
      ensures FilteredTransactions() == ApplyFilter(old(transactions), filter)
    {
      selectedFilter := filter;
      filterValue := filter;
    }
  }
}

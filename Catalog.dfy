/**
  The fixed category catalog of the transaction service (`defaultCategories`)
  and its two queries, `getCategories` and `getCategoryById`.
*/
module Catalog {
  import opened Model

  /** The catalog: four income categories followed by eight expense categories. */
  const DefaultCategories: seq<Category> := IncomeCatalog + ExpenseCatalog

  const IncomeCatalog: seq<Category> := [
    Category("salary", "Salário", "work", Income, "#10b981"),
    Category("freelance", "Freelance", "computer", Income, "#3b82f6"),
    Category("investment", "Investimentos", "trending_up", Income, "#8b5cf6"),
    Category("other_income", "Outros", "attach_money", Income, "#06b6d4")
  ]

  const ExpenseCatalog: seq<Category> := [
    Category("food", "Alimentação", "restaurant", Expense, "#ef4444"),
    Category("transport", "Transporte", "directions_car", Expense, "#f97316"),
    Category("shopping", "Compras", "shopping_bag", Expense, "#ec4899"),
    Category("bills", "Contas", "receipt", Expense, "#8b5cf6"),
    Category("health", "Saúde", "local_hospital", Expense, "#06b6d4"),
    Category("entertainment", "Lazer", "movie", Expense, "#f59e0b"),
    Category("education", "Educação", "school", Expense, "#10b981"),
    Category("other_expense", "Outros", "more_horiz", Expense, "#6b7280")
  ]

  /** `cats.filter(cat => cat.type === kind)` */
  function CategoriesOfType(cats: seq<Category>, kind: TxType): (r: seq<Category>)
    ensures |r| <= |cats|
  {
    if cats == [] then []
    else (if cats[0].kind == kind then [cats[0]] else []) + CategoriesOfType(cats[1..], kind)
  }

  /** The filter keeps exactly the entries of its type. */
  lemma {:induction false} CategoriesOfTypeMembers(cats: seq<Category>, kind: TxType)
    ensures forall c :: c in CategoriesOfType(cats, kind) <==> c in cats && c.kind == kind
  {
    if cats != [] {
      CategoriesOfTypeMembers(cats[1..], kind);
      assert cats == [cats[0]] + cats[1..];
    }
  }

  /** `getCategories(type?)`: the catalog entries of one type, or the whole catalog. */
  function GetCategories(kind: Option<TxType>): seq<Category>
  {
    match kind
    case None => DefaultCategories
    case Some(k) => CategoriesOfType(DefaultCategories, k)
  }

  /** `cats.find(cat => cat.id === id)`: the first entry with that id, if any. */
  function FindById(cats: seq<Category>, id: string): (r: Option<Category>)
    ensures r.None? <==> forall c :: c in cats ==> c.id != id
    ensures r.Some? ==> exists i :: 0 <= i < |cats| && cats[i] == r.value && r.value.id == id &&
                                    forall j :: 0 <= j < i ==> cats[j].id != id
  {
    if cats == [] then None
    else if cats[0].id == id then Some(cats[0])
    else
      var r := FindById(cats[1..], id);
      assert r.Some? ==> exists i :: 0 < i < |cats| && cats[i] == r.value && r.value.id == id &&
                                     forall j :: 0 <= j < i ==> cats[j].id != id by {
        if r.Some? {
          var i :| 0 <= i < |cats[1..]| && cats[1..][i] == r.value && r.value.id == id &&
                   forall j :: 0 <= j < i ==> cats[1..][j].id != id;
          assert cats[i + 1] == r.value;
          assert forall j :: 0 < j < i + 1 ==> cats[j].id != id by {
            forall j | 0 < j < i + 1 ensures cats[j].id != id { assert cats[j] == cats[1..][j - 1]; }
          }
        }
      }
      r
  }

  function GetCategoryById(id: string): Option<Category>
  {
    FindById(DefaultCategories, id)
  }

  /** Catalog ids are unique, so `find` returns the one entry with the id. */
  lemma CatalogIdsDistinct()
    ensures forall i, j :: 0 <= i < j < |DefaultCategories| ==> DefaultCategories[i].id != DefaultCategories[j].id
  {
  }

  /** Every catalog entry has a name, a color and an icon. */
  lemma CatalogFieldsNonEmpty(c: Category)
    requires c in DefaultCategories
    ensures c.name != "" && c.color != "" && c.icon != ""
  {
    var i :| 0 <= i < |DefaultCategories| && DefaultCategories[i] == c;
    if i < 4 {
      assert c == IncomeCatalog[i];
    } else {
      assert c == ExpenseCatalog[i - 4];
    }
  }

  lemma GetCategoryByIdExact(id: string)
    ensures GetCategoryById(id).Some? <==> exists c :: c in DefaultCategories && c.id == id
    ensures forall c :: c in DefaultCategories && c.id == id ==> GetCategoryById(id) == Some(c)
  {
    CatalogIdsDistinct();
  }

  lemma {:induction false} CategoriesOfTypeAppend(a: seq<Category>, b: seq<Category>, kind: TxType)
    ensures CategoriesOfType(a + b, kind) == CategoriesOfType(a, kind) + CategoriesOfType(b, kind)
  {
    if a == [] {
      assert a + b == b;
    } else {
      var head := if a[0].kind == kind then [a[0]] else [];
      assert (a + b)[0] == a[0] && (a + b)[1..] == a[1..] + b;
      CategoriesOfTypeAppend(a[1..], b, kind);
      calc {
        CategoriesOfType(a + b, kind);
        head + CategoriesOfType(a[1..] + b, kind);
        head + (CategoriesOfType(a[1..], kind) + CategoriesOfType(b, kind));
        (head + CategoriesOfType(a[1..], kind)) + CategoriesOfType(b, kind);
      }
    }
  }

  /** A filter keeps a list of that type whole and drops a list of the other type. */
  lemma {:induction false} CategoriesOfTypeUniform(cats: seq<Category>, kind: TxType, keep: bool)
    requires forall i :: 0 <= i < |cats| ==> (cats[i].kind == kind) == keep
    ensures CategoriesOfType(cats, kind) == if keep then cats else []
  {
    if cats != [] {
      CategoriesOfTypeUniform(cats[1..], kind, keep);
      assert cats == [cats[0]] + cats[1..];
    }
  }

  lemma IncomeCatalogKinds()
    ensures forall i :: 0 <= i < |IncomeCatalog| ==> IncomeCatalog[i].kind == Income
  {
  }

  lemma ExpenseCatalogKinds()
    ensures forall i :: 0 <= i < |ExpenseCatalog| ==> ExpenseCatalog[i].kind == Expense
  {
  }

  /** `getCategories('income')` is the four income entries, salary first. */
  lemma IncomeCategories()
    ensures GetCategories(Some(Income)) == IncomeCatalog
    ensures GetCategories(Some(Income))[0].id == "salary"
  {
    IncomeCatalogKinds();
    ExpenseCatalogKinds();
    CategoriesOfTypeUniform(IncomeCatalog, Income, true);
    CategoriesOfTypeUniform(ExpenseCatalog, Income, false);
    CategoriesOfTypeAppend(IncomeCatalog, ExpenseCatalog, Income);
    assert CategoriesOfType(DefaultCategories, Income) == IncomeCatalog + [];
  }

  /** `getCategories('expense')` is the eight expense entries, food first. */
  lemma ExpenseCategories()
    ensures GetCategories(Some(Expense)) == ExpenseCatalog
    ensures GetCategories(Some(Expense))[0].id == "food"
  {
    IncomeCatalogKinds();
    ExpenseCatalogKinds();
    CategoriesOfTypeUniform(IncomeCatalog, Expense, false);
    CategoriesOfTypeUniform(ExpenseCatalog, Expense, true);
    CategoriesOfTypeAppend(IncomeCatalog, ExpenseCatalog, Expense);
    assert CategoriesOfType(DefaultCategories, Expense) == [] + ExpenseCatalog;
  }
}

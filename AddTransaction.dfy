/**
  The add-transaction form: the chosen type, the categories offered for it,
  the chosen category, and the submit guard that builds the payload handed
  to the service's `createTransaction`.

  Form validity, the parsed amount, description and date, and the outcome of
  the save are inputs: validation belongs to the form library, parsing to
  the date and number built-ins, and the save to the database.
*/
module AddTransaction {
  import opened Dates
  import opened Model
  import opened Catalog

  /** The object literal passed to `createTransaction`. */
  datatype NewTransaction = NewTransaction(
    kind: TxType, amount: real, description: string, category: string, date: Time)

  const RequiredFieldsError: string := "Por favor, preencha todos os campos obrigatórios"
  const SaveError: string := "Erro ao salvar transação. Tente novamente."

  /** The submit guard: `transactionForm.invalid || !selectedCategory` refuses. */
  predicate SubmitRefused(formValid: bool, selectedCategory: string)
  {
    !formValid || selectedCategory == ""
  }

  /** Both types offer categories, so choosing a type always chooses a category. */
  lemma EveryTypeHasCategories(kind: TxType)
    ensures |GetCategories(Some(kind))| > 0
    ensures GetCategories(Some(kind))[0].kind == kind
    ensures GetCategories(Some(kind))[0].id == if kind == Income then "salary" else "food"
  {
    if kind == Income { IncomeCategories(); } else { ExpenseCategories(); }
  }

  class AddTransactionComponent {
    var selectedType: TxType
    var categories: seq<Category>
    var selectedCategory: string
    var isLoading: bool
    var error: string

    /** The offered categories are the catalog entries of the chosen type. */
    predicate Valid()
      reads this
    {
      categories == GetCategories(Some(selectedType))
    }

    /** The field initialisers, then `updateCategories()`: expenses, with `food` chosen. */
    constructor ()
      ensures Valid()
      ensures selectedType == Expense && categories == ExpenseCatalog
      ensures selectedCategory == "food"
      ensures !isLoading && error == ""
    {
      selectedType := Expense;
      categories := [];
      selectedCategory := "";
      isLoading := false;
      error := "";
      new;
      UpdateCategories();
      ExpenseCategories();
    }

    /**
      `updateCategories()`: offer the catalog entries of the chosen type and
      choose the first of them; with none to offer the choice stays.
    */
    method UpdateCategories()
      modifies this
      ensures Valid()
      ensures categories == GetCategories(Some(selectedType))
      ensures selectedCategory == if |categories| > 0 then categories[0].id else old(selectedCategory)
      ensures selectedType == old(selectedType) && isLoading == old(isLoading) && error == old(error)
    {
      categories := GetCategories(Some(selectedType));
      if |categories| > 0 {
        selectedCategory := categories[0].id;
      }
    }

    /** `selectType(type)`: the first category of the new type is chosen. */
    method SelectType(kind: TxType)
      modifies this
      ensures Valid()
      ensures selectedType == kind
      ensures categories == GetCategories(Some(kind))
      ensures |categories| > 0 && selectedCategory == categories[0].id
      ensures selectedCategory == if kind == Income then "salary" else "food"
      ensures isLoading == old(isLoading) && error == old(error)
    {
      selectedType := kind;
      selectedCategory := "";
      UpdateCategories();
      EveryTypeHasCategories(kind);
    }

    /** `selectCategory(categoryId)`: only the chosen category changes. */
    method SelectCategory(categoryId: string)
      modifies this
      ensures selectedCategory == categoryId
      ensures selectedType == old(selectedType) && categories == old(categories)
      ensures isLoading == old(isLoading) && error == old(error)
      ensures Valid() == old(Valid())
    {
      selectedCategory := categoryId;
    }

    /**
      `onSubmit()`. A refused submit only sets the error message. Otherwise
      the payload carries the chosen type and category with the form's
      values and is handed to the service; `saved` is the outcome of that
      save. Either way loading is over when the method returns, and the
      error message says whether the save failed. `created` is the payload
      handed over, if any; `navigated` tells whether the screen moved on to
      the dashboard.
    */
    method OnSubmit(formValid: bool, amount: real, description: string, date: Time, saved: bool)
      returns (created: Option<NewTransaction>, navigated: bool)
      modifies this
      ensures SubmitRefused(formValid, old(selectedCategory)) ==>
        && created == None && !navigated
        && error == RequiredFieldsError && isLoading == old(isLoading)
      ensures !SubmitRefused(formValid, old(selectedCategory)) ==>
        && created == Some(NewTransaction(selectedType, amount, description, selectedCategory, date))
        && navigated == saved
        && !isLoading
        && error == (if saved then "" else SaveError)
      ensures selectedType == old(selectedType) && categories == old(categories)
      ensures selectedCategory == old(selectedCategory)
      ensures Valid() == old(Valid())
    {
      if !formValid || selectedCategory == "" {
        error := RequiredFieldsError;
        return None, false;
      }
      isLoading := true;
      error := "";
      created := Some(NewTransaction(selectedType, amount, description, selectedCategory, date));
      if saved {
        navigated := true;
      } else {
        navigated := false;
        error := SaveError;
      }
      isLoading := false;
    }
  }

  /**
    Once a type is chosen the guard can only refuse an invalid form, and
    a submitted payload is always of a category the catalog offers for its
    type.
  */
  lemma ChosenCategoryFitsType(kind: TxType, formValid: bool)
    ensures |GetCategories(Some(kind))| > 0
    ensures var first := GetCategories(Some(kind))[0];
      && (SubmitRefused(formValid, first.id) <==> !formValid)
      && first in DefaultCategories && first.kind == kind
  {
    EveryTypeHasCategories(kind);
    if kind == Income { IncomeCategories(); } else { ExpenseCategories(); }
  }
}

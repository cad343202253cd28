/** The category store: the signed-in user's categories, a loading flag and
    the last error message. Mutations call the document store first (its
    outcome is a parameter here) and change the local list only on success. */
module CategoryStore {
  import opened Types
  import Seqs

  predicate IsExpenseCategory(c: Category) { c.kind == CategoryType.Expense }
  predicate IsIncomeCategory(c: Category) { c.kind == CategoryType.Income }

  class Store {
    var categories: seq<Category>
    var isLoading: bool
    var error: Option<string>

    constructor()
      ensures categories == [] && !isLoading && error == None
    {
      categories := [];
      isLoading := false;
      error := None;
    }

    /** `loadCategories`: replaces the list, or records the failure and keeps
        the old list. Never rethrows. */
    method LoadCategories(fetched: Result<seq<Category>>)
      modifies this
      ensures !isLoading
      ensures fetched.Success? ==> categories == fetched.value && error == None
      ensures fetched.Failure? ==> categories == old(categories) && error == Some(fetched.message)
    {
      isLoading := true;
      error := None;
      match fetched
      case Success(cs) =>
        categories := cs;
        isLoading := false;
      case Failure(m) =>
        error := Some(m);
        isLoading := false;
    }

    /** `addCategory`: on success appends the new category at the end; on
        failure records and rethrows the error. */
    method AddCategory(draft: CategoryDraft, created: Result<string>) returns (r: Result<string>)
      modifies this
      ensures r == created
      ensures isLoading == old(isLoading)
      ensures created.Success? ==> categories == old(categories) + [CategoryWithId(draft, created.value)]
                                   && error == old(error)
      ensures created.Failure? ==> categories == old(categories) && error == Some(created.message)
    {
      r := created;
      match created
      case Success(id) =>
        categories := categories + [CategoryWithId(draft, id)];
      case Failure(m) =>
        error := Some(m);
    }

    /** `updateCategory`: merges the update into every category with that id. */
    method UpdateCategory(categoryId: string, patch: CategoryPatch, call: Outcome) returns (r: Outcome)
      modifies this
      ensures r == call
      ensures isLoading == old(isLoading)
      ensures call.Pass? ==> categories == Seqs.UpdateWhere(old(categories), CategoryIdOf, categoryId, MergeCategory, patch)
                             && error == old(error)
      ensures call.Fail? ==> categories == old(categories) && error == Some(call.message)
    {
      r := call;
      match call
      case Pass =>
        categories := Seqs.UpdateWhere(categories, CategoryIdOf, categoryId, MergeCategory, patch);
      case Fail(m) =>
        error := Some(m);
    }

    /** `deleteCategory`: drops every category with that id; transactions
        filed under it keep the dangling id. */
    method DeleteCategory(categoryId: string, call: Outcome) returns (r: Outcome)
      modifies this
      ensures r == call
      ensures isLoading == old(isLoading)
      ensures call.Pass? ==> categories == Seqs.WithoutKey(old(categories), CategoryIdOf, categoryId) && error == old(error)
      ensures call.Fail? ==> categories == old(categories) && error == Some(call.message)
    {
      r := call;
      match call
      case Pass =>
        categories := Seqs.WithoutKey(categories, CategoryIdOf, categoryId);
      case Fail(m) =>
        error := Some(m);
    }

    /** `initializeDefaultCategories`: writes the default set (`seed`), then
        reloads (`reload`). A failed write is recorded and rethrown and the
        reload is skipped; a failed reload is swallowed by `loadCategories`
        itself, so the action still succeeds. */
    method InitializeDefaultCategories(seed: Outcome, reload: Result<seq<Category>>) returns (r: Outcome)
      modifies this
      ensures r == seed
      ensures seed.Fail? ==> categories == old(categories) && error == Some(seed.message) && isLoading == old(isLoading)
      ensures seed.Pass? ==> !isLoading
      ensures seed.Pass? && reload.Success? ==> categories == reload.value && error == None
      ensures seed.Pass? && reload.Failure? ==> categories == old(categories) && error == Some(reload.message)
    {
      r := seed;
      match seed
      case Pass =>
        LoadCategories(reload);
      case Fail(m) =>
        error := Some(m);
    }

    /** `clearCategories`. */
    method ClearCategories()
      modifies this
      ensures categories == [] && isLoading == old(isLoading) && error == old(error)
    {
      categories := [];
    }

    /** `getExpenseCategories`. */
    function ExpenseCategories(): (r: seq<Category>)
      reads this
      ensures forall i :: 0 <= i < |r| ==> r[i] in categories && r[i].kind == CategoryType.Expense
      ensures forall i :: 0 <= i < |categories| && categories[i].kind == CategoryType.Expense ==> categories[i] in r
    {
      Seqs.Filter(categories, IsExpenseCategory)
    }

    /** `getIncomeCategories`. */
    function IncomeCategories(): (r: seq<Category>)
      reads this
      ensures forall i :: 0 <= i < |r| ==> r[i] in categories && r[i].kind == CategoryType.Income
      ensures forall i :: 0 <= i < |categories| && categories[i].kind == CategoryType.Income ==> categories[i] in r
    {
      Seqs.Filter(categories, IsIncomeCategory)
    }

    /** `getCategoryById`: the first category with that id, if any. */
    function CategoryById(id: string): (r: Option<Category>)
      reads this
      ensures r.None? <==> forall i :: 0 <= i < |categories| ==> categories[i].id != id
      ensures r.Some? ==> r.value in categories && r.value.id == id
      ensures r.Some? ==> exists i :: 0 <= i < |categories| && categories[i] == r.value
                                      && forall j :: 0 <= j < i ==> categories[j].id != id
    {
      Seqs.FindFirst(categories, CategoryIdOf, id)
    }
  }

  /** Every category is an expense or an income category, so the two tabs of
      the category list together show each category exactly once. */
  lemma CategoryKindsPartition(cs: seq<Category>)
    ensures multiset(Seqs.Filter(cs, IsExpenseCategory)) + multiset(Seqs.Filter(cs, IsIncomeCategory)) == multiset(cs)
    ensures |Seqs.Filter(cs, IsExpenseCategory)| + |Seqs.Filter(cs, IsIncomeCategory)| == |cs|
  {
    Seqs.FilterPartition(cs, IsExpenseCategory, IsIncomeCategory);
  }

  /** Deleting a category that was just added under a fresh id restores the
      list as it was. */
  lemma AddThenDeleteRestores(cs: seq<Category>, draft: CategoryDraft, id: string)
    requires forall i :: 0 <= i < |cs| ==> cs[i].id != id
    ensures Seqs.WithoutKey(cs + [CategoryWithId(draft, id)], CategoryIdOf, id) == cs
  {
    Seqs.WithoutKeyConcat(cs, [CategoryWithId(draft, id)], CategoryIdOf, id);
    Seqs.WithoutAbsentKey(cs, CategoryIdOf, id);
  }
}

/** The category list page: the tab filter, the delete control and the
    delete handler. */
module CategoriesPage {
  import opened Types
  import Seqs
  import CategoryStore

  datatype Tab = ExpenseTab | IncomeTab

  /** The category type a tab shows. */
  function TabKind(tab: Tab): (k: CategoryType)
    ensures k == CategoryType.Expense <==> tab == ExpenseTab
  {
    match tab
    case ExpenseTab => CategoryType.Expense
    case IncomeTab => CategoryType.Income
  }

  function OnTab(tab: Tab): Category -> bool {
    (c: Category) => c.kind == TabKind(tab)
  }

  /** `filteredCategories`: the categories of the selected tab's type, in
      list order. */
  function FilteredCategories(cs: seq<Category>, tab: Tab): (r: seq<Category>)
    ensures Seqs.IsSubsequence(r, cs)
    ensures forall i :: 0 <= i < |r| ==> r[i].kind == TabKind(tab)
    ensures forall i :: 0 <= i < |cs| && cs[i].kind == TabKind(tab) ==> cs[i] in r
  {
    Seqs.FilterIsSubsequence(cs, OnTab(tab));
    Seqs.Filter(cs, OnTab(tab))
  }

  /** The two tabs show each category exactly once between them. */
  lemma TabsPartition(cs: seq<Category>)
    ensures multiset(FilteredCategories(cs, ExpenseTab)) + multiset(FilteredCategories(cs, IncomeTab)) == multiset(cs)
    ensures |FilteredCategories(cs, ExpenseTab)| + |FilteredCategories(cs, IncomeTab)| == |cs|
  {
    Seqs.FilterPartition(cs, OnTab(ExpenseTab), OnTab(IncomeTab));
  }

  /** The delete button is rendered only for categories that are not
      default. */
  predicate ShowsDelete(c: Category) {
    !c.isDefault
  }

  predicate IsDefaultCategory(c: Category) {
    c.isDefault
  }

  /** `handleDelete`: nothing happens without a signed-in user or when the
      confirmation is declined; otherwise the store deletes the category,
      and a failure is only logged, so the list and error are what the
      store leaves. Returns whether the store was called. */
  method HandleDelete(store: CategoryStore.Store, signedIn: bool, confirmed: bool, categoryId: string, call: Outcome)
    returns (attempted: bool)
    modifies store
    ensures attempted <==> signedIn && confirmed
    ensures store.isLoading == old(store.isLoading)
    ensures !attempted ==> store.categories == old(store.categories) && store.error == old(store.error)
    ensures attempted && call.Pass? ==>
              store.categories == Seqs.WithoutKey(old(store.categories), CategoryIdOf, categoryId)
              && store.error == old(store.error)
    ensures attempted && call.Fail? ==> store.categories == old(store.categories) && store.error == Some(call.message)
  {
    if !signedIn || !confirmed {
      return false;
    }
    var _ := store.DeleteCategory(categoryId, call);
    attempted := true;
  }

  /** Deleting through a delete button (a category that is not default)
      when ids are unique keeps every default category, in order. */
  lemma DeleteKeepsDefaults(cs: seq<Category>, i: int)
    requires 0 <= i < |cs| && ShowsDelete(cs[i])
    requires forall j, k :: 0 <= j < k < |cs| ==> cs[j].id != cs[k].id
    ensures Seqs.Filter(Seqs.WithoutKey(cs, CategoryIdOf, cs[i].id), IsDefaultCategory)
         == Seqs.Filter(cs, IsDefaultCategory)
  {
    Seqs.FilterWithoutKey(cs, CategoryIdOf, cs[i].id, IsDefaultCategory);
  }
}

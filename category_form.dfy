/** The add/edit category page: the initial type, the form an existing
    category is edited from, the name check of `handleSave` and the record
    it writes on create or on update. */
module CategoryForm {
  import opened Types
  import Text
  import Seqs

  /** The budget field: left empty, or typed text whose `parseFloat` is
      `parsed` (`None` for NaN). */
  datatype BudgetInput = Empty | Typed(parsed: Option<real>)

  datatype Form = Form(name: string, kind: CategoryType, icon: string, color: string, budget: BudgetInput)

  /** What `handleSave` sends to the store: a new record, or a partial
      update of the category being edited. */
  datatype SaveAction = Create(draft: CategoryDraft) | Update(id: string, patch: CategoryPatch)

  const MissingNameMessage := "Please enter a category name"
  const SaveFailedFallback := "Failed to save category"
  const DefaultIcon := "shopping-bag"
  const DefaultColor := "#E57373"

  /** The type the page starts with: expense, or income when the `type`
      query parameter is exactly 'income'. */
  function InitialKind(typeParam: Option<string>): (k: CategoryType)
    ensures k == CategoryType.Income <==> typeParam == Some("income")
    ensures k == CategoryType.Expense <==> typeParam != Some("income")
  {
    if typeParam == Some("income") then CategoryType.Income else CategoryType.Expense
  }

  /** The empty form of the create page. */
  function InitialForm(typeParam: Option<string>): (f: Form)
    ensures f.name == "" && f.budget.Empty? && f.kind == InitialKind(typeParam)
    ensures f.icon == DefaultIcon && f.color == DefaultColor
  {
    Form("", InitialKind(typeParam), DefaultIcon, DefaultColor, Empty)
  }

  /** The form filled from the category being edited; the budget text is
      `budget?.toString() || ''`, and the text of a number is never empty. */
  function Prefill(c: Category): (f: Form)
    ensures f.name == c.name && f.kind == c.kind && f.icon == c.icon && f.color == c.color
    ensures f.budget.Empty? <==> c.budget.None?
    ensures c.budget.Some? ==> f.budget == Typed(c.budget)
  {
    Form(c.name, c.kind, c.icon, c.color, if c.budget.Some? then Typed(c.budget) else Empty)
  }

  /** `budget ? parseFloat(budget) : undefined`: no sign check, and a text
      that does not parse gives no budget. */
  function BudgetValue(b: BudgetInput): (r: Option<real>)
    ensures b.Empty? ==> r.None?
    ensures b.Typed? && b.parsed.Some? ==> r == b.parsed
  {
    match b
    case Empty => None
    case Typed(parsed) => parsed
  }

  /** The partial update sent on edit: name, type, icon, colour and budget,
      the budget key always present; `isDefault` and `createdAt` are never
      part of it. */
  function EditPatch(f: Form): (p: CategoryPatch)
    ensures p.name == Some(f.name) && p.kind == Some(f.kind) && p.icon == Some(f.icon) && p.color == Some(f.color)
    ensures p.budget == Some(BudgetValue(f.budget))
    ensures p.isDefault.None? && p.createdAt.None?
  {
    CategoryPatch(Some(f.name), Some(f.kind), Some(f.icon), Some(f.color), Some(BudgetValue(f.budget)), None, None)
  }

  /** The record written on create: never a default category, created now. */
  function NewDraft(f: Form, now: int): (d: CategoryDraft)
    ensures d.name == f.name && d.kind == f.kind && d.icon == f.icon && d.color == f.color
    ensures d.budget == BudgetValue(f.budget)
    ensures !d.isDefault && d.createdAt == now
  {
    CategoryDraft(f.name, f.kind, f.icon, f.color, BudgetValue(f.budget), false, now)
  }

  /** `handleSave` up to the store call. `editId` is the route's id (edit
      mode when present). The name is checked after trimming but saved as
      typed. */
  function Save(f: Form, editId: Option<string>, now: int): (r: Result<SaveAction>)
    ensures r.Failure? <==> Text.Trim(f.name) == ""
    ensures r.Failure? ==> r.message == MissingNameMessage
    ensures r.Success? && editId.None? ==> r.value == Create(NewDraft(f, now))
    ensures r.Success? && editId.Some? ==> r.value == Update(editId.value, EditPatch(f))
  {
    Text.TrimEmptyIffBlank(f.name);
    if Text.IsBlank(f.name) then Failure(MissingNameMessage)
    else if editId.None? then Success(Create(NewDraft(f, now)))
    else Success(Update(editId.value, EditPatch(f)))
  }

  /** The message shown when the store call fails. */
  function SaveFailureMessage(message: string): (m: string)
    ensures m != ""
    ensures message != "" ==> m == message
    ensures message == "" ==> m == SaveFailedFallback
  {
    OrElse(message, SaveFailedFallback)
  }

  /** An edit rewrites the five form fields and keeps the category's id,
      default flag and creation time. */
  lemma EditKeepsIdentity(c: Category, f: Form)
    ensures MergeCategory(c, EditPatch(f)).id == c.id
    ensures MergeCategory(c, EditPatch(f)).isDefault == c.isDefault
    ensures MergeCategory(c, EditPatch(f)).createdAt == c.createdAt
    ensures MergeCategory(c, EditPatch(f)) ==
              Category(c.id, f.name, f.kind, f.icon, f.color, BudgetValue(f.budget), c.isDefault, c.createdAt)
  {
  }

  /** Opening a category for edit and saving it untouched writes back the
      same category (provided its name is not blank); emptying the budget
      field removes the budget. */
  lemma UneditedSaveIsIdentity(c: Category, now: int)
    requires !Text.IsBlank(c.name)
    ensures Save(Prefill(c), Some(c.id), now).Success?
    ensures Save(Prefill(c), Some(c.id), now).value.Update?
    ensures MergeCategory(c, Save(Prefill(c), Some(c.id), now).value.patch) == c
    ensures MergeCategory(c, EditPatch(Prefill(c).(budget := Empty))).budget.None?
  {
    Text.TrimEmptyIffBlank(c.name);
  }

  /** A created category is never a default one, so the categories page
      always offers to delete it. */
  lemma CreatedCategoryIsDeletable(f: Form, now: int, id: string)
    requires Save(f, None, now).Success?
    ensures !CategoryWithId(Save(f, None, now).value.draft, id).isDefault
    ensures CategoryWithId(Save(f, None, now).value.draft, id).kind == f.kind
  {
  }

  /** An edit through the store touches only the edited category, and only
      the fields the form owns. */
  lemma EditTouchesOnlyTarget(cs: seq<Category>, id: string, f: Form)
    ensures |Seqs.UpdateWhere(cs, CategoryIdOf, id, MergeCategory, EditPatch(f))| == |cs|
    ensures forall i :: 0 <= i < |cs| ==>
              var r := Seqs.UpdateWhere(cs, CategoryIdOf, id, MergeCategory, EditPatch(f))[i];
              r.id == cs[i].id && r.isDefault == cs[i].isDefault && r.createdAt == cs[i].createdAt
              && (cs[i].id != id ==> r == cs[i])
              && (cs[i].id == id ==> r.name == f.name && r.kind == f.kind && r.budget == BudgetValue(f.budget))
  {
  }
}

/**
 * The custom-category handlers: create with the duplicate check among active categories,
 * update with its own duplicate check, the soft delete, and the list that puts the fixed
 * default categories before the user's own.
 */
module CategoryController {
  import opened Results
  import opened Text
  import opened UserCategoryModel

  /** The fields of a create request; an empty string or `None` stands for a missing value. */
  datatype CategoryRequest = CategoryRequest(
    name: string, icon: string, color: string, categoryType: Option<CategoryType>, parentCategory: string)

  /** An active category of the user under the trimmed name. */
  predicate HasActiveNamed(store: seq<Category>, user: string, name: string) {
    exists k :: 0 <= k < |store| && store[k].userId == user && store[k].name == name && store[k].isActive
  }

  /** The document the create handler builds; the name is trimmed by the setter on save, so trimming it here as well changes nothing. */
  function NewCategoryOf(user: string, req: CategoryRequest, categoryId: string): (c: Category)
    ensures c.name == req.name && c.userId == user && c.categoryId == categoryId && !c.isDefault && c.isActive
  {
    Category(categoryId, user, req.name,
      if req.icon == [] then DefaultIcon else req.icon,
      if req.color == [] then DefaultColor else req.color,
      req.categoryType.GetOr(DefaultCategoryType),
      if req.parentCategory == [] then None else Some(req.parentCategory),
      false, true)
  }

  /**
   * The create handler: a name that is not blank, no active category of the user with that
   * name, then the document with its defaults, saved under the validators and the index.
   */
  function PrepareCategory(store: seq<Category>, user: string, req: CategoryRequest, categoryId: string): (r: Result<Category>)
    ensures IsBlank(req.name) ==> r == Fail(BadRequest)
    ensures HasActiveNamed(store, user, Trim(req.name)) ==> r == Fail(BadRequest)
    ensures r.Ok? ==> !IsBlank(req.name) && !HasActiveNamed(store, user, Trim(req.name))
    ensures r.Ok? ==> FieldsValid(r.value) && IndexAdmits(store, r.value)
    ensures var doc := NewCategoryOf(user, req, categoryId).(name := Trim(req.name));
      !IsBlank(req.name) && !HasActiveNamed(store, user, Trim(req.name)) && FieldsValid(doc) && IndexAdmits(store, doc)
      ==> r == Ok(doc)
    ensures r.Ok? ==> r.value.name == Trim(req.name) && r.value.userId == user && r.value.categoryId == categoryId
    ensures r.Ok? ==> !r.value.isDefault && r.value.isActive
    ensures r.Ok? ==> r.value.icon == (if req.icon == [] then DefaultIcon else req.icon)
                      && r.value.color == (if req.color == [] then DefaultColor else req.color)
                      && r.value.categoryType == req.categoryType.GetOr(Both)
  {
    if IsBlank(req.name) then Fail(BadRequest)
    else if HasActiveNamed(store, user, Trim(req.name)) then Fail(BadRequest)
    else SaveCategory(store, NewCategoryOf(user, req, categoryId))
  }

  /** Creating a name the user soft-deleted passes the handler's check and is refused by the index. */
  lemma RecreatingDeletedNameFailsAtStore(deleted: Category, req: CategoryRequest, categoryId: string)
    requires !deleted.isActive && deleted.name == Trim(req.name) && !IsBlank(req.name)
    ensures !HasActiveNamed([deleted], deleted.userId, Trim(req.name))
    ensures PrepareCategory([deleted], deleted.userId, req, categoryId) == Fail(SaveRejected)
  {
    assert [deleted][0].userId == deleted.userId && [deleted][0].name == Trim(req.name);
  }

  /** Without the request's own colour, the default one passes the validators for any short, non-blank name. */
  lemma DefaultColorPassesValidators(user: string, req: CategoryRequest, categoryId: string)
    requires !IsBlank(req.name) && |Trim(req.name)| <= MaxCategoryName && req.color == []
    ensures FieldsValid(NewCategoryOf(user, req, categoryId).(name := Trim(req.name)))
  {
    ColorExamples();
  }

  /** The supplied fields of an update; `parentCategory == Some(None)` sets it to null. */
  datatype CategoryPatch = CategoryPatch(
    name: Option<string>, icon: Option<string>, color: Option<string>, categoryType: Option<CategoryType>,
    parentCategory: Option<Option<string>>, isActive: Option<bool>)

  /** `$set` of exactly the supplied fields, the name trimmed. */
  function ApplyCategoryPatch(c: Category, p: CategoryPatch): (r: Category)
    ensures r.categoryId == c.categoryId && r.userId == c.userId && r.isDefault == c.isDefault
    ensures p == CategoryPatch(None, None, None, None, None, None) ==> r == c
    ensures r.name == (if p.name.Some? then Trim(p.name.value) else c.name)
    ensures p.icon.Some? ==> r.icon == p.icon.value
    ensures p.color.Some? ==> r.color == p.color.value
    ensures p.categoryType.Some? ==> r.categoryType == p.categoryType.value
    ensures p.parentCategory.Some? ==> r.parentCategory == p.parentCategory.value
    ensures p.isActive.Some? ==> r.isActive == p.isActive.value
    ensures p.icon.None? ==> r.icon == c.icon
    ensures p.color.None? ==> r.color == c.color
    ensures p.categoryType.None? ==> r.categoryType == c.categoryType
    ensures p.parentCategory.None? ==> r.parentCategory == c.parentCategory
    ensures p.isActive.None? ==> r.isActive == c.isActive
  {
    c.(name := if p.name.Some? then Trim(p.name.value) else c.name,
       icon := p.icon.GetOr(c.icon),
       color := p.color.GetOr(c.color),
       categoryType := p.categoryType.GetOr(c.categoryType),
       parentCategory := p.parentCategory.GetOr(c.parentCategory),
       isActive := p.isActive.GetOr(c.isActive))
  }

  /** Another category of the user, active or not, has the name. */
  predicate OtherNamed(others: seq<Category>, user: string, name: string) {
    exists k :: 0 <= k < |others| && others[k].userId == user && others[k].name == name
  }

  /** The duplicate check of an update runs only for a non-empty name whose trim differs from the current one. */
  predicate NameCheckApplies(c: Category, p: CategoryPatch) {
    p.name.Some? && p.name.value != [] && Trim(p.name.value) != c.name
  }

  /**
   * The update of a found category: the duplicate check against the user's other categories when
   * it applies, then the field validators and the index.
   */
  function UpdateOutcome(others: seq<Category>, c: Category, p: CategoryPatch): (r: Result<Category>)
    ensures NameCheckApplies(c, p) && OtherNamed(others, c.userId, Trim(p.name.value)) ==> r == Fail(BadRequest)
    ensures r.Ok? ==> r.value == ApplyCategoryPatch(c, p) && FieldsValid(r.value) && IndexAdmits(others, r.value)
    ensures (!(NameCheckApplies(c, p) && OtherNamed(others, c.userId, Trim(p.name.value)))
             && FieldsValid(ApplyCategoryPatch(c, p)) && IndexAdmits(others, ApplyCategoryPatch(c, p))) ==> r.Ok?
  {
    if NameCheckApplies(c, p) && OtherNamed(others, c.userId, Trim(p.name.value)) then Fail(BadRequest)
    else
      var u := ApplyCategoryPatch(c, p);
      if FieldsValid(u) && IndexAdmits(others, u) then Ok(u) else Fail(SaveRejected)
  }

  /** Renaming to a soft-deleted category's name is refused, unlike creating it anew. */
  lemma RenameChecksInactiveToo(c: Category, deleted: Category, name: string)
    requires !deleted.isActive && deleted.userId == c.userId && deleted.name == Trim(name)
    requires name != [] && Trim(name) != c.name
    ensures UpdateOutcome([deleted], c, CategoryPatch(Some(name), None, None, None, None, None)) == Fail(BadRequest)
  {
    assert [deleted][0] == deleted;
  }

  // ---------------------------------------------------------------- the list

  /** An entry of the merged list; only custom entries carry their id. */
  datatype ListEntry = ListEntry(
    name: string, categoryType: CategoryType, icon: string, color: string, isDefault: bool, categoryId: Option<string>)

  /** The twelve fixed categories. */
  const Defaults: seq<(string, CategoryType)> := [
    ("Income in Salary", Income), ("Income in Part Time", Income), ("Income in Project", Income),
    ("Income in Freelancing", Income), ("Income in Tip", Income), ("Expense in Stationary", Expense),
    ("Expense in Food", Expense), ("Expense in Movie", Expense), ("Expense in Bills", Expense),
    ("Expense in Medical", Expense), ("Expense in Fees", Expense), ("Expense in TAX", Expense)]

  /** The user's active custom categories, newest first (the store holds them oldest first). */
  function ActiveCustom(store: seq<Category>, user: string): (r: seq<Category>)
    ensures forall c :: c in r <==> c in store && c.userId == user && c.isActive
  {
    if store == [] then []
    else
      var rest := ActiveCustom(store[1..], user);
      assert store == [store[0]] + store[1..];
      if store[0].userId == user && store[0].isActive then rest + [store[0]] else rest
  }

  /**
   * The list is newest first: the categories created later (`b`) come before the earlier ones
   * (`a`), and a single category is listed exactly when it is the user's and active.
   */
  lemma {:induction false} ActiveCustomNewestFirst(a: seq<Category>, b: seq<Category>, user: string)
    ensures ActiveCustom(a + b, user) == ActiveCustom(b, user) + ActiveCustom(a, user)
    ensures |a| == 1 ==> ActiveCustom(a, user) == (if a[0].userId == user && a[0].isActive then a else [])
  {
    if a != [] {
      assert (a + b)[1..] == a[1..] + b;
      assert (a + b)[0] == a[0];
      ActiveCustomNewestFirst(a[1..], b, user);
    } else {
      assert a + b == b;
    }
    if |a| == 1 {
      assert a[1..] == [];
    }
  }

  /** `all`: the defaults with the default icon and colour, then the user's active custom categories. */
  function AllCategories(store: seq<Category>, user: string): (r: seq<ListEntry>)
    ensures |r| == |Defaults| + |ActiveCustom(store, user)|
    ensures forall k :: 0 <= k < |Defaults| ==>
      r[k] == ListEntry(Defaults[k].0, Defaults[k].1, DefaultIcon, DefaultColor, true, None)
    ensures forall k :: |Defaults| <= k < |r| ==>
      var c := ActiveCustom(store, user)[k - |Defaults|];
      r[k] == ListEntry(c.name, c.categoryType, c.icon, c.color, false, Some(c.categoryId))
  {
    var custom := ActiveCustom(store, user);
    seq(|Defaults|, k requires 0 <= k < |Defaults| =>
        ListEntry(Defaults[k].0, Defaults[k].1, DefaultIcon, DefaultColor, true, None))
    + seq(|custom|, k requires 0 <= k < |custom| =>
        ListEntry(custom[k].name, custom[k].categoryType, custom[k].icon, custom[k].color, false, Some(custom[k].categoryId)))
  }

  /** Every custom entry of the list is an active category of the user; a deleted one never appears. */
  lemma ListShowsOnlyActiveCustom(store: seq<Category>, user: string, k: nat)
    requires |Defaults| <= k < |AllCategories(store, user)|
    ensures exists c :: (c in store && c.userId == user && c.isActive
      && AllCategories(store, user)[k].categoryId == Some(c.categoryId))
  {
    var c := ActiveCustom(store, user)[k - |Defaults|];
    assert c in ActiveCustom(store, user);
  }

  // ---------------------------------------------------------------- the store

  function IndexOfCategory(store: seq<Category>, categoryId: string, user: string): (r: Option<nat>)
    ensures r.Some? ==> r.value < |store| && store[r.value].categoryId == categoryId && store[r.value].userId == user
    ensures r.None? ==> forall k :: 0 <= k < |store| ==> !(store[k].categoryId == categoryId && store[k].userId == user)
  {
    if store == [] then None
    else if store[0].categoryId == categoryId && store[0].userId == user then Some(0)
    else match IndexOfCategory(store[1..], categoryId, user)
      case Some(p) => Some(p + 1)
      case None => None
  }

  predicate CategoryIdsUnique(store: seq<Category>) {
    forall i, j :: 0 <= i < j < |store| ==> store[i].categoryId != store[j].categoryId
  }

  /** The custom-category collection in insertion order. */
  class CategoryStore {
    var categories: seq<Category>

    predicate Valid()
      reads this
    {
      CategoryIdsUnique(categories) && UniqueNames(categories)
    }

    constructor()
      ensures Valid() && categories == []
    {
      categories := [];
    }

    /** Create a category under an id no category has. */
    method Create(user: string, req: CategoryRequest, categoryId: string) returns (r: Result<Category>)
      requires Valid()
      requires forall k :: 0 <= k < |categories| ==> categories[k].categoryId != categoryId
      modifies this
      ensures Valid()
      ensures r == PrepareCategory(old(categories), user, req, categoryId)
      ensures categories == (if r.Ok? then old(categories) + [r.value] else old(categories))
    {
      r := PrepareCategory(categories, user, req, categoryId);
      if r.Ok? {
        AppendKeepsUniqueNames(categories, r.value);
        categories := categories + [r.value];
      }
    }

    /** Update one of the user's categories. */
    method Update(user: string, categoryId: string, p: CategoryPatch) returns (r: Result<Category>)
      requires Valid()
      modifies this
      ensures Valid()
      ensures var idx := IndexOfCategory(old(categories), categoryId, user);
        && (idx.None? ==> r == Fail(NotFound) && categories == old(categories))
        && (idx.Some? ==>
              var others := old(categories)[..idx.value] + old(categories)[idx.value + 1..];
              && r == UpdateOutcome(others, old(categories)[idx.value], p)
              && categories == (if r.Ok? then old(categories)[idx.value := r.value] else old(categories)))
    {
      var idx := IndexOfCategory(categories, categoryId, user);
      if idx.None? {
        return Fail(NotFound);
      }
      var k := idx.value;
      var others := categories[..k] + categories[k + 1..];
      r := UpdateOutcome(others, categories[k], p);
      if r.Ok? {
        ReplaceKeepsUniqueNames(categories, k, r.value);
        var updated := categories[k := r.value];
        assert forall i, j :: 0 <= i < j < |updated| ==> updated[i].categoryId != updated[j].categoryId;
        categories := updated;
      }
    }

    /** Soft delete: the category stays, inactive, and keeps its name in the index. */
    method Delete(user: string, categoryId: string) returns (r: Result<Category>)
      requires Valid()
      modifies this
      ensures Valid()
      ensures |categories| == |old(categories)|
      ensures var idx := IndexOfCategory(old(categories), categoryId, user);
        && (idx.None? ==> r == Fail(NotFound) && categories == old(categories))
        && (idx.Some? ==>
              r == Ok(old(categories)[idx.value].(isActive := false))
              && categories == old(categories)[idx.value := r.value])
    {
      var idx := IndexOfCategory(categories, categoryId, user);
      if idx.None? {
        return Fail(NotFound);
      }
      var k := idx.value;
      r := Ok(categories[k].(isActive := false));
      var updated := categories[k := r.value];
      assert forall i, j :: 0 <= i < j < |updated| ==> updated[i].categoryId != updated[j].categoryId;
      assert forall i :: 0 <= i < |updated| ==> updated[i].userId == categories[i].userId && updated[i].name == categories[i].name;
      categories := updated;
    }
  }
}

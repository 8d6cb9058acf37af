/** The personal-finance hook: the user's categories (kept sorted by name) and
    the month's expenses, replaced through their setters after each store call,
    and the `submitting` flag around every write. The store calls are
    parameters: a `Query` for a fetch, an `Option` for the row a write returns
    (`None` is an error), a `bool` for a delete's success. The locale order of
    `localeCompare` stands as code-point lexicographic order on names. */
module PersonalExpenses {

  import opened Wrappers
  import opened Collections
  import opened Sorting

  datatype Category = Category(id: string, name: string, color: string, icon: string, userId: string)

  datatype Expense = Expense(
    id: string,
    userId: string,
    categoryId: string,
    amount: real,
    description: Option<string>,
    date: string,
    category: Option<Category>)

  /** The fields a caller supplies for a new expense and a new category. */
  datatype ExpenseInput = ExpenseInput(categoryId: string, amount: real, description: Option<string>, date: string)
  datatype CategoryInput = CategoryInput(name: string, color: string, icon: string)

  /** The rows the two inserts send: the input plus the user's id. */
  datatype Insert =
    | InsertExpense(input: ExpenseInput, userId: string)
    | InsertCategory(category: CategoryInput, userId: string)

  function CategoryId(c: Category): string { c.id }
  function ExpenseId(e: Expense): string { e.id }

  /** `(a, b) => a.name.localeCompare(b.name) <= 0`. */
  predicate ByName(a: Category, b: Category) {
    LexLe(a.name, b.name)
  }

  lemma ByNameTotalPreorder()
    ensures IsTotalPreorder(ByName)
  {
    forall a: Category, b: Category ensures ByName(a, b) || ByName(b, a) {
      LexLeTotal(a.name, b.name);
    }
    forall a: Category, b: Category, c: Category | ByName(a, b) && ByName(b, c) ensures ByName(a, c) {
      LexLeTransitive(a.name, b.name, c.name);
    }
  }

  // ---------------------------------------------------------------------
  // The list transforms.

  /** `[...prev, data].sort(byName)`. */
  function WithCategory(prev: seq<Category>, data: Category): seq<Category> {
    SortBy(prev + [data], ByName)
  }

  /** `prev.map(cat => cat.id === id ? data : cat)`. */
  function Replaced(prev: seq<Category>, id: string, data: Category): (r: seq<Category>)
    ensures |r| == |prev|
    ensures forall i :: 0 <= i < |prev| ==> r[i] == if prev[i].id == id then data else prev[i]
  {
    seq(|prev|, i requires 0 <= i < |prev| => if prev[i].id == id then data else prev[i])
  }

  /** `prev.map(...).sort(byName)`. */
  function WithUpdated(prev: seq<Category>, id: string, data: Category): seq<Category> {
    SortBy(Replaced(prev, id, data), ByName)
  }

  /** After an add, the list is the old list plus the new row, sorted by name. */
  lemma AddedCategory(prev: seq<Category>, data: Category)
    ensures var r := WithCategory(prev, data);
            && Sorted(r, ByName)
            && multiset(r) == multiset(prev) + multiset{data}
            && |r| == |prev| + 1
  {
    ByNameTotalPreorder();
    SortBySorted(prev + [data], ByName);
    SortByPermutation(prev + [data], ByName);
    assert |multiset(WithCategory(prev, data))| == |prev + [data]|;
  }

  /** Adding a row whose name sorts after every name of a sorted list appends it. */
  lemma AddedLastName(prev: seq<Category>, data: Category)
    requires Sorted(prev, ByName)
    requires forall i :: 0 <= i < |prev| ==> ByName(prev[i], data)
    ensures WithCategory(prev, data) == prev + [data]
  {
    SortByOfSorted(prev, ByName);
    assert (prev + [data])[..|prev|] == prev;
    InsertAtEnd(data, prev, ByName);
  }

  /** After an update, the list has the same length, the row with the id is
      replaced by the returned row, every other row is kept, and it is sorted. */
  lemma UpdatedCategory(prev: seq<Category>, id: string, data: Category)
    ensures var r := WithUpdated(prev, id, data);
            && Sorted(r, ByName)
            && multiset(r) == multiset(Replaced(prev, id, data))
            && |r| == |prev|
  {
    ByNameTotalPreorder();
    SortBySorted(Replaced(prev, id, data), ByName);
    SortByPermutation(Replaced(prev, id, data), ByName);
    assert |multiset(WithUpdated(prev, id, data))| == |Replaced(prev, id, data)|;
  }

  /** An update of an id no row has only re-sorts. */
  lemma UpdateAbsentId(prev: seq<Category>, id: string, data: Category)
    requires forall i :: 0 <= i < |prev| ==> prev[i].id != id
    ensures Replaced(prev, id, data) == prev
    ensures multiset(WithUpdated(prev, id, data)) == multiset(prev)
  {
    assert Replaced(prev, id, data) == prev;
    SortByPermutation(prev, ByName);
  }

  /** Deleting a category keeps exactly the rows with another id, in order. */
  lemma DeletedCategory(prev: seq<Category>, id: string)
    ensures var r := RemoveKey(prev, CategoryId, id);
            && (forall i :: 0 <= i < |r| ==> r[i].id != id)
            && (forall i :: 0 <= i < |prev| && prev[i].id != id ==> prev[i] in r)
            && IsSubsequence(r, prev)
  {
    var r := RemoveKey(prev, CategoryId, id);
    RemoveKeyKeeps(prev, CategoryId, id);
    forall i | 0 <= i < |prev| && prev[i].id != id ensures prev[i] in r {
      assert multiset(r)[prev[i]] == multiset(prev)[prev[i]];
    }
  }

  /** Deleting an expense keeps exactly the rows with another id, in order. */
  lemma DeletedExpense(prev: seq<Expense>, id: string)
    ensures var r := RemoveKey(prev, ExpenseId, id);
            && (forall i :: 0 <= i < |r| ==> r[i].id != id)
            && (forall i :: 0 <= i < |prev| && prev[i].id != id ==> prev[i] in r)
            && IsSubsequence(r, prev)
  {
    var r := RemoveKey(prev, ExpenseId, id);
    RemoveKeyKeeps(prev, ExpenseId, id);
    forall i | 0 <= i < |prev| && prev[i].id != id ensures prev[i] in r {
      assert multiset(r)[prev[i]] == multiset(prev)[prev[i]];
    }
  }

  // ---------------------------------------------------------------------
  // The hook state.

  class PersonalExpensesHook {
    var categories: seq<Category>
    var expenses: seq<Expense>
    var loading: bool
    var submitting: bool

    constructor()
      ensures categories == [] && expenses == [] && loading && !submitting
    {
      categories := [];
      expenses := [];
      loading := true;
      submitting := false;
    }

    /** `fetchCategories`: nothing without a user; the returned rows (or none)
        on success; the list unchanged on error. */
    method FetchCategories(signedIn: bool, q: Query<seq<Category>>)
      modifies this
      ensures categories == (if signedIn && q.QueryData? then q.data.GetOr([]) else old(categories))
      ensures expenses == old(expenses) && loading == old(loading) && submitting == old(submitting)
    {
      if !signedIn {
        return;
      }
      if q.QueryData? {
        categories := q.data.GetOr([]);
      }
    }

    /** `fetchExpenses`: nothing without a user; otherwise the month's rows (or
        none) on success, the list unchanged on error, and `loading` false. */
    method FetchExpenses(signedIn: bool, q: Query<seq<Expense>>)
      modifies this
      ensures expenses == (if signedIn && q.QueryData? then q.data.GetOr([]) else old(expenses))
      ensures loading == (if signedIn then false else old(loading))
      ensures categories == old(categories) && submitting == old(submitting)
    {
      if !signedIn {
        return;
      }
      loading := true;
      if q.QueryData? {
        expenses := q.data.GetOr([]);
      }
      loading := false;
    }

    /** `addExpense`: `None` and no insert without a user; otherwise the insert
        and the returned row (`None` on error). The expense list is left as it
        is: the page refetches. */
    method AddExpense(signedIn: bool, userId: string, input: ExpenseInput, returned: Option<Expense>)
      returns (insert: Option<Insert>, r: Option<Expense>)
      modifies this
      ensures !signedIn ==> insert.None? && r.None? && submitting == old(submitting)
      ensures signedIn ==> insert == Some(InsertExpense(input, userId)) && r == returned && !submitting
      ensures categories == old(categories) && expenses == old(expenses) && loading == old(loading)
    {
      if !signedIn {
        return None, None;
      }
      submitting := true;
      insert := Some(InsertExpense(input, userId));
      r := returned;
      submitting := false;
    }

    /** `addCategory`: `None` and no insert without a user; on success the row
        is added and the list re-sorted; on error the list is unchanged. */
    method AddCategory(signedIn: bool, userId: string, input: CategoryInput, returned: Option<Category>)
      returns (insert: Option<Insert>, r: Option<Category>)
      modifies this
      ensures !signedIn ==> insert.None? && r.None? && submitting == old(submitting)
      ensures signedIn ==> insert == Some(InsertCategory(input, userId)) && r == returned && !submitting
      ensures categories == (if signedIn && returned.Some? then WithCategory(old(categories), returned.value) else old(categories))
      ensures expenses == old(expenses) && loading == old(loading)
    {
      if !signedIn {
        return None, None;
      }
      submitting := true;
      insert := Some(InsertCategory(input, userId));
      if returned.Some? {
        categories := SortBy(categories + [returned.value], ByName);
      }
      r := returned;
      submitting := false;
    }

    /** `updateCategory`: the returned row replaces the one with the id and the
        list is re-sorted; on error the list is unchanged. */
    method UpdateCategory(id: string, returned: Option<Category>) returns (r: Option<Category>)
      modifies this
      ensures categories == (if returned.Some? then WithUpdated(old(categories), id, returned.value) else old(categories))
      ensures r == returned && !submitting
      ensures expenses == old(expenses) && loading == old(loading)
    {
      submitting := true;
      if returned.Some? {
        categories := SortBy(Replaced(categories, id, returned.value), ByName);
      }
      r := returned;
      submitting := false;
    }

    /** `deleteCategory`: on success the rows with the id are filtered out. */
    method DeleteCategory(id: string, ok: bool) returns (r: bool)
      modifies this
      ensures categories == (if ok then RemoveKey(old(categories), CategoryId, id) else old(categories))
      ensures r == ok && !submitting
      ensures expenses == old(expenses) && loading == old(loading)
    {
      submitting := true;
      if ok {
        categories := RemoveKey(categories, CategoryId, id);
      }
      r := ok;
      submitting := false;
    }

    /** `deleteExpense`: on success the rows with the id are filtered out. */
    method DeleteExpense(id: string, ok: bool) returns (r: bool)
      modifies this
      ensures expenses == (if ok then RemoveKey(old(expenses), ExpenseId, id) else old(expenses))
      ensures r == ok && !submitting
      ensures categories == old(categories) && loading == old(loading)
    {
      submitting := true;
      if ok {
        expenses := RemoveKey(expenses, ExpenseId, id);
      }
      r := ok;
      submitting := false;
    }
  }
}

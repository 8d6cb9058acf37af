/** The personal expenses charts: the pie chart's per-category totals, the bar
    chart's per-day totals in day order, and the three figures under them.
    Both tallies are `reduce`s into an object literal keyed by name; they are
    modelled as loops over a map plus the order in which keys were first set,
    which is the order `Object.values`/`Object.entries` return them in. */
module ExpensesChart {

  import opened Wrappers
  import opened Collections
  import opened Ledger
  import opened Sorting
  import opened JsObject

  datatype CategoryRef = CategoryRef(name: string, color: string)

  /** The fields of a personal expense the charts read. */
  datatype ChartExpense = ChartExpense(amount: real, date: string, category: Option<CategoryRef>)

  /** One slice of the pie chart. */
  datatype ChartData = ChartData(name: string, amount: real, color: string)

  /** One entry of `Object.entries(dailyTotals)`: a date and its total. */
  datatype DayTotal = DayTotal(date: string, amount: real)

  /** One bar: the day of the month and the total of that date. */
  datatype DailyData = DailyData(day: int, amount: real)

  const Uncategorised: string := "Sin categoría"
  const DefaultColor: string := "#6b7280"

  /** `expense.category?.name || 'Sin categoría'`: an empty name falls back too. */
  function CategoryName(e: ChartExpense): (r: string)
    ensures r != ""
    ensures e.category.Some? && e.category.value.name != "" ==> r == e.category.value.name
    ensures e.category.None? || e.category.value.name == "" ==> r == Uncategorised
  {
    if e.category.Some? && e.category.value.name != "" then e.category.value.name else Uncategorised
  }

  /** `expense.category?.color || '#6b7280'`. */
  function CategoryColor(e: ChartExpense): (r: string)
    ensures r != ""
    ensures e.category.Some? && e.category.value.color != "" ==> r == e.category.value.color
    ensures e.category.None? || e.category.value.color == "" ==> r == DefaultColor
  {
    if e.category.Some? && e.category.value.color != "" then e.category.value.color else DefaultColor
  }

  function Amount(e: ChartExpense): real { e.amount }
  function DateOf(e: ChartExpense): string { e.date }
  function SliceAmount(c: ChartData): real { c.amount }
  function DayAmount(d: DayTotal): real { d.amount }
  function BarAmount(d: DailyData): real { d.amount }

  // ---------------------------------------------------------------------
  // The category tally, as a specification.

  /** The colour a category's slice gets: that of its first expense. */
  function FirstColor(es: seq<ChartExpense>, name: string): string {
    match FindKey(es, CategoryName, name)
    case Some(e) => CategoryColor(e)
    case None => DefaultColor
  }

  /** The slice of one category: its name, the sum of its expenses, its colour. */
  function Entry(es: seq<ChartExpense>, name: string): ChartData {
    ChartData(name, SumFor(es, CategoryName, Amount, name), FirstColor(es, name))
  }

  /** The category names in the order their first expense appears. */
  function CategoryOrder(es: seq<ChartExpense>): seq<string> {
    Dedup(KeysOf(es, CategoryName))
  }

  /** The slices of the pie chart: one per category, in first-appearance order. */
  function CategoryTotalsOf(es: seq<ChartExpense>): seq<ChartData> {
    var names := CategoryOrder(es);
    seq(|names|, i requires 0 <= i < |names| => Entry(es, names[i]))
  }

  /** The state of the tally after reading `es`: the keys set so far, in the order
      they were set, and each key's slice. */
  ghost predicate Tallied(es: seq<ChartExpense>, order: seq<string>, acc: map<string, ChartData>) {
    && order == CategoryOrder(es)
    && (forall u :: u in acc <==> u in order)
    && (forall u :: u in acc ==> acc[u] == Entry(es, u))
  }

  /** The tally step for a name already in the map and for a new one. */
  function Added(acc: map<string, ChartData>, e: ChartExpense): map<string, ChartData> {
    var name := CategoryName(e);
    if name in acc then acc[name := acc[name].(amount := acc[name].amount + e.amount)]
    else acc[name := ChartData(name, e.amount, CategoryColor(e))]
  }

  lemma SumForSnoc<T, K>(rows: seq<T>, x: T, key: T -> K, amount: T -> real, k: K)
    ensures SumFor(rows + [x], key, amount, k)
            == SumFor(rows, key, amount, k) + (if key(x) == k then amount(x) else 0.0)
  {
    assert (rows + [x])[..|rows|] == rows;
  }

  /** How one more expense changes the slice of a category. */
  lemma {:induction false} EntrySnoc(es: seq<ChartExpense>, e: ChartExpense, u: string)
    ensures Entry(es + [e], u)
            == if CategoryName(e) != u then Entry(es, u)
               else if u in KeysOf(es, CategoryName) then Entry(es, u).(amount := Entry(es, u).amount + e.amount)
               else ChartData(u, e.amount, CategoryColor(e))
  {
    SumForSnoc(es, e, CategoryName, Amount, u);
    FindIndexSnoc(es, e, CategoryName, u);
    KeysOfIn(es, CategoryName, u);
    var found := FindIndex(es, CategoryName, u);
    if u !in KeysOf(es, CategoryName) {
      SumForAbsent(es, CategoryName, Amount, u);
      assert found.None?;
    } else {
      assert found.Some?;
      assert (es + [e])[found.value] == es[found.value];
    }
  }

  lemma {:induction false} TalliedSnoc(es: seq<ChartExpense>, e: ChartExpense, after: seq<ChartExpense>,
                                      order: seq<string>, acc: map<string, ChartData>)
    requires after == es + [e]
    requires Tallied(es, order, acc)
    ensures Tallied(after, SetAdd(order, CategoryName(e)), Added(acc, e))
  {
    var name := CategoryName(e);
    assert SetAdd(order, name) == CategoryOrder(after) by {
      KeysOfSnoc(es, e, CategoryName);
      DedupSnoc(KeysOf(es, CategoryName), name);
    }
    assert forall u :: u in acc <==> u in KeysOf(es, CategoryName);
    EntriesAfter(es, e, after, acc);
  }

  /** The slices after one more expense, for a map keyed by the names seen. */
  lemma EntriesAfter(es: seq<ChartExpense>, e: ChartExpense, after: seq<ChartExpense>, acc: map<string, ChartData>)
    requires after == es + [e]
    requires forall u :: u in acc <==> u in KeysOf(es, CategoryName)
    requires forall u :: u in acc ==> acc[u] == Entry(es, u)
    ensures forall u :: u in Added(acc, e) ==> Added(acc, e)[u] == Entry(after, u)
  {
    var acc' := Added(acc, e);
    forall u | u in acc' ensures acc'[u] == Entry(after, u) {
      EntrySnoc(es, e, u);
    }
  }

  lemma TalliedPrefix(es: seq<ChartExpense>, i: nat, order: seq<string>, acc: map<string, ChartData>)
    requires i < |es| && Tallied(es[..i], order, acc)
    ensures Tallied(es[..i + 1], SetAdd(order, CategoryName(es[i])), Added(acc, es[i]))
  {
    PrefixSnoc(es, i);
    TalliedSnoc(es[..i], es[i], es[..i + 1], order, acc);
  }

  /** The `reduce` with a map for an accumulator: own keys only. */
  method TallyCategories(es: seq<ChartExpense>) returns (order: seq<string>, acc: map<string, ChartData>)
    ensures Tallied(es, order, acc)
  {
    order, acc := [], map[];
    var i := 0;
    while i < |es|
      invariant 0 <= i <= |es|
      invariant Tallied(es[..i], order, acc)
    {
      TalliedPrefix(es, i, order, acc);
      order, acc := TallyStep(order, acc, es[i]);
      i := i + 1;
    }
    assert es[..|es|] == es;
  }

  /** The body of the `reduce`: add to the slice of a name already set, or
      set a new slice with the expense's amount and colour. */
  method TallyStep(order: seq<string>, acc: map<string, ChartData>, e: ChartExpense)
    returns (order': seq<string>, acc': map<string, ChartData>)
    requires forall u :: u in acc <==> u in order
    ensures order' == SetAdd(order, CategoryName(e))
    ensures acc' == Added(acc, e)
  {
    var name := CategoryName(e);
    order' := order;
    if name in acc {
      acc' := acc[name := acc[name].(amount := acc[name].amount + e.amount)];
    } else {
      acc' := acc[name := ChartData(name, e.amount, CategoryColor(e))];
      order' := order + [name];
    }
  }

  /** `Object.values(acc)`: the values, in the order their keys were set. */
  method ValuesInOrder<V>(order: seq<string>, acc: map<string, V>) returns (values: seq<V>)
    requires forall u :: u in order ==> u in acc
    ensures |values| == |order|
    ensures forall k :: 0 <= k < |order| ==> values[k] == acc[order[k]]
  {
    values := [];
    var i := 0;
    while i < |order|
      invariant 0 <= i <= |order|
      invariant |values| == i
      invariant forall k :: 0 <= k < i ==> values[k] == acc[order[k]]
    {
      values := values + [acc[order[i]]];
      i := i + 1;
    }
  }

  /** The values of a finished tally, in key order, are the slices. */
  lemma SlicesOfTally(es: seq<ChartExpense>, order: seq<string>, acc: map<string, ChartData>, data: seq<ChartData>)
    requires Tallied(es, order, acc)
    requires |data| == |order| && forall k :: 0 <= k < |order| ==> data[k] == acc[order[k]]
    ensures data == CategoryTotalsOf(es)
  {
  }

  /** The pie chart's data, counting every category name as a property of its own. */
  method CategoryTotals(es: seq<ChartExpense>) returns (data: seq<ChartData>)
    ensures data == CategoryTotalsOf(es)
  {
    var order, acc := TallyCategories(es);
    data := ValuesInOrder(order, acc);
    SlicesOfTally(es, order, acc, data);
  }

  // ---------------------------------------------------------------------
  // The tally as written: `acc[categoryName]` on an object literal is also
  // truthy for the names the literal inherits, and then the code adds to
  // that inherited property instead of creating the slice.

  /** The expenses whose category name is not an inherited property name. */
  function OwnNamed(es: seq<ChartExpense>): (r: seq<ChartExpense>)
    ensures forall i :: 0 <= i < |r| ==> !IsInherited(CategoryName(r[i]))
    ensures IsSubsequence(r, es)
    decreases |es|
  {
    if |es| == 0 then []
    else
      var init := es[..|es| - 1];
      var last := es[|es| - 1];
      var r := OwnNamed(init);
      assert es == init + [last];
      if IsInherited(CategoryName(last)) then
        SubsequenceSnocRight(r, init, last);
        r
      else
        SubsequenceSnocBoth(r, init, last);
        r + [last]
  }

  lemma OwnNamedSnoc(es: seq<ChartExpense>, e: ChartExpense)
    ensures OwnNamed(es + [e]) == if IsInherited(CategoryName(e)) then OwnNamed(es) else OwnNamed(es) + [e]
  {
    assert (es + [e])[..|es|] == es;
  }

  /** Without inherited names the filter keeps everything. */
  lemma {:induction false} OwnNamedAll(es: seq<ChartExpense>)
    requires forall i :: 0 <= i < |es| ==> !IsInherited(CategoryName(es[i]))
    ensures OwnNamed(es) == es
    decreases |es|
  {
    if |es| > 0 {
      OwnNamedAll(es[..|es| - 1]);
      assert es[..|es| - 1] + [es[|es| - 1]] == es;
    }
  }

  /** A tally of own-named expenses has no inherited name for a key. */
  lemma OwnKeys(es: seq<ChartExpense>, order: seq<string>, acc: map<string, ChartData>, name: string)
    requires Tallied(OwnNamed(es), order, acc)
    requires name in acc
    ensures !IsInherited(name)
  {
    var own := OwnNamed(es);
    KeysOfIn(own, CategoryName, name);
    var i :| 0 <= i < |own| && CategoryName(own[i]) == name;
  }

  /** The `reduce` as written, with the object literal's lookup. */
  method TallyCategoriesAsWritten(es: seq<ChartExpense>) returns (order: seq<string>, acc: map<string, ChartData>)
    ensures Tallied(OwnNamed(es), order, acc)
  {
    order, acc := [], map[];
    var i := 0;
    while i < |es|
      invariant 0 <= i <= |es|
      invariant Tallied(OwnNamed(es[..i]), order, acc)
    {
      AsWrittenStep(es, i, order, acc);
      order, acc := TallyAsWritten(order, acc, es[i]);
      i := i + 1;
    }
    assert es[..|es|] == es;
  }

  /** The body of the `reduce` as written. `acc[name]` is truthy for a name
      already set and for an inherited one; for the latter the code adds to the
      inherited property, which leaves the tally unchanged. */
  method TallyAsWritten(order: seq<string>, acc: map<string, ChartData>, e: ChartExpense)
    returns (order': seq<string>, acc': map<string, ChartData>)
    ensures var name := CategoryName(e);
            var skip := name !in acc && IsInherited(name);
            && order' == (if name in acc || skip then order else order + [name])
            && acc' == (if skip then acc else Added(acc, e))
  {
    var name := CategoryName(e);
    order', acc' := order, acc;
    if name in acc || IsInherited(name) {
      if name in acc {
        acc' := acc[name := acc[name].(amount := acc[name].amount + e.amount)];
      }
    } else {
      acc' := acc[name := ChartData(name, e.amount, CategoryColor(e))];
      order' := order + [name];
    }
  }

  /** One step of the tally as written: an inherited name not yet in the map
      changes nothing, any other name is tallied. */
  lemma AsWrittenStep(es: seq<ChartExpense>, i: nat, order: seq<string>, acc: map<string, ChartData>)
    requires i < |es| && Tallied(OwnNamed(es[..i]), order, acc)
    ensures var name := CategoryName(es[i]);
            var skip := name !in acc && IsInherited(name);
            Tallied(OwnNamed(es[..i + 1]), if name in acc || skip then order else order + [name],
                    if skip then acc else Added(acc, es[i]))
  {
    var e, name := es[i], CategoryName(es[i]);
    PrefixSnoc(es, i);
    OwnNamedSnoc(es[..i], e);
    if name in acc {
      OwnKeys(es[..i], order, acc, name);
    }
    if !IsInherited(name) {
      TalliedSnoc(OwnNamed(es[..i]), e, OwnNamed(es[..i + 1]), order, acc);
    }
  }

  /** The pie chart's data as the code computes it: expenses whose category is
      named like an inherited property are left out of it. */
  method CategoryTotalsAsWritten(es: seq<ChartExpense>) returns (data: seq<ChartData>)
    ensures data == CategoryTotalsOf(OwnNamed(es))
  {
    var order, acc := TallyCategoriesAsWritten(es);
    data := ValuesInOrder(order, acc);
    SlicesOfTally(OwnNamed(es), order, acc, data);
  }

  /** The two agree unless some category is named like an inherited property. */
  lemma AsWrittenAgrees(es: seq<ChartExpense>)
    requires forall i :: 0 <= i < |es| ==> !IsInherited(CategoryName(es[i]))
    ensures CategoryTotalsOf(OwnNamed(es)) == CategoryTotalsOf(es)
  {
    OwnNamedAll(es);
  }

  /** One expense of 5 in a category named "constructor": the code shows no
      slice, while the month's expenses total 5. */
  lemma InheritedCategoryDropped()
    ensures var es := [ChartExpense(5.0, "2025-01-10", Some(CategoryRef("constructor", "#ef4444")))];
            && CategoryTotalsOf(OwnNamed(es)) == []
            && Total(es, Amount) == 5.0
            && CategoryTotalsOf(es) == [ChartData("constructor", 5.0, "#ef4444")]
  {
    var es := [ChartExpense(5.0, "2025-01-10", Some(CategoryRef("constructor", "#ef4444")))];
    assert IsInherited(CategoryName(es[0]));
    assert es[..0] == [];
    assert OwnNamed(es) == [];
    assert KeysOf(es, CategoryName) == ["constructor"];
    assert Dedup(["constructor"]) == ["constructor"] by {
      assert ["constructor"][..0] == [];
    }
    assert FindIndex(es, CategoryName, "constructor") == Some(0);
  }

  // ---------------------------------------------------------------------
  // What the slices mean.

  /** One slice per category, in the order the categories first appear, no
      category twice, each summing that category's expenses. */
  lemma CategorySlices(es: seq<ChartExpense>)
    ensures var c := CategoryTotalsOf(es);
            var names := CategoryOrder(es);
            && |c| == |names|
            && Distinct(names)
            && (forall u :: u in names <==> exists k :: 0 <= k < |es| && CategoryName(es[k]) == u)
            && (forall i :: 0 <= i < |c| ==> c[i].name == names[i])
            && (forall i :: 0 <= i < |c| ==> c[i].amount == SumFor(es, CategoryName, Amount, names[i]))
  {
    forall u ensures u in CategoryOrder(es) <==> exists k :: 0 <= k < |es| && CategoryName(es[k]) == u {
      KeysOfIn(es, CategoryName, u);
    }
  }

  /** Each slice takes the colour of the first expense of its category. */
  lemma CategoryColours(es: seq<ChartExpense>)
    ensures var c := CategoryTotalsOf(es);
            forall i :: 0 <= i < |c| ==>
              exists k :: && 0 <= k < |es| && CategoryName(es[k]) == c[i].name
                          && c[i].color == CategoryColor(es[k])
                          && forall j :: 0 <= j < k ==> CategoryName(es[j]) != c[i].name
  {
    var c := CategoryTotalsOf(es);
    var names := CategoryOrder(es);
    forall i | 0 <= i < |c|
      ensures exists k :: && 0 <= k < |es| && CategoryName(es[k]) == c[i].name
                          && c[i].color == CategoryColor(es[k])
                          && forall j :: 0 <= j < k ==> CategoryName(es[j]) != c[i].name
    {
      KeysOfIn(es, CategoryName, names[i]);
      var k := FindIndex(es, CategoryName, names[i]).value;
      assert c[i].color == CategoryColor(es[k]);
    }
  }

  /** The slices add up to the month's total. */
  lemma CategoryTotalsSum(es: seq<ChartExpense>)
    ensures Total(CategoryTotalsOf(es), SliceAmount) == Total(es, Amount)
  {
    var names := CategoryOrder(es);
    TotalOverKeys(es, CategoryName, Amount, names, CategoryTotalsOf(es), SliceAmount);
    forall i | 0 <= i < |es| ensures CategoryName(es[i]) in names {
      assert KeysOf(es, CategoryName)[i] == CategoryName(es[i]);
    }
    PartitionTotal(es, CategoryName, Amount, names);
  }

  // ---------------------------------------------------------------------
  // The daily tally.

  /** The dates in the order their first expense appears. */
  function DateOrder(es: seq<ChartExpense>): seq<string> {
    Dedup(KeysOf(es, DateOf))
  }

  /** `Object.entries(dailyTotals)`: each date with the sum of its expenses. */
  function DayTotalsOf(es: seq<ChartExpense>): seq<DayTotal> {
    var dates := DateOrder(es);
    seq(|dates|, i requires 0 <= i < |dates| => DayTotal(dates[i], SumFor(es, DateOf, Amount, dates[i])))
  }

  ghost predicate DaysTallied(es: seq<ChartExpense>, order: seq<string>, acc: map<string, real>) {
    && order == DateOrder(es)
    && (forall u :: u in acc <==> u in order)
    && (forall u :: u in acc ==> acc[u] == SumFor(es, DateOf, Amount, u))
  }

  /** The daily step: the expense's amount added to its date's running sum. */
  function DayAdded(acc: map<string, real>, e: ChartExpense): map<string, real> {
    acc[e.date := (if e.date in acc then acc[e.date] else 0.0) + e.amount]
  }

  lemma {:induction false} DaysTalliedSnoc(es: seq<ChartExpense>, e: ChartExpense, after: seq<ChartExpense>,
                                          order: seq<string>, acc: map<string, real>)
    requires after == es + [e]
    requires DaysTallied(es, order, acc)
    ensures DaysTallied(after, SetAdd(order, e.date), DayAdded(acc, e))
  {
    assert SetAdd(order, e.date) == DateOrder(after) by {
      KeysOfSnoc(es, e, DateOf);
      DedupSnoc(KeysOf(es, DateOf), e.date);
    }
    assert forall u :: u in acc <==> u in KeysOf(es, DateOf);
    DaySumsAfter(es, e, after, acc);
  }

  /** The daily sums after one more expense, for a map keyed by the dates seen. */
  lemma DaySumsAfter(es: seq<ChartExpense>, e: ChartExpense, after: seq<ChartExpense>, acc: map<string, real>)
    requires after == es + [e]
    requires forall u :: u in acc <==> u in KeysOf(es, DateOf)
    requires forall u :: u in acc ==> acc[u] == SumFor(es, DateOf, Amount, u)
    ensures forall u :: u in DayAdded(acc, e) ==> DayAdded(acc, e)[u] == SumFor(after, DateOf, Amount, u)
  {
    var acc' := DayAdded(acc, e);
    forall u | u in acc' ensures acc'[u] == SumFor(after, DateOf, Amount, u) {
      SumForSnoc(es, e, DateOf, Amount, u);
      if u == e.date && u !in acc {
        KeysOfIn(es, DateOf, u);
        SumForAbsent(es, DateOf, Amount, u);
      }
    }
  }

  lemma DaysTalliedPrefix(es: seq<ChartExpense>, i: nat, order: seq<string>, acc: map<string, real>)
    requires i < |es| && DaysTallied(es[..i], order, acc)
    ensures DaysTallied(es[..i + 1], SetAdd(order, es[i].date), DayAdded(acc, es[i]))
  {
    PrefixSnoc(es, i);
    DaysTalliedSnoc(es[..i], es[i], es[..i + 1], order, acc);
  }

  /** The daily `reduce` as written: a date whose running total is 0 is
      overwritten rather than added to, which gives the same sum. */
  method TallyDays(es: seq<ChartExpense>) returns (order: seq<string>, acc: map<string, real>)
    ensures DaysTallied(es, order, acc)
  {
    order, acc := [], map[];
    var i := 0;
    while i < |es|
      invariant 0 <= i <= |es|
      invariant DaysTallied(es[..i], order, acc)
    {
      var e := es[i];
      var date := e.date;
      DaysTalliedPrefix(es, i, order, acc);
      if date in acc && acc[date] != 0.0 {
        acc := acc[date := acc[date] + e.amount];
      } else {
        if date !in acc {
          order := order + [date];
        }
        acc := acc[date := e.amount];
      }
      i := i + 1;
    }
    assert es[..|es|] == es;
  }

  /** `(a, b) => Number(a.date) - Number(b.date)` as an order on bars. */
  predicate ByDay(a: DailyData, b: DailyData) {
    a.day <= b.day
  }

  lemma ByDayTotalPreorder()
    ensures IsTotalPreorder(ByDay)
  {
  }

  /** The bars before sorting: each date's day of the month and its total. */
  function Bars(ts: seq<DayTotal>, dayOf: string -> int): (r: seq<DailyData>)
    ensures |r| == |ts|
    ensures forall i :: 0 <= i < |ts| ==> r[i] == DailyData(dayOf(ts[i].date), ts[i].amount)
  {
    seq(|ts|, i requires 0 <= i < |ts| => DailyData(dayOf(ts[i].date), ts[i].amount))
  }

  /** The bar chart's data; `dayOf` is `new Date(date).getDate()`. */
  function DailyChartOf(es: seq<ChartExpense>, dayOf: string -> int): seq<DailyData> {
    SortBy(Bars(DayTotalsOf(es), dayOf), ByDay)
  }

  /** `Object.entries` of the tally, as date/total pairs. */
  method EntriesInOrder(order: seq<string>, acc: map<string, real>) returns (entries: seq<DayTotal>)
    requires forall u :: u in order ==> u in acc
    ensures |entries| == |order|
    ensures forall k :: 0 <= k < |order| ==> entries[k] == DayTotal(order[k], acc[order[k]])
  {
    entries := [];
    var i := 0;
    while i < |order|
      invariant 0 <= i <= |order|
      invariant |entries| == i
      invariant forall k :: 0 <= k < i ==> entries[k] == DayTotal(order[k], acc[order[k]])
    {
      entries := entries + [DayTotal(order[i], acc[order[i]])];
      i := i + 1;
    }
  }

  method DailyChart(es: seq<ChartExpense>, dayOf: string -> int) returns (daily: seq<DailyData>)
    ensures daily == DailyChartOf(es, dayOf)
  {
    var order, acc := TallyDays(es);
    var entries := EntriesInOrder(order, acc);
    assert entries == DayTotalsOf(es);
    daily := SortBy(Bars(entries, dayOf), ByDay);
  }

  /** One bar per date with expenses, no date twice, in day order, each with
      the sum of that date's expenses. */
  lemma DailyBars(es: seq<ChartExpense>, dayOf: string -> int)
    ensures Sorted(DailyChartOf(es, dayOf), ByDay)
    ensures multiset(DailyChartOf(es, dayOf)) == multiset(Bars(DayTotalsOf(es), dayOf))
    ensures var t := DayTotalsOf(es);
            var dates := DateOrder(es);
            && |t| == |dates|
            && Distinct(dates)
            && (forall u :: u in dates <==> exists k :: 0 <= k < |es| && es[k].date == u)
            && (forall i :: 0 <= i < |t| ==> t[i] == DayTotal(dates[i], SumFor(es, DateOf, Amount, dates[i])))
  {
    ByDayTotalPreorder();
    SortBySorted(Bars(DayTotalsOf(es), dayOf), ByDay);
    SortByPermutation(Bars(DayTotalsOf(es), dayOf), ByDay);
    forall u ensures u in DateOrder(es) <==> exists k :: 0 <= k < |es| && es[k].date == u {
      KeysOfIn(es, DateOf, u);
      if exists k :: 0 <= k < |es| && es[k].date == u {
        var k :| 0 <= k < |es| && es[k].date == u;
        assert DateOf(es[k]) == u;
      }
    }
  }

  /** The bars add up to the month's total. */
  lemma DailyTotalsSum(es: seq<ChartExpense>, dayOf: string -> int)
    ensures Total(DailyChartOf(es, dayOf), BarAmount) == Total(es, Amount)
  {
    var dates := DateOrder(es);
    var t := DayTotalsOf(es);
    TotalOverKeys(es, DateOf, Amount, dates, t, DayAmount);
    forall i | 0 <= i < |es| ensures DateOf(es[i]) in dates {
      assert KeysOf(es, DateOf)[i] == DateOf(es[i]);
    }
    PartitionTotal(es, DateOf, Amount, dates);
    TotalMap(t, Bars(t, dayOf), DayAmount, BarAmount);
    SortByPermutation(Bars(t, dayOf), ByDay);
    TotalPermutation(DailyChartOf(es, dayOf), Bars(t, dayOf), BarAmount);
  }

  // ---------------------------------------------------------------------
  // The component state and the figures.

  /** The figures under the charts: the month's total, the daily average
      (`'0.00'` without bars) and the number of categories used. */
  datatype Stats = Stats(monthTotal: real, dailyAverage: real, categoriesUsed: nat)

  function StatsOf(categoryData: seq<ChartData>, dailyData: seq<DailyData>): (s: Stats)
    ensures s.monthTotal == Total(categoryData, SliceAmount)
    ensures |dailyData| > 0 ==> s.dailyAverage * |dailyData| as real == s.monthTotal
    ensures |dailyData| == 0 ==> s.dailyAverage == 0.0
    ensures s.categoriesUsed == |categoryData|
  {
    var total := Total(categoryData, SliceAmount);
    Stats(total, if |dailyData| > 0 then total / |dailyData| as real else 0.0, |categoryData|)
  }

  /** There is one bar per date, and a date for every non-empty month. */
  lemma BarCount(es: seq<ChartExpense>, dayOf: string -> int)
    ensures |DailyChartOf(es, dayOf)| == |DateOrder(es)|
    ensures |es| > 0 ==> |DateOrder(es)| > 0
  {
    var bars := Bars(DayTotalsOf(es), dayOf);
    SortByPermutation(bars, ByDay);
    assert |DailyChartOf(es, dayOf)| == |multiset(DailyChartOf(es, dayOf))| == |multiset(bars)| == |bars|;
    if |es| > 0 {
      assert KeysOf(es, DateOf)[0] == DateOf(es[0]);
      assert es[0].date in DateOrder(es);
    }
  }

  /** The figures for a month's expenses: the total is the sum of all the
      expenses and of all the bars, one category counted per slice. */
  lemma StatsOfExpenses(es: seq<ChartExpense>, dayOf: string -> int)
    ensures var s := StatsOf(CategoryTotalsOf(es), DailyChartOf(es, dayOf));
            && s.monthTotal == Total(es, Amount)
            && s.monthTotal == Total(DailyChartOf(es, dayOf), BarAmount)
            && s.categoriesUsed == |CategoryOrder(es)|
  {
    CategoryTotalsSum(es);
    DailyTotalsSum(es, dayOf);
  }

  /** For a non-empty month the average is the month's total over the number
      of days with expenses. */
  lemma DailyAverageOfExpenses(es: seq<ChartExpense>, dayOf: string -> int)
    requires |es| > 0
    ensures StatsOf(CategoryTotalsOf(es), DailyChartOf(es, dayOf)).dailyAverage
            == Total(es, Amount) / |DateOrder(es)| as real
  {
    var c, d := CategoryTotalsOf(es), DailyChartOf(es, dayOf);
    assert |d| == |DateOrder(es)| > 0 by {
      BarCount(es, dayOf);
    }
    assert Total(c, SliceAmount) == Total(es, Amount) by {
      CategoryTotalsSum(es);
    }
  }

  /** No expenses, no slices and no bars. */
  lemma NoExpensesNoData(dayOf: string -> int)
    ensures CategoryTotalsOf([]) == []
    ensures DailyChartOf([], dayOf) == []
  {
  }

  /** The chart's two lists of data. */
  class ChartState {
    var categoryData: seq<ChartData>
    var dailyData: seq<DailyData>

    constructor()
      ensures categoryData == [] && dailyData == []
    {
      categoryData, dailyData := [], [];
    }

    /** The effect on `expenses`, as written: recomputes both lists, or clears
        them when there are no expenses. The pie data leaves out the expenses
        whose category is named like an inherited property, and is the
        corrected tally whenever no category is. */
    method OnExpenses(es: seq<ChartExpense>, dayOf: string -> int)
      modifies this
      ensures categoryData == CategoryTotalsOf(OwnNamed(es))
      ensures (forall i :: 0 <= i < |es| ==> !IsInherited(CategoryName(es[i]))) ==> categoryData == CategoryTotalsOf(es)
      ensures dailyData == DailyChartOf(es, dayOf)
    {
      if (forall i :: 0 <= i < |es| ==> !IsInherited(CategoryName(es[i]))) {
        AsWrittenAgrees(es);
      }
      if |es| > 0 {
        categoryData := CategoryTotalsAsWritten(es);
        dailyData := DailyChart(es, dayOf);
      } else {
        categoryData, dailyData := [], [];
      }
    }
  }
}

/** The expense tracker (src/components/ExpenseTracker.tsx): validated append, paid-status
    toggle and delete over the expenses collection; the category registry; the paid and
    unpaid partition with its totals; and the per-category breakdown behind the pie
    charts, which the source builds with a loop over a dictionary. */
module ExpenseTracker {
  import opened Types
  import opened Seqs
  import opened Text

  const DefaultCategories: seq<ExpenseCategory> := [
    ExpenseCategory("1", "Food", "#FF6384"),
    ExpenseCategory("2", "Transportation", "#36A2EB"),
    ExpenseCategory("3", "Entertainment", "#FFCE56"),
    ExpenseCategory("4", "Utilities", "#4BC0C0"),
    ExpenseCategory("5", "Healthcare", "#9966FF"),
    ExpenseCategory("6", "Shopping", "#FF9F40")
  ]

  /** The colours a new category is given, in turn. */
  const Palette: seq<string> :=
    ["#FF6384", "#36A2EB", "#FFCE56", "#4BC0C0", "#9966FF", "#FF9F40", "#FF6B6B", "#4ECDC4"]

  /** The colour of a chart slice whose category is not registered. */
  const FallbackColor: string := "#8884d8"

  /** The "Add New Expense" form. An empty amount field is `None`. */
  datatype ExpenseForm = ExpenseForm(
    title: string,
    amount: Option<int>,
    category: string,
    description: string,
    isPaid: bool)

  predicate ExpenseFormComplete(form: ExpenseForm)
  {
    form.title != "" && form.amount != None && form.category != ""
  }

  /** `addExpense`: nothing happens unless title, amount and category are all filled in;
      otherwise one expense is appended with the form's fields, `id` and the current
      instant `now`, and the earlier expenses stay as they were. */
  function AddExpense(expenses: seq<Expense>, form: ExpenseForm, id: string, now: Instant): (r: seq<Expense>)
    ensures !ExpenseFormComplete(form) ==> r == expenses
    ensures ExpenseFormComplete(form) ==>
      |r| == |expenses| + 1 && r[..|expenses|] == expenses &&
      var e := r[|expenses|];
      e.id == id && e.title == form.title && e.amount == form.amount.value &&
      e.category == form.category && e.isPaid == form.isPaid && e.date == now &&
      (e.description == None <==> form.description == "") &&
      (e.description != None ==> e.description.value == form.description)
  {
    if !ExpenseFormComplete(form) then expenses
    else
      var e := Expense(id, form.title, form.amount.value, form.category, form.isPaid, now, Optional(form.description));
      assert (expenses + [e])[..|expenses|] == expenses;
      expenses + [e]
  }

  /** `toggleExpenseStatus(id)`: every expense with that id has its paid flag flipped and
      nothing else; the other expenses and the length are unchanged. */
  function ToggleExpenseStatus(expenses: seq<Expense>, id: string): (r: seq<Expense>)
    ensures |r| == |expenses|
    ensures forall i :: 0 <= i < |r| && expenses[i].id != id ==> r[i] == expenses[i]
    ensures forall i :: 0 <= i < |r| && expenses[i].id == id ==>
      r[i].isPaid == !expenses[i].isPaid && r[i].(isPaid := expenses[i].isPaid) == expenses[i]
  {
    seq(|expenses|, i requires 0 <= i < |expenses| =>
      if expenses[i].id == id then expenses[i].(isPaid := !expenses[i].isPaid) else expenses[i])
  }

  /** Toggling the same id twice gives back the original collection; toggling an id no
      expense has changes nothing. */
  lemma ToggleExpenseTwice(expenses: seq<Expense>, id: string)
    ensures ToggleExpenseStatus(ToggleExpenseStatus(expenses, id), id) == expenses
    ensures (forall i :: 0 <= i < |expenses| ==> expenses[i].id != id) ==>
      ToggleExpenseStatus(expenses, id) == expenses
  {
  }

  /** Toggling does not change what has been spent, only how it is split. */
  lemma {:induction false} ToggleKeepsTotal(expenses: seq<Expense>, id: string)
    ensures TotalAmount(ToggleExpenseStatus(expenses, id)) == TotalAmount(expenses)
    decreases |expenses|
  {
    if expenses != [] {
      var n := |expenses|;
      var init := expenses[..n - 1];
      var r := ToggleExpenseStatus(expenses, id);
      ToggleKeepsTotal(init, id);
      assert r[..n - 1] == ToggleExpenseStatus(init, id);
    }
  }

  /** `deleteExpense(id)`: the expenses whose id differs, in their original order. */
  function DeleteExpense(expenses: seq<Expense>, id: string): (r: seq<Expense>)
    ensures forall i :: 0 <= i < |r| ==> r[i].id != id && r[i] in expenses
    ensures forall i :: 0 <= i < |expenses| && expenses[i].id != id ==> expenses[i] in r
  {
    Filter(expenses, (e: Expense) => e.id != id)
  }

  /** Deleting works piecewise, so the survivors keep their order: on a concatenation it
      is the concatenation of the deletions, and a single expense is dropped exactly when
      its id matches. */
  lemma DeleteExpenseKeepsOrder(a: seq<Expense>, b: seq<Expense>, e: Expense, id: string)
    ensures DeleteExpense(a + b, id) == DeleteExpense(a, id) + DeleteExpense(b, id)
    ensures DeleteExpense([e], id) == if e.id == id then [] else [e]
  {
    FilterAppend(a, b, (e: Expense) => e.id != id);
    FilterSingleton(e, (e: Expense) => e.id != id);
  }

  /** Deleting an id that no expense carries leaves the collection unchanged. */
  lemma DeleteAbsentExpense(expenses: seq<Expense>, id: string)
    requires forall i :: 0 <= i < |expenses| ==> expenses[i].id != id
    ensures DeleteExpense(expenses, id) == expenses
  {
    FilterKeepsAll(expenses, (e: Expense) => e.id != id);
  }

  /** `addCategory`: a name that is empty after trimming is refused; otherwise a category
      with the name as typed is appended, coloured by the registry's size, cycling
      through the eight palette colours. */
  function AddCategory(categories: seq<ExpenseCategory>, name: string, id: string): (r: seq<ExpenseCategory>)
    ensures IsBlank(name) ==> r == categories
    ensures !IsBlank(name) ==>
      |r| == |categories| + 1 && r[..|categories|] == categories &&
      r[|categories|].id == id && r[|categories|].name == name &&
      r[|categories|].color == Palette[|categories| % 8]
  {
    TrimEmptyIffBlank(name);
    if Trim(name) == "" then categories
    else
      var c := ExpenseCategory(id, name, Palette[|categories| % |Palette|]);
      assert (categories + [c])[..|categories|] == categories;
      categories + [c]
  }

  predicate IsPaid(e: Expense) { e.isPaid }

  predicate IsUnpaid(e: Expense) { !e.isPaid }

  function AmountOf(e: Expense): int { e.amount }

  /** The sum of the amounts. */
  function TotalAmount(expenses: seq<Expense>): int
  {
    Sum(expenses, AmountOf)
  }

  function PaidExpenses(expenses: seq<Expense>): seq<Expense>
  {
    Filter(expenses, IsPaid)
  }

  function UnpaidExpenses(expenses: seq<Expense>): seq<Expense>
  {
    Filter(expenses, IsUnpaid)
  }

  function TotalPaid(expenses: seq<Expense>): int
  {
    TotalAmount(PaidExpenses(expenses))
  }

  function TotalUnpaid(expenses: seq<Expense>): int
  {
    TotalAmount(UnpaidExpenses(expenses))
  }

  /** Paid and unpaid split the expenses: every expense is in exactly one of the two
      lists, so their sizes add up to the number of expenses and their totals to the
      total of all amounts. */
  lemma PaidUnpaidPartition(expenses: seq<Expense>)
    ensures |PaidExpenses(expenses)| + |UnpaidExpenses(expenses)| == |expenses|
    ensures TotalPaid(expenses) + TotalUnpaid(expenses) == TotalAmount(expenses)
    ensures forall i :: 0 <= i < |PaidExpenses(expenses)| ==> PaidExpenses(expenses)[i].isPaid
    ensures forall i :: 0 <= i < |UnpaidExpenses(expenses)| ==> !UnpaidExpenses(expenses)[i].isPaid
  {
    FilterComplement(expenses, IsPaid, IsUnpaid);
    SumFilterComplement(expenses, IsPaid, IsUnpaid, AmountOf);
  }

  /** A new expense lands on the side of the split its paid flag names: that side's
      total grows by its amount and the other side's is unchanged. */
  lemma AddExpenseTotals(expenses: seq<Expense>, form: ExpenseForm, id: string, now: Instant)
    requires ExpenseFormComplete(form)
    ensures var r := AddExpense(expenses, form, id, now);
      TotalAmount(r) == TotalAmount(expenses) + form.amount.value &&
      (form.isPaid ==> TotalPaid(r) == TotalPaid(expenses) + form.amount.value && TotalUnpaid(r) == TotalUnpaid(expenses)) &&
      (!form.isPaid ==> TotalUnpaid(r) == TotalUnpaid(expenses) + form.amount.value && TotalPaid(r) == TotalPaid(expenses))
  {
    var r := AddExpense(expenses, form, id, now);
    var e := r[|expenses|];
    assert r == expenses + [e];
    SumAppend(expenses, [e], AmountOf);
    FilterAppend(expenses, [e], IsPaid);
    FilterAppend(expenses, [e], IsUnpaid);
    FilterSingleton(e, IsPaid);
    FilterSingleton(e, IsUnpaid);
    SumAppend(PaidExpenses(expenses), Filter([e], IsPaid), AmountOf);
    SumAppend(UnpaidExpenses(expenses), Filter([e], IsUnpaid), AmountOf);
    assert Sum([e], AmountOf) == e.amount by { assert [e][..0] == []; }
    assert Sum([], AmountOf) == 0;
  }

  /** The registry starts with six categories, so the first two categories a user adds
      take the last two palette colours, "#FF6B6B" and "#4ECDC4", and the third wraps
      round to the first colour, the one "Food" already has. */
  lemma AddedCategoryColors(a: string, b: string, c: string, id: string)
    requires !IsBlank(a) && !IsBlank(b) && !IsBlank(c)
    ensures var r := AddCategory(AddCategory(AddCategory(DefaultCategories, a, id), b, id), c, id);
      |r| == 9 && r[6].color == "#FF6B6B" && r[7].color == "#4ECDC4" &&
      r[8].color == "#FF6384" == r[0].color
  {
    var r1 := AddCategory(DefaultCategories, a, id);
    assert |r1| == 7 && r1[0] == DefaultCategories[0] && r1[6].color == Palette[6];
    var r2 := AddCategory(r1, b, id);
    assert |r2| == 8 && r2[..7] == r1 && r2[7].color == Palette[7];
    assert r2[0] == r1[0] && r2[6] == r1[6];
    var r3 := AddCategory(r2, c, id);
    assert |r3| == 9 && r3[..8] == r2 && r3[8].color == Palette[0];
    assert r3[0] == r2[0] && r3[6] == r2[6] && r3[7] == r2[7];
  }

  // ---------------------------------------------------------------------------------
  // Per-category breakdown

  /** The categories the expenses use, in the order they first appear. */
  function CategoryNames(expenses: seq<Expense>): seq<string>
  {
    if expenses == [] then []
    else
      var names := CategoryNames(expenses[..|expenses| - 1]);
      var c := expenses[|expenses| - 1].category;
      if c in names then names else names + [c]
  }

  /** Each category used occurs exactly once among the names, and no other name does. */
  lemma {:induction false} CategoryNamesSpec(expenses: seq<Expense>)
    ensures var names := CategoryNames(expenses);
      NoDuplicates(names) &&
      (forall i :: 0 <= i < |names| ==> exists j :: 0 <= j < |expenses| && expenses[j].category == names[i]) &&
      (forall j :: 0 <= j < |expenses| ==> expenses[j].category in names)
    decreases |expenses|
  {
    if expenses != [] {
      var init := expenses[..|expenses| - 1];
      CategoryNamesSpec(init);
      assert forall j :: 0 <= j < |init| ==> init[j] == expenses[j];
    }
  }

  /** The sum of the amounts of the expenses in category `c`. */
  function CategoryTotal(expenses: seq<Expense>, c: string): int
  {
    if expenses == [] then 0
    else
      var last := expenses[|expenses| - 1];
      CategoryTotal(expenses[..|expenses| - 1], c) + (if last.category == c then last.amount else 0)
  }

  lemma CategoryNamesSnoc(expenses: seq<Expense>, e: Expense)
    ensures CategoryNames(expenses + [e]) ==
      if e.category in CategoryNames(expenses) then CategoryNames(expenses)
      else CategoryNames(expenses) + [e.category]
  {
    assert (expenses + [e])[..|expenses|] == expenses;
  }

  lemma CategoryTotalSnoc(expenses: seq<Expense>, e: Expense)
    ensures forall c ::
      CategoryTotal(expenses + [e], c) == CategoryTotal(expenses, c) + (if e.category == c then e.amount else 0)
  {
    assert (expenses + [e])[..|expenses|] == expenses;
  }

  /** A category no expense uses totals zero. */
  lemma {:induction false} CategoryTotalUnused(expenses: seq<Expense>, c: string)
    requires forall j :: 0 <= j < |expenses| ==> expenses[j].category != c
    ensures CategoryTotal(expenses, c) == 0
    decreases |expenses|
  {
    if expenses != [] {
      CategoryTotalUnused(expenses[..|expenses| - 1], c);
    }
  }

  /** The category totals of `expenses`, summed over `names`. */
  function SumOfCategoryTotals(names: seq<string>, expenses: seq<Expense>): int
  {
    if names == [] then 0
    else SumOfCategoryTotals(names[..|names| - 1], expenses) + CategoryTotal(expenses, names[|names| - 1])
  }

  /** One more expense raises the summed totals of a duplicate-free list of names by its
      amount when its category is among them, and leaves them alone otherwise. */
  lemma {:induction false} SumOfCategoryTotalsSnoc(names: seq<string>, expenses: seq<Expense>, e: Expense)
    requires NoDuplicates(names)
    ensures SumOfCategoryTotals(names, expenses + [e]) ==
      SumOfCategoryTotals(names, expenses) + (if e.category in names then e.amount else 0)
    decreases |names|
  {
    assert (expenses + [e])[..|expenses|] == expenses;
    if names != [] {
      var init := names[..|names| - 1];
      assert names == init + [names[|names| - 1]];
      SumOfCategoryTotalsSnoc(init, expenses, e);
    }
  }

  /** The per-category totals add up to the total of all amounts: every expense is
      counted in exactly one slice. */
  lemma {:induction false} CategoryTotalsSumToTotal(expenses: seq<Expense>)
    ensures SumOfCategoryTotals(CategoryNames(expenses), expenses) == TotalAmount(expenses)
    decreases |expenses|
  {
    if expenses != [] {
      var init, e := expenses[..|expenses| - 1], expenses[|expenses| - 1];
      assert expenses == init + [e];
      var names := CategoryNames(init);
      CategoryNamesSpec(init);
      CategoryTotalsSumToTotal(init);
      SumOfCategoryTotalsSnoc(names, init, e);
      if e.category !in names {
        var names' := names + [e.category];
        assert names'[..|names|] == names;
        CategoryTotalUnused(init, e.category);
      }
    }
  }

  /** `categories.find(cat => cat.name === name)`: the first registered category with
      that name. */
  function FindCategory(categories: seq<ExpenseCategory>, name: string): (r: Option<ExpenseCategory>)
    ensures r == None <==> forall i :: 0 <= i < |categories| ==> categories[i].name != name
    ensures r != None ==>
      exists i :: 0 <= i < |categories| && categories[i] == r.value && r.value.name == name &&
        (forall j :: 0 <= j < i ==> categories[j].name != name)
  {
    if categories == [] then None
    else if categories[0].name == name then Some(categories[0])
    else
      var r := FindCategory(categories[1..], name);
      assert forall i :: 1 <= i < |categories| ==> categories[i] == categories[1..][i - 1];
      r
  }

  /** The slice colour: that of the first registered category of the same name, unless
      there is none or its colour is empty, when the fallback colour is used. */
  function CategoryColor(categories: seq<ExpenseCategory>, name: string): (color: string)
    ensures color == FallbackColor || exists i :: 0 <= i < |categories| && categories[i].name == name && categories[i].color == color
    ensures FindCategory(categories, name) == None ==> color == FallbackColor
    ensures FindCategory(categories, name) != None && FindCategory(categories, name).value.color != "" ==>
      color == FindCategory(categories, name).value.color
    ensures FindCategory(categories, name) != None && FindCategory(categories, name).value.color == "" ==>
      color == FallbackColor
  {
    match FindCategory(categories, name)
    case Some(c) => if c.color != "" then c.color else FallbackColor
    case None => FallbackColor
  }

  /** One slice of a pie chart. */
  datatype ChartEntry = ChartEntry(name: string, value: int, color: string)

  function EntryValue(e: ChartEntry): int { e.value }

  /** `totals` maps exactly the categories of `expenses` to their totals, and `keys`
      lists those categories in the order they were first met. */
  ghost predicate Accumulated(expenses: seq<Expense>, totals: map<string, int>, keys: seq<string>)
  {
    && keys == CategoryNames(expenses)
    && (forall c :: c in totals <==> c in keys)
    && (forall c :: c in totals ==> totals[c] == CategoryTotal(expenses, c))
  }

  /** One step of the `forEach`: adding an expense's amount to its category's entry. */
  lemma AccumulateStep(done: seq<Expense>, e: Expense, totals: map<string, int>, keys: seq<string>)
    requires Accumulated(done, totals, keys)
    ensures Accumulated(done + [e],
      totals[e.category := (if e.category in totals then totals[e.category] else 0) + e.amount],
      if e.category in totals then keys else keys + [e.category])
  {
    CategoryNamesSnoc(done, e);
    CategoryTotalSnoc(done, e);
    if e.category !in totals {
      CategoryNamesSpec(done);
      CategoryTotalUnused(done, e.category);
    }
  }

  /** The `forEach` of `getPieChartData`: the dictionary from category to running total,
      with its keys in insertion order (the order `Object.entries` reports them in). */
  method TotalsByCategory(expenseList: seq<Expense>) returns (categoryTotals: map<string, int>, keys: seq<string>)
    ensures keys == CategoryNames(expenseList)
    ensures forall c :: c in categoryTotals <==> c in keys
    ensures forall c :: c in categoryTotals ==> categoryTotals[c] == CategoryTotal(expenseList, c)
  {
    categoryTotals, keys := map[], [];
    var i := 0;
    while i < |expenseList|
      invariant 0 <= i <= |expenseList|
      invariant Accumulated(expenseList[..i], categoryTotals, keys)
    {
      var e := expenseList[i];
      AccumulateStep(expenseList[..i], e, categoryTotals, keys);
      assert expenseList[..i + 1] == expenseList[..i] + [e];
      if e.category !in categoryTotals {
        keys := keys + [e.category];
      }
      categoryTotals := categoryTotals[e.category := (if e.category in categoryTotals then categoryTotals[e.category] else 0) + e.amount];
      i := i + 1;
    }
    assert expenseList[..i] == expenseList;
  }

  /** `getPieChartData(expenseList)`: one slice per category the list uses, in the
      order the categories first appear, valued at the category's total and coloured
      from the registry; the slices add up to the list's total. */
  method PieChartData(expenseList: seq<Expense>, categories: seq<ExpenseCategory>) returns (data: seq<ChartEntry>)
    ensures |data| == |CategoryNames(expenseList)|
    ensures forall i :: 0 <= i < |data| ==>
      data[i].name == CategoryNames(expenseList)[i] &&
      data[i].value == CategoryTotal(expenseList, data[i].name) &&
      data[i].color == CategoryColor(categories, data[i].name)
    ensures Sum(data, EntryValue) == TotalAmount(expenseList)
  {
    // `categoryTotals`; `keys` is the insertion order of its keys, which is the order
    // `Object.entries` reports them in.
    var categoryTotals, keys := TotalsByCategory(expenseList);

    data := [];
    var j := 0;
    while j < |keys|
      invariant 0 <= j <= |keys|
      invariant |data| == j
      invariant forall k :: 0 <= k < j ==>
        data[k].name == keys[k] &&
        data[k].value == CategoryTotal(expenseList, keys[k]) &&
        data[k].color == CategoryColor(categories, keys[k])
      invariant Sum(data, EntryValue) == SumOfCategoryTotals(keys[..j], expenseList)
    {
      var name := keys[j];
      var entry := ChartEntry(name, categoryTotals[name], CategoryColor(categories, name));
      assert (data + [entry])[..j] == data;
      assert keys[..j + 1][..j] == keys[..j];
      data := data + [entry];
      j := j + 1;
    }
    assert keys[..j] == keys;
    CategoryTotalsSumToTotal(expenseList);
  }

  /** A worked example, in cents: paid 10.00 food and 20.00 transport,
      unpaid 5.00 food. */
  lemma ExpenseExample(now: Instant)
    ensures var list := [
        Expense("a", "lunch", 1000, "Food", true, now, None),
        Expense("b", "snack", 500, "Food", false, now, None),
        Expense("c", "bus", 2000, "Transport", true, now, None)];
      TotalPaid(list) == 3000 && TotalUnpaid(list) == 500 &&
      CategoryNames(PaidExpenses(list)) == ["Food", "Transport"] &&
      CategoryTotal(PaidExpenses(list), "Food") == 1000 &&
      CategoryTotal(PaidExpenses(list), "Transport") == 2000 &&
      CategoryNames(UnpaidExpenses(list)) == ["Food"] &&
      CategoryTotal(UnpaidExpenses(list), "Food") == 500
  {
    var a := Expense("a", "lunch", 1000, "Food", true, now, None);
    var b := Expense("b", "snack", 500, "Food", false, now, None);
    var c := Expense("c", "bus", 2000, "Transport", true, now, None);
    var list := [a, b, c];
    assert list[..2] == [a, b] && [a, b][..1] == [a] && [a][..0] == [];
    assert Filter([a], IsPaid) == [a];
    assert Filter([a, b], IsPaid) == [a];
    assert PaidExpenses(list) == [a, c];
    assert Filter([a], IsUnpaid) == [];
    assert Filter([a, b], IsUnpaid) == [b];
    assert UnpaidExpenses(list) == [b];
    assert [a, c][..1] == [a];
    assert [b][..0] == [];
    assert Sum([a], AmountOf) == Sum([], AmountOf) + AmountOf(a) == 1000;
    assert Sum([a, c], AmountOf) == Sum([a], AmountOf) + AmountOf(c) == 3000;
    assert Sum([b], AmountOf) == Sum([], AmountOf) + AmountOf(b) == 500;
    assert CategoryNames([a]) == ["Food"];
    assert CategoryNames([a, c]) == ["Food", "Transport"];
    assert CategoryTotal([a], "Transport") == 0;
    assert CategoryTotal([a], "Food") == 1000;
    assert CategoryTotal([a, c], "Food") == 1000;
    assert CategoryNames([b]) == ["Food"];
    assert CategoryTotal([b], "Food") == 500;
  }
}

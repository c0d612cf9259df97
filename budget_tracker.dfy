/**
 * The budget tracker of `src/pages/BudgetTracker.tsx`: an expense list with its add, edit,
 * delete and budget-update handlers, and the derived totals, filters and per-date sums.
 *
 * Amounts and the budget are exact rationals (`real`); the page's floating-point
 * arithmetic and `parseFloat` inputs are not modelled.
 */
module BudgetTracker {
  import opened Wrappers
  import opened Text
  import Seqs

  datatype Expense = Expense(id: string, amount: real, description: string, category: string,
                             date: string, currency: string)

  /** The new-expense form (`Omit<Expense, 'id'>`). */
  datatype ExpenseDraft = ExpenseDraft(amount: real, description: string, category: string,
                                       date: string, currency: string)

  const Categories: seq<string> := ["Accommodation", "Food", "Transportation", "Attractions", "Shopping", "Other"]

  const DefaultBudget: real := 1500.0

  /** The empty form; `today` is `new Date().toISOString().split('T')[0]`. */
  function EmptyDraft(today: string): ExpenseDraft
  {
    ExpenseDraft(0.0, "", "Other", today, "USD")
  }

  // ------------------------------------------------------------ sums and filters

  /** `reduce((sum, e) => sum + e.amount, 0)`, folding from the left. */
  function Sum(es: seq<Expense>): real
  {
    if es == [] then 0.0 else Sum(es[..|es| - 1]) + es[|es| - 1].amount
  }

  /** Non-negative amounts sum to a non-negative total, positive once some amount is positive. */
  lemma {:induction false} SumNonNegative(es: seq<Expense>)
    requires forall i :: 0 <= i < |es| ==> es[i].amount >= 0.0
    ensures Sum(es) >= 0.0
    ensures (exists i :: 0 <= i < |es| && es[i].amount > 0.0) ==> Sum(es) > 0.0
  {
    if es != [] {
      var init := es[..|es| - 1];
      assert forall i :: 0 <= i < |init| ==> init[i] == es[i];
      SumNonNegative(init);
      if exists i :: 0 <= i < |es| && es[i].amount > 0.0 {
        var i :| 0 <= i < |es| && es[i].amount > 0.0;
        if i < |init| {
          assert init[i].amount > 0.0;
        }
      }
    }
  }

  lemma {:induction false} SumConcat(a: seq<Expense>, b: seq<Expense>)
    ensures Sum(a + b) == Sum(a) + Sum(b)
    decreases |b|
  {
    if b != [] {
      assert (a + b)[..|a + b| - 1] == a + b[..|b| - 1];
      SumConcat(a, b[..|b| - 1]);
    } else {
      assert a + b == a;
    }
  }

  lemma SumSingle(e: Expense)
    ensures Sum([e]) == e.amount
  {
    assert [e][..0] == [];
  }

  function OfCategory(es: seq<Expense>, category: string): (r: seq<Expense>)
    ensures forall i :: 0 <= i < |r| ==> r[i] in es && r[i].category == category
    ensures forall i :: 0 <= i < |es| && es[i].category == category ==> es[i] in r
  {
    Seqs.Filter(es, (e: Expense) => e.category == category)
  }

  /** `filteredExpenses`. */
  function Filtered(es: seq<Expense>, filterCategory: string): (r: seq<Expense>)
    ensures filterCategory == "All" ==> r == es
    ensures forall i :: 0 <= i < |r| ==> r[i] in es && (filterCategory == "All" || r[i].category == filterCategory)
    ensures forall i :: 0 <= i < |es| && es[i].category == filterCategory ==> es[i] in r
  {
    if filterCategory == "All" then es else OfCategory(es, filterCategory)
  }

  function CategorySum(es: seq<Expense>, category: string): real
  {
    Sum(OfCategory(es, category))
  }

  datatype CategoryTotal = CategoryTotal(category: string, amount: real)

  /** The `map` step of `expensesByCategory`: every category of the table with its sum. */
  function CategoryTotals(es: seq<Expense>): (r: seq<CategoryTotal>)
    ensures |r| == |Categories|
    ensures forall k :: 0 <= k < |Categories| ==> r[k] == CategoryTotal(Categories[k], CategorySum(es, Categories[k]))
  {
    seq(|Categories|, i requires 0 <= i < |Categories| => CategoryTotal(Categories[i], CategorySum(es, Categories[i])))
  }

  predicate Positive(t: CategoryTotal)
  {
    t.amount > 0.0
  }

  /** `expensesByCategory`: each category's sum, in table order, keeping only positive sums. */
  function ByCategory(es: seq<Expense>): (r: seq<CategoryTotal>)
    ensures |r| <= |Categories|
    ensures forall i :: 0 <= i < |r| ==> r[i].amount > 0.0
  {
    Seqs.Filter(CategoryTotals(es), Positive)
  }

  function DateSum(es: seq<Expense>, date: string): real
  {
    Sum(Seqs.Filter(es, (e: Expense) => e.date == date))
  }

  /** Some expense is dated `date`. */
  predicate HasDate(es: seq<Expense>, date: string)
  {
    exists i :: 0 <= i < |es| && es[i].date == date
  }

  // ------------------------------------------------------------ status

  datatype Status = OverBudget | GettingLow | OnTrack

  /** The remaining-budget message: over budget iff spending exceeds it; otherwise low iff more than 80% of it is spent. */
  function StatusOf(budget: real, spent: real): (r: Status)
    ensures r == OverBudget <==> spent > budget
    ensures r == GettingLow <==> spent <= budget && spent > 0.8 * budget
    ensures r == OnTrack <==> spent <= budget && spent <= 0.8 * budget
  {
    var remaining := budget - spent;
    if remaining < 0.0 then OverBudget else if remaining < budget * 0.2 then GettingLow else OnTrack
  }

  // ------------------------------------------------------------ per-date sums

  /** `acc` holds, for each date of `prefix`, the sum of that date's amounts, and no other key. */
  ghost predicate Accumulates(acc: map<string, real>, prefix: seq<Expense>)
  {
    && (forall d :: d in acc <==> HasDate(prefix, d))
    && (forall d :: d in acc ==> acc[d] == DateSum(prefix, d))
  }

  /** The `reduce` callback: `acc[date] = (acc[date] || 0) + amount`. */
  function AddToDate(acc: map<string, real>, e: Expense): map<string, real>
  {
    acc[e.date := (if e.date in acc then acc[e.date] else 0.0) + e.amount]
  }

  /** The accumulator after the callback has run over `prefix`, from `{}`. */
  ghost function ByDate(prefix: seq<Expense>): map<string, real>
  {
    if prefix == [] then map[] else AddToDate(ByDate(prefix[..|prefix| - 1]), prefix[|prefix| - 1])
  }

  /** The accumulator maps exactly the dates of the prefix, each to that date's sum. */
  lemma {:induction false} ByDateSums(prefix: seq<Expense>)
    ensures Accumulates(ByDate(prefix), prefix)
  {
    if prefix != [] {
      var init := prefix[..|prefix| - 1];
      ByDateSums(init);
      AccumulateStep(ByDate(init), init, prefix[|prefix| - 1]);
      assert init + [prefix[|prefix| - 1]] == prefix;
    }
  }

  /** `expensesByDate`: the accumulator loop of the `reduce`. */
  method ExpensesByDate(es: seq<Expense>) returns (acc: map<string, real>)
    ensures forall d :: d in acc <==> HasDate(es, d)
    ensures forall d :: d in acc ==> acc[d] == DateSum(es, d)
  {
    acc := map[];
    var i := 0;
    while i < |es|
      invariant 0 <= i <= |es|
      invariant acc == ByDate(es[..i])
    {
      assert es[..i + 1][..i] == es[..i];
      acc := AddToDate(acc, es[i]);
      i := i + 1;
    }
    assert es[..i] == es;
    ByDateSums(es);
  }

  /** One step of the `reduce` keeps the accumulator equal to the per-date sums. */
  lemma AccumulateStep(acc: map<string, real>, prefix: seq<Expense>, e: Expense)
    requires Accumulates(acc, prefix)
    ensures Accumulates(AddToDate(acc, e), prefix + [e])
  {
    var next := AddToDate(acc, e);
    forall d
      ensures (d in next <==> HasDate(prefix + [e], d)) && (d in next ==> next[d] == DateSum(prefix + [e], d))
    {
      HasDateAppend(prefix, e, d);
      DateSumStep(prefix, e, d);
      if d == e.date && e.date !in acc {
        DateSumAbsent(prefix, d);
      }
    }
  }

  lemma HasDateAppend(prefix: seq<Expense>, e: Expense, d: string)
    ensures HasDate(prefix + [e], d) <==> HasDate(prefix, d) || e.date == d
  {
    if HasDate(prefix + [e], d) {
      var i :| 0 <= i < |prefix + [e]| && (prefix + [e])[i].date == d;
      if i < |prefix| {
        assert prefix[i].date == d;
      }
    }
    if HasDate(prefix, d) {
      var i :| 0 <= i < |prefix| && prefix[i].date == d;
      assert (prefix + [e])[i].date == d;
    }
    assert (prefix + [e])[|prefix|] == e;
  }

  /** Appending one expense adds its amount to its own date's sum only. */
  lemma DateSumStep(es: seq<Expense>, e: Expense, d: string)
    ensures DateSum(es + [e], d) == DateSum(es, d) + (if e.date == d then e.amount else 0.0)
  {
    Seqs.FilterConcat(es, [e], (x: Expense) => x.date == d);
    SumConcat(Seqs.Filter(es, (x: Expense) => x.date == d), Seqs.Filter([e], (x: Expense) => x.date == d));
    SumSingle(e);
  }

  lemma DateSumAbsent(es: seq<Expense>, date: string)
    requires !HasDate(es, date)
    ensures DateSum(es, date) == 0.0
  {
    Seqs.FilterDropsAll(es, (x: Expense) => x.date == date);
  }

  // ------------------------------------------------------------ sorted dates

  /** `Object.keys(expensesByDate)`: each date once, in order of first appearance. */
  function Dates(es: seq<Expense>): (r: seq<string>)
    ensures forall d :: d in r <==> HasDate(es, d)
    ensures forall i, j :: 0 <= i < j < |r| ==> r[i] != r[j]
  {
    if es == [] then []
    else
      var prev := Dates(es[..|es| - 1]);
      assert forall d :: HasDate(es, d) <==> HasDate(es[..|es| - 1], d) || es[|es| - 1].date == d by {
        forall d ensures HasDate(es, d) <==> HasDate(es[..|es| - 1], d) || es[|es| - 1].date == d {
          if HasDate(es, d) {
            var i :| 0 <= i < |es| && es[i].date == d;
            if i < |es| - 1 {
              assert es[..|es| - 1][i].date == d;
            }
          }
          if HasDate(es[..|es| - 1], d) {
            var i :| 0 <= i < |es| - 1 && es[..|es| - 1][i].date == d;
            assert es[i].date == d;
          }
        }
      }
      if es[|es| - 1].date in prev then prev else prev + [es[|es| - 1].date]
  }

  /** Strictly ascending in the default string order. */
  predicate Ascending(s: seq<string>)
  {
    forall i, j :: 0 <= i < j < |s| ==> Before(s[i], s[j])
  }

  /** Insert `x` into an ascending list that does not hold it. */
  function Insert(x: string, s: seq<string>): (r: seq<string>)
    requires Ascending(s)
    ensures Ascending(r) || x in s
    ensures forall d :: d in r <==> d == x || d in s
    ensures x !in s ==> |r| == |s| + 1
  {
    if s == [] then [x]
    else if x == s[0] then s
    else if Before(x, s[0]) then
      assert forall j :: 0 <= j < |s| ==> Before(x, s[j]) by {
        forall j | 0 <= j < |s| ensures Before(x, s[j]) {
          if j > 0 { BeforeTransitive(x, s[0], s[j]); }
        }
      }
      [x] + s
    else
      BeforeTotal(x, s[0]);
      var rest := Insert(x, s[1..]);
      assert x !in s ==> forall j :: 0 <= j < |rest| ==> Before(s[0], rest[j]) by {
        if x !in s {
          forall j | 0 <= j < |rest| ensures Before(s[0], rest[j]) {
            assert rest[j] == x || rest[j] in s[1..];
            if rest[j] != x {
              var k :| 0 <= k < |s[1..]| && s[1..][k] == rest[j];
              assert s[k + 1] == rest[j];
            }
          }
        }
      }
      [s[0]] + rest
  }

  /** `.sort()` on distinct strings. */
  function SortStrings(s: seq<string>): (r: seq<string>)
    requires forall i, j :: 0 <= i < j < |s| ==> s[i] != s[j]
    ensures Ascending(r)
    ensures forall d :: d in r <==> d in s
    ensures |r| == |s|
  {
    if s == [] then []
    else
      var init := s[..|s| - 1];
      assert s[|s| - 1] !in init;
      Insert(s[|s| - 1], SortStrings(init))
  }

  /** `sortedDates`: the distinct expense dates, each once, in ascending order. */
  function SortedDates(es: seq<Expense>): (r: seq<string>)
    ensures Ascending(r)
    ensures forall d :: d in r <==> HasDate(es, d)
  {
    SortStrings(Dates(es))
  }

  // ------------------------------------------------------------ page state

  datatype BudgetState = BudgetState(expenses: seq<Expense>, newExpense: ExpenseDraft, editing: Option<Expense>,
                                     filterCategory: string, budget: real, showBudgetEdit: bool, tempBudget: real)

  function Initial(demo: seq<Expense>, today: string): BudgetState
  {
    BudgetState(demo, EmptyDraft(today), None, "All", DefaultBudget, false, DefaultBudget)
  }

  /** `totalSpent`: no expenses spend nothing, and non-negative amounts never spend a negative total. */
  function Spent(s: BudgetState): (r: real)
    ensures s.expenses == [] ==> r == 0.0
    ensures (forall i :: 0 <= i < |s.expenses| ==> s.expenses[i].amount >= 0.0) ==> r >= 0.0
  {
    if forall i :: 0 <= i < |s.expenses| ==> s.expenses[i].amount >= 0.0 then
      SumNonNegative(s.expenses);
      Sum(s.expenses)
    else
      Sum(s.expenses)
  }

  /** What is left of the budget: negative exactly when spending exceeds it. */
  function Remaining(s: BudgetState): (r: real)
    ensures r < 0.0 <==> Spent(s) > s.budget
    ensures r + Spent(s) == s.budget
  {
    s.budget - Sum(s.expenses)
  }

  function WithId(d: ExpenseDraft, id: string): Expense
  {
    Expense(id, d.amount, d.description, d.category, d.date, d.currency)
  }

  /** `handleAddExpense`: amount must be positive and the description non-empty; the new expense goes first. */
  function AfterAdd(s: BudgetState, freshId: string, today: string): (r: BudgetState)
    ensures s.newExpense.amount <= 0.0 || s.newExpense.description == "" ==> r == s
    ensures s.newExpense.amount > 0.0 && s.newExpense.description != "" ==>
      && |r.expenses| == |s.expenses| + 1 && r.expenses[0].id == freshId && r.expenses[1..] == s.expenses
      && r.budget == s.budget && r.filterCategory == s.filterCategory && r.editing == s.editing
  {
    if s.newExpense.amount <= 0.0 || s.newExpense.description == "" then s
    else s.(expenses := [WithId(s.newExpense, freshId)] + s.expenses, newExpense := EmptyDraft(today))
  }

  function ReplaceExpense(es: seq<Expense>, e: Expense): (r: seq<Expense>)
    ensures |r| == |es|
    ensures forall i :: 0 <= i < |es| ==> r[i] == if es[i].id == e.id then e else es[i]
  {
    seq(|es|, i requires 0 <= i < |es| => if es[i].id == e.id then e else es[i])
  }

  /** `handleEditExpense`: no validation at all. */
  function AfterEdit(s: BudgetState): (r: BudgetState)
    ensures s.editing.None? ==> r == s
    ensures r.editing.None? && |r.expenses| == |s.expenses| && r.budget == s.budget
  {
    if s.editing.None? then s
    else s.(expenses := ReplaceExpense(s.expenses, s.editing.value), editing := None)
  }

  function RemoveExpense(es: seq<Expense>, id: string): (r: seq<Expense>)
    ensures forall i :: 0 <= i < |r| ==> r[i] in es && r[i].id != id
    ensures forall i :: 0 <= i < |es| && es[i].id != id ==> es[i] in r
  {
    Seqs.Filter(es, (e: Expense) => e.id != id)
  }

  function AfterUpdateBudget(s: BudgetState): (r: BudgetState)
    ensures r == s || (r.budget > 0.0 && r.budget == s.tempBudget && !r.showBudgetEdit)
    ensures r.expenses == s.expenses
  {
    if s.tempBudget <= 0.0 then s else s.(budget := s.tempBudget, showBudgetEdit := false)
  }

  // ------------------------------------------------------------ properties

  /** A non-positive amount or an empty description is rejected and the list is untouched. */
  lemma AddRejected(s: BudgetState, freshId: string, today: string)
    requires s.newExpense.amount <= 0.0 || s.newExpense.description == ""
    ensures AfterAdd(s, freshId, today) == s
  {
  }

  /** A valid add puts the expense first, keeps the old list as the tail and raises the total by its amount. */
  lemma AddPrepends(s: BudgetState, freshId: string, today: string)
    requires s.newExpense.amount > 0.0 && s.newExpense.description != ""
    ensures var t := AfterAdd(s, freshId, today);
      && t.expenses[0] == WithId(s.newExpense, freshId) && t.expenses[1..] == s.expenses
      && Spent(t) == Spent(s) + s.newExpense.amount
      && t.newExpense == EmptyDraft(today) && t.budget == s.budget
  {
    var t := AfterAdd(s, freshId, today);
    SumConcat([WithId(s.newExpense, freshId)], s.expenses);
    SumSingle(WithId(s.newExpense, freshId));
  }

  /** Editing swaps in the edited record for the matching ids only, whatever its amount; nothing to edit is a no-op. */
  lemma EditReplaces(s: BudgetState)
    ensures s.editing.None? ==> AfterEdit(s) == s
    ensures s.editing.Some? ==> var t := AfterEdit(s);
      && |t.expenses| == |s.expenses| && t.editing.None?
      && (forall i :: 0 <= i < |s.expenses| && s.expenses[i].id == s.editing.value.id ==> t.expenses[i] == s.editing.value)
      && (forall i :: 0 <= i < |s.expenses| && s.expenses[i].id != s.editing.value.id ==> t.expenses[i] == s.expenses[i])
  {
  }

  /** Deleting keeps, in order, exactly the expenses with other ids. */
  lemma DeleteKeepsOrder(a: seq<Expense>, b: seq<Expense>, id: string)
    ensures RemoveExpense(a + b, id) == RemoveExpense(a, id) + RemoveExpense(b, id)
    ensures (forall i :: 0 <= i < |a| ==> a[i].id != id) ==> RemoveExpense(a, id) == a
  {
    Seqs.FilterConcat(a, b, (e: Expense) => e.id != id);
    if forall i :: 0 <= i < |a| ==> a[i].id != id {
      Seqs.FilterKeepsAll(a, (e: Expense) => e.id != id);
    }
  }

  /** Deleting an expense that occurs once lowers the total by its amount. */
  lemma DeleteLowersTotal(a: seq<Expense>, e: Expense, b: seq<Expense>)
    requires forall i :: 0 <= i < |a| ==> a[i].id != e.id
    requires forall i :: 0 <= i < |b| ==> b[i].id != e.id
    ensures Sum(RemoveExpense(a + [e] + b, e.id)) == Sum(a + [e] + b) - e.amount
  {
    DeleteKeepsOrder(a + [e], b, e.id);
    DeleteKeepsOrder(a, [e], e.id);
    DeleteKeepsOrder(b, [], e.id);
    assert a + [] == a;
    assert RemoveExpense(a + [e] + b, e.id) == a + b;
    SumConcat(a, b);
    SumConcat(a + [e], b);
    SumConcat(a, [e]);
    SumSingle(e);
  }

  /** The "All" filter shows everything; another shows exactly that category's expenses, in order. */
  lemma FilterSpec(es: seq<Expense>, c: string)
    ensures Filtered(es, "All") == es
    ensures c != "All" ==> Filtered(es, c) == OfCategory(es, c)
    ensures forall i :: 0 <= i < |Filtered(es, c)| ==> Filtered(es, c)[i] in es
    ensures c != "All" ==> forall i :: 0 <= i < |Filtered(es, c)| ==> Filtered(es, c)[i].category == c
  {
  }

  /** The chart lists a category exactly when its sum is positive, with that sum. */
  lemma ByCategorySpec(es: seq<Expense>)
    ensures forall i :: 0 <= i < |ByCategory(es)| ==>
      ByCategory(es)[i].category in Categories && ByCategory(es)[i].amount > 0.0
      && ByCategory(es)[i].amount == CategorySum(es, ByCategory(es)[i].category)
    ensures forall c :: c in Categories && CategorySum(es, c) > 0.0 ==> CategoryTotal(c, CategorySum(es, c)) in ByCategory(es)
  {
    var all := CategoryTotals(es);
    forall c | c in Categories && CategorySum(es, c) > 0.0 ensures CategoryTotal(c, CategorySum(es, c)) in ByCategory(es) {
      var k :| 0 <= k < |Categories| && Categories[k] == c;
      assert all[k] == CategoryTotal(c, CategorySum(es, c));
    }
    forall i | 0 <= i < |ByCategory(es)|
      ensures ByCategory(es)[i].category in Categories && ByCategory(es)[i].amount == CategorySum(es, ByCategory(es)[i].category)
    {
      assert ByCategory(es)[i] in all;
    }
  }

  /** The expenses of one category keep their relative order. */
  lemma OfCategoryKeepsOrder(a: seq<Expense>, b: seq<Expense>, c: string)
    ensures OfCategory(a + b, c) == OfCategory(a, c) + OfCategory(b, c)
  {
    Seqs.FilterConcat(a, b, (e: Expense) => e.category == c);
  }

  /** The position of `c` in a list of names, or its length when `c` is not there. */
  function IndexIn(names: seq<string>, c: string): (k: nat)
    ensures k <= |names|
    ensures k < |names| ==> names[k] == c
    ensures forall j :: 0 <= j < k ==> names[j] != c
  {
    if names == [] then 0 else if names[0] == c then 0 else 1 + IndexIn(names[1..], c)
  }

  /** Each entry of `CATEGORIES` is found at its own position: the names are distinct. */
  lemma CategoryIndex(k: nat)
    requires k < |Categories|
    ensures IndexIn(Categories, Categories[k]) == k
  {
    CategoriesDistinct();
  }

  /** The table's category names are pairwise different. */
  lemma CategoriesDistinct()
    ensures forall i, j :: 0 <= i < j < |Categories| ==> Categories[i] != Categories[j]
  {
    var c := Categories;
    assert c[0] != c[1] && c[0] != c[2] && c[0] != c[3] && c[0] != c[4] && c[0] != c[5];
    assert c[1] != c[2] && c[1] != c[3] && c[1] != c[4] && c[1] != c[5];
    assert c[2] != c[3] && c[2] != c[4] && c[2] != c[5];
    assert c[3] != c[4] && c[3] != c[5] && c[4] != c[5];
  }

  lemma {:induction false} SumOverNone(cats: seq<string>)
    ensures SumOver(cats, []) == 0.0
  {
    if cats != [] {
      SumOverNone(cats[1..]);
    }
  }

  /** The chart lists its categories in the order of `CATEGORIES`. */
  lemma ByCategoryOrder(es: seq<Expense>)
    ensures var r := ByCategory(es);
      forall i, j :: 0 <= i < j < |r| ==> IndexIn(Categories, r[i].category) < IndexIn(Categories, r[j].category)
  {
    var all := CategoryTotals(es);
    var key := (t: CategoryTotal) => IndexIn(Categories, t.category) as int;
    forall k | 0 <= k < |Categories| ensures key(all[k]) == k {
      assert all[k].category == Categories[k];
      CategoryIndex(k);
    }
    assert forall i, j :: 0 <= i < j < |all| ==> key(all[i]) < key(all[j]);
    Seqs.FilterKeepsIncreasing(all, Positive, key);
    var r := ByCategory(es);
    forall i, j | 0 <= i < j < |r| ensures IndexIn(Categories, r[i].category) < IndexIn(Categories, r[j].category) {
      assert key(r[i]) < key(r[j]);
    }
  }

  /** Sum of the category sums of a list of distinct categories. */
  function SumOver(cats: seq<string>, es: seq<Expense>): real
  {
    if cats == [] then 0.0 else CategorySum(es, cats[0]) + SumOver(cats[1..], es)
  }

  lemma CategorySumStep(es: seq<Expense>, e: Expense, c: string)
    ensures CategorySum(es + [e], c) == CategorySum(es, c) + (if e.category == c then e.amount else 0.0)
  {
    Seqs.FilterConcat(es, [e], (x: Expense) => x.category == c);
    SumConcat(OfCategory(es, c), OfCategory([e], c));
    SumSingle(e);
  }

  lemma {:induction false} SumOverStep(cats: seq<string>, es: seq<Expense>, e: Expense)
    requires forall i, j :: 0 <= i < j < |cats| ==> cats[i] != cats[j]
    ensures SumOver(cats, es + [e]) == SumOver(cats, es) + (if e.category in cats then e.amount else 0.0)
  {
    if cats != [] {
      CategorySumStep(es, e, cats[0]);
      SumOverStep(cats[1..], es, e);
      assert e.category in cats <==> e.category == cats[0] || e.category in cats[1..];
      if e.category == cats[0] {
        assert e.category !in cats[1..];
      }
    }
  }

  /** When every expense uses one of the listed categories, the category sums add up to the total. */
  lemma {:induction false} CategorySumsAddUp(es: seq<Expense>)
    requires forall i :: 0 <= i < |es| ==> es[i].category in Categories
    ensures SumOver(Categories, es) == Sum(es)
    decreases |es|
  {
    if es == [] {
      SumOverNone(Categories);
    } else {
      var init := es[..|es| - 1];
      var last := es[|es| - 1];
      assert es == init + [last];
      CategorySumsAddUp(init);
      CategoriesDistinct();
      SumOverStep(Categories, init, last);
    }
  }

  /** A budget of zero or less is refused; otherwise it is set and the dialog closes. */
  lemma UpdateBudgetSpec(s: BudgetState)
    ensures s.tempBudget <= 0.0 ==> AfterUpdateBudget(s) == s
    ensures s.tempBudget > 0.0 ==>
      AfterUpdateBudget(s).budget == s.tempBudget && !AfterUpdateBudget(s).showBudgetEdit
      && AfterUpdateBudget(s).expenses == s.expenses
    ensures AfterUpdateBudget(s).budget > 0.0 || AfterUpdateBudget(s).budget == s.budget
  {
  }

  // ------------------------------------------------------------ the page

  class BudgetTrackerPage {
    var expenses: seq<Expense>
    var newExpense: ExpenseDraft
    var editingExpense: Option<Expense>
    var filterCategory: string
    var budget: real
    var showBudgetEdit: bool
    var tempBudget: real

    function State(): BudgetState
      reads this
    {
      BudgetState(expenses, newExpense, editingExpense, filterCategory, budget, showBudgetEdit, tempBudget)
    }

    /** The first render; the demo expenses and today's date are parameters. */
    constructor (demo: seq<Expense>, today: string)
      ensures State() == Initial(demo, today)
    {
      expenses := demo;
      newExpense := EmptyDraft(today);
      editingExpense := None;
      filterCategory := "All";
      budget := DefaultBudget;
      showBudgetEdit := false;
      tempBudget := DefaultBudget;
    }

    /** `handleAddExpense`; the id (`Date.now()`) and today's date are parameters. */
    method AddExpense(freshId: string, today: string)
      modifies this
      ensures State() == AfterAdd(old(State()), freshId, today)
    {
      if newExpense.amount <= 0.0 || newExpense.description == "" {
        return;
      }
      var expense := WithId(newExpense, freshId);
      expenses := [expense] + expenses;
      newExpense := EmptyDraft(today);
    }

    /** The edit button: the dialog works on a copy of the expense. */
    method StartEdit(e: Expense)
      modifies this
      ensures State() == old(State()).(editing := Some(e))
    {
      editingExpense := Some(e);
    }

    method EditExpense()
      modifies this
      ensures State() == AfterEdit(old(State()))
    {
      if editingExpense.None? {
        return;
      }
      expenses := ReplaceExpense(expenses, editingExpense.value);
      editingExpense := None;
    }

    method DeleteExpense(id: string)
      modifies this
      ensures State() == old(State()).(expenses := RemoveExpense(old(expenses), id))
    {
      expenses := RemoveExpense(expenses, id);
    }

    /** The edit-budget button: the dialog starts from the current budget. */
    method OpenBudgetEdit()
      modifies this
      ensures State() == old(State()).(tempBudget := old(budget), showBudgetEdit := true)
    {
      tempBudget := budget;
      showBudgetEdit := true;
    }

    method UpdateBudget()
      modifies this
      ensures State() == AfterUpdateBudget(old(State()))
    {
      if tempBudget <= 0.0 {
        return;
      }
      budget := tempBudget;
      showBudgetEdit := false;
    }
  }
}

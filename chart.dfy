/** The numbers behind the analytics panel: the doughnut chart's labels,
    values and colours, the monthly totals, and the four summary cards
    (total spent, average expense, number of categories, this month's
    spending). */
module Chart {
  import opened Records
  import opened Folds

  /** The doughnut's colour list (the first and seventh colours coincide). */
  const Palette: seq<string> := [
    "#FF6384", "#36A2EB", "#FFCE56", "#4BC0C0",
    "#9966FF", "#FF9F40", "#FF6384", "#C9CBCF"
  ]

  /** What the doughnut is drawn from: one slice per label. */
  datatype Dataset = Dataset(labels: seq<string>, data: seq<real>, backgroundColor: seq<string>)

  /** `labels = Object.keys(categoryData)`, `data = Object.values(categoryData)`,
      `backgroundColor = colors.slice(0, labels.length)`: one label per
      category that occurs, each once, with that category's total beside it,
      and one palette colour per label up to the eight there are. */
  function CategoryDataset(es: seq<Expense>): (d: Dataset)
    ensures |d.labels| == |d.data|
    ensures forall c :: c in d.labels <==> Occurs(es, ByCategory, c)
    ensures forall i, j :: 0 <= i < j < |d.labels| ==> d.labels[i] != d.labels[j]
    ensures forall i :: 0 <= i < |d.labels| ==>
              d.data[i] == Total(Where(es, ByCategory, d.labels[i]))
    ensures |d.backgroundColor| == if |d.labels| < 8 then |d.labels| else 8
    ensures d.backgroundColor <= Palette
  {
    var t := CategoryTotals(es);
    GroupTotalsKeys(es, ByCategory);
    GroupTotalsAt(es, ByCategory);
    Dataset(Keys(t), Values(t), Palette[..if |t| < 8 then |t| else 8])
  }

  /** The monthly totals add up to the total spent. */
  lemma MonthlyTotalsSum(es: seq<Expense>)
    ensures SumValues(MonthlyTotals(es)) == Total(es)
  {
    GroupTotalsSum(es, ByMonth);
  }

  /** `avgExpense`: the total over the count, and 0 when there are no
      records (never a division by zero). */
  function Average(es: seq<Expense>): (avg: real)
    ensures es == [] ==> avg == 0.0
    ensures es != [] ==> avg * (|es| as real) == Total(es)
    ensures AllNonNegative(es) ==> 0.0 <= avg <= Total(es)
  {
    if |es| > 0 then Total(es) / (|es| as real) else 0.0
  }

  /** The keys of `es.reduce((acc, e) => { acc[e.category] = true; return acc; }, {})`
      in first-seen order. */
  function SeenCategories(es: seq<Expense>): (cats: seq<string>)
    ensures |cats| <= |es|
    ensures |cats| == 0 <==> es == []
  {
    if es == [] then []
    else
      var seen, c := SeenCategories(es[..|es| - 1]), es[|es| - 1].category;
      if c in seen then seen else seen + [c]
  }

  /** The flag fold sees the same categories, in the same order, as the
      category totals. */
  lemma {:induction false} SeenCategoriesAreCategoryKeys(es: seq<Expense>)
    ensures SeenCategories(es) == Keys(CategoryTotals(es))
  {
    if es != [] {
      SeenCategoriesAreCategoryKeys(es[..|es| - 1]);
    }
  }

  /** The "Categories" card: how many distinct categories occur; never more
      than the number of records, and 0 exactly when there are none. */
  function CategoryCount(es: seq<Expense>): (n: nat)
    ensures n <= |es|
    ensures n == 0 <==> es == []
    ensures n == |CategoryTotals(es)|
  {
    SeenCategoriesAreCategoryKeys(es);
    |SeenCategories(es)|
  }

  /** `es.filter(e => e.date.startsWith(month))`. */
  function InMonth(es: seq<Expense>, month: string): (out: seq<Expense>)
    ensures |out| <= |es|
    ensures forall e :: e in out <==> e in es && month <= e.date
  {
    if es == [] then []
    else
      var w, e := InMonth(es[..|es| - 1], month), es[|es| - 1];
      assert es == es[..|es| - 1] + [e];
      if month <= e.date then w + [e] else w
  }

  /** The "This Month" card: the total of the records dated in the month of
      `now`, the current time as an ISO string (its first seven characters
      are the month). */
  function ThisMonthTotal(es: seq<Expense>, now: string): (r: real)
    ensures es == [] ==> r == 0.0
    ensures AllNonNegative(es) ==> r >= 0.0
  {
    Total(InMonth(es, MonthKey(now)))
  }

  /** With no negative amounts, the month's total never exceeds the total. */
  lemma {:induction false} InMonthTotalBounded(es: seq<Expense>, month: string)
    requires AllNonNegative(es)
    ensures Total(InMonth(es, month)) <= Total(es)
  {
    if es != [] {
      var init := es[..|es| - 1];
      InMonthTotalBounded(init, month);
      var w := InMonth(init, month);
      assert (w + [es[|es| - 1]])[..|w|] == w;
    }
  }

  /** The "This Month" card never shows more than the "Total Spent" card. */
  lemma ThisMonthTotalBounded(es: seq<Expense>, now: string)
    requires AllNonNegative(es)
    ensures 0.0 <= ThisMonthTotal(es, now) <= Total(es)
  {
    InMonthTotalBounded(es, MonthKey(now));
  }

  /** For a seven-character month, "starts with the month" and "its
      `substring(0, 7)` is the month" select the same records. */
  lemma {:induction false} InMonthIsWhereMonth(es: seq<Expense>, month: string)
    requires |month| == 7
    ensures InMonth(es, month) == Where(es, ByMonth, month)
  {
    if es != [] {
      InMonthIsWhereMonth(es[..|es| - 1], month);
      var d := es[|es| - 1].date;
      if |d| >= 7 {
        assert (month <= d) == (d[..7] == month);
      }
    }
  }

  /** The "This Month" card agrees with the current month's entry of the
      monthly totals (0 when that month has no records). */
  lemma ThisMonthTotalIsMonthlyEntry(es: seq<Expense>, now: string)
    requires |now| >= 7
    ensures ThisMonthTotal(es, now) == Lookup(MonthlyTotals(es), MonthKey(now))
  {
    InMonthIsWhereMonth(es, MonthKey(now));
    GroupTotalsLookup(es, ByMonth, MonthKey(now));
  }
}

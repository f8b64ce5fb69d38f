/** The summary cards of the expense list: the total, the number of items
    and the top category. */
module ExpenseList {
  import opened Records
  import opened Folds

  /** The reducer `(a, b) => totals[a[0]] > totals[b[0]] ? a : b`: the left
      entry survives only when it is strictly larger. */
  function Pick(a: Entry, b: Entry): (r: Entry)
    ensures r == a || r == b
    ensures r.total >= a.total && r.total >= b.total
    ensures r == a <==> a.total > b.total || a == b
  {
    if a.total > b.total then a else b
  }

  /** `Object.entries(totals).reduce(pick)` with no initial value: starts
      from the first entry and keeps a largest one. */
  function TopEntry(t: Totals): (top: Entry)
    requires t != []
    ensures top in t
    ensures forall i :: 0 <= i < |t| ==> t[i].total <= top.total
  {
    if |t| == 1 then t[0] else Pick(TopEntry(t[..|t| - 1]), t[|t| - 1])
  }

  /** Ties go to the later entry: no entry after the chosen one reaches its
      total. */
  lemma {:induction false} TopEntryIsLastMaximal(t: Totals, k: nat)
    requires DistinctKeys(t)
    requires k < |t| && t[k].key == TopEntry(t).key
    ensures forall j :: k < j < |t| ==> t[j].total < t[k].total
  {
    if |t| > 1 {
      var init, last := t[..|t| - 1], t[|t| - 1];
      var a := TopEntry(init);
      if a.total > last.total {
        var m :| 0 <= m < |init| && init[m] == a;
        assert t[m] == a;
        assert k == m;
        TopEntryIsLastMaximal(init, k);
      } else {
        assert t[|t| - 1] == last;
        assert k == |t| - 1;
      }
    }
  }

  /** The category total of `c`: the sum of the records filed under `c`. */
  function CategoryTotal(es: seq<Expense>, c: string): real {
    Total(Where(es, ByCategory, c))
  }

  /** `topCategory`: the category with the largest total, or `'None'` when
      there are no categories at all. */
  function TopCategory(es: seq<Expense>): (c: string)
    ensures es == [] ==> c == "None"
    ensures es != [] ==> Occurs(es, ByCategory, c)
  {
    var t := CategoryTotals(es);
    GroupTotalsKeys(es, ByCategory);
    if |Keys(t)| > 0 then
      assert TopEntry(t).key in Keys(t);
      TopEntry(t).key
    else "None"
  }

  /** The category total of a key at position `i` of the category totals is
      the value stored there. */
  lemma CategoryTotalAt(es: seq<Expense>, i: nat)
    requires i < |CategoryTotals(es)|
    ensures CategoryTotal(es, CategoryTotals(es)[i].key) == CategoryTotals(es)[i].total
  {
    GroupTotalsAt(es, ByCategory);
  }

  /** Every category that occurs has a total no larger than the top entry's. */
  lemma OccurringCategoryBelowTop(es: seq<Expense>, c: string)
    requires Occurs(es, ByCategory, c)
    ensures es != [] && CategoryTotal(es, c) <= TopEntry(CategoryTotals(es)).total
  {
    var t := CategoryTotals(es);
    GroupTotalsKeys(es, ByCategory);
    assert c in Keys(t);
    var i :| 0 <= i < |t| && Keys(t)[i] == c;
    CategoryTotalAt(es, i);
  }

  /** No category has a larger total than the top category. */
  lemma TopCategoryIsMaximal(es: seq<Expense>)
    requires es != []
    ensures forall c :: Occurs(es, ByCategory, c) ==>
              CategoryTotal(es, c) <= CategoryTotal(es, TopCategory(es))
  {
    var t := CategoryTotals(es);
    GroupTotalsKeys(es, ByCategory);
    var top := TopEntry(t);
    assert TopCategory(es) == top.key;
    var m :| 0 <= m < |t| && t[m] == top;
    CategoryTotalAt(es, m);
    forall c | Occurs(es, ByCategory, c)
      ensures CategoryTotal(es, c) <= top.total
    {
      OccurringCategoryBelowTop(es, c);
    }
  }

  /** On a tie the top category is the last of the tied categories in
      first-seen order: every category first seen after it has a strictly
      smaller total. */
  lemma TopCategoryTieBreak(es: seq<Expense>)
    requires es != []
    ensures forall i, j :: (0 <= i < j < |CategoryTotals(es)| &&
              Keys(CategoryTotals(es))[i] == TopCategory(es)) ==>
              CategoryTotal(es, Keys(CategoryTotals(es))[j]) < CategoryTotal(es, TopCategory(es))
  {
    var t := CategoryTotals(es);
    GroupTotalsKeys(es, ByCategory);
    GroupTotalsAt(es, ByCategory);
    forall i, j | 0 <= i < j < |t| && Keys(t)[i] == TopCategory(es)
      ensures CategoryTotal(es, Keys(t)[j]) < CategoryTotal(es, TopCategory(es))
    {
      TopEntryIsLastMaximal(t, i);
    }
  }

  /** The top category is `'None'` exactly when the list is empty, provided
      no record is itself filed under a category named `None`. */
  lemma TopCategoryNoneIffEmpty(es: seq<Expense>)
    requires !Occurs(es, ByCategory, "None")
    ensures TopCategory(es) == "None" <==> es == []
  {
  }

  /** When every record has the same category, that category is the top one. */
  lemma TopCategoryOfOneCategory(es: seq<Expense>, c: string)
    requires es != []
    requires forall i :: 0 <= i < |es| ==> es[i].category == c
    ensures TopCategory(es) == c
  {
    assert Occurs(es, ByCategory, TopCategory(es));
    var e :| e in es && KeyOf(ByCategory, e) == TopCategory(es);
    var i :| 0 <= i < |es| && es[i] == e;
  }

  /** The three cards of the list. */
  datatype Summary = Summary(total: real, items: nat, topCategory: string)

  /** The list's cards: the total is the sum of the category totals, the item
      count is the number of records, and an empty list shows 0, 0 and
      `'None'`. */
  function Summarize(es: seq<Expense>): (s: Summary)
    ensures s.items == |es|
    ensures s.total == SumValues(CategoryTotals(es))
    ensures es == [] ==> s == Summary(0.0, 0, "None")
    ensures AllNonNegative(es) ==> s.total >= 0.0
  {
    GroupTotalsSum(es, ByCategory);
    Summary(Total(es), |es|, TopCategory(es))
  }
}

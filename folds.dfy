/** The `reduce` folds that the chart and the list views share: the grand
    total of the amounts, and the grouping fold that accumulates amounts into
    a plain object keyed by category or by month.

    A plain object used as an accumulator keeps its keys in first-insertion
    order (the keys here are category names and `YYYY-MM` strings, never
    array-index-like), so it is modelled as a list of entries with distinct
    keys: `Object.keys` and `Object.values` read it in that order. */
module Folds {
  import opened Records

  /** One key of an accumulator object and the value stored under it. */
  datatype Entry = Entry(key: string, total: real)

  /** An accumulator object: its entries in key-insertion order. */
  type Totals = seq<Entry>

  /** What a grouping fold keys a record by. */
  datatype Grouping = ByCategory | ByMonth

  /** `date.substring(0, 7)`: the `YYYY-MM` prefix, or the whole string when
      it is shorter than seven characters. */
  function MonthKey(date: string): (m: string)
    ensures |m| == if |date| < 7 then |date| else 7
    ensures m <= date
  {
    if |date| < 7 then date else date[..7]
  }

  function KeyOf(g: Grouping, e: Expense): string {
    match g
    case ByCategory => e.category
    case ByMonth => MonthKey(e.date)
  }

  ghost predicate AllNonNegative(es: seq<Expense>) {
    forall i :: 0 <= i < |es| ==> es[i].amount >= 0.0
  }

  /** `es.reduce((sum, e) => sum + e.amount, 0)`: amounts added left to right. */
  function Total(es: seq<Expense>): (r: real)
    ensures es == [] ==> r == 0.0
    ensures AllNonNegative(es) ==> r >= 0.0
  {
    if es == [] then 0.0 else Total(es[..|es| - 1]) + es[|es| - 1].amount
  }

  /** The total of two lists laid end to end is the sum of their totals. */
  lemma {:induction false} TotalConcat(a: seq<Expense>, b: seq<Expense>)
    ensures Total(a + b) == Total(a) + Total(b)
  {
    if b == [] {
      assert a + b == a;
    } else {
      var b' := b[..|b| - 1];
      assert (a + b)[..|a + b| - 1] == a + b';
      TotalConcat(a, b');
    }
  }

  /** The records of `es` that `g` files under key `k`, in list order. */
  function Where(es: seq<Expense>, g: Grouping, k: string): (out: seq<Expense>)
    ensures |out| <= |es|
  {
    if es == [] then []
    else
      var w, e := Where(es[..|es| - 1], g, k), es[|es| - 1];
      if KeyOf(g, e) == k then w + [e] else w
  }

  /** `Where` keeps exactly the records filed under `k`. */
  lemma {:induction false} WhereMembers(es: seq<Expense>, g: Grouping, k: string)
    ensures forall e :: e in Where(es, g, k) <==> e in es && KeyOf(g, e) == k
  {
    if es != [] {
      var init, e := es[..|es| - 1], es[|es| - 1];
      assert es == init + [e];
      WhereMembers(init, g, k);
    }
  }

  /** Some record of `es` is filed under key `k`. */
  ghost predicate Occurs(es: seq<Expense>, g: Grouping, k: string) {
    exists e :: e in es && KeyOf(g, e) == k
  }

  /** `Object.keys(t)`. */
  function Keys(t: Totals): (ks: seq<string>)
    ensures |ks| == |t|
    ensures forall i :: 0 <= i < |t| ==> ks[i] == t[i].key
  {
    if t == [] then [] else [t[0].key] + Keys(t[1..])
  }

  /** `Object.values(t)`. */
  function Values(t: Totals): (vs: seq<real>)
    ensures |vs| == |t|
    ensures forall i :: 0 <= i < |t| ==> vs[i] == t[i].total
  {
    if t == [] then [] else [t[0].total] + Values(t[1..])
  }

  ghost predicate DistinctKeys(t: Totals) {
    forall i, j :: 0 <= i < j < |t| ==> t[i].key != t[j].key
  }

  /** `t[k] || 0`: the value stored under `k`, 0 for a missing key. */
  function Lookup(t: Totals, k: string): (v: real)
    ensures k !in Keys(t) ==> v == 0.0
  {
    if t == [] then 0.0 else if t[0].key == k then t[0].total else Lookup(t[1..], k)
  }

  /** The sum of the values of `t`. */
  function SumValues(t: Totals): real {
    if t == [] then 0.0 else t[0].total + SumValues(t[1..])
  }

  /** `acc[k] = (acc[k] || 0) + v`: an existing key keeps its place and
      grows by `v`; a new key goes last with value `v`. */
  function AddTo(t: Totals, k: string, v: real): (r: Totals)
    ensures Keys(r) == if k in Keys(t) then Keys(t) else Keys(t) + [k]
    ensures forall k' :: k' in Keys(r) <==> k' in Keys(t) || k' == k
    ensures Lookup(r, k) == Lookup(t, k) + v
    ensures forall k' :: k' != k ==> Lookup(r, k') == Lookup(t, k')
    ensures SumValues(r) == SumValues(t) + v
  {
    if t == [] then [Entry(k, v)]
    else if t[0].key == k then [Entry(k, t[0].total + v)] + t[1..]
    else
      var r := [t[0]] + AddTo(t[1..], k, v);
      assert r[1..] == AddTo(t[1..], k, v);
      r
  }

  /** Adding to an accumulator never creates a second entry for a key. */
  lemma AddToKeepsDistinct(t: Totals, k: string, v: real)
    requires DistinctKeys(t)
    ensures DistinctKeys(AddTo(t, k, v))
  {
    var r := AddTo(t, k, v);
    forall i, j | 0 <= i < j < |r| ensures r[i].key != r[j].key {
      assert Keys(r)[i] == r[i].key && Keys(r)[j] == r[j].key;
      if j < |t| {
        assert Keys(t)[i] == t[i].key && Keys(t)[j] == t[j].key;
      } else {
        assert Keys(t)[i] == t[i].key;
      }
    }
  }

  /** A key occurs in a list with one more record when it occurs in the
      shorter list or is that record's key. */
  lemma OccursSnoc(es: seq<Expense>, e: Expense, g: Grouping)
    ensures forall k :: Occurs(es + [e], g, k) <==> Occurs(es, g, k) || k == KeyOf(g, e)
  {
    forall k | Occurs(es + [e], g, k) ensures Occurs(es, g, k) || k == KeyOf(g, e) {
      var x :| x in es + [e] && KeyOf(g, x) == k;
      if x != e { assert x in es; }
    }
    assert e in es + [e];
    forall k | Occurs(es, g, k) ensures Occurs(es + [e], g, k) {
      var x :| x in es && KeyOf(g, x) == k;
      assert x in es + [e];
    }
  }

  /** The grouping fold `es.reduce((acc, e) => { acc[key(e)] = (acc[key(e)] || 0)
      + e.amount; return acc; }, {})`: one entry per key, never more entries
      than records. */
  function GroupTotals(es: seq<Expense>, g: Grouping): (t: Totals)
    ensures DistinctKeys(t)
    ensures |t| <= |es|
  {
    if es == [] then []
    else
      var init, e := es[..|es| - 1], es[|es| - 1];
      var acc := GroupTotals(init, g);
      AddToKeepsDistinct(acc, KeyOf(g, e), e.amount);
      AddTo(acc, KeyOf(g, e), e.amount)
  }

  /** The keys of a grouping fold are exactly the keys that occur in the
      records, so it is empty exactly when there are no records. */
  lemma {:induction false} GroupTotalsKeys(es: seq<Expense>, g: Grouping)
    ensures forall k :: k in Keys(GroupTotals(es, g)) <==> Occurs(es, g, k)
    ensures GroupTotals(es, g) == [] <==> es == []
  {
    if es != [] {
      var init, e := es[..|es| - 1], es[|es| - 1];
      assert es == init + [e];
      GroupTotalsKeys(init, g);
      OccursSnoc(init, e, g);
      var acc, t := GroupTotals(init, g), GroupTotals(es, g);
      assert t == AddTo(acc, KeyOf(g, e), e.amount);
      forall k ensures k in Keys(t) <==> Occurs(es, g, k) {
        assert k in Keys(t) <==> k in Keys(acc) || k == KeyOf(g, e);
      }
      assert KeyOf(g, e) in Keys(t);
    }
  }

  /** `categoryData` in the chart and `categoryTotals` in the list: one
      entry per category that occurs, each once, and none when there are no
      records. */
  function CategoryTotals(es: seq<Expense>): (t: Totals)
    ensures DistinctKeys(t) && |t| <= |es|
    ensures forall c :: c in Keys(t) <==> exists e :: e in es && e.category == c
    ensures t == [] <==> es == []
  {
    GroupTotalsKeys(es, ByCategory);
    GroupTotals(es, ByCategory)
  }

  /** `monthlyData`: amounts grouped by `date.substring(0, 7)`, one entry per
      month that occurs, each once, and none when there are no records. */
  function MonthlyTotals(es: seq<Expense>): (t: Totals)
    ensures DistinctKeys(t) && |t| <= |es|
    ensures forall m :: m in Keys(t) <==> exists e :: e in es && MonthKey(e.date) == m
    ensures t == [] <==> es == []
  {
    GroupTotalsKeys(es, ByMonth);
    GroupTotals(es, ByMonth)
  }

  /** The values of a grouping fold add up to the grand total. */
  lemma {:induction false} GroupTotalsSum(es: seq<Expense>, g: Grouping)
    ensures SumValues(GroupTotals(es, g)) == Total(es)
  {
    if es != [] {
      GroupTotalsSum(es[..|es| - 1], g);
    }
  }

  /** One step of `GroupTotalsLookup`: folding in one more record keeps the
      value under `k` equal to the total of the records filed under `k`. */
  lemma GroupTotalsLookupSnoc(init: seq<Expense>, e: Expense, g: Grouping, k: string)
    requires Lookup(GroupTotals(init, g), k) == Total(Where(init, g, k))
    ensures Lookup(GroupTotals(init + [e], g), k) == Total(Where(init + [e], g, k))
  {
    var es, t0, w := init + [e], GroupTotals(init, g), Where(init, g, k);
    assert es[..|es| - 1] == init;
    assert GroupTotals(es, g) == AddTo(t0, KeyOf(g, e), e.amount);
    if KeyOf(g, e) == k {
      assert Where(es, g, k) == w + [e];
      assert (w + [e])[..|w|] == w;
      assert Total(w + [e]) == Total(w) + e.amount;
    } else {
      assert Where(es, g, k) == w;
    }
  }

  /** The value of a grouping fold under `k` is the total of the records
      filed under `k` (0 for a key that does not occur). */
  lemma {:induction false} GroupTotalsLookup(es: seq<Expense>, g: Grouping, k: string)
    ensures Lookup(GroupTotals(es, g), k) == Total(Where(es, g, k))
  {
    if es != [] {
      var init, e := es[..|es| - 1], es[|es| - 1];
      assert es == init + [e];
      GroupTotalsLookup(init, g, k);
      GroupTotalsLookupSnoc(init, e, g, k);
    }
  }

  /** Folding in one more record adds its amount to its own key's entry and
      leaves every other key's value as it was. */
  lemma GroupTotalsSnoc(es: seq<Expense>, e: Expense, g: Grouping)
    ensures Lookup(GroupTotals(es + [e], g), KeyOf(g, e))
         == Lookup(GroupTotals(es, g), KeyOf(g, e)) + e.amount
    ensures forall k :: k != KeyOf(g, e) ==>
              Lookup(GroupTotals(es + [e], g), k) == Lookup(GroupTotals(es, g), k)
  {
    assert (es + [e])[..|es|] == es;
  }

  /** In an accumulator with distinct keys, looking up the key at position `i`
      gives the value at position `i`. */
  lemma {:induction false} LookupAt(t: Totals, i: nat)
    requires DistinctKeys(t) && i < |t|
    ensures Lookup(t, t[i].key) == t[i].total
  {
    if i > 0 {
      assert t[0].key != t[i].key;
      LookupAt(t[1..], i - 1);
    }
  }

  /** The value at each position of a grouping fold is the total of the
      records filed under that position's key. */
  lemma GroupTotalsAt(es: seq<Expense>, g: Grouping)
    ensures forall i :: 0 <= i < |GroupTotals(es, g)| ==>
              GroupTotals(es, g)[i].total == Total(Where(es, g, GroupTotals(es, g)[i].key))
  {
    var t := GroupTotals(es, g);
    forall i | 0 <= i < |t| ensures t[i].total == Total(Where(es, g, t[i].key)) {
      LookupAt(t, i);
      GroupTotalsLookup(es, g, t[i].key);
    }
  }
}

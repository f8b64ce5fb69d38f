/** Expense records and the pure list transforms that the store and the App
    component both apply to a list of records: look up by id (`findIndex`),
    replace by id (`map`) and remove by id (`filter`). */
module Records {

  datatype Option<+T> = None | Some(value: T)

  /** Record ids are opaque numbers; only `===` is ever applied to them. */
  type Id = int

  /** The fields a caller hands to the store: what the form submits. */
  datatype ExpenseData = ExpenseData(title: string, amount: real, category: string, date: string)

  /** A stored record: the submitted fields plus the id the store gave it. */
  datatype Expense = Expense(id: Id, title: string, amount: real, category: string, date: string)

  /** `{ ...data, id, amount: Number(data.amount) }`; the amount is already a number. */
  function WithId(d: ExpenseData, id: Id): (e: Expense)
    ensures e.id == id && e.title == d.title && e.amount == d.amount
    ensures e.category == d.category && e.date == d.date
  {
    Expense(id, d.title, d.amount, d.category, d.date)
  }

  /** The ids of `es`, in list order. */
  function Ids(es: seq<Expense>): (ids: seq<Id>)
    ensures |ids| == |es|
    ensures forall i :: 0 <= i < |es| ==> ids[i] == es[i].id
  {
    if es == [] then [] else [es[0].id] + Ids(es[1..])
  }

  /** No two records of `es` share an id. */
  ghost predicate UniqueIds(es: seq<Expense>) {
    forall i, j :: 0 <= i < j < |es| ==> es[i].id != es[j].id
  }

  /** `es.findIndex(e => e.id === id)`: the first position holding `id`, or -1. */
  function FindIndex(es: seq<Expense>, id: Id): (i: int)
    ensures -1 <= i < |es|
    ensures i == -1 <==> id !in Ids(es)
    ensures 0 <= i ==> es[i].id == id && forall j :: 0 <= j < i ==> es[j].id != id
  {
    if es == [] then -1
    else if es[0].id == id then 0
    else
      var k := FindIndex(es[1..], id);
      if k == -1 then -1 else k + 1
  }

  /** `es.map(e => e.id === id ? r : e)`. */
  function ReplaceId(es: seq<Expense>, id: Id, r: Expense): (out: seq<Expense>)
    ensures |out| == |es|
    ensures forall i :: 0 <= i < |es| ==> out[i] == if es[i].id == id then r else es[i]
  {
    if es == [] then [] else [if es[0].id == id then r else es[0]] + ReplaceId(es[1..], id, r)
  }

  /** `es.filter(e => e.id !== id)`. */
  function RemoveId(es: seq<Expense>, id: Id): (out: seq<Expense>)
    ensures |out| <= |es|
    ensures forall e :: e in out <==> e in es && e.id != id
    ensures id !in Ids(out)
  {
    if es == [] then []
    else if es[0].id == id then RemoveId(es[1..], id)
    else [es[0]] + RemoveId(es[1..], id)
  }

  /** Removing by id works element by element: the kept records keep their
      relative order. */
  lemma {:induction false} RemoveIdConcat(a: seq<Expense>, b: seq<Expense>, id: Id)
    ensures RemoveId(a + b, id) == RemoveId(a, id) + RemoveId(b, id)
  {
    if a == [] {
      assert a + b == b;
    } else {
      assert (a + b)[1..] == a[1..] + b;
      RemoveIdConcat(a[1..], b, id);
    }
  }

  /** Removing an id that no record carries changes nothing. */
  lemma {:induction false} RemoveAbsentId(es: seq<Expense>, id: Id)
    requires id !in Ids(es)
    ensures RemoveId(es, id) == es
  {
    if es != [] {
      assert Ids(es) == [es[0].id] + Ids(es[1..]);
      RemoveAbsentId(es[1..], id);
      assert es == [es[0]] + es[1..];
    }
  }

  /** Replacing an id that no record carries changes nothing. */
  lemma ReplaceAbsentId(es: seq<Expense>, id: Id, r: Expense)
    requires id !in Ids(es)
    ensures ReplaceId(es, id, r) == es
  {
    var out := ReplaceId(es, id, r);
    forall i | 0 <= i < |es| ensures out[i] == es[i] {
      assert Ids(es)[i] == es[i].id;
    }
  }

  /** A list has unique ids exactly when its head's id is not in its tail and
      its tail has unique ids. */
  lemma UniqueIdsCons(e: Expense, rest: seq<Expense>)
    ensures UniqueIds([e] + rest) <==> e.id !in Ids(rest) && UniqueIds(rest)
  {
    var es := [e] + rest;
    if UniqueIds(es) {
      forall i, j | 0 <= i < j < |rest| ensures rest[i].id != rest[j].id {
        assert rest[i] == es[i + 1] && rest[j] == es[j + 1];
      }
      forall k | 0 <= k < |rest| ensures Ids(rest)[k] != e.id {
        assert es[k + 1] == rest[k] && es[0] == e;
      }
      assert UniqueIds(rest);
    }
    if e.id !in Ids(rest) && UniqueIds(rest) {
      forall i, j | 0 <= i < j < |es| ensures es[i].id != es[j].id {
        assert es[j] == rest[j - 1];
        if i == 0 {
          assert es[0] == e && Ids(rest)[j - 1] == rest[j - 1].id;
          assert Ids(rest)[j - 1] in Ids(rest);
        } else {
          assert es[i] == rest[i - 1];
        }
      }
      assert UniqueIds(es);
    }
  }

  /** Removing records keeps the ids unique. */
  lemma {:induction false} RemoveIdKeepsUnique(es: seq<Expense>, id: Id)
    requires UniqueIds(es)
    ensures UniqueIds(RemoveId(es, id))
  {
    if es != [] {
      var rest := es[1..];
      assert es == [es[0]] + rest;
      UniqueIdsCons(es[0], rest);
      RemoveIdKeepsUnique(rest, id);
      if es[0].id != id {
        var tail := RemoveId(rest, id);
        UniqueIdsCons(es[0], tail);
      }
    }
  }

  /** Replacing by id with a record that keeps that id keeps the ids unique. */
  lemma ReplaceIdKeepsUnique(es: seq<Expense>, id: Id, r: Expense)
    requires UniqueIds(es) && r.id == id
    ensures UniqueIds(ReplaceId(es, id, r))
  {
    var out := ReplaceId(es, id, r);
    forall i, j | 0 <= i < j < |out| ensures out[i].id != out[j].id {
      assert out[i].id == es[i].id && out[j].id == es[j].id;
    }
  }

  /** Appending a record whose id is new keeps the ids unique. */
  lemma AppendFreshKeepsUnique(es: seq<Expense>, r: Expense)
    requires UniqueIds(es) && r.id !in Ids(es)
    ensures UniqueIds(es + [r])
  {
    var out := es + [r];
    forall i, j | 0 <= i < j < |out| ensures out[i].id != out[j].id {
      if j == |es| {
        assert Ids(es)[i] == es[i].id;
      }
    }
  }

  /** The ids of a list with one record appended. */
  lemma IdsAppend(es: seq<Expense>, r: Expense)
    ensures Ids(es + [r]) == Ids(es) + [r.id]
  {
    var out := es + [r];
    assert forall i :: 0 <= i < |out| ==> Ids(out)[i] == out[i].id;
  }

  /** Replacing by id with a record that keeps that id leaves the ids, in
      order, as they were; no uniqueness is needed. */
  lemma ReplaceIdKeepsIds(es: seq<Expense>, id: Id, r: Expense)
    requires r.id == id
    ensures Ids(ReplaceId(es, id, r)) == Ids(es)
  {
    var out := ReplaceId(es, id, r);
    forall i | 0 <= i < |es| ensures Ids(out)[i] == Ids(es)[i] {
      assert out[i].id == es[i].id;
    }
  }

  /** Two lists with the same ids, in order, still have the same ids after
      removing the same id from both. */
  lemma {:induction false} RemoveIdSameIds(a: seq<Expense>, b: seq<Expense>, id: Id)
    requires Ids(a) == Ids(b)
    ensures Ids(RemoveId(a, id)) == Ids(RemoveId(b, id))
  {
    if a != [] {
      assert Ids(a)[0] == Ids(b)[0];
      assert Ids(a[1..]) == Ids(a)[1..] && Ids(b[1..]) == Ids(b)[1..];
      RemoveIdSameIds(a[1..], b[1..], id);
      if a[0].id != id {
        assert Ids([a[0]] + RemoveId(a[1..], id)) == [a[0].id] + Ids(RemoveId(a[1..], id));
        assert Ids([b[0]] + RemoveId(b[1..], id)) == [b[0].id] + Ids(RemoveId(b[1..], id));
      }
    }
  }

  /** When ids are unique, overwriting the first record with `id` (the store's
      `findIndex` then indexed assignment) is the same list as mapping every
      record with `id` to the new one (the App's `map`). */
  lemma StoreUpdateIsReplaceId(es: seq<Expense>, id: Id, r: Expense)
    requires UniqueIds(es)
    requires id in Ids(es)
    ensures es[FindIndex(es, id) := r] == ReplaceId(es, id, r)
  {
    var k := FindIndex(es, id);
    var out := ReplaceId(es, id, r);
    forall i | 0 <= i < |es| ensures es[k := r][i] == out[i] {
    }
  }
}

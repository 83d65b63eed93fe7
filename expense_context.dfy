/** The shared expense list of src/context/ExpenseContext.js: the records, the
    three operations that replace the list, and what each of them guarantees. */
module ExpenseContext {
  import opened Wrappers
  import opened Seqs
  import opened Text

  /** The JavaScript values the records hold: text, and integer numbers
      (millisecond ids, amounts in cents). */
  datatype Value = Str(s: string) | Num(n: int)

  /** An expense record is a plain object: a map from property names to values. */
  type Expense = map<string, Value>

  /** `expense.id`, `undefined` (None) when the record has no id. */
  function IdOf(e: Expense): Option<Value> {
    if "id" in e then Some(e["id"]) else None
  }

  /** `expense.id === id`. */
  predicate HasId(e: Expense, id: Value) {
    IdOf(e) == Some(id)
  }

  predicate IdPresent(expenses: seq<Expense>, id: Value) {
    exists i :: 0 <= i < |expenses| && HasId(expenses[i], id)
  }

  /** No two records carry the same id (records without an id are ignored). */
  predicate DistinctIds(expenses: seq<Expense>) {
    forall i, j :: 0 <= i < j < |expenses| && IdOf(expenses[i]).Some? ==> IdOf(expenses[i]) != IdOf(expenses[j])
  }

  /** `new Date().toISOString().split('T')[0]`, for the injected `isoNow`. */
  function Today(isoNow: string): string {
    UpToFirst(isoNow, 'T')
  }

  /** `{...expense, id: now, date: today}`: the input's fields plus `id` and
      `date`, the last two winning over same-named input fields. */
  function Stamped(input: Expense, now: int, isoNow: string): (e: Expense)
    ensures e.Keys == input.Keys + {"id", "date"}
    ensures e["id"] == Num(now) && e["date"] == Str(Today(isoNow))
    ensures forall f :: f in input && f != "id" && f != "date" ==> e[f] == input[f]
  {
    input + map["id" := Num(now), "date" := Str(Today(isoNow))]
  }

  /** The list after `addExpense(input)` at clock reading `now`, `isoNow`. */
  function Added(expenses: seq<Expense>, input: Expense, now: int, isoNow: string): (r: seq<Expense>)
    ensures |r| == |expenses| + 1
    ensures r[..|expenses|] == expenses && r[|expenses|] == Stamped(input, now, isoNow)
  {
    expenses + [Stamped(input, now, isoNow)]
  }

  /** The list after `deleteExpense(id)`. */
  function Deleted(expenses: seq<Expense>, id: Value): (r: seq<Expense>)
    ensures |r| <= |expenses|
  {
    Filter(expenses, e => !HasId(e, id))
  }

  /** `{...expense, ...updatedData}`. */
  function Merged(e: Expense, patch: Expense): (r: Expense)
    ensures r.Keys == e.Keys + patch.Keys
    ensures forall f :: f in patch ==> r[f] == patch[f]
    ensures forall f :: f in e && f !in patch ==> r[f] == e[f]
  {
    e + patch
  }

  /** The list after `editExpense(id, patch)`. */
  function Edited(expenses: seq<Expense>, id: Value, patch: Expense): (r: seq<Expense>)
    ensures |r| == |expenses|
  {
    seq(|expenses|, i requires 0 <= i < |expenses| =>
      if HasId(expenses[i], id) then Merged(expenses[i], patch) else expenses[i])
  }

  // ----- add -----

  /** The stored date is the calendar-date part of an ISO timestamp
      `YYYY-MM-DDTHH:mm:ss.sssZ`: its first ten characters. */
  lemma TodayOfIsoTimestamp(isoNow: string)
    requires |isoNow| > 10 && isoNow[10] == 'T' && 'T' !in isoNow[..10]
    ensures Today(isoNow) == isoNow[..10]
  {
    UpToFirstUnique(isoNow, 'T', isoNow[..10]);
  }

  /** Adding a record under an id nobody has keeps the ids distinct. */
  lemma AddKeepsIdsDistinct(expenses: seq<Expense>, input: Expense, now: int, isoNow: string)
    requires DistinctIds(expenses) && !IdPresent(expenses, Num(now))
    ensures DistinctIds(Added(expenses, input, now, isoNow))
  {
    var r := Added(expenses, input, now, isoNow);
    forall i, j | 0 <= i < j < |r| && IdOf(r[i]).Some?
      ensures IdOf(r[i]) != IdOf(r[j])
    {
      assert r[i] == expenses[i];
      if j < |expenses| {
        assert r[j] == expenses[j];
      } else {
        assert IdOf(r[j]) == Some(Num(now));
        assert !HasId(expenses[i], Num(now));
      }
    }
  }

  // ----- delete -----

  /** Delete drops every copy of a record carrying `id`, keeps every copy of
      every other record, and keeps the survivors in their original order. */
  lemma DeleteRemovesExactlyMatches(expenses: seq<Expense>, id: Value, e: Expense)
    ensures multiset(Deleted(expenses, id))[e] == if HasId(e, id) then 0 else multiset(expenses)[e]
    ensures IsSubsequence(Deleted(expenses, id), expenses)
    ensures !IdPresent(Deleted(expenses, id), id)
  {
    FilterCount(expenses, e => !HasId(e, id), e);
    FilterIsSubsequence(expenses, e => !HasId(e, id));
    var r := Deleted(expenses, id);
    forall i | 0 <= i < |r| ensures !HasId(r[i], id) {
      FilterMembership(expenses, e => !HasId(e, id), r[i]);
    }
  }

  /** Deleting an id that no record carries changes nothing. */
  lemma DeleteAbsentIsIdentity(expenses: seq<Expense>, id: Value)
    requires !IdPresent(expenses, id)
    ensures Deleted(expenses, id) == expenses
  {
    FilterAllPass(expenses, e => !HasId(e, id));
  }

  /** Deleting the same id twice is deleting it once. */
  lemma DeleteIdempotent(expenses: seq<Expense>, id: Value)
    ensures Deleted(Deleted(expenses, id), id) == Deleted(expenses, id)
  {
    FilterIdempotent(expenses, e => !HasId(e, id));
  }

  /** Delete distributes over splitting the list. */
  lemma DeleteConcat(a: seq<Expense>, b: seq<Expense>, id: Value)
    ensures Deleted(a + b, id) == Deleted(a, id) + Deleted(b, id)
  {
    FilterConcat(a, b, e => !HasId(e, id));
  }

  /** Removing records cannot make two ids equal. */
  lemma {:induction false} DeleteKeepsIdsDistinct(expenses: seq<Expense>, id: Value)
    requires DistinctIds(expenses)
    ensures DistinctIds(Deleted(expenses, id))
  {
    if expenses != [] {
      var tail := expenses[1..];
      assert DistinctIds(tail) by {
        forall i, j | 0 <= i < j < |tail| && IdOf(tail[i]).Some? ensures IdOf(tail[i]) != IdOf(tail[j]) {
          assert tail[i] == expenses[i + 1] && tail[j] == expenses[j + 1];
        }
      }
      DeleteKeepsIdsDistinct(tail, id);
      var rest := Deleted(tail, id);
      if !HasId(expenses[0], id) {
        assert Deleted(expenses, id) == [expenses[0]] + rest;
        forall j | 0 <= j < |rest| && IdOf(expenses[0]).Some? ensures IdOf(expenses[0]) != IdOf(rest[j]) {
          FilterMembership(tail, e => !HasId(e, id), rest[j]);
          var k :| 0 <= k < |tail| && tail[k] == rest[j];
          assert expenses[k + 1] == rest[j];
        }
      } else {
        assert Deleted(expenses, id) == rest;
      }
    }
  }

  // ----- edit -----

  /** Edit keeps the length and the order; a record not carrying `id` is
      untouched; in a record carrying it, each of the patch's fields takes the
      patch's value and every other field keeps its value. */
  lemma EditMergesMatches(expenses: seq<Expense>, id: Value, patch: Expense, i: int, f: string)
    requires 0 <= i < |expenses|
    ensures |Edited(expenses, id, patch)| == |expenses|
    ensures !HasId(expenses[i], id) ==> Edited(expenses, id, patch)[i] == expenses[i]
    ensures HasId(expenses[i], id) ==>
      (f in Edited(expenses, id, patch)[i] <==> f in expenses[i] || f in patch) &&
      (f in patch ==> Edited(expenses, id, patch)[i][f] == patch[f]) &&
      (f in expenses[i] && f !in patch ==> Edited(expenses, id, patch)[i][f] == expenses[i][f])
  {
  }

  /** Editing an id that no record carries changes nothing. */
  lemma EditAbsentIsIdentity(expenses: seq<Expense>, id: Value, patch: Expense)
    requires !IdPresent(expenses, id)
    ensures Edited(expenses, id, patch) == expenses
  {
  }

  /** The merge does not protect `id` or `date`: a patch carrying them rewrites them. */
  lemma EditCanRewriteIdAndDate(expenses: seq<Expense>, id: Value, patch: Expense, i: int)
    requires 0 <= i < |expenses| && HasId(expenses[i], id)
    requires "id" in patch && "date" in patch
    ensures IdOf(Edited(expenses, id, patch)[i]) == Some(patch["id"])
    ensures Edited(expenses, id, patch)[i]["date"] == patch["date"]
  {
  }

  /** Applying the same edit twice is applying it once. */
  lemma EditIdempotent(expenses: seq<Expense>, id: Value, patch: Expense)
    ensures Edited(Edited(expenses, id, patch), id, patch) == Edited(expenses, id, patch)
  {
    var once := Edited(expenses, id, patch);
    var twice := Edited(once, id, patch);
    forall i | 0 <= i < |expenses| ensures twice[i] == once[i] {
      if HasId(once[i], id) {
        assert Merged(once[i], patch) == once[i];
      }
    }
  }

  /** Two edits of an id, the first keeping the id, are one edit with the
      combined patch. */
  lemma EditTwiceIsMergedPatch(expenses: seq<Expense>, id: Value, p1: Expense, p2: Expense)
    requires "id" in p1 ==> p1["id"] == id
    ensures Edited(Edited(expenses, id, p1), id, p2) == Edited(expenses, id, p1 + p2)
  {
    var once := Edited(expenses, id, p1);
    var twice := Edited(once, id, p2);
    var combined := Edited(expenses, id, p1 + p2);
    forall i | 0 <= i < |expenses| ensures twice[i] == combined[i] {
      if HasId(expenses[i], id) {
        assert HasId(once[i], id);
        assert Merged(Merged(expenses[i], p1), p2) == Merged(expenses[i], p1 + p2);
      }
    }
  }

  /** An edit whose patch has no `id` keeps the ids distinct. */
  lemma EditWithoutIdKeepsIdsDistinct(expenses: seq<Expense>, id: Value, patch: Expense)
    requires DistinctIds(expenses) && "id" !in patch
    ensures DistinctIds(Edited(expenses, id, patch))
  {
    var r := Edited(expenses, id, patch);
    assert forall i :: 0 <= i < |r| ==> IdOf(r[i]) == IdOf(expenses[i]);
  }

  /** The provider's state: the list every page reads, replaced wholesale by
      each operation (`setExpenses`). */
  class ExpenseStore {
    var expenses: seq<Expense>

    /** `useState([])`. */
    constructor ()
      ensures expenses == []
    {
      expenses := [];
    }

    /** `addExpense`; `now` is the `Date.now()` reading, `isoNow` the
        `toISOString()` of the same instant. */
    method AddExpense(input: Expense, now: int, isoNow: string)
      modifies this
      ensures expenses == Added(old(expenses), input, now, isoNow)
    {
      expenses := expenses + [Stamped(input, now, isoNow)];
    }

    /** `deleteExpense`. */
    method DeleteExpense(id: Value)
      modifies this
      ensures expenses == Deleted(old(expenses), id)
    {
      expenses := Filter(expenses, e => !HasId(e, id));
    }

    /** `editExpense`. */
    method EditExpense(id: Value, patch: Expense)
      modifies this
      ensures expenses == Edited(old(expenses), id, patch)
    {
      expenses := Edited(expenses, id, patch);
    }
  }
}

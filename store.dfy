/** A MongoDB collection as the controllers see it: documents kept in insertion order,
    a document's `_id` being its position. `findById(id)` finds the document at `id`
    when there is one; `findOne(filter)` gives the first document, in natural order,
    that the filter matches. */
module Store {
  import opened Wrappers

  /** The first position at or after `from` whose document matches. */
  function FindFirst<T>(rs: seq<T>, matches: T -> bool, from: nat := 0): (r: Option<nat>)
    requires from <= |rs|
    ensures r.Some? ==> from <= r.value < |rs| && matches(rs[r.value])
    ensures r.Some? ==> forall j :: from <= j < r.value ==> !matches(rs[j])
    ensures r.None? ==> forall j :: from <= j < |rs| ==> !matches(rs[j])
    decreases |rs| - from
  {
    if from == |rs| then None
    else if matches(rs[from]) then Some(from)
    else FindFirst(rs, matches, from + 1)
  }

  /** A query's answer depends only on whether each document matches: replacing a
      document by one the filter judges the same way leaves the answer unchanged. */
  lemma {:induction false} FindFirstUpdate<T>(rs: seq<T>, matches: T -> bool, i: nat, x: T, from: nat)
    requires i < |rs| && from <= |rs|
    requires matches(x) == matches(rs[i])
    ensures FindFirst(rs[i := x], matches, from) == FindFirst(rs, matches, from)
    decreases |rs| - from
  {
    if from < |rs| {
      assert rs[i := x][from] == (if from == i then x else rs[from]);
      FindFirstUpdate(rs, matches, i, x, from + 1);
    }
  }

  /** A query that finds nothing rules out every document, so a narrower query finds
      nothing either. */
  lemma FindFirstNoneNarrower<T>(rs: seq<T>, wide: T -> bool, narrow: T -> bool)
    requires FindFirst(rs, wide).None?
    requires forall x :: narrow(x) ==> wide(x)
    ensures FindFirst(rs, narrow).None?
    ensures forall j :: 0 <= j < |rs| ==> !wide(rs[j])
  {
  }

  /** After an insert of a document that matches, where no earlier one did, the query
      finds the new document. */
  lemma FindFirstAppended<T>(rs: seq<T>, matches: T -> bool, x: T)
    requires FindFirst(rs, matches).None?
    requires matches(x)
    ensures FindFirst(rs + [x], matches) == Some(|rs|)
  {
    assert (rs + [x])[|rs|] == x;
    assert forall j :: 0 <= j < |rs| ==> (rs + [x])[j] == rs[j];
  }

  /** An insert leaves the documents already found where they were. */
  lemma FindFirstAppendedFound<T>(rs: seq<T>, matches: T -> bool, x: T)
    requires FindFirst(rs, matches).Some?
    ensures FindFirst(rs + [x], matches) == FindFirst(rs, matches)
  {
    assert forall j :: 0 <= j < |rs| ==> (rs + [x])[j] == rs[j];
  }
}

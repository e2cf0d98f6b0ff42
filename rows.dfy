/** The array operations the pages apply to their in-memory row lists:
    `filter`, `find`, and the `map` that swaps one row for another. */
module Rows {

  datatype Option<T> = None | Some(value: T)

  /** What an awaited backend call hands back: the row it produced, or the
      message of the error it threw. */
  datatype Outcome<T> = Success(value: T) | Failure(message: string)

  /** `s.filter(keep)`: the elements that pass, in their original order. */
  function Filter<T>(s: seq<T>, keep: T -> bool): (r: seq<T>)
    ensures |r| <= |s|
    ensures forall x :: x in r ==> x in s && keep(x)
    ensures forall i :: 0 <= i < |s| && keep(s[i]) ==> s[i] in r
  {
    if s == [] then []
    else (if keep(s[0]) then [s[0]] else []) + Filter(s[1..], keep)
  }

  /** The positions `from`, `from + 1`, ... of `s` whose element passes
      `keep`, in increasing order: an independent description of what a
      filter keeps. */
  function KeptIndices<T>(s: seq<T>, keep: T -> bool, from: nat): (idx: seq<nat>)
    requires from <= |s|
    ensures forall k :: 0 <= k < |idx| ==> from <= idx[k] < |s|
    ensures forall k, l :: 0 <= k < l < |idx| ==> idx[k] < idx[l]
    ensures forall i :: from <= i < |s| ==> (i in idx <==> keep(s[i]))
    decreases |s| - from
  {
    if from == |s| then []
    else (if keep(s[from]) then [from] else []) + KeptIndices(s, keep, from + 1)
  }

  /** `s` read at the positions `idx`, in the order they are listed. */
  function Pick<T>(s: seq<T>, idx: seq<nat>): (r: seq<T>)
    requires forall k :: 0 <= k < |idx| ==> idx[k] < |s|
    ensures |r| == |idx|
  {
    seq(|idx|, k requires 0 <= k < |idx| => s[idx[k]])
  }

  /** Reading at a list of positions that starts with `i`. */
  lemma PickCons<T>(s: seq<T>, i: nat, rest: seq<nat>)
    requires i < |s| && forall k :: 0 <= k < |rest| ==> rest[k] < |s|
    ensures Pick(s, [i] + rest) == [s[i]] + Pick(s, rest)
  {
    var idx := [i] + rest;
    assert forall k :: 0 < k < |idx| ==> idx[k] == rest[k - 1];
  }

  lemma {:induction false} FilterFromPicksKept<T>(s: seq<T>, keep: T -> bool, from: nat)
    requires from <= |s|
    ensures Filter(s[from..], keep) == Pick(s, KeptIndices(s, keep, from))
    decreases |s| - from
  {
    if from < |s| {
      var t := s[from..];
      var rest := KeptIndices(s, keep, from + 1);
      FilterFromPicksKept(s, keep, from + 1);
      assert t[1..] == s[from + 1..];
      assert Filter(t, keep) == (if keep(s[from]) then [s[from]] else []) + Filter(s[from + 1..], keep);
      assert KeptIndices(s, keep, from) == (if keep(s[from]) then [from] else []) + rest;
      if keep(s[from]) {
        PickCons(s, from, rest);
      } else {
        assert [] + rest == rest;
      }
    }
  }

  /** `filter` keeps exactly the passing elements, in order: the result is
      `s` read at the increasing list of positions whose element passes. */
  lemma FilterExactly<T>(s: seq<T>, keep: T -> bool)
    ensures Filter(s, keep) == Pick(s, KeptIndices(s, keep, 0))
  {
    FilterFromPicksKept(s, keep, 0);
    assert s[0..] == s;
  }

  /** When every element passes, the filter returns the whole list. */
  lemma {:induction false} FilterKeepsAll<T>(s: seq<T>, keep: T -> bool)
    requires forall i :: 0 <= i < |s| ==> keep(s[i])
    ensures Filter(s, keep) == s
  {
    if s != [] {
      FilterKeepsAll(s[1..], keep);
    }
  }

  /** `x in Filter(s, keep)` exactly when `x` is in `s` and passes. */
  lemma FilterMembership<T>(s: seq<T>, keep: T -> bool, x: T)
    ensures x in Filter(s, keep) <==> x in s && keep(x)
  {
    if x in s && keep(x) {
      var i :| 0 <= i < |s| && s[i] == x;
    }
  }

  /** `s.findIndex(p)` restricted to the positions `from` onwards. */
  function FindIndex<T>(s: seq<T>, p: T -> bool, from: nat): (r: Option<nat>)
    requires from <= |s|
    ensures r.Some? ==> from <= r.value < |s| && p(s[r.value])
                        && forall j :: from <= j < r.value ==> !p(s[j])
    ensures r.None? ==> forall j :: from <= j < |s| ==> !p(s[j])
    decreases |s| - from
  {
    if from == |s| then None
    else if p(s[from]) then Some(from)
    else FindIndex(s, p, from + 1)
  }

  /** `s.find(p)`: the first element that passes, if any. */
  function FindFirst<T>(s: seq<T>, p: T -> bool): (r: Option<T>)
    ensures r.None? <==> forall i :: 0 <= i < |s| ==> !p(s[i])
    ensures r.Some? ==> r.value in s && p(r.value)
  {
    match FindIndex(s, p, 0)
    case None => None
    case Some(i) => Some(s[i])
  }

  /** `find` returns the element at the first passing position. */
  lemma FindFirstIsFirst<T>(s: seq<T>, p: T -> bool, i: nat)
    requires i < |s| && p(s[i])
    requires forall j :: 0 <= j < i ==> !p(s[j])
    ensures FindFirst(s, p) == Some(s[i])
  {
    var k := FindIndex(s, p, 0);
    assert k.Some?;
    assert !(k.value < i) && !(i < k.value);
  }

  /** `s.map(x => hit(x) ? v : x)`: every element that `hit` selects is
      replaced by `v`; the others stay where they are. */
  function ReplaceWhere<T>(s: seq<T>, hit: T -> bool, v: T): (r: seq<T>)
    ensures |r| == |s|
    ensures forall i :: 0 <= i < |s| ==> r[i] == if hit(s[i]) then v else s[i]
  {
    if s == [] then []
    else [if hit(s[0]) then v else s[0]] + ReplaceWhere(s[1..], hit, v)
  }

  /** Replacing a second time changes nothing, whether or not `v` itself is
      selected by `hit`. */
  lemma ReplaceWhereIdempotent<T>(s: seq<T>, hit: T -> bool, v: T)
    ensures ReplaceWhere(ReplaceWhere(s, hit, v), hit, v) == ReplaceWhere(s, hit, v)
  {
    var once := ReplaceWhere(s, hit, v);
    var twice := ReplaceWhere(once, hit, v);
    assert forall i :: 0 <= i < |s| ==> twice[i] == once[i];
  }

  /** When nothing is selected the list comes back unchanged. */
  lemma ReplaceWhereNoHit<T>(s: seq<T>, hit: T -> bool, v: T)
    requires forall i :: 0 <= i < |s| ==> !hit(s[i])
    ensures ReplaceWhere(s, hit, v) == s
  {
  }

  // ---- the id-keyed forms the pages use ----

  /** `rows.filter(x => x.id !== id)`, for any row type with an id. */
  function RemoveId<T>(rows: seq<T>, idOf: T -> int, id: int): seq<T>
  {
    Filter(rows, (x: T) => idOf(x) != id)
  }

  /** After removing `id`, no row carries it, every other row is still
      there, and the survivors keep their order. */
  lemma RemoveIdSpec<T>(rows: seq<T>, idOf: T -> int, id: int)
    ensures forall x :: x in RemoveId(rows, idOf, id) <==> x in rows && idOf(x) != id
    ensures RemoveId(rows, idOf, id) == Pick(rows, KeptIndices(rows, (x: T) => idOf(x) != id, 0))
  {
    forall x ensures x in RemoveId(rows, idOf, id) <==> x in rows && idOf(x) != id {
      FilterMembership(rows, (x: T) => idOf(x) != id, x);
    }
    FilterExactly(rows, (x: T) => idOf(x) != id);
  }

  /** Removing an id that no row carries leaves the list as it was. */
  lemma RemoveAbsentId<T>(rows: seq<T>, idOf: T -> int, id: int)
    requires forall i :: 0 <= i < |rows| ==> idOf(rows[i]) != id
    ensures RemoveId(rows, idOf, id) == rows
  {
    FilterKeepsAll(rows, (x: T) => idOf(x) != id);
  }

  /** `rows.map(x => x.id === id ? row : x)`. */
  function ReplaceId<T>(rows: seq<T>, idOf: T -> int, id: int, row: T): (r: seq<T>)
    ensures |r| == |rows|
    ensures forall i :: 0 <= i < |rows| ==> r[i] == if idOf(rows[i]) == id then row else rows[i]
  {
    ReplaceWhere(rows, (x: T) => idOf(x) == id, row)
  }

  /** Replacing by an id that no row carries leaves the list as it was. */
  lemma ReplaceAbsentId<T>(rows: seq<T>, idOf: T -> int, id: int, row: T)
    requires forall i :: 0 <= i < |rows| ==> idOf(rows[i]) != id
    ensures ReplaceId(rows, idOf, id, row) == rows
  {
    ReplaceWhereNoHit(rows, (x: T) => idOf(x) == id, row);
  }
}

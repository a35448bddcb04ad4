/** Small helpers shared by the dashboard modules: an optional value, and the
    two list operations the pages use over and over, `filter` and a keyed
    `map` that rewrites only the selected entries. */
module Common {

  datatype Option<T> = None | Some(value: T)

  /** The elements of `s` that satisfy `p`, in their original order
      (the pages' `list.filter(p)`). */
  function Filter<T>(s: seq<T>, p: T -> bool): (r: seq<T>)
    ensures |r| <= |s|
    ensures forall i :: 0 <= i < |r| ==> r[i] in s && p(r[i])
    ensures forall i :: 0 <= i < |s| && p(s[i]) ==> s[i] in r
    decreases |s|
  {
    if s == [] then []
    else if p(s[0]) then [s[0]] + Filter(s[1..], p)
    else Filter(s[1..], p)
  }

  /** Filtering commutes with concatenation, so the filtered list keeps the
      relative order of the input. */
  lemma {:induction false} FilterAppend<T>(a: seq<T>, b: seq<T>, p: T -> bool)
    ensures Filter(a + b, p) == Filter(a, p) + Filter(b, p)
    decreases |a|
  {
    if a == [] {
      assert a + b == b;
    } else {
      assert (a + b)[1..] == a[1..] + b;
      FilterAppend(a[1..], b, p);
    }
  }

  /** The first element of a filtered list is the first qualifying element. */
  lemma {:induction false} FilterHead<T>(s: seq<T>, p: T -> bool)
    requires |Filter(s, p)| > 0
    ensures exists k :: 0 <= k < |s| && s[k] == Filter(s, p)[0] && p(s[k])
                        && forall j :: 0 <= j < k ==> !p(s[j])
    decreases |s|
  {
    if !p(s[0]) {
      FilterHead(s[1..], p);
      var k :| 0 <= k < |s[1..]| && s[1..][k] == Filter(s[1..], p)[0] && p(s[1..][k])
                && forall j :: 0 <= j < k ==> !p(s[1..][j]);
      assert s[k + 1] == Filter(s, p)[0];
      forall j | 0 <= j < k + 1 ensures !p(s[j]) {
        if j > 0 { assert s[j] == s[1..][j - 1]; }
      }
    }
  }

  /** Overwriting position `k` changes the number of qualifying elements by
      what the old and the new element contribute. */
  lemma {:induction false} FilterCountUpdate<T>(s: seq<T>, k: nat, v: T, p: T -> bool)
    requires k < |s|
    ensures |Filter(s[k := v], p)| ==
            |Filter(s, p)| - (if p(s[k]) then 1 else 0) + (if p(v) then 1 else 0)
    decreases |s|
  {
    if k == 0 {
      assert s[k := v][1..] == s[1..];
    } else {
      assert s[k := v][1..] == s[1..][k - 1 := v];
      FilterCountUpdate(s[1..], k - 1, v, p);
    }
  }

  /** Two predicates that never hold together select at most |s| elements
      between them. */
  lemma {:induction false} FilterDisjointCount<T>(s: seq<T>, p: T -> bool, q: T -> bool)
    requires forall i :: 0 <= i < |s| ==> !(p(s[i]) && q(s[i]))
    ensures |Filter(s, p)| + |Filter(s, q)| <= |s|
    decreases |s|
  {
    if s != [] {
      FilterDisjointCount(s[1..], p, q);
    }
  }

  /** `list.map(x => sel(x) ? f(x) : x)`: rewrites the selected entries and
      keeps every other entry where it was. */
  function MapWhere<T>(s: seq<T>, sel: T -> bool, f: T -> T): (r: seq<T>)
    ensures |r| == |s|
    ensures forall i :: 0 <= i < |s| && !sel(s[i]) ==> r[i] == s[i]
    ensures forall i :: 0 <= i < |s| && sel(s[i]) ==> r[i] == f(s[i])
    decreases |s|
  {
    if s == [] then []
    else [if sel(s[0]) then f(s[0]) else s[0]] + MapWhere(s[1..], sel, f)
  }

  /** When only position `k` is selected, the keyed map is a single-position
      update. */
  lemma MapWhereSingle<T>(s: seq<T>, sel: T -> bool, f: T -> T, k: nat)
    requires k < |s| && sel(s[k])
    requires forall i :: 0 <= i < |s| && i != k ==> !sel(s[i])
    ensures MapWhere(s, sel, f) == s[k := f(s[k])]
  {
  }
}

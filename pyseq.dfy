/** Python sequence idioms used by the pipeline: prefix slicing and order-keeping filters. */
module PySeq {

  /** Python's `s[:stop]`: a negative `stop` counts from the end, and both ends are clamped. */
  function Prefix<T>(s: seq<T>, stop: int): (r: seq<T>)
    ensures stop >= 0 ==> |r| == (if stop < |s| then stop else |s|)
    ensures stop < 0 ==> |r| == (if |s| + stop > 0 then |s| + stop else 0)
    ensures r == s[..|r|]
  {
    if stop >= 0 then
      if stop < |s| then s[..stop] else s
    else
      if |s| + stop > 0 then s[..|s| + stop] else []
  }

  /** A prefix of the suffix starting at `a` is the slice starting at `a`. */
  lemma SliceOfSuffix<T>(s: seq<T>, a: nat, k: nat)
    requires a + k <= |s|
    ensures s[a..][..k] == s[a..a + k]
  {
  }

  /**
   * The indices below `n` of the elements that `keep` accepts, in increasing order:
   * the positions a Python loop `for x in s: if keep(x): ...` acts on.
   */
  function Positions<T>(s: seq<T>, keep: T -> bool, n: nat): (r: seq<nat>)
    requires n <= |s|
    ensures forall j :: 0 <= j < |r| ==> r[j] < n && keep(s[r[j]])
    ensures forall j, j' :: 0 <= j < j' < |r| ==> r[j] < r[j']
  {
    if n == 0 then []
    else Positions(s, keep, n - 1) + (if keep(s[n - 1]) then [n - 1] else [])
  }

  /** No accepted element is left out. */
  lemma {:induction false} PositionsComplete<T>(s: seq<T>, keep: T -> bool, n: nat, i: nat)
    requires i < n <= |s| && keep(s[i])
    ensures i in Positions(s, keep, n)
  {
    if i < n - 1 {
      PositionsComplete(s, keep, n - 1, i);
    }
  }

  /**
   * What `for idx, x in enumerate(s, start=1): if keep(x): out.append(f(x, idx))` has
   * appended after the first `n` elements.
   */
  function KeptMap<T, U>(s: seq<T>, keep: T -> bool, f: (T, nat) -> U, n: nat): seq<U>
    requires n <= |s|
  {
    if n == 0 then []
    else KeptMap(s, keep, f, n - 1) + (if keep(s[n - 1]) then [f(s[n - 1], n)] else [])
  }

  /**
   * The j-th output comes from the j-th accepted element, with that element's 1-based
   * position in the whole input.
   */
  lemma {:induction false} KeptMapFollowsPositions<T, U>(s: seq<T>, keep: T -> bool, f: (T, nat) -> U, n: nat)
    requires n <= |s|
    ensures var pos := Positions(s, keep, n);
      && |KeptMap(s, keep, f, n)| == |pos|
      && forall j :: 0 <= j < |pos| ==> KeptMap(s, keep, f, n)[j] == f(s[pos[j]], pos[j] + 1)
  {
    if n > 0 {
      KeptMapFollowsPositions(s, keep, f, n - 1);
    }
  }
}

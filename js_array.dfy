/**
 * The JavaScript array built-ins the game code relies on, over sequences:
 * `indexOf` and `filter(e => !set.has(e))`.
 */
module JsArray {

  /** `s.indexOf(x)`: the first index holding `x`, or -1. */
  function IndexOf<T(==)>(s: seq<T>, x: T): (i: int)
    ensures -1 <= i < |s|
    ensures i == -1 <==> x !in s
    ensures 0 <= i ==> s[i] == x && x !in s[..i]
  {
    if s == [] then -1
    else if s[0] == x then 0
    else
      var j := IndexOf(s[1..], x);
      assert j >= 0 ==> s[1..][..j] == s[1..j + 1];
      if j < 0 then -1 else j + 1
  }

  /** `s.filter(e => !removed.has(e))`: the elements outside `removed`, in order. */
  function Without<T(==)>(s: seq<T>, removed: set<T>): (r: seq<T>)
    ensures forall i :: 0 <= i < |r| ==> r[i] in s && r[i] !in removed
    ensures forall i :: 0 <= i < |s| && s[i] !in removed ==> s[i] in r
    ensures |r| <= |s|
    ensures (forall i :: 0 <= i < |s| ==> s[i] !in removed) ==> r == s
  {
    if s == [] then []
    else
      var rest := Without(s[1..], removed);
      assert forall i :: 1 <= i < |s| ==> s[i] == s[1..][i - 1];
      if s[0] in removed then rest else [s[0]] + rest
  }

  lemma {:induction false} WithoutAppend<T>(a: seq<T>, b: seq<T>, removed: set<T>)
    ensures Without(a + b, removed) == Without(a, removed) + Without(b, removed)
  {
    if a != [] {
      assert (a + b)[1..] == a[1..] + b;
      WithoutAppend(a[1..], b, removed);
    } else {
      assert a + b == b;
    }
  }
}

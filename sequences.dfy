// The erase/remove_if idiom: keep, in order, the elements whose flag is set.
module Sequences {

  /** The elements of s whose entry in keep is true, in their original order. */
  function Select<T>(s: seq<T>, keep: seq<bool>): (r: seq<T>)
    requires |keep| == |s|
    ensures |r| <= |s|
    decreases |s|
  {
    if |s| == 0 then []
    else Select(s[..|s| - 1], keep[..|s| - 1]) + (if keep[|s| - 1] then [s[|s| - 1]] else [])
  }

  /** One more element processed: how a loop over the prefix s[..i] extends its result. */
  lemma SelectSnoc<T>(s: seq<T>, keep: seq<bool>, i: nat)
    requires |keep| == |s| && i < |s|
    ensures Select(s[..i + 1], keep[..i + 1]) ==
            Select(s[..i], keep[..i]) + (if keep[i] then [s[i]] else [])
  {
    assert s[..i + 1][..i] == s[..i];
    assert keep[..i + 1][..i] == keep[..i];
  }

  /** Everything kept was in s with its flag set. */
  lemma {:induction false} SelectSound<T>(s: seq<T>, keep: seq<bool>, x: T)
    requires |keep| == |s|
    requires x in Select(s, keep)
    ensures exists i :: 0 <= i < |s| && s[i] == x && keep[i]
    decreases |s|
  {
    var n := |s| - 1;
    var front := Select(s[..n], keep[..n]);
    if x in front {
      SelectSound(s[..n], keep[..n], x);
      var i :| 0 <= i < n && s[..n][i] == x && keep[..n][i];
      assert s[i] == x && keep[i];
    } else {
      assert keep[n] && s[n] == x;
    }
  }

  /** Nothing whose flag is set is lost. */
  lemma {:induction false} SelectComplete<T>(s: seq<T>, keep: seq<bool>, i: nat)
    requires |keep| == |s| && i < |s| && keep[i]
    ensures s[i] in Select(s, keep)
    decreases |s|
  {
    var n := |s| - 1;
    if i < n {
      SelectComplete(s[..n], keep[..n], i);
      assert s[..n][i] == s[i];
    }
  }

  /** Keeping everything changes nothing. */
  lemma {:induction false} SelectAll<T>(s: seq<T>, keep: seq<bool>)
    requires |keep| == |s|
    requires forall i :: 0 <= i < |s| ==> keep[i]
    ensures Select(s, keep) == s
    decreases |s|
  {
    if |s| > 0 {
      var n := |s| - 1;
      SelectAll(s[..n], keep[..n]);
      assert s[..n] + [s[n]] == s;
    }
  }

  /** No element is kept twice: the result is no longer than the number of flags set. */
  function CountTrue(keep: seq<bool>): (n: nat)
    ensures n <= |keep|
    decreases |keep|
  {
    if |keep| == 0 then 0 else CountTrue(keep[..|keep| - 1]) + (if keep[|keep| - 1] then 1 else 0)
  }

  lemma {:induction false} SelectLength<T>(s: seq<T>, keep: seq<bool>)
    requires |keep| == |s|
    ensures |Select(s, keep)| == CountTrue(keep)
    decreases |s|
  {
    if |s| > 0 {
      SelectLength(s[..|s| - 1], keep[..|s| - 1]);
    }
  }

  /** The flags `remove_if` computes: keep exactly the elements satisfying f. */
  function Flags<T>(s: seq<T>, f: T -> bool): (keep: seq<bool>)
    ensures |keep| == |s|
    ensures forall i :: 0 <= i < |s| ==> keep[i] == f(s[i])
  {
    seq(|s|, i requires 0 <= i < |s| => f(s[i]))
  }

  /** After the erase/remove_if idiom: everything left satisfies f, and nothing satisfying f was lost. */
  lemma FilterExact<T>(s: seq<T>, f: T -> bool)
    ensures forall x :: x in Select(s, Flags(s, f)) ==> x in s && f(x)
    ensures forall x :: x in s && f(x) ==> x in Select(s, Flags(s, f))
  {
    var keep := Flags(s, f);
    forall x | x in Select(s, keep)
      ensures x in s && f(x)
    {
      SelectSound(s, keep, x);
    }
    forall x | x in s && f(x)
      ensures x in Select(s, keep)
    {
      var i :| 0 <= i < |s| && s[i] == x;
      SelectComplete(s, keep, i);
    }
  }

  /** `v.erase(std::remove_if(v.begin(), v.end(), not f), v.end())`: one pass, keeping order. */
  method Retain<T>(s: seq<T>, f: T -> bool) returns (r: seq<T>)
    ensures r == Select(s, Flags(s, f))
  {
    var keep := Flags(s, f);
    r := [];
    var i := 0;
    while i < |s|
      invariant 0 <= i <= |s|
      invariant r == Select(s[..i], keep[..i])
    {
      SelectSnoc(s, keep, i);
      if f(s[i]) {
        r := r + [s[i]];
      }
      i := i + 1;
    }
    assert s[..|s|] == s && keep[..|s|] == keep;
  }
}

/** Small value types and sequence helpers shared by the score tracker's modules. */
module Common {

  /** A value that may be absent: JavaScript's `null` / `undefined`. */
  datatype Option<T> = None | Some(value: T)

  /** `s.reduce((a, b) => a + b, 0)`: the left-to-right sum of a list of numbers. */
  function Sum(s: seq<int>): int
  {
    if s == [] then 0 else Sum(s[..|s| - 1]) + s[|s| - 1]
  }

  /** Summing a list with one more element adds that element. */
  lemma {:induction false} SumAppend(s: seq<int>, x: int)
    ensures Sum(s + [x]) == Sum(s) + x
  {
    assert (s + [x])[..|s + [x]| - 1] == s;
  }

  /** Summing two concatenated lists adds their sums. */
  lemma {:induction false} SumConcat(s: seq<int>, t: seq<int>)
    ensures Sum(s + t) == Sum(s) + Sum(t)
    decreases |t|
  {
    if t == [] {
      assert s + t == s;
    } else {
      var t' := t[..|t| - 1];
      assert s + t == (s + t') + [t[|t| - 1]];
      assert t == t' + [t[|t| - 1]];
      SumConcat(s, t');
      SumAppend(s + t', t[|t| - 1]);
      SumAppend(t', t[|t| - 1]);
    }
  }

  /** Replacing the element at index k by v changes the sum by the difference. */
  lemma SumUpdate(s: seq<int>, k: nat, v: int)
    requires k < |s|
    ensures Sum(s[k := v]) == Sum(s) - s[k] + v
  {
    assert s == s[..k] + [s[k]] + s[k + 1..];
    assert s[k := v] == s[..k] + [v] + s[k + 1..];
    SumConcat(s[..k] + [s[k]], s[k + 1..]);
    SumConcat(s[..k] + [v], s[k + 1..]);
    SumAppend(s[..k], s[k]);
    SumAppend(s[..k], v);
  }

  /** The value a sparse counter array holds at `k`, where a missing entry reads as 0
      (`arr[k] || 0`). */
  function Get(m: map<nat, nat>, k: nat): nat
  {
    if k in m then m[k] else 0
  }

  /** `s.filter((_, i) => i !== k)`: every element except the one at index k, in order.
      An index outside the list removes nothing. */
  function Without<T>(s: seq<T>, k: int): (r: seq<T>)
    ensures 0 <= k < |s| ==> r == s[..k] + s[k + 1..]
    ensures !(0 <= k < |s|) ==> r == s
    decreases |s|
  {
    if s == [] then []
    else (if k == 0 then [] else [s[0]]) + Without(s[1..], k - 1)
  }
}

/** Small value-level vocabulary the other modules share. */
module Basics {

  datatype Option<+T> = None | Some(value: T)

  datatype Result<+T, +E> = Ok(value: T) | Err(error: E)

  /** The value stored under `k`, or `None`: a dictionary's `get`. */
  function Lookup<K, V>(m: map<K, V>, k: K): Option<V> {
    if k in m then Some(m[k]) else None
  }

  /** What lies before and after the first `c` of `s`: `s.partition(c)` when there is one. */
  function CutAt(s: string, c: char): (r: Option<(string, string)>)
    ensures r.Some? ==> s == r.value.0 + [c] + r.value.1 && c !in r.value.0
    ensures r.None? <==> c !in s
  {
    if s == "" then None
    else if s[0] == c then Some(("", s[1..]))
    else match CutAt(s[1..], c)
      case None => None
      case Some((before, after)) => Some(([s[0]] + before, after))
  }

  lemma {:induction false} CutAtFirst(before: string, c: char, after: string)
    requires c !in before
    ensures CutAt(before + [c] + after, c) == Some((before, after))
  {
    var s := before + [c] + after;
    if before == "" {
      assert s[1..] == after;
    } else {
      assert s[1..] == before[1..] + [c] + after;
      assert s[0] in before;
      CutAtFirst(before[1..], c, after);
      assert [before[0]] + before[1..] == before;
    }
  }

  /** `before` is what stands before the first `c` exactly when the text begins with it and `c`. */
  lemma CutAtPrefix(s: string, c: char, before: string)
    requires c !in before
    ensures CutAt(s, c).Some? && CutAt(s, c).value.0 == before <==> before + [c] <= s
    ensures before + [c] <= s ==> CutAt(s, c).value.1 == s[|before| + 1..]
  {
    if before + [c] <= s {
      assert s == before + [c] + s[|before| + 1..];
      CutAtFirst(before, c, s[|before| + 1..]);
    }
  }
}

/** Python's list indexing and slicing, including negative indices. */
module PySeq {
  import opened Errors

  /** The position a slice bound `i` denotes in a list of length `n`:
      a negative bound counts from the end, and the result is clamped to 0..n. */
  function SliceBound(n: nat, i: int): (k: nat)
    ensures k <= n
    ensures 0 <= i <= n ==> k == i
    ensures i > n ==> k == n
    ensures i < 0 && 0 <= n + i ==> k == n + i
    ensures n + i < 0 ==> k == 0
  {
    if i < 0 then (if n + i < 0 then 0 else n + i)
    else if i > n then n
    else i
  }

  /** `s[i:]` */
  function From<T>(s: seq<T>, i: int): (r: seq<T>)
    ensures 0 <= i <= |s| ==> r == s[i..]
    ensures i > |s| ==> r == []
    ensures i < 0 && 0 <= |s| + i ==> r == s[|s| + i..]
    ensures |s| + i < 0 ==> r == s
  {
    s[SliceBound(|s|, i)..]
  }

  /** `s[:i]` */
  function Upto<T>(s: seq<T>, i: int): (r: seq<T>)
    ensures 0 <= i <= |s| ==> r == s[..i]
    ensures i > |s| ==> r == s
    ensures i < 0 && 0 <= |s| + i ==> r == s[..|s| + i]
    ensures |s| + i < 0 ==> r == []
  {
    s[..SliceBound(|s|, i)]
  }

  /** `s[:i] + s[i:]` is `s` for every bound, however far out of range. */
  lemma UptoFrom<T>(s: seq<T>, i: int)
    ensures Upto(s, i) + From(s, i) == s
  {
  }

  /** `s[i]`: defined for -|s| <= i < |s|, a negative index counting from the
      end; `None` stands for Python's IndexError. */
  function At<T>(s: seq<T>, i: int): (r: Option<T>)
    ensures r.Some? <==> -|s| <= i < |s|
    ensures 0 <= i < |s| ==> r == Some(s[i])
    ensures -|s| <= i < 0 ==> r == Some(s[|s| + i])
  {
    if 0 <= i < |s| then Some(s[i])
    else if -|s| <= i < 0 then Some(s[|s| + i])
    else None
  }
}

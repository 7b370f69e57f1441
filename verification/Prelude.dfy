/** Datatypes and small helpers shared by the whole model. */
module Prelude {

  datatype Option<+T> = None | Some(value: T)

  datatype Result<+T> = Ok(value: T) | Err(error: string)

  type Positive = x: int | 0 < x witness 1

  function Min(a: int, b: int): int {
    if a <= b then a else b
  }

  function Max(a: int, b: int): int {
    if a >= b then a else b
  }

  /** `iter().take(n)` */
  function Take<T>(s: seq<T>, n: nat): seq<T> {
    if n <= |s| then s[..n] else s
  }

  /** `iter().skip(n)` */
  function Skip<T>(s: seq<T>, n: nat): seq<T> {
    if n <= |s| then s[n..] else []
  }

  predicate Distinct<T(==)>(s: seq<T>) {
    forall i, j :: 0 <= i < j < |s| ==> s[i] != s[j]
  }

  /** How many of the first `k` flags are set. */
  function CountUpTo(flags: seq<bool>, k: nat): (c: nat)
    requires k <= |flags|
    ensures c <= k
    ensures c == 0 <==> forall i :: 0 <= i < k ==> !flags[i]
  {
    if k == 0 then 0 else CountUpTo(flags, k - 1) + if flags[k - 1] then 1 else 0
  }

  function PopCount(flags: seq<bool>): nat {
    CountUpTo(flags, |flags|)
  }

  lemma {:induction false} Assoc<T>(a: seq<T>, b: seq<T>, c: seq<T>)
    ensures (a + b) + c == a + (b + c)
  {
  }

  lemma {:induction false} OneLess(c: int, a: int)
    ensures (c - 1) * a == c * a - a
  {
  }

  /** Setting one clear flag raises the count of every longer prefix by one. */
  lemma {:induction false} CountSet(flags: seq<bool>, i: nat, k: nat)
    requires i < |flags| && !flags[i] && k <= |flags|
    ensures CountUpTo(flags[i := true], k) == CountUpTo(flags, k) + if i < k then 1 else 0
  {
    if k > 0 {
      CountSet(flags, i, k - 1);
    }
  }
}

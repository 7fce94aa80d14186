/** Small types and facts shared by the component models. */
module Common {

  datatype Option<+T> = None | Some(value: T)

  function Max(a: int, b: int): (m: int)
    ensures a <= m && b <= m && (m == a || m == b)
  {
    if a < b then b else a
  }

  function Min(a: int, b: int): (m: int)
    ensures m <= a && m <= b && (m == a || m == b)
  {
    if a < b then a else b
  }

  /** The last place where this is true, or -1. */
  function LastWhere<T>(s: seq<T>, f: T -> bool): (k: int)
    ensures -1 <= k < |s|
    ensures k != -1 ==> f(s[k])
    ensures forall j | k < j < |s| :: !f(s[j])
  {
    if s == [] then -1
    else if f(s[|s| - 1]) then |s| - 1
    else LastWhere(s[..|s| - 1], f)
  }

  lemma HeadIsMember<T>(s: seq<T>)
    requires s != []
    ensures exists x :: x in s
  {
    assert s[0] in s;
  }

  lemma MulAtLeast(d: int, k: int)
    requires 0 <= d && 1 <= k
    ensures d <= d * k
  {
  }
}

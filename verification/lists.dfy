/** The semantics of .NET's List<T>.Remove, shared by the entity list and
    the inventory: remove the first occurrence, keep the rest in order. */
module Lists {

  /** Index of the first occurrence of x in s, if any. */
  function IndexOf<T(==)>(s: seq<T>, x: T): (r: int)
    ensures r == -1 <==> x !in s
    ensures 0 <= r ==> r < |s| && s[r] == x && x !in s[..r]
  {
    if s == [] then -1
    else if s[0] == x then 0
    else
      var i := IndexOf(s[1..], x);
      assert s[1..][..(if i < 0 then 0 else i)] == s[1..1 + (if i < 0 then 0 else i)];
      if i < 0 then -1 else i + 1
  }

  /** List.Remove: the first occurrence of x dropped, or s unchanged. */
  function RemoveFirst<T(==)>(s: seq<T>, x: T): (r: seq<T>)
    ensures x in s ==> |r| == |s| - 1 && multiset(r) == multiset(s) - multiset{x}
    ensures x !in s ==> r == s
  {
    var i := IndexOf(s, x);
    if i < 0 then s
    else
      assert s == s[..i] + [s[i]] + s[i + 1..];
      s[..i] + s[i + 1..]
  }

  /** Removal takes out exactly the first occurrence: what came before it is
      untouched and what came after it keeps its order. */
  lemma RemoveFirstShape<T>(s: seq<T>, x: T, i: nat)
    requires i < |s| && s[i] == x && x !in s[..i]
    ensures RemoveFirst(s, x) == s[..i] + s[i + 1..]
  {
  }

  /** No element occurs twice. */
  predicate Distinct<T(==)>(s: seq<T>) {
    forall i, j | 0 <= i < j < |s| :: s[i] != s[j]
  }

  /** Removal from a list without repeats leaves a list without repeats
      that no longer holds x. */
  lemma RemoveFirstKeepsDistinct<T>(s: seq<T>, x: T)
    requires Distinct(s)
    ensures Distinct(RemoveFirst(s, x)) && x !in RemoveFirst(s, x)
    ensures forall y | y in RemoveFirst(s, x) :: y in s
  {
    var i := IndexOf(s, x);
    if 0 <= i {
      var r := s[..i] + s[i + 1..];
      assert forall k | 0 <= k < |r| :: r[k] == if k < i then s[k] else s[k + 1];
      assert forall k | 0 <= k < |r| :: r[k] != x;
    }
  }
}

/** What several layers share: optional values, lists without repetition, and the bag of ready work. */
module Basics {

  datatype Option<T> = None | Some(value: T)

  predicate Distinct<T(==)>(list: seq<T>) { forall k, m | 0 <= k < m < |list| :: list[k] != list[m] }

  lemma {:induction false} OnceIfDistinct<T>(list: seq<T>, x: T)
    requires Distinct(list)
    ensures multiset(list)[x] == if x in list then 1 else 0
  {
    if x in list {
      var k :| 0 <= k < |list| && list[k] == x;
      assert list == list[..k] + [x] + list[k + 1..];
      assert x !in list[..k] && x !in list[k + 1..];
    }
  }

  // What a dispatcher does to the bag of ready work: each step takes one handle in, gives one
  // out, or does neither.

  predicate Inserts<T(==)>(before: multiset<T>, after: multiset<T>, x: T) { after == before + multiset{x} }

  predicate Removes<T(==)>(before: multiset<T>, after: multiset<T>, x: T) { before == after + multiset{x} }
}

/** Sequences without repetition, and the sets of their elements. */
module Lists {

  ghost predicate Distinct<T>(list: seq<T>) {
    list != [] ==> list[0] !in list[1..] && Distinct(list[1..])
  }

  function Members<T(==, !new)>(list: seq<T>): (members: set<T>)
    ensures forall x {:trigger x in members} :: x in members <==> x in list
  {
    if list == [] then {} else {list[0]} + Members(list[1..])
  }

  lemma {:induction false} DistinctSize<T(!new)>(list: seq<T>)
    requires Distinct(list)
    ensures |Members(list)| == |list|
  {
    if list != [] {
      DistinctSize(list[1..]);
      assert list[0] !in Members(list[1..]);
    }
  }

  lemma {:induction false} PrefixDistinct<T>(list: seq<T>, n: nat)
    requires Distinct(list) && n <= |list|
    ensures Distinct(list[..n])
  {
    if n > 0 {
      PrefixDistinct(list[1..], n - 1);
      assert list[..n][1..] == list[1..][..n - 1];
      assert forall x :: x in list[1..][..n - 1] ==> x in list[1..];
    }
  }

  lemma {:induction false} OneMore<T(!new)>(list: seq<T>, x: T)
    requires Distinct(list) && x !in list
    ensures Distinct(list + [x]) && Members(list + [x]) == Members(list) + {x}
  {
    if list == [] {
      assert list + [x] == [x];
    } else {
      assert (list + [x])[1..] == list[1..] + [x];
      OneMore(list[1..], x);
    }
  }
}

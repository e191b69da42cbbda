/** Small shared types of the BoardTrace backend model. */
module Common {

  datatype Option<+T> = None | Some(value: T)

  /** `Ok` carries a function's answer, `Err` the Python exception it raises instead. */
  datatype Result<+T, +E> = Ok(value: T) | Err(error: E)

  type UserId = nat

  /** A job's uuid. Ids are never reused and `owner_user_id` never changes, so the owner rides along. */
  datatype JobId = JobId(serial: nat, owner: UserId)

  type WorkerId = nat

  function Min(a: int, b: int): int {
    if a <= b then a else b
  }

  function Max(a: int, b: int): int {
    if a <= b then b else a
  }

  lemma SubsetSize<T>(a: set<T>, b: set<T>)
    requires a <= b
    ensures |a| <= |b|
  {
    assert b == a + (b - a);
    assert |a + (b - a)| == |a| + |b - a|;
  }

  lemma UpdateTwice<K, V>(m: map<K, V>, key: K, first: V, second: V)
    ensures m[key := first][key] == first && m[key := first][key := second] == m[key := second]
  {
  }

  lemma UpdateSame<K, V>(m: map<K, V>, key: K)
    requires key in m
    ensures m[key := m[key]] == m
  {
  }

  // ---------------------------------------------------------------- ORDER BY ... LIMIT

  /** The first items by this key, at most `limit` of them, in ascending order; ties stand in any order. */
  ghost predicate FirstBy<T(!new)>(list: seq<T>, items: set<T>, limit: nat, key: T -> int) {
    && |list| == Min(limit, |items|)
    && (forall i :: 0 <= i < |list| ==> list[i] in items)
    && (forall i, j :: 0 <= i < j < |list| ==> list[i] != list[j] && key(list[i]) <= key(list[j]))
    && (forall x, i :: x in items && x !in list && 0 <= i < |list| ==> key(list[i]) <= key(x))
  }

  lemma {:induction false} SomeSmallest<T>(items: set<T>, key: T -> int)
    requires items != {}
    ensures exists x :: x in items && forall y :: y in items ==> key(x) <= key(y)
    decreases |items|
  {
    var x :| x in items;
    if items != {x} {
      var rest := items - {x};
      assert items == rest + {x};
      SomeSmallest(rest, key);
      var m :| m in rest && forall y :: y in rest ==> key(m) <= key(y);
      var least := if key(m) <= key(x) then m else x;
      assert least in items && forall y :: y in items ==> key(least) <= key(y);
    }
  }

  /** Everything is listed when the limit is not reached. */
  lemma ShortListIsAll<T(!new)>(list: seq<T>, items: set<T>, limit: nat, key: T -> int)
    requires FirstBy(list, items, limit, key) && |list| < limit
    ensures forall x :: x in items <==> x in list
  {
    var listed := set x | x in list;
    assert forall i :: 0 <= i < |list| ==> list[i] in listed;
    SizeOfDistinct(list);
    forall x | x in items
      ensures x in list
    {
      if x !in list {
        SubsetSize(listed + {x}, items);
      }
    }
  }

  lemma {:induction false} SizeOfDistinct<T>(list: seq<T>)
    requires forall i, j :: 0 <= i < j < |list| ==> list[i] != list[j]
    ensures |set x | x in list| == |list|
  {
    if list != [] {
      var front, last := list[..|list| - 1], list[|list| - 1];
      SizeOfDistinct(front);
      assert list == front + [last];
      assert (set x | x in list) == (set x | x in front) + {last};
    }
  }

  method TakeFirst<T(!new, ==)>(items: set<T>, limit: nat, key: T -> int) returns (list: seq<T>)
    ensures FirstBy(list, items, limit, key)
  {
    list := [];
    var rest := items;
    while |list| < limit && rest != {}
      invariant rest <= items && |list| + |rest| == |items| && |list| <= limit
      invariant forall i :: 0 <= i < |list| ==> list[i] in items && list[i] !in rest
      invariant forall i, j :: 0 <= i < j < |list| ==> list[i] != list[j] && key(list[i]) <= key(list[j])
      invariant forall x, i :: x in rest && 0 <= i < |list| ==> key(list[i]) <= key(x)
      invariant forall x :: x in items ==> x in rest || x in list
      decreases |rest|
    {
      SomeSmallest(rest, key);
      var x :| x in rest && forall y :: y in rest ==> key(x) <= key(y);
      list := list + [x];
      rest := rest - {x};
    }
  }
}

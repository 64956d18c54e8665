/** Python list operations the simulations rely on, over Dafny sequences. */
module Seqs {

  /** The index of the first occurrence of `x` in `s`. */
  function IndexOf<T(==)>(s: seq<T>, x: T): (k: nat)
    requires x in s
    ensures k < |s| && s[k] == x
    ensures x !in s[..k]
  {
    if s[0] == x then 0
    else
      var k := 1 + IndexOf(s[1..], x);
      assert s[..k] == [s[0]] + s[1..][..k - 1];
      k
  }

  /**
   * `list.remove(x)`: the list without the first occurrence of `x`. Python
   * raises when `x` is absent; callers test membership first, and an absent
   * `x` leaves the list as it is here.
   */
  function RemoveFirst<T(==)>(s: seq<T>, x: T): (r: seq<T>)
  {
    if x in s then
      var k := IndexOf(s, x);
      s[..k] + s[k + 1..]
    else s
  }

  /** Removal takes exactly one copy of `x` out of the bag of elements. */
  lemma RemoveFirstMultiset<T>(s: seq<T>, x: T)
    requires x in s
    ensures multiset(RemoveFirst(s, x)) == multiset(s) - multiset{x}
    ensures |RemoveFirst(s, x)| == |s| - 1
  {
    var k := IndexOf(s, x);
    assert s == s[..k] + [x] + s[k + 1..];
    assert multiset(s) == multiset(s[..k]) + multiset{x} + multiset(s[k + 1..]);
  }

  /** Removal of a present `x` lowers its count by one. */
  lemma RemoveFirstCount<T>(s: seq<T>, x: T)
    requires x in s
    ensures multiset(RemoveFirst(s, x))[x] == multiset(s)[x] - 1
  {
    RemoveFirstMultiset(s, x);
  }

  /** Removal of `x` leaves the count of every other value as it was. */
  lemma RemoveFirstOthers<T>(s: seq<T>, x: T, y: T)
    requires y != x
    ensures multiset(RemoveFirst(s, x))[y] == multiset(s)[y]
  {
    if x in s {
      RemoveFirstMultiset(s, x);
    }
  }

  /** Removal of `x` leaves every other value in the list or out of it. */
  lemma RemoveFirstMembers<T>(s: seq<T>, x: T, y: T)
    requires y != x
    ensures y in RemoveFirst(s, x) <==> y in s
  {
    RemoveFirstOthers(s, x, y);
    assert y in RemoveFirst(s, x) <==> y in multiset(RemoveFirst(s, x));
    assert y in s <==> y in multiset(s);
  }

  /** Removal leaves only elements that were there. */
  lemma RemoveFirstSubset<T>(s: seq<T>, x: T)
    ensures forall y | y in RemoveFirst(s, x) :: y in s
  {
    if x in s {
      RemoveFirstMultiset(s, x);
      forall y | y in RemoveFirst(s, x)
        ensures y in s
      {
        assert y in multiset(RemoveFirst(s, x));
      }
    }
  }

  /** Appending a fresh `x` and removing it again gives back the list. */
  lemma RemoveAppended<T>(s: seq<T>, x: T)
    requires x !in s
    ensures x in s + [x]
    ensures RemoveFirst(s + [x], x) == s
  {
    var k := IndexOf(s + [x], x);
    assert k == |s|;
    assert (s + [x])[..|s|] == s;
  }

  /** Slicing `s[:cap]`. */
  function Take<T>(s: seq<T>, cap: nat): (r: seq<T>)
  {
    if |s| <= cap then s else s[..cap]
  }

  /** `s[:cap]` is the longest prefix of `s` not longer than `cap`. */
  lemma TakeIsCappedPrefix<T>(s: seq<T>, cap: nat)
    ensures |Take(s, cap)| == if |s| <= cap then |s| else cap
    ensures Take(s, cap) <= s
  {
  }

  /** The elements of a non-empty list are its head and the elements of its tail. */
  lemma ConsMembers<T>(s: seq<T>)
    requires s != []
    ensures forall e :: e in s <==> e == s[0] || e in s[1..]
  {
    assert s == [s[0]] + s[1..];
  }

  /** A value fills the whole list exactly when every element is that value. */
  lemma {:induction false} CountFull<T>(s: seq<T>, x: T)
    ensures multiset(s)[x] == |s| <==> forall e | e in s :: e == x
  {
    if s != [] {
      CountFull(s[1..], x);
      assert s == [s[0]] + s[1..];
      assert multiset(s) == multiset{s[0]} + multiset(s[1..]);
      assert multiset(s[1..])[x] <= |s[1..]|;
      if s[0] == x {
        ConsMembers(s);
      } else {
        assert s[0] in s;
      }
    }
  }

  /** Two different values together fill the whole list exactly when every element is one of them. */
  lemma {:induction false} TwoCountsFull<T>(s: seq<T>, x: T, y: T)
    requires x != y
    ensures multiset(s)[x] + multiset(s)[y] == |s| <==> forall e | e in s :: e == x || e == y
  {
    if s != [] {
      TwoCountsFull(s[1..], x, y);
      TwoCountsBounded(s[1..], x, y);
      assert s == [s[0]] + s[1..];
      assert multiset(s) == multiset{s[0]} + multiset(s[1..]);
      if s[0] == x || s[0] == y {
        ConsMembers(s);
      } else {
        assert s[0] in s;
      }
    }
  }

  /** Two different values together occur at most as often as the list is long. */
  lemma {:induction false} TwoCountsBounded<T>(s: seq<T>, x: T, y: T)
    requires x != y
    ensures multiset(s)[x] + multiset(s)[y] <= |s|
  {
    if s != [] {
      TwoCountsBounded(s[1..], x, y);
      assert s == [s[0]] + s[1..];
      assert multiset(s) == multiset{s[0]} + multiset(s[1..]);
    }
  }

  /** Concatenation is associative. */
  lemma ConcatAssoc<T>(a: seq<T>, b: seq<T>, c: seq<T>)
    ensures a + (b + c) == (a + b) + c
  {
  }
}

/**
 * The ordered engine list the factory keeps (a QList of engine pointers in
 * the C++ source) and the one list operation it applies besides `append`:
 * QList::removeAll, which drops every occurrence of an element and keeps the
 * order of the rest.
 */
module EngineList {

  /** No element occurs twice. */
  ghost predicate NoDuplicates<T>(s: seq<T>)
  {
    forall i, j :: 0 <= i < j < |s| ==> s[i] != s[j]
  }

  /** QList::removeAll: the list without any occurrence of `x`, others in their order. */
  function RemoveAll<T(==)>(s: seq<T>, x: T): (r: seq<T>)
    ensures x !in r
    ensures forall k :: 0 <= k < |s| && s[k] != x ==> s[k] in r
    ensures forall k :: 0 <= k < |r| ==> r[k] in s
    ensures |r| <= |s|
    ensures x in s ==> |r| < |s|
    ensures x !in s ==> r == s
  {
    if s == [] then []
    else if s[0] == x then RemoveAll(s[1..], x)
    else [s[0]] + RemoveAll(s[1..], x)
  }

  /**
   * removeAll drops every copy of `x` and no copy of anything else: as a
   * multiset, the result is the input with the count of `x` set to zero.
   */
  lemma {:induction false} RemoveAllCounts<T>(s: seq<T>, x: T)
    ensures multiset(RemoveAll(s, x)) == multiset(s)[x := 0]
  {
    if s != [] {
      RemoveAllCounts(s[1..], x);
      assert s == [s[0]] + s[1..];
    }
  }

  /** The tail of a duplicate-free list is duplicate-free and lacks the head. */
  lemma NoDuplicatesTail<T>(s: seq<T>)
    requires NoDuplicates(s)
    requires s != []
    ensures NoDuplicates(s[1..])
    ensures s[0] !in s[1..]
  {
    var t := s[1..];
    forall a, b | 0 <= a < b < |t| ensures t[a] != t[b] {
      assert t[a] == s[a + 1] && t[b] == s[b + 1];
    }
    forall k | 0 <= k < |t| ensures t[k] != s[0] {
      assert t[k] == s[k + 1];
    }
  }

  /**
   * On a list without duplicates, removing the element at position `i`
   * closes the gap: everything before and after it keeps its relative order.
   */
  lemma {:induction false} RemoveAllUnique<T>(s: seq<T>, i: nat)
    requires NoDuplicates(s)
    requires i < |s|
    ensures RemoveAll(s, s[i]) == s[..i] + s[i + 1..]
  {
    var x := s[i];
    NoDuplicatesTail(s);
    if i == 0 {
      assert RemoveAll(s, x) == s[1..];
      assert s[..0] + s[1..] == s[1..];
    } else {
      assert s[1..][i - 1] == x;
      RemoveAllUnique(s[1..], i - 1);
      SpliceAfterHead(s, i);
    }
  }

  /** Putting the head back in front of the tail with position `i - 1` cut out. */
  lemma SpliceAfterHead<T>(s: seq<T>, i: nat)
    requires 0 < i < |s|
    ensures [s[0]] + (s[1..][..i - 1] + s[1..][i..]) == s[..i] + s[i + 1..]
  {
    assert s[..i] == [s[0]] + s[1..][..i - 1];
    assert s[i + 1..] == s[1..][i..];
  }

  /** Removing the element at `i` from a list without duplicates leaves none. */
  lemma NoDuplicatesWithout<T>(s: seq<T>, i: nat)
    requires NoDuplicates(s)
    requires i < |s|
    ensures NoDuplicates(s[..i] + s[i + 1..])
  {
    var t := s[..i] + s[i + 1..];
    forall a, b | 0 <= a < b < |t| ensures t[a] != t[b] {
      var a' := if a < i then a else a + 1;
      var b' := if b < i then b else b + 1;
      assert t[a] == s[a'] && t[b] == s[b'];
    }
  }

  /**
   * Removing an element a duplicate-free list holds takes out exactly the one
   * position where it sits and leaves no duplicates.
   */
  lemma RemoveAllTracked<T>(s: seq<T>, x: T)
    requires NoDuplicates(s)
    requires x in s
    ensures NoDuplicates(RemoveAll(s, x))
    ensures exists i :: 0 <= i < |s| && s[i] == x && RemoveAll(s, x) == s[..i] + s[i + 1..]
  {
    var i :| 0 <= i < |s| && s[i] == x;
    RemoveAllUnique(s, i);
    NoDuplicatesWithout(s, i);
  }

  /**
   * Appending an element the list did not hold and then removing it gives
   * back the original list.
   */
  lemma RemoveAppended<T>(s: seq<T>, x: T)
    requires NoDuplicates(s)
    requires x !in s
    ensures NoDuplicates(s + [x])
    ensures RemoveAll(s + [x], x) == s
  {
    var t := s + [x];
    assert NoDuplicates(t) by {
      forall a, b | 0 <= a < b < |t| ensures t[a] != t[b] {
        if b == |s| {
          assert t[a] == s[a];
        } else {
          assert t[a] == s[a] && t[b] == s[b];
        }
      }
    }
    RemoveAllUnique(t, |s|);
    assert t[..|s|] == s;
  }
}

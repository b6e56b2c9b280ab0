/** Sequence helpers shared by the model.

    Python dictionaries iterate in insertion order. A dictionary that is filled
    from a sequence, one element at a time and keyed by some function of the
    element, is modelled by two things: the order in which its keys first
    appear (KeyOrder) and, for each key, the elements with that key in their
    original order (Group). */
module Seqs {

  /** A value that may be missing (the host's `None`). */
  datatype Option<T> = None | Some(value: T)

  /** No element occurs twice. */
  ghost predicate NoDuplicates<T>(s: seq<T>) {
    forall i, j :: 0 <= i < j < |s| ==> s[i] != s[j]
  }

  /** The keys of the elements of `s`, each once, in order of first appearance. */
  function KeyOrder<T(!new), K(==,!new)>(s: seq<T>, key: T -> K): (r: seq<K>)
    ensures NoDuplicates(r)
    ensures forall k :: k in r <==> exists x :: x in s && key(x) == k
  {
    if s == [] then []
    else
      var d := KeyOrder(s[..|s| - 1], key);
      var last := s[|s| - 1];
      assert forall x :: x in s <==> x in s[..|s| - 1] || x == last;
      if key(last) in d then d else d + [key(last)]
  }

  /** The elements of `s` whose key is `k`, in their original order. */
  function Group<T(!new), K(==)>(s: seq<T>, key: T -> K, k: K): (r: seq<T>)
    ensures |r| <= |s|
    ensures forall x :: x in r <==> x in s && key(x) == k
  {
    if s == [] then []
    else
      var last := s[|s| - 1];
      assert forall x :: x in s <==> x in s[..|s| - 1] || x == last;
      Group(s[..|s| - 1], key, k) + (if key(last) == k then [last] else [])
  }

  /** One more element extends the key order by its key if that key is new. */
  lemma KeyOrderSnoc<T(!new), K(!new)>(s: seq<T>, key: T -> K, x: T)
    ensures KeyOrder(s + [x], key)
            == if key(x) in KeyOrder(s, key) then KeyOrder(s, key) else KeyOrder(s, key) + [key(x)]
  {
    assert (s + [x])[..|s|] == s;
  }

  /** One more element extends exactly the group of its own key. */
  lemma GroupSnoc<T(!new), K>(s: seq<T>, key: T -> K, x: T, k: K)
    ensures Group(s + [x], key, k) == Group(s, key, k) + (if key(x) == k then [x] else [])
  {
    assert (s + [x])[..|s|] == s;
  }

  /** A sequence without duplicates whose elements all lie in `bound` is no
      longer than `bound` has elements. */
  lemma {:induction false} NoDuplicatesLength<T>(s: seq<T>, bound: set<T>)
    requires NoDuplicates(s)
    requires forall x :: x in s ==> x in bound
    ensures |s| <= |bound|
  {
    if s != [] {
      var last := s[|s| - 1];
      var init := s[..|s| - 1];
      assert last !in init;
      assert NoDuplicates(init) by {
        forall i, j | 0 <= i < j < |init| ensures init[i] != init[j] {
          assert init[i] == s[i] && init[j] == s[j];
        }
      }
      NoDuplicatesLength(init, bound - {last});
    }
  }

  /** A key no element carries has the empty group. */
  lemma {:induction false} GroupEmpty<T(!new), K>(s: seq<T>, key: T -> K, k: K)
    requires forall x :: x in s ==> key(x) != k
    ensures Group(s, key, k) == []
  {
    if s != [] {
      assert s[|s| - 1] in s;
      GroupEmpty(s[..|s| - 1], key, k);
    }
  }

  /** A list-valued dictionary filled from `s`: its keys, in insertion order,
      are `order`, and each key maps to its group. */
  ghost predicate GroupedAs<T(!new), K(!new)>(groups: map<K, seq<T>>, order: seq<K>, s: seq<T>, key: T -> K) {
    && order == KeyOrder(s, key)
    && (forall k :: k in groups <==> k in order)
    && (forall k :: k in groups ==> groups[k] == Group(s, key, k))
  }

  /** Appending one element to the group of its key (creating the group when
      the key is new) keeps the dictionary in step with the sequence. */
  lemma GroupedAsSnoc<T(!new), K(!new)>(groups: map<K, seq<T>>, order: seq<K>, s: seq<T>, key: T -> K, x: T)
    requires GroupedAs(groups, order, s, key)
    ensures GroupedAs(groups[key(x) := (if key(x) in groups then groups[key(x)] else []) + [x]],
                      if key(x) in groups then order else order + [key(x)], s + [x], key)
  {
    var updated := groups[key(x) := (if key(x) in groups then groups[key(x)] else []) + [x]];
    var newOrder := if key(x) in groups then order else order + [key(x)];
    KeyOrderSnoc(s, key, x);
    assert newOrder == KeyOrder(s + [x], key);
    forall k | k in updated
      ensures updated[k] == Group(s + [x], key, k)
    {
      GroupSnoc(s, key, x, k);
      if k == key(x) && key(x) !in groups {
        GroupEmpty(s, key, key(x));
      }
    }
    forall k
      ensures k in updated <==> k in newOrder
    {
    }
    assert GroupedAs(updated, newOrder, s + [x], key);
  }

  /** A counting dictionary filled from `s`: it holds exactly the keys that
      occur, each with the number of elements that carry it. */
  ghost predicate CountedAs<T(!new), K(!new)>(counts: map<K, nat>, s: seq<T>, key: T -> K) {
    forall k :: (k in counts <==> exists x :: x in s && key(x) == k)
                && (k in counts ==> counts[k] == |Group(s, key, k)|)
  }

  /** Adding one to the count of an element's key (from 0 when the key is new)
      keeps the counts in step with the sequence. */
  lemma CountedAsSnoc<T(!new), K(!new)>(counts: map<K, nat>, s: seq<T>, key: T -> K, x: T)
    requires CountedAs(counts, s, key)
    ensures CountedAs(counts[key(x) := (if key(x) in counts then counts[key(x)] else 0) + 1], s + [x], key)
  {
    var updated := counts[key(x) := (if key(x) in counts then counts[key(x)] else 0) + 1];
    forall k ensures (k in updated <==> exists y :: y in s + [x] && key(y) == k)
                     && (k in updated ==> updated[k] == |Group(s + [x], key, k)|) {
      GroupSnoc(s, key, x, k);
      assert x in s + [x];
      if k != key(x) {
        if exists y :: y in s && key(y) == k {
          var y :| y in s && key(y) == k;
          assert y in s + [x];
        }
        if exists y :: y in s + [x] && key(y) == k {
          var y :| y in s + [x] && key(y) == k;
          assert y in s;
        }
      } else if key(x) !in counts {
        GroupEmpty(s, key, key(x));
      }
    }
  }

  /** The counting dictionary after every element of `s` has been counted. */
  function CountsOf<T, K>(s: seq<T>, key: T -> K): map<K, nat> {
    if s == [] then map[]
    else
      var counts := CountsOf(s[..|s| - 1], key);
      var k := key(s[|s| - 1]);
      counts[k := (if k in counts then counts[k] else 0) + 1]
  }

  /** The list-valued dictionary after every element of `s` has been filed. */
  function GroupsOf<T, K>(s: seq<T>, key: T -> K): map<K, seq<T>> {
    if s == [] then map[]
    else
      var groups := GroupsOf(s[..|s| - 1], key);
      var k := key(s[|s| - 1]);
      groups[k := (if k in groups then groups[k] else []) + [s[|s| - 1]]]
  }

  /** One more element counts once more under its key. */
  lemma CountsOfSnoc<T, K>(s: seq<T>, key: T -> K, x: T)
    ensures CountsOf(s + [x], key)
            == CountsOf(s, key)[key(x) := (if key(x) in CountsOf(s, key) then CountsOf(s, key)[key(x)] else 0) + 1]
  {
    assert (s + [x])[..|s|] == s;
  }

  /** One more element is appended to the group of its key. */
  lemma GroupsOfSnoc<T, K>(s: seq<T>, key: T -> K, x: T)
    ensures GroupsOf(s + [x], key)
            == GroupsOf(s, key)[key(x) := (if key(x) in GroupsOf(s, key) then GroupsOf(s, key)[key(x)] else []) + [x]]
  {
    assert (s + [x])[..|s|] == s;
  }

  /** Counting one element at a time counts every key's occurrences. */
  lemma {:induction false} CountsOfCounts<T(!new), K(!new)>(s: seq<T>, key: T -> K)
    ensures CountedAs(CountsOf(s, key), s, key)
  {
    if s != [] {
      var init := s[..|s| - 1];
      CountsOfCounts(init, key);
      CountedAsSnoc(CountsOf(init, key), init, key, s[|s| - 1]);
      assert init + [s[|s| - 1]] == s;
    }
  }

  /** Filing one element at a time groups every key's elements, with the keys
      in order of first appearance. */
  lemma {:induction false} GroupsOfGroups<T(!new), K(!new)>(s: seq<T>, key: T -> K)
    ensures GroupedAs(GroupsOf(s, key), KeyOrder(s, key), s, key)
  {
    if s != [] {
      var init, last := s[..|s| - 1], s[|s| - 1];
      assert s == init + [last];
      GroupsOfGroups(init, key);
      GroupedAsSnoc(GroupsOf(init, key), KeyOrder(init, key), init, key, last);
      GroupsOfSnoc(init, key, last);
    }
  }

  /** A key has a group exactly when it is among the keys in order. */
  lemma GroupsOfKey<T(!new), K(!new)>(s: seq<T>, key: T -> K, k: K)
    ensures k in GroupsOf(s, key) <==> k in KeyOrder(s, key)
  {
    GroupsOfGroups(s, key);
  }

  /** A sequence without duplicates has as many elements as the set of its
      elements. */
  lemma {:induction false} DistinctCount<T>(s: seq<T>)
    requires NoDuplicates(s)
    ensures |set x | x in s| == |s|
  {
    if s != [] {
      var init := s[..|s| - 1];
      var last := s[|s| - 1];
      assert NoDuplicates(init) by {
        forall i, j | 0 <= i < j < |init| ensures init[i] != init[j] {
          assert init[i] == s[i] && init[j] == s[j];
        }
      }
      DistinctCount(init);
      assert last !in init;
      assert (set x | x in s) == (set x | x in init) + {last};
    }
  }

  /** A key has a count exactly when it is among the keys in order. */
  lemma CountsOfKey<T(!new), K(!new)>(s: seq<T>, key: T -> K, k: K)
    ensures k in CountsOf(s, key) <==> k in KeyOrder(s, key)
  {
    CountsOfCounts(s, key);
  }

  /** One more copy of `a` in a product. */
  lemma MulSucc(a: nat, n: nat)
    ensures a * (n + 1) == a * n + a
  {
  }

  /** A total that grows by `a` exactly when one more element matches stays
      `a` times the number of matches. */
  lemma ScaledCountStep(total: int, before: int, matches: nat, matchesBefore: nat, a: nat, hit: bool)
    requires before == a * matchesBefore
    requires matches == matchesBefore + (if hit then 1 else 0)
    requires total == before + (if hit then a else 0)
    ensures total == a * matches
  {
    if hit {
      MulSucc(a, matchesBefore);
    }
  }

  /** How often `x` occurs in a sequence, in terms of its last element. */
  lemma MultisetLastCount<T>(s: seq<T>, x: T)
    requires s != []
    ensures multiset(s)[x] == multiset(s[..|s| - 1])[x] + if s[|s| - 1] == x then 1 else 0
  {
    assert s == s[..|s| - 1] + [s[|s| - 1]];
  }

  lemma MulPred(a: nat, n: nat)
    requires n >= 1
    ensures a * n == a * (n - 1) + a
  {
  }
}

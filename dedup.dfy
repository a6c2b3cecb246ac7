// Keeping the first element of each key, in order: the "seen set" loops
// of the scraper and of the views, stated once for any key function.
module Dedup {

  /** An element before position `k` has the key of the element at `k`. */
  predicate SeenBefore<T>(s: seq<T>, k: nat, key: T -> string)
    requires k < |s|
  {
    exists j :: 0 <= j < k && key(s[j]) == key(s[k])
  }

  /** The first element of each key, in order. */
  function FirstOfEach<T>(s: seq<T>, key: T -> string): seq<T>
  {
    if s == [] then []
    else FirstOfEach(s[..|s| - 1], key) + (if SeenBefore(s, |s| - 1, key) then [] else [s[|s| - 1]])
  }

  /** The positions `FirstOfEach` keeps. */
  function FirstIndices<T>(s: seq<T>, key: T -> string): (idx: seq<nat>)
    ensures forall k :: 0 <= k < |idx| ==> idx[k] < |s|
    ensures forall a, b :: 0 <= a < b < |idx| ==> idx[a] < idx[b]
  {
    if s == [] then []
    else FirstIndices(s[..|s| - 1], key) + (if SeenBefore(s, |s| - 1, key) then [] else [|s| - 1])
  }

  /** The keys of the elements. */
  function Keys<T>(s: seq<T>, key: T -> string): set<string>
  {
    set j | 0 <= j < |s| :: key(s[j])
  }

  lemma SeenBeforePrefix<T>(s: seq<T>, n: nat, k: nat, key: T -> string)
    requires k < n <= |s|
    ensures SeenBefore(s[..n], k, key) <==> SeenBefore(s, k, key)
  {
    if SeenBefore(s, k, key) {
      var j :| 0 <= j < k && key(s[j]) == key(s[k]);
      assert s[..n][j] == s[j];
    }
  }

  /** One element more: its key joins the set, and it was seen before iff its key was already there. */
  lemma KeysStep<T>(s: seq<T>, key: T -> string)
    requires s != []
    ensures Keys(s, key) == Keys(s[..|s| - 1], key) + {key(s[|s| - 1])}
    ensures SeenBefore(s, |s| - 1, key) <==> key(s[|s| - 1]) in Keys(s[..|s| - 1], key)
  {
    var init := s[..|s| - 1];
    forall x | x in Keys(s, key)
      ensures x in Keys(init, key) + {key(s[|s| - 1])}
    {
      var j :| 0 <= j < |s| && key(s[j]) == x;
      if j < |init| {
        assert init[j] == s[j];
      }
    }
    forall x | x in Keys(init, key)
      ensures x in Keys(s, key) && exists j :: 0 <= j < |s| - 1 && key(s[j]) == x
    {
      var j :| 0 <= j < |init| && key(init[j]) == x;
      assert s[j] == init[j];
    }
    if SeenBefore(s, |s| - 1, key) {
      var j :| 0 <= j < |s| - 1 && key(s[j]) == key(s[|s| - 1]);
      assert init[j] == s[j];
    }
  }

  lemma KeysAppend<T>(s: seq<T>, x: T, key: T -> string)
    ensures Keys(s + [x], key) == Keys(s, key) + {key(x)}
  {
    KeysStep(s + [x], key);
    assert (s + [x])[..|s|] == s;
  }

  /**
   * `FirstOfEach` is the subsequence of `s` at the positions whose key
   * occurs there for the first time: the kept positions increase and a
   * position is kept exactly when no earlier element has its key.
   */
  lemma {:induction false} FirstOccurrences<T>(s: seq<T>, key: T -> string)
    ensures |FirstOfEach(s, key)| == |FirstIndices(s, key)|
    ensures forall a :: 0 <= a < |FirstOfEach(s, key)| ==> FirstOfEach(s, key)[a] == s[FirstIndices(s, key)[a]]
    ensures forall k :: 0 <= k < |s| ==> (k in FirstIndices(s, key) <==> !SeenBefore(s, k, key))
  {
    if s != [] {
      var init := s[..|s| - 1];
      FirstOccurrences(init, key);
      forall k | 0 <= k < |init|
        ensures SeenBefore(init, k, key) <==> SeenBefore(s, k, key)
      {
        SeenBeforePrefix(s, |s| - 1, k, key);
      }
    }
  }

  /** One element more, as a loop with a set of seen keys meets it. */
  lemma FirstOfEachStep<T>(s: seq<T>, i: nat, key: T -> string)
    requires i < |s|
    ensures FirstOfEach(s[..i + 1], key)
      == FirstOfEach(s[..i], key) + (if key(s[i]) in Keys(s[..i], key) then [] else [s[i]])
    ensures Keys(s[..i + 1], key) == Keys(s[..i], key) + {key(s[i])}
  {
    var t := s[..i + 1];
    assert t[..i] == s[..i] && t[i] == s[i];
    KeysStep(t, key);
  }

  /** The kept elements have the same keys as the input. */
  lemma {:induction false} FirstOfEachKeySet<T>(s: seq<T>, key: T -> string)
    ensures Keys(FirstOfEach(s, key), key) == Keys(s, key)
  {
    if s != [] {
      var init := s[..|s| - 1];
      FirstOfEachKeySet(init, key);
      KeysStep(s, key);
      var d := FirstOfEach(init, key);
      if SeenBefore(s, |s| - 1, key) {
        assert FirstOfEach(s, key) == d;
      } else {
        assert FirstOfEach(s, key) == d + [s[|s| - 1]];
        KeysAppend(d, s[|s| - 1], key);
      }
    }
  }

  /** No two kept elements share a key. */
  lemma {:induction false} FirstOfEachDistinct<T>(s: seq<T>, key: T -> string)
    ensures forall a, b :: 0 <= a < b < |FirstOfEach(s, key)| ==> key(FirstOfEach(s, key)[a]) != key(FirstOfEach(s, key)[b])
  {
    if s != [] {
      var init := s[..|s| - 1];
      var x := s[|s| - 1];
      FirstOfEachDistinct(init, key);
      FirstOfEachKeySet(init, key);
      KeysStep(s, key);
      var d := FirstOfEach(init, key);
      if !SeenBefore(s, |s| - 1, key) {
        var r := d + [x];
        assert FirstOfEach(s, key) == r;
        forall a, b | 0 <= a < b < |r|
          ensures key(r[a]) != key(r[b])
        {
          if b == |d| {
            assert r[a] == d[a];
            assert key(d[a]) in Keys(d, key);
          }
        }
      }
    }
  }

  /** Elements with pairwise different keys have as many keys as elements. */
  lemma {:induction false} DistinctKeysCount<T>(s: seq<T>, key: T -> string)
    requires forall a, b :: 0 <= a < b < |s| ==> key(s[a]) != key(s[b])
    ensures |Keys(s, key)| == |s|
  {
    if s != [] {
      var init := s[..|s| - 1];
      DistinctKeysCount(init, key);
      KeysStep(s, key);
      forall j | 0 <= j < |init|
        ensures key(init[j]) != key(s[|s| - 1])
      {
        assert s[j] == init[j];
      }
      assert key(s[|s| - 1]) !in Keys(init, key);
    }
  }

  /** So there are exactly as many kept elements as keys. */
  lemma FirstOfEachCount<T>(s: seq<T>, key: T -> string)
    ensures |FirstOfEach(s, key)| == |Keys(s, key)|
  {
    FirstOfEachDistinct(s, key);
    FirstOfEachKeySet(s, key);
    DistinctKeysCount(FirstOfEach(s, key), key);
  }

  /** Everything kept comes from the input. */
  lemma FirstOfEachFromInput<T>(s: seq<T>, key: T -> string, a: nat)
    requires a < |FirstOfEach(s, key)|
    ensures FirstOfEach(s, key)[a] in s
  {
    FirstOccurrences(s, key);
  }
}

/**
 * The skip-list filter `removeSkippedEmojis` (literally_1984.go): the slice `response.Emoji`
 * is an array whose first `n` elements are live; a skip-listed element is overwritten by the
 * last live one and the slice shortened by one. The source has two defects, both modelled as
 * written and beside their corrected forms: the colon-stripping loop discards its result, and
 * the element swapped into a slot is never examined.
 */
module SkipFilter {
  import opened Strings
  import opened Emojis

  /** One swap-remove step at slot `i`: the last element takes slot `i`, the slice loses its last slot. */
  function SwapOut(s: seq<Emoji>, i: nat): (t: seq<Emoji>)
    requires i < |s|
    ensures |t| == |s| - 1
  {
    s[i := s[|s| - 1]][..|s| - 1]
  }

  /** A swap-remove step takes exactly one copy of the element at slot `i` out of the slice. */
  lemma SwapOutMultiset(s: seq<Emoji>, i: nat)
    requires i < |s|
    ensures multiset(SwapOut(s, i)) == multiset(s) - multiset([s[i]])
  {
    var last := |s| - 1;
    if i == last {
      assert SwapOut(s, i) == s[..last];
      assert s == s[..last] + [s[i]];
    } else {
      var mid := s[i + 1..last];
      assert SwapOut(s, i) == s[..i] + [s[last]] + mid;
      assert s == s[..i] + [s[i]] + mid + [s[last]];
    }
  }

  /** The loop of `removeSkippedEmojis` as written, from slot `i` on: after a removal it moves
      on to slot `i + 1`, so the element just swapped into slot `i` is never looked at. */
  function SwapRemoveFrom(s: seq<Emoji>, i: nat, skip: set<string>): seq<Emoji>
    decreases |s| - i
  {
    if i >= |s| then s
    else if s[i].name in skip then SwapRemoveFrom(SwapOut(s, i), i + 1, skip)
    else SwapRemoveFrom(s, i + 1, skip)
  }

  function SwapRemove(s: seq<Emoji>, skip: set<string>): seq<Emoji> {
    SwapRemoveFrom(s, 0, skip)
  }

  /** The filter only removes, and everything it removes has a skip-listed name. */
  lemma {:induction false} SwapRemoveRemovesOnlySkipped(s: seq<Emoji>, i: nat, skip: set<string>)
    ensures multiset(SwapRemoveFrom(s, i, skip)) <= multiset(s)
    ensures forall e :: e in multiset(s) - multiset(SwapRemoveFrom(s, i, skip)) ==> e.name in skip
    decreases |s| - i
  {
    if i < |s| {
      if s[i].name in skip {
        var t := SwapOut(s, i);
        SwapOutMultiset(s, i);
        SwapRemoveRemovesOnlySkipped(t, i + 1, skip);
        var r := SwapRemoveFrom(t, i + 1, skip);
        forall e | e in multiset(s) - multiset(r) ensures e.name in skip {
          if e != s[i] {
            assert (multiset(s) - multiset(r))[e] == (multiset(t) - multiset(r))[e];
          }
        }
      } else {
        SwapRemoveRemovesOnlySkipped(s, i + 1, skip);
      }
    }
  }

  /** With nothing skip-listed the slice comes back unchanged, order included. */
  lemma {:induction false} SwapRemoveNoSkipped(s: seq<Emoji>, i: nat, skip: set<string>)
    requires forall k :: 0 <= k < |s| ==> s[k].name !in skip
    ensures SwapRemoveFrom(s, i, skip) == s
    decreases |s| - i
  {
    if i < |s| {
      SwapRemoveNoSkipped(s, i + 1, skip);
    }
  }

  /** The defect: with `x` and `z` skip-listed, `x`'s slot receives `z`, which is then kept. */
  lemma SwapRemoveKeepsSwappedIn(x: Emoji, y: Emoji, z: Emoji, skip: set<string>)
    requires x.name in skip && z.name in skip && y.name !in skip
    ensures SwapRemove([x, y, z], skip) == [z, y]
  {
    var s0 := [x, y, z];
    var s1 := SwapOut(s0, 0);
    assert s1 == [z, y] by {
      assert s0[0 := s0[2]] == [z, y, z];
    }
    assert SwapRemoveFrom(s1, 2, skip) == s1;
    assert SwapRemoveFrom(s1, 1, skip) == s1 by {
      assert s1[1] == y;
    }
    assert SwapRemoveFrom(s0, 0, skip) == SwapRemoveFrom(s1, 1, skip) by {
      assert s0[0] == x;
    }
  }

  /** The corrected loop: after a swap the same slot is examined again. */
  function RecheckRemoveFrom(s: seq<Emoji>, i: nat, skip: set<string>): seq<Emoji>
    decreases |s| - i
  {
    if i >= |s| then s
    else if s[i].name in skip then RecheckRemoveFrom(SwapOut(s, i), i, skip)
    else RecheckRemoveFrom(s, i + 1, skip)
  }

  /** The corrected filter removes exactly the skip-listed elements: every other element keeps
      its multiplicity and no skip-listed one is left. */
  lemma {:induction false} RecheckRemoveExact(s: seq<Emoji>, i: nat, skip: set<string>)
    requires forall k :: 0 <= k < i && k < |s| ==> s[k].name !in skip
    ensures forall e :: multiset(RecheckRemoveFrom(s, i, skip))[e] == if e.name in skip then 0 else multiset(s)[e]
    decreases |s| - i
  {
    if i >= |s| {
      NoneSkipped(s, skip);
    } else if s[i].name in skip {
      var t := SwapOut(s, i);
      SwapOutMultiset(s, i);
      assert forall k :: 0 <= k < i ==> t[k] == s[k];
      RecheckRemoveExact(t, i, skip);
      assert RecheckRemoveFrom(s, i, skip) == RecheckRemoveFrom(t, i, skip);
      forall e: Emoji | e.name !in skip ensures multiset(t)[e] == multiset(s)[e] {
        assert e != s[i];
      }
    } else {
      RecheckRemoveExact(s, i + 1, skip);
    }
  }

  /** A slice with no skip-listed element holds no copy of any skip-listed emoji. */
  lemma NoneSkipped(s: seq<Emoji>, skip: set<string>)
    requires forall k :: 0 <= k < |s| ==> s[k].name !in skip
    ensures forall e: Emoji :: e.name in skip ==> multiset(s)[e] == 0
  {
    forall e: Emoji | e.name in skip ensures multiset(s)[e] == 0 {
      assert e !in s;
    }
  }

  /** `removeSkippedEmojis` as written. The colon loop computes each key without colons and
      discards it, so the skip list is used exactly as configured. */
  method RemoveSkippedEmojis(a: array<Emoji>, skip: set<string>) returns (n: nat)
    modifies a
    ensures n <= a.Length
    ensures a[..n] == SwapRemove(old(a[..]), skip)
  {
    var pending := skip;
    while |pending| > 0
      invariant a[..] == old(a[..])
      decreases pending
    {
      var key :| key in pending;
      var _ := Remove(key, ':');
      pending := pending - {key};
    }
    n := a.Length;
    var i := 0;
    assert a[..n] == old(a[..]);
    while i < n
      invariant 0 <= n <= a.Length
      invariant SwapRemoveFrom(a[..n], i, skip) == SwapRemove(old(a[..]), skip)
    {
      if a[i].name in skip {
        ghost var before := a[..n];
        a[i] := a[n - 1];
        n := n - 1;
        assert a[..n + 1] == before[i := before[n]];
        assert a[..n] == a[..n + 1][..n];
      }
      i := i + 1;
    }
  }

  /** The corrected swap-remove loop over the array's live prefix. */
  method RecheckLoop(a: array<Emoji>, keys: set<string>) returns (n: nat)
    modifies a
    ensures n <= a.Length
    ensures a[..n] == RecheckRemoveFrom(old(a[..]), 0, keys)
  {
    n := a.Length;
    var i := 0;
    assert a[..n] == old(a[..]);
    while i < n
      invariant 0 <= i <= n <= a.Length
      invariant RecheckRemoveFrom(a[..n], i, keys) == RecheckRemoveFrom(old(a[..]), 0, keys)
      decreases n - i
    {
      if a[i].name in keys {
        ghost var before := a[..n];
        a[i] := a[n - 1];
        n := n - 1;
        assert a[..n] == SwapOut(before, i);
      } else {
        i := i + 1;
      }
    }
  }

  /** The filter with both defects corrected: keys are compared without colons, and a slot
      is examined again after a swap. */
  method RemoveSkippedEmojisRechecked(a: array<Emoji>, skip: set<string>) returns (n: nat)
    modifies a
    ensures n <= a.Length
    ensures forall k :: 0 <= k < n ==> a[k].name !in NormalizedSkipList(skip)
    ensures forall e :: multiset(a[..n])[e] == if e.name in NormalizedSkipList(skip) then 0 else multiset(old(a[..]))[e]
  {
    var keys := NormalizedSkipList(skip);
    ghost var orig := a[..];
    n := RecheckLoop(a, keys);
    RecheckRemoveExact(orig, 0, keys);
    forall k | 0 <= k < n ensures a[k].name !in keys {
      assert a[..n][k] == a[k];
    }
  }

  /** The skip list as the comment intends it: every key with its colons removed. */
  function NormalizedSkipList(skip: set<string>): (keys: set<string>)
    ensures forall k :: k in skip ==> Remove(k, ':') in keys
    ensures forall k :: k in keys ==> ':' !in k
    ensures forall x :: x in keys <==> exists k :: k in skip && Remove(k, ':') == x
  {
    set k | k in skip :: Remove(k, ':')
  }

  /** The colon defect on the filter: with the key ":foo:" configured (and "foo" itself not),
      the filter as written keeps every emoji named "foo" with its multiplicity, while the
      corrected filter over the normalized keys keeps none of them. */
  lemma ColonKeysMatchOnlyWhenNormalized(s: seq<Emoji>, bare: string, skip: set<string>)
    requires ':' !in bare && ":" + bare + ":" in skip && bare !in skip
    ensures forall e: Emoji :: e.name == bare ==> multiset(SwapRemove(s, skip))[e] == multiset(s)[e]
    ensures forall e: Emoji :: e.name == bare ==> multiset(RecheckRemoveFrom(s, 0, NormalizedSkipList(skip)))[e] == 0
  {
    SwapRemoveRemovesOnlySkipped(s, 0, skip);
    forall e: Emoji | e.name == bare ensures multiset(SwapRemove(s, skip))[e] == multiset(s)[e] {
      assert e !in multiset(s) - multiset(SwapRemove(s, skip));
    }
    ColonKeyNormalized(bare, skip);
    RecheckRemoveExact(s, 0, NormalizedSkipList(skip));
  }

  /** The key ":foo:" without its colons is "foo". */
  lemma ColonKeyNormalized(bare: string, skip: set<string>)
    requires ':' !in bare && ":" + bare + ":" in skip
    ensures bare in NormalizedSkipList(skip)
  {
    var key := ":" + bare + ":";
    assert key[1..][..|bare|] == bare;
    assert Remove(key, ':') == Remove(key[1..], ':');
    assert key[1..] == bare + ":";
    RemoveTrailing(bare);
    RemoveAbsent(bare, ':');
    assert Remove(key, ':') in NormalizedSkipList(skip);
  }

  lemma {:induction false} RemoveTrailing(s: string)
    ensures Remove(s + ":", ':') == Remove(s, ':')
  {
    if |s| > 0 {
      assert (s + ":")[1..] == s[1..] + ":";
      RemoveTrailing(s[1..]);
    } else {
      assert Remove(":", ':') == Remove("", ':');
    }
  }
}

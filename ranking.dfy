/**
 * Ranking by count (main.go): the `stringCount` record, the `ByCount` order, the parsing of a
 * pasted reaction list in `printTopEmojis`, and the selection rule shared with
 * `printTopEmojisByReactionVote`: take the best entries in order, stop once `maxPrintCount`
 * are taken unless the next one ties the previous count, and stop at the first count below
 * the minimum.
 */
module Ranking {
  import opened Wrappers
  import opened Strings
  import opened Sorting
  import opened Emojis

  /** `stringCount`: a count for a name (an emoji, or a person with an id). */
  datatype StringCount = StringCount(count: int, name: string, id: string)

  /** `ByCount.Less`: the higher count first, equal counts by name. */
  predicate ByCountLess(a: StringCount, b: StringCount) {
    if a.count == b.count then Less(a.name, b.name) else a.count > b.count
  }

  /** The order `sort.Sort(ByCount(...))` establishes: a later element is never `Less` than an earlier one. */
  predicate ByCountLe(a: StringCount, b: StringCount) {
    !ByCountLess(b, a)
  }

  lemma ByCountOrder()
    ensures TotalPreorder(ByCountLe)
  {
    forall x, y ensures ByCountLe(x, y) || ByCountLe(y, x) {
      if x.count == y.count && Less(x.name, y.name) {
        LessAsymmetric(x.name, y.name);
      }
    }
    forall x, y, z | ByCountLe(x, y) && ByCountLe(y, z) ensures ByCountLe(x, z) {
      if x.count == z.count {
        assert x.count == y.count == z.count;
        LessTotal(x.name, y.name);
        LessTotal(y.name, z.name);
        if x.name != y.name && y.name != z.name {
          LessTransitive(x.name, y.name, z.name);
        }
        if x.name == z.name {
          LessIrreflexive(x.name);
        } else {
          LessAsymmetric(x.name, z.name);
        }
      }
    }
  }

  /** A `ByCount`-sorted list has non-increasing counts, and names ascend within a count. */
  lemma ByCountSorted(s: seq<StringCount>)
    requires SortedBy(s, ByCountLe)
    ensures forall i, j :: 0 <= i < j < |s| ==> s[i].count >= s[j].count
    ensures forall i, j :: 0 <= i < j < |s| && s[i].count == s[j].count ==> LessEq(s[i].name, s[j].name)
  {
    forall i, j | 0 <= i < j < |s| && s[i].count == s[j].count ensures LessEq(s[i].name, s[j].name) {
      assert ByCountLe(s[i], s[j]);
      LessTotal(s[i].name, s[j].name);
    }
  }

  // ----- the pasted reaction list of `printTopEmojis` -----

  /** A line naming an emoji: it starts and ends with ':'. */
  predicate IsEmojiLine(line: string) {
    StartsWith(line, ":") && EndsWith(line, ":")
  }

  /** The entry line `i` contributes: an emoji line whose next line parses as an int. */
  function EntryAt(lines: seq<string>, i: nat): Option<StringCount>
    requires i < |lines|
  {
    if IsEmojiLine(lines[i]) && i + 1 < |lines| && Atoi(lines[i + 1]).Some?
    then Some(StringCount(Atoi(lines[i + 1]).value, lines[i], ""))
    else None
  }

  /** The entries of the first `n` lines, in line order. */
  function EntriesBefore(lines: seq<string>, n: nat): seq<StringCount>
    requires n <= |lines|
  {
    if n == 0 then []
    else EntriesBefore(lines, n - 1) + (if EntryAt(lines, n - 1).Some? then [EntryAt(lines, n - 1).value] else [])
  }

  /** An entry is produced exactly for an emoji line that has a next line, and that next line
      parses as the entry's count; an emoji line that is the last line yields nothing. */
  lemma {:induction false} EntriesBeforeMembers(lines: seq<string>, n: nat, e: StringCount)
    requires n <= |lines|
    ensures e in EntriesBefore(lines, n) <==>
      exists i :: 0 <= i < n && i + 1 < |lines| && IsEmojiLine(lines[i]) && e == StringCount(e.count, lines[i], "")
                  && Atoi(lines[i + 1]) == Some(e.count)
  {
    if n > 0 {
      var i := n - 1;
      EntriesBeforeMembers(lines, i, e);
      var here := i + 1 < |lines| && IsEmojiLine(lines[i]) && e == StringCount(e.count, lines[i], "")
                  && Atoi(lines[i + 1]) == Some(e.count);
      assert e in EntriesBefore(lines, n) <==> e in EntriesBefore(lines, i) || here;
      if here {
        assert exists k :: 0 <= k < n && k + 1 < |lines| && IsEmojiLine(lines[k]) && e == StringCount(e.count, lines[k], "")
                  && Atoi(lines[k + 1]) == Some(e.count) by {
          assert 0 <= i < n;
        }
      }
    }
  }

  /** The parsing loop of `printTopEmojis`. */
  method ParseReactions(reactions: string) returns (entries: seq<StringCount>)
    ensures entries == EntriesBefore(Split(reactions, '\n'), |Split(reactions, '\n')|)
  {
    var lines := Split(reactions, '\n');
    entries := [];
    for i := 0 to |lines|
      invariant entries == EntriesBefore(lines, i)
    {
      var line := lines[i];
      if StartsWith(line, ":") && EndsWith(line, ":") {
        if i + 1 >= |lines| {
          continue;
        }
        var count := Atoi(lines[i + 1]);
        if count.None? {
          continue;
        }
        entries := entries + [StringCount(count.value, line, "")];
      }
    }
  }

  // ----- the selection rule -----

  /** `previousCount` when entry `k` is reached: the sentinel `math.MaxInt64` before the first. */
  function PreviousCount(s: seq<StringCount>, k: nat): int
    requires k < |s|
  {
    if k == 0 then MaxInt64 else s[k - 1].count
  }

  /** Entry `k` passes both break tests, given that every earlier entry was taken. */
  predicate Admits(s: seq<StringCount>, k: nat, maxPrintCount: int, minReaction: int)
    requires k < |s|
  {
    && !(s[k].count != PreviousCount(s, k) && k >= maxPrintCount)
    && s[k].count >= minReaction
  }

  /** How many entries the selection takes: everything before the first entry that fails a test. */
  function TopCount(s: seq<StringCount>, maxPrintCount: int, minReaction: int): (n: nat)
    ensures n <= |s|
    ensures forall k :: 0 <= k < n ==> Admits(s, k, maxPrintCount, minReaction)
    ensures n < |s| ==> !Admits(s, n, maxPrintCount, minReaction)
  {
    TopCountFrom(s, 0, maxPrintCount, minReaction)
  }

  function TopCountFrom(s: seq<StringCount>, i: nat, maxPrintCount: int, minReaction: int): (n: nat)
    requires i <= |s|
    requires forall k :: 0 <= k < i ==> Admits(s, k, maxPrintCount, minReaction)
    ensures i <= n <= |s|
    ensures forall k :: 0 <= k < n ==> Admits(s, k, maxPrintCount, minReaction)
    ensures n < |s| ==> !Admits(s, n, maxPrintCount, minReaction)
    decreases |s| - i
  {
    if i == |s| || !Admits(s, i, maxPrintCount, minReaction) then i
    else TopCountFrom(s, i + 1, maxPrintCount, minReaction)
  }

  /** Every taken entry has at least the minimum count. */
  lemma TopAboveMinimum(s: seq<StringCount>, maxPrintCount: int, minReaction: int)
    ensures forall k :: 0 <= k < TopCount(s, maxPrintCount, minReaction) ==> s[k].count >= minReaction
  {
    forall k | 0 <= k < TopCount(s, maxPrintCount, minReaction) ensures s[k].count >= minReaction {
      assert Admits(s, k, maxPrintCount, minReaction);
    }
  }

  /** Past the limit only ties are taken: every entry beyond the first `maxPrintCount` has the
      same count as the last one within the limit. */
  lemma {:induction false} TopTiesPastLimit(s: seq<StringCount>, maxPrintCount: int, minReaction: int, k: nat)
    requires 1 <= maxPrintCount <= k < TopCount(s, maxPrintCount, minReaction)
    ensures s[k].count == s[maxPrintCount - 1].count
  {
    assert Admits(s, k, maxPrintCount, minReaction);
    if k > maxPrintCount {
      TopTiesPastLimit(s, maxPrintCount, minReaction, k - 1);
    }
  }

  /** A tie is never split: when the cut falls between two equal counts, it is the minimum that stopped it. */
  lemma TopKeepsTies(s: seq<StringCount>, maxPrintCount: int, minReaction: int)
    requires 0 < TopCount(s, maxPrintCount, minReaction) < |s|
    requires s[TopCount(s, maxPrintCount, minReaction)].count == s[TopCount(s, maxPrintCount, minReaction) - 1].count
    ensures s[TopCount(s, maxPrintCount, minReaction)].count < minReaction
  {
    var n := TopCount(s, maxPrintCount, minReaction);
    assert !Admits(s, n, maxPrintCount, minReaction);
  }

  /** When the first `maxPrintCount` entries all reach the minimum, all of them are taken. */
  lemma TopReachesLimit(s: seq<StringCount>, maxPrintCount: int, minReaction: int)
    requires forall k :: 0 <= k < |s| && k < maxPrintCount ==> s[k].count >= minReaction
    ensures TopCount(s, maxPrintCount, minReaction) >= if maxPrintCount < |s| then maxPrintCount else |s|
  {
    var n := TopCount(s, maxPrintCount, minReaction);
    if n < |s| {
      assert !Admits(s, n, maxPrintCount, minReaction);
    }
  }

  /** On a `ByCount`-sorted list the taken entries are the best: none left out has a higher count. */
  lemma TopIsBest(s: seq<StringCount>, maxPrintCount: int, minReaction: int)
    requires SortedBy(s, ByCountLe)
    ensures forall i, j :: 0 <= i < TopCount(s, maxPrintCount, minReaction) <= j < |s| ==> s[i].count >= s[j].count
  {
    ByCountSorted(s);
  }

  /** What the loop appends per taken entry: the creator, the count and the displayed name. */
  datatype Selection = Selection(creators: seq<string>, counts: seq<int>, emojis: seq<string>)

  /** The emoji-map key of an entry name: `name[1:len(name)-1]` when the name carries colons
      (a slice that panics below two characters), the name itself otherwise. */
  function EmojiKey(name: string, stripColons: bool): (key: Option<string>)
    ensures stripColons && |name| >= 2 ==> key == Some(name[1..|name| - 1])
    ensures stripColons && |name| < 2 ==> key.None?
    ensures !stripColons ==> key == Some(name)
  {
    if !stripColons then Some(name)
    else if |name| < 2 then None
    else Some(name[1..|name| - 1])
  }

  /** The creator of an entry's emoji, or None where the source panics (bad slice, or a nil
      pointer for a name missing from the map). */
  function CreatorOf(emojiMap: map<string, Emoji>, name: string, stripColons: bool): (c: Option<string>)
    ensures c.Some? <==> EmojiKey(name, stripColons).Some? && EmojiKey(name, stripColons).value in emojiMap
    ensures c.Some? ==> c.value == emojiMap[EmojiKey(name, stripColons).value].userId
  {
    var key := EmojiKey(name, stripColons);
    if key.Some? && key.value in emojiMap then Some(emojiMap[key.value].userId) else None
  }

  /** The name printed for an entry: the April Fools emoji replaces every name when set. */
  function Shown(name: string, aprilFools: Option<string>): string {
    if aprilFools.Some? then aprilFools.value else name
  }

  /** `r` is what the selection loop yields on `sorted`: an error exactly when some taken entry
      has no creator, otherwise one creator, count and shown name per taken entry. */
  ghost predicate CollectsTop(sorted: seq<StringCount>, maxPrintCount: int, minReaction: int, emojiMap: map<string, Emoji>,
                              stripColons: bool, aprilFools: Option<string>, r: Result<Selection>)
  {
    var n := TopCount(sorted, maxPrintCount, minReaction);
    && (r.Ok? <==> forall k :: 0 <= k < n ==> CreatorOf(emojiMap, sorted[k].name, stripColons).Some?)
    && (r.Ok? ==>
          && |r.value.creators| == |r.value.counts| == |r.value.emojis| == n
          && forall k :: 0 <= k < n ==>
               && Some(r.value.creators[k]) == CreatorOf(emojiMap, sorted[k].name, stripColons)
               && r.value.counts[k] == sorted[k].count
               && r.value.emojis[k] == Shown(sorted[k].name, aprilFools))
  }

  /** The selection loop of `printTopEmojis` and `printTopEmojisByReactionVote`. */
  method CollectTop(sorted: seq<StringCount>, maxPrintCount: int, minReaction: int, emojiMap: map<string, Emoji>,
                    stripColons: bool, aprilFools: Option<string>) returns (r: Result<Selection>)
    ensures CollectsTop(sorted, maxPrintCount, minReaction, emojiMap, stripColons, aprilFools, r)
  {
    var printedCount := 0;
    var previousCount := MaxInt64;
    var creators, counts, printedEmojis := [], [], [];
    ghost var n := TopCount(sorted, maxPrintCount, minReaction);
    for i := 0 to |sorted|
      invariant printedCount == i <= n
      invariant i > 0 ==> previousCount == sorted[i - 1].count
      invariant i == 0 ==> previousCount == MaxInt64
      invariant forall k :: 0 <= k < i ==> CreatorOf(emojiMap, sorted[k].name, stripColons).Some?
      invariant |creators| == |counts| == |printedEmojis| == i
      invariant forall k :: 0 <= k < i ==>
        && Some(creators[k]) == CreatorOf(emojiMap, sorted[k].name, stripColons)
        && counts[k] == sorted[k].count
        && printedEmojis[k] == Shown(sorted[k].name, aprilFools)
    {
      var entry := sorted[i];
      assert previousCount == PreviousCount(sorted, i);
      if entry.count != previousCount && printedCount >= maxPrintCount {
        assert !Admits(sorted, i, maxPrintCount, minReaction);
        break;
      }
      if entry.count < minReaction {
        assert !Admits(sorted, i, maxPrintCount, minReaction);
        break;
      }
      assert i < n by {
        assert Admits(sorted, i, maxPrintCount, minReaction);
      }
      var creator := CreatorOf(emojiMap, entry.name, stripColons);
      if creator.None? {
        return Err("nil emoji for " + entry.name);
      }
      creators := creators + [creator.value];
      counts := counts + [entry.count];
      printedEmojis := printedEmojis + [Shown(entry.name, aprilFools)];
      previousCount := entry.count;
      printedCount := printedCount + 1;
    }
    r := Ok(Selection(creators, counts, printedEmojis));
  }

  /** `printTopEmojis`' limits: ten emojis (ties kept), at least three reactions. */
  const MaxPrintCount: int := 10
  const MinReaction: int := 3

  /** What the ranking part of `printTopEmojis` selects from a pasted reaction list: the parsed
      entries in some `ByCount` order, cut by `TopCount` with limit 10 and minimum 3. */
  ghost predicate RanksReactions(reactions: string, catalog: Catalog, r: Result<Selection>) {
    var lines := Split(reactions, '\n');
    exists sorted: seq<StringCount> ::
      && multiset(sorted) == multiset(EntriesBefore(lines, |lines|))
      && SortedBy(sorted, ByCountLe)
      && CollectsTop(sorted, MaxPrintCount, MinReaction, catalog.emojiMap, true, None, r)
  }

  /** The ranking part of `printTopEmojis`: parse, sort by count, select. */
  method RankReactions(reactions: string, catalog: Catalog) returns (r: Result<Selection>)
    ensures RanksReactions(reactions, catalog, r)
  {
    var entries := ParseReactions(reactions);
    var a := new StringCount[|entries|](i requires 0 <= i < |entries| => entries[i]);
    assert a[..] == entries;
    ByCountOrder();
    Sort(a, ByCountLe);
    r := CollectTop(a[..], MaxPrintCount, MinReaction, catalog.emojiMap, true, None);
  }
}

/**
 * `longest_emoji_names.go`: sort the catalog in place by name length, longest first, and list
 * the first hundred. Name length is counted in characters (Go counts bytes; custom emoji names
 * are ASCII).
 */
module Longest {
  import opened Emojis
  import opened Sorting
  import opened People

  /** `maxEmojisForLongestEmojis`. */
  const MaxEmojisForLongestEmojis: nat := 100

  /** `StringLengthSort.Less`: the longer name first. */
  predicate LengthLess(a: Emoji, b: Emoji) {
    |a.name| > |b.name|
  }

  predicate LengthLe(a: Emoji, b: Emoji) {
    !LengthLess(b, a)
  }

  lemma LengthOrder()
    ensures TotalPreorder(LengthLe)
  {
  }

  /** One line of the listing: its number, the name (shown as emoji and as text), its length. */
  datatype LongLine = LongLine(rank: nat, name: string, length: nat)

  /** `longestEmojis`: after the sort the catalog is a permutation ordered by non-increasing
      name length, and the listing shows its first min(100, n) entries, numbered from one; no
      unlisted name is longer than a listed one. */
  method LongestEmojis(emoji: array<Emoji>) returns (lines: seq<LongLine>)
    modifies emoji
    ensures multiset(emoji[..]) == old(multiset(emoji[..]))
    ensures forall i, j :: 0 <= i < j < emoji.Length ==> |emoji[i].name| >= |emoji[j].name|
    ensures |lines| == Min(MaxEmojisForLongestEmojis, emoji.Length)
    ensures forall k :: 0 <= k < |lines| ==> lines[k] == LongLine(k + 1, emoji[k].name, |emoji[k].name|)
    ensures forall k, j :: 0 <= k < |lines| <= j < emoji.Length ==> lines[k].length >= |emoji[j].name|
  {
    LengthOrder();
    Sort(emoji, LengthLe);
    lines := [];
    var i := 0;
    while i < MaxEmojisForLongestEmojis && i < emoji.Length
      invariant 0 <= i <= Min(MaxEmojisForLongestEmojis, emoji.Length)
      invariant |lines| == i
      invariant forall k :: 0 <= k < i ==> lines[k] == LongLine(k + 1, emoji[k].name, |emoji[k].name|)
    {
      lines := lines + [LongLine(i + 1, emoji[i].name, |emoji[i].name|)];
      i := i + 1;
    }
  }
}

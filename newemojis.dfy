/**
 * The weekly new-emoji announcement, `mostRecentEmojis` (main.go): sort the catalog newest
 * first, walk it up to the previous run's last emoji, count uploads per person, and cut the
 * new names (oldest first) into channel messages of 23 names and side-by-side audit parts of
 * at most 10000 characters.
 */
module NewEmojis {
  import opened Wrappers
  import opened Strings
  import opened Sorting
  import opened Emojis
  import opened Ranking
  import opened People

  /** `maxEmojisPerMessage`: the batch counter wraps after this value, so a message holds one more name. */
  const MaxEmojisPerMessage: nat := 22
  const NamesPerMessage: nat := MaxEmojisPerMessage + 1
  const MaxCharactersPerMessage: nat := 10000

  /** `EmojiUploadDateSort`: newer first. */
  predicate CreatedLess(a: Emoji, b: Emoji) {
    a.created > b.created
  }

  predicate CreatedLe(a: Emoji, b: Emoji) {
    !CreatedLess(b, a)
  }

  lemma CreatedOrder()
    ensures TotalPreorder(CreatedLe)
  {
  }

  /** Where the walk stops: the first emoji named `marker`, or the end of the list. */
  function MarkerIndex(emojis: seq<Emoji>, marker: string): (n: nat)
    ensures n <= |emojis|
    ensures forall k :: 0 <= k < n ==> emojis[k].name != marker
    ensures n < |emojis| ==> emojis[n].name == marker
  {
    if |emojis| == 0 || emojis[0].name == marker then 0
    else 1 + MarkerIndex(emojis[1..], marker)
  }

  function NameList(emojis: seq<Emoji>): (names: seq<string>)
    ensures |names| == |emojis| && forall k :: 0 <= k < |emojis| ==> names[k] == emojis[k].name
  {
    if |emojis| == 0 then [] else NameList(emojis[..|emojis| - 1]) + [emojis[|emojis| - 1].name]
  }

  function Reverse<T>(s: seq<T>): (r: seq<T>)
    ensures |r| == |s| && forall k :: 0 <= k < |s| ==> r[k] == s[|s| - 1 - k]
  {
    if |s| == 0 then [] else [s[|s| - 1]] + Reverse(s[..|s| - 1])
  }

  function Concat(parts: seq<string>): string {
    if |parts| == 0 then "" else Concat(parts[..|parts| - 1]) + parts[|parts| - 1]
  }

  // ----- channel messages -----

  function Tag(name: string): string {
    ":" + name + ":"
  }

  /** The names as consecutive ":name:" tags. */
  function Tags(names: seq<string>): string {
    if |names| == 0 then "" else Tags(names[..|names| - 1]) + Tag(names[|names| - 1])
  }

  lemma {:induction false} TagsAppend(a: seq<string>, b: seq<string>)
    ensures Tags(a + b) == Tags(a) + Tags(b)
  {
    if |b| > 0 {
      TagsAppend(a, b[..|b| - 1]);
      assert (a + b)[..|a + b| - 1] == a + b[..|b| - 1];
    } else {
      assert a + b == a;
    }
  }

  /** The names of each channel message, in order: a name opens a new group when there is
      none yet or the last one already holds 23 names. */
  function NameGroups(names: seq<string>): (groups: seq<seq<string>>)
    ensures |names| > 0 <==> |groups| > 0
  {
    if |names| == 0 then []
    else
      var g := NameGroups(names[..|names| - 1]);
      var x := names[|names| - 1];
      if |g| == 0 || |g[|g| - 1]| == NamesPerMessage then g + [[x]]
      else g[..|g| - 1] + [g[|g| - 1] + [x]]
  }

  function Joined(groups: seq<seq<string>>): seq<string> {
    if |groups| == 0 then [] else Joined(groups[..|groups| - 1]) + groups[|groups| - 1]
  }

  /** The groups hold the names in order; each holds 1 to 23 names, and all but the last exactly 23. */
  lemma {:induction false} NameGroupsShape(names: seq<string>)
    ensures Joined(NameGroups(names)) == names
    ensures forall k :: 0 <= k < |NameGroups(names)| ==> 1 <= |NameGroups(names)[k]| <= NamesPerMessage
    ensures forall k :: 0 <= k < |NameGroups(names)| - 1 ==> |NameGroups(names)[k]| == NamesPerMessage
  {
    NameGroupsJoined(names);
    NameGroupsSizes(names);
  }

  lemma JoinedSnoc(g: seq<seq<string>>, h: seq<string>)
    ensures Joined(g + [h]) == Joined(g) + h
  {
    assert (g + [h])[..|g|] == g;
  }

  lemma {:induction false} NameGroupsJoined(names: seq<string>)
    ensures Joined(NameGroups(names)) == names
  {
    if |names| > 0 {
      var init := names[..|names| - 1];
      NameGroupsJoined(init);
      JoinedGroupsSnoc(init, names[|names| - 1]);
      assert names == init + [names[|names| - 1]];
    }
  }

  lemma JoinedGroupsSnoc(names: seq<string>, x: string)
    requires Joined(NameGroups(names)) == names
    ensures Joined(NameGroups(names + [x])) == names + [x]
  {
    NameGroupsSnoc(names, x);
    var g := NameGroups(names);
    if |g| == 0 || |g[|g| - 1]| == NamesPerMessage {
      JoinedSnoc(g, [x]);
    } else {
      var front := g[..|g| - 1];
      assert g == front + [g[|g| - 1]];
      JoinedSnoc(front, g[|g| - 1]);
      JoinedSnoc(front, g[|g| - 1] + [x]);
    }
  }

  lemma {:induction false} NameGroupsSizes(names: seq<string>)
    ensures forall k :: 0 <= k < |NameGroups(names)| ==> 1 <= |NameGroups(names)[k]| <= NamesPerMessage
    ensures forall k :: 0 <= k < |NameGroups(names)| - 1 ==> |NameGroups(names)[k]| == NamesPerMessage
  {
    if |names| > 0 {
      NameGroupsSizes(names[..|names| - 1]);
    }
  }

  /** The channel messages built from `names` in order: one message of tags per group. */
  function SlackBatches(names: seq<string>): (batches: seq<string>)
    ensures |batches| == |NameGroups(names)|
    ensures forall k :: 0 <= k < |batches| ==> batches[k] == Tags(NameGroups(names)[k])
  {
    var g := NameGroups(names);
    seq(|g|, k requires 0 <= k < |g| => Tags(g[k]))
  }

  /** Joined back together, the messages give every name's tag, in order. */
  lemma SlackBatchesConcat(names: seq<string>)
    ensures Concat(SlackBatches(names)) == Tags(names)
  {
    NameGroupsShape(names);
    TagGroupsConcat(NameGroups(names), SlackBatches(names));
  }

  lemma {:induction false} TagGroupsConcat(groups: seq<seq<string>>, batches: seq<string>)
    requires |batches| == |groups| && forall k :: 0 <= k < |groups| ==> batches[k] == Tags(groups[k])
    ensures Concat(batches) == Tags(Joined(groups))
  {
    if |groups| > 0 {
      var n := |groups| - 1;
      TagGroupsConcat(groups[..n], batches[..n]);
      TagsAppend(Joined(groups[..n]), groups[n]);
    }
  }

  // ----- audit parts -----

  /** One audit line: the emoji beside its name. */
  function Piece(name: string): string {
    ":" + name + ": " + name + "\n"
  }

  function Pieces(names: seq<string>): string {
    if |names| == 0 then "" else Pieces(names[..|names| - 1]) + Piece(names[|names| - 1])
  }

  /** The audit parts built from `names` in order: start from one empty part; a piece opens a
      new part when adding it to the last part would pass 10000 characters. */
  function AuditParts(names: seq<string>): (parts: seq<string>)
    ensures |parts| >= 1
  {
    if |names| == 0 then [""]
    else
      var prev := AuditParts(names[..|names| - 1]);
      var piece := Piece(names[|names| - 1]);
      if |piece| + |prev[|prev| - 1]| > MaxCharactersPerMessage then prev + [piece]
      else prev[..|prev| - 1] + [prev[|prev| - 1] + piece]
  }

  /** The parts joined give every piece, in order. */
  lemma {:induction false} AuditPartsConcat(names: seq<string>)
    ensures Concat(AuditParts(names)) == Pieces(names)
  {
    if |names| > 0 {
      var init := names[..|names| - 1];
      AuditPartsConcat(init);
      var prev := AuditParts(init);
      var piece := Piece(names[|names| - 1]);
      var front := prev[..|prev| - 1];
      assert prev == front + [prev[|prev| - 1]];
      if |piece| + |prev[|prev| - 1]| > MaxCharactersPerMessage {
        assert (prev + [piece])[..|prev|] == prev;
      } else {
        assert (front + [prev[|prev| - 1] + piece])[..|front|] == front;
        assert Concat(prev) == Concat(front) + prev[|prev| - 1];
      }
    }
  }

  /** A part passes 10000 characters only when it is one piece that long by itself; only the
      first part can be empty. */
  lemma {:induction false} AuditPartsFit(names: seq<string>)
    ensures forall k :: 0 <= k < |AuditParts(names)| ==>
      |AuditParts(names)[k]| <= MaxCharactersPerMessage || AuditParts(names)[k] in PieceSet(names)
    ensures forall k :: 1 <= k < |AuditParts(names)| ==> AuditParts(names)[k] != ""
  {
    if |names| > 0 {
      var init := names[..|names| - 1];
      AuditPartsFit(init);
      var prev := AuditParts(init);
      var piece := Piece(names[|names| - 1]);
      assert PieceSet(names) == PieceSet(init) + {piece};
    }
  }

  /** The audit lines of `names`, as a set. */
  function PieceSet(names: seq<string>): set<string> {
    set k | 0 <= k < |names| :: Piece(names[k])
  }

  // ----- the walk -----

  /** What `mostRecentEmojis` computes before sending: the new names (newest first), the
      per-person counts, whether the marker was met, the channel messages and the audit parts. */
  datatype Announcement = Announcement(
    newEmojis: seq<string>,
    people: map<string, StringCount>,
    foundLastEmoji: bool,
    slackMessages: seq<string>,
    auditMessage: seq<string>)

  /** `mostRecentEmojis` up to its sends: the catalog is sorted in place, newest first. */
  method MostRecentEmojis(emojis: array<Emoji>, lastNewEmoji: string) returns (a: Announcement)
    modifies emojis
    ensures SortedBy(emojis[..], CreatedLe)
    ensures multiset(emojis[..]) == old(multiset(emojis[..]))
    ensures var n := MarkerIndex(emojis[..], Remove(lastNewEmoji, ':'));
      && a.newEmojis == NameList(emojis[..n])
      && a.foundLastEmoji == (n < emojis.Length)
      && (forall id :: id in a.people <==> id in Uploaders(emojis[..n]))
      && (forall id :: id in a.people ==> a.people[id].id == id && a.people[id].count == CountOf(emojis[..n], id))
      && (forall id :: id in a.people ==>
            exists k :: FirstUploadAt(emojis[..n], id, k) && a.people[id].name == emojis[k].userDisplayName)
    ensures a.slackMessages == SlackBatches(Reverse(a.newEmojis))
    ensures a.auditMessage == AuditParts(Reverse(a.newEmojis))
  {
    var lastNewEmojiSanitized := Remove(lastNewEmoji, ':');
    CreatedOrder();
    Sort(emojis, CreatedLe);
    var allNewEmojis, people, foundLastEmoji := WalkToMarker(emojis[..], lastNewEmojiSanitized);
    var slackMessages, auditMessage := BatchNewEmojis(allNewEmojis);
    a := Announcement(allNewEmojis, people, foundLastEmoji, slackMessages, auditMessage);
  }

  /** The first loop of `mostRecentEmojis`: the names before the first emoji named `marker`,
      counted per uploader as in `topAndNewUploaders`. */
  method WalkToMarker(all: seq<Emoji>, marker: string)
    returns (allNewEmojis: seq<string>, people: map<string, StringCount>, foundLastEmoji: bool)
    ensures var n := MarkerIndex(all, marker);
      && allNewEmojis == NameList(all[..n])
      && foundLastEmoji == (n < |all|)
      && (forall id :: id in people <==> id in Uploaders(all[..n]))
      && (forall id :: id in people ==> people[id].id == id && people[id].count == CountOf(all[..n], id))
      && (forall id :: id in people ==> exists k :: FirstUploadAt(all[..n], id, k) && people[id].name == all[k].userDisplayName)
  {
    allNewEmojis := [];
    people := map[];
    foundLastEmoji := false;
    ghost var n := MarkerIndex(all, marker);
    var i := 0;
    while i < |all|
      invariant 0 <= i <= n
      invariant !foundLastEmoji
      invariant allNewEmojis == NameList(all[..i])
      invariant Tally(people, all[..i])
    {
      var e := all[i];
      if e.name == marker {
        foundLastEmoji := true;
        break;
      }
      assert all[..i + 1] == all[..i] + [e];
      people := AddUpload(people, all[..i], e);
      allNewEmojis := allNewEmojis + [e.name];
      i := i + 1;
    }
    assert i == n;
  }

  lemma NameGroupsSnoc(names: seq<string>, x: string)
    ensures var g := NameGroups(names);
      NameGroups(names + [x]) == if |g| == 0 || |g[|g| - 1]| == NamesPerMessage then g + [[x]]
                                 else g[..|g| - 1] + [g[|g| - 1] + [x]]
  {
    assert (names + [x])[..|names|] == names;
  }

  lemma AuditPartsSnoc(names: seq<string>, x: string)
    ensures var prev := AuditParts(names);
      AuditParts(names + [x]) == if |Piece(x)| + |prev[|prev| - 1]| > MaxCharactersPerMessage then prev + [Piece(x)]
                                 else prev[..|prev| - 1] + [prev[|prev| - 1] + Piece(x)]
  {
    assert (names + [x])[..|names|] == names;
  }

  /** One channel message per group, holding that group's tags. */
  ghost predicate MessagesOf(msgs: seq<string>, g: seq<seq<string>>) {
    && |msgs| == |g|
    && forall k :: 0 <= k < |g| ==> msgs[k] == Tags(g[k])
  }

  /** The counters of the loop: `batch` is the message being filled and `j` the number of
      names in it, modulo 23. */
  predicate CountersOf(batch: int, j: int, g: seq<seq<string>>) {
    && 0 <= j < NamesPerMessage
    && 0 <= batch
    && (j == 0 ==> batch == |g| && (|g| == 0 || |g[|g| - 1]| == NamesPerMessage))
    && (j != 0 ==> |g| > 0 && batch == |g| - 1 && |g[|g| - 1]| == j)
  }

  /** The channel-message state after the names `names`. */
  ghost predicate BatchState(msgs: seq<string>, batch: int, j: int, names: seq<string>) {
    var g := NameGroups(names);
    MessagesOf(msgs, g) && CountersOf(batch, j, g)
  }

  lemma TagsSnoc(names: seq<string>, x: string)
    ensures Tags(names + [x]) == Tags(names) + Tag(x)
  {
    assert (names + [x])[..|names|] == names;
  }

  /** Appending a name to the last group appends its tag to the last message. */
  lemma MessagesExtend(msgs: seq<string>, g: seq<seq<string>>, x: string)
    requires MessagesOf(msgs, g) && |g| > 0
    ensures MessagesOf(msgs[|g| - 1 := msgs[|g| - 1] + Tag(x)], g[..|g| - 1] + [g[|g| - 1] + [x]])
  {
    var last := |g| - 1;
    TagsSnoc(g[last], x);
    var g' := g[..last] + [g[last] + [x]];
    var msgs' := msgs[last := msgs[last] + Tag(x)];
    forall k | 0 <= k < |g'|
      ensures msgs'[k] == Tags(g'[k])
    {
      if k < last {
        assert g'[k] == g[k];
      }
    }
  }

  /** A new group of one name is a new message of one tag. */
  lemma MessagesOpen(msgs: seq<string>, g: seq<seq<string>>, x: string)
    requires MessagesOf(msgs, g)
    ensures MessagesOf(msgs + [Tag(x)], g + [[x]])
  {
    assert Tags([x]) == Tags([]) + Tag(x);
    var g' := g + [[x]];
    var msgs' := msgs + [Tag(x)];
    forall k | 0 <= k < |g'|
      ensures msgs'[k] == Tags(g'[k])
    {
      if k < |g| {
        assert g'[k] == g[k];
      }
    }
  }

  lemma BatchStateExtend(msgs: seq<string>, batch: int, j: int, names: seq<string>, x: string)
    requires BatchState(msgs, batch, j, names)
    requires |msgs| > batch
    ensures BatchState(msgs[batch := msgs[batch] + Tag(x)], if j == MaxEmojisPerMessage then batch + 1 else batch,
                       if j == MaxEmojisPerMessage then 0 else j + 1, names + [x])
  {
    var g := NameGroups(names);
    NameGroupsSnoc(names, x);
    MessagesExtend(msgs, g, x);
    var g' := g[..|g| - 1] + [g[|g| - 1] + [x]];
    assert NameGroups(names + [x]) == g';
    assert |g'| == |g| && |g'[|g'| - 1]| == j + 1;
  }

  lemma BatchStateOpen(msgs: seq<string>, batch: int, j: int, names: seq<string>, x: string)
    requires BatchState(msgs, batch, j, names)
    requires |msgs| <= batch
    ensures BatchState(msgs + [Tag(x)], batch, 1, names + [x])
  {
    var g := NameGroups(names);
    NameGroupsSnoc(names, x);
    MessagesOpen(msgs, g, x);
    assert NameGroups(names + [x]) == g + [[x]];
  }

  lemma PrefixSnoc<T>(r: seq<T>, n: int)
    requires 0 <= n < |r|
    ensures r[..n + 1] == r[..n] + [r[n]]
  {
  }

  /** Walking `s` from the back builds its reversal front to back. */
  lemma ReversePrefixSnoc<T>(s: seq<T>, z: int)
    requires 0 <= z < |s|
    ensures Reverse(s)[..|s| - z] == Reverse(s)[..|s| - 1 - z] + [s[z]]
  {
    var r := Reverse(s);
    var n := |s| - 1 - z;
    PrefixSnoc(r, n);
  }

  /** One step of the audit side of the second loop of `mostRecentEmojis`. */
  method AddAuditPiece(parts: seq<string>, names: seq<string>, emojiName: string) returns (parts': seq<string>)
    requires parts == AuditParts(names)
    ensures parts' == AuditParts(names + [emojiName])
  {
    AuditPartsSnoc(names, emojiName);
    var newPart := Piece(emojiName);
    if |newPart| + |parts[|parts| - 1]| > MaxCharactersPerMessage {
      parts' := parts + [newPart];
    } else {
      parts' := parts[..|parts| - 1] + [parts[|parts| - 1] + newPart];
    }
  }

  /** One step of the channel side of the second loop of `mostRecentEmojis`. */
  method AddTag(msgs: seq<string>, batch: int, j: int, names: seq<string>, emojiName: string)
    returns (msgs': seq<string>, batch': int, j': int)
    requires BatchState(msgs, batch, j, names)
    ensures BatchState(msgs', batch', j', names + [emojiName])
  {
    if |msgs| > batch {
      BatchStateExtend(msgs, batch, j, names, emojiName);
      msgs' := msgs[batch := msgs[batch] + Tag(emojiName)];
    } else {
      BatchStateOpen(msgs, batch, j, names, emojiName);
      msgs' := msgs + [Tag(emojiName)];
    }
    if j == MaxEmojisPerMessage {
      batch', j' := batch + 1, 0;
    } else {
      batch', j' := batch, j + 1;
    }
  }

  /** The second loop of `mostRecentEmojis`: the new names oldest first into channel messages
      and audit parts. (Its test for the marker name never fires: no new name is the marker.) */
  method BatchNewEmojis(allNewEmojis: seq<string>) returns (slackMessages: seq<string>, auditMessage: seq<string>)
    ensures slackMessages == SlackBatches(Reverse(allNewEmojis))
    ensures auditMessage == AuditParts(Reverse(allNewEmojis))
  {
    ghost var oldestFirst := Reverse(allNewEmojis);
    var done: seq<string> := [];
    slackMessages := [];
    var batch := 0;
    var j := 0;
    auditMessage := [""];
    var z := |allNewEmojis| - 1;
    while z >= 0
      invariant -1 <= z < |allNewEmojis|
      invariant done == oldestFirst[..|allNewEmojis| - 1 - z]
      invariant BatchState(slackMessages, batch, j, done)
      invariant auditMessage == AuditParts(done)
    {
      var emojiName := allNewEmojis[z];
      ReversePrefixSnoc(allNewEmojis, z);
      auditMessage := AddAuditPiece(auditMessage, done, emojiName);
      slackMessages, batch, j := AddTag(slackMessages, batch, j, done, emojiName);
      done := done + [emojiName];
      z := z - 1;
    }
    assert oldestFirst[..|allNewEmojis|] == oldestFirst;
  }
}

/**
 * `meme-counter.go` and `brings-you-counter.go`: classifying emoji names by substring into
 * meme families, and choosing the emoji that opens the announcement. `rand.Intn` is a
 * nondeterministic choice of a valid index; the announcement text is kept as its parts.
 */
module Memes {
  import opened Wrappers
  import opened Strings
  import opened Emojis
  import opened NewEmojis

  /** A configured meme family: its display name, the substrings that make a name belong to
      it, the emoji that opens the message when it leads, and the text shown when it has no
      new emoji. */
  datatype EmojiMeme = EmojiMeme(emojiName: string, subStrings: seq<string>, startEmoji: string, noNewEmojis: string)

  /** `name` contains one of the family's substrings. */
  predicate InMeme(name: string, meme: EmojiMeme) {
    exists k :: 0 <= k < |meme.subStrings| && Contains(name, meme.subStrings[k])
  }

  /** The names of the family, in walk order. */
  function MemeNames(names: seq<string>, meme: EmojiMeme): (r: seq<string>)
    ensures |r| <= |names|
  {
    if |names| == 0 then []
    else MemeNames(names[..|names| - 1], meme) + (if InMeme(names[|names| - 1], meme) then [names[|names| - 1]] else [])
  }

  /** A name is listed under a family iff it is walked and matches, and it is listed once per
      time it is walked: matching several substrings does not list it twice. */
  lemma {:induction false} MemeNamesExact(names: seq<string>, meme: EmojiMeme, x: string)
    ensures multiset(MemeNames(names, meme))[x] == if InMeme(x, meme) then multiset(names)[x] else 0
  {
    if |names| > 0 {
      var init := names[..|names| - 1];
      MemeNamesExact(init, meme, x);
      assert names == init + [names[|names| - 1]];
    }
  }

  /** The walked names: the list up to, not including, the first emoji named like the marker. */
  function Walked(emojis: seq<Emoji>, marker: string): seq<string> {
    NameList(emojis[..MarkerIndex(emojis, marker)])
  }

  /** The index of the first family with the strictly largest positive count, or -1 when every
      count is zero or less. */
  function Leader(counts: seq<int>): (l: int)
    ensures -1 <= l < |counts|
    ensures l == -1 <==> forall j :: 0 <= j < |counts| ==> counts[j] <= 0
    ensures l >= 0 ==> counts[l] > 0
    ensures l >= 0 ==> forall j :: 0 <= j < |counts| ==> counts[j] <= counts[l]
    ensures l >= 0 ==> forall j :: 0 <= j < l ==> counts[j] < counts[l]
  {
    if |counts| == 0 then -1
    else
      var init := counts[..|counts| - 1];
      var l := Leader(init);
      var best := if l < 0 then 0 else counts[l];
      assert forall j :: 0 <= j < |init| ==> init[j] == counts[j];
      if counts[|counts| - 1] > best then |counts| - 1 else l
  }

  /** One clause of the announcement: how many new emojis a family has, its name, an example,
      and whether it is the last clause (printed with a leading "and "). */
  datatype Clause = Clause(count: nat, memeName: string, example: string, last: bool)

  datatype MemeMessage = MemeMessage(startEmoji: string, clauses: seq<Clause>)

  /** The count of each family among the walked names. */
  function Counts(names: seq<string>, memes: seq<EmojiMeme>): (c: seq<int>)
    ensures |c| == |memes|
    ensures forall i :: 0 <= i < |memes| ==> c[i] == |MemeNames(names, memes[i])|
  {
    seq(|memes|, i requires 0 <= i < |memes| => |MemeNames(names, memes[i])|)
  }

  /** The substring loop: stops at the first substring `name` contains. */
  method MatchesMeme(name: string, meme: EmojiMeme) returns (matched: bool)
    ensures matched == InMeme(name, meme)
  {
    var subs := meme.subStrings;
    var j := 0;
    while j < |subs|
      invariant 0 <= j <= |subs|
      invariant forall k :: 0 <= k < j ==> !Contains(name, subs[k])
    {
      if Contains(name, subs[j]) {
        return true;
      }
      j := j + 1;
    }
    return false;
  }

  /** The inner loop of `memeCounter`: the walked name joins every family it matches. */
  method AddToMemes(lists: seq<seq<string>>, memes: seq<EmojiMeme>, walked: seq<string>, name: string)
    returns (lists': seq<seq<string>>)
    requires |lists| == |memes|
    requires forall i :: 0 <= i < |memes| ==> lists[i] == MemeNames(walked, memes[i])
    ensures |lists'| == |memes|
    ensures forall i :: 0 <= i < |memes| ==> lists'[i] == MemeNames(walked + [name], memes[i])
  {
    ghost var all := walked + [name];
    assert all[..|all| - 1] == walked;
    lists' := lists;
    for i := 0 to |memes|
      invariant |lists'| == |memes|
      invariant forall k :: 0 <= k < i ==> lists'[k] == MemeNames(all, memes[k])
      invariant forall k :: i <= k < |memes| ==> lists'[k] == lists[k]
    {
      var matched := MatchesMeme(name, memes[i]);
      if matched {
        lists' := lists'[i := lists'[i] + [name]];
      }
    }
  }

  /** The walk of `memeCounter`: up to the marker, each name joins every family it matches. */
  method CollectMemes(emojis: seq<Emoji>, memes: seq<EmojiMeme>, marker: string) returns (newMemeEmojis: seq<seq<string>>)
    ensures |newMemeEmojis| == |memes|
    ensures forall i :: 0 <= i < |memes| ==> newMemeEmojis[i] == MemeNames(Walked(emojis, marker), memes[i])
  {
    ghost var stop := MarkerIndex(emojis, marker);
    newMemeEmojis := seq(|memes|, i => []);
    var e := 0;
    while e < |emojis|
      invariant 0 <= e <= stop
      invariant |newMemeEmojis| == |memes|
      invariant forall i :: 0 <= i < |memes| ==> newMemeEmojis[i] == MemeNames(NameList(emojis[..e]), memes[i])
    {
      var name := emojis[e].name;
      if name == marker {
        break;
      }
      assert NameList(emojis[..e + 1]) == NameList(emojis[..e]) + [name] by {
        assert emojis[..e + 1][..e] == emojis[..e];
      }
      newMemeEmojis := AddToMemes(newMemeEmojis, memes, NameList(emojis[..e]), name);
      e := e + 1;
    }
    assert e == stop;
  }

  /** The size of each list. */
  function Lengths(lists: seq<seq<string>>): seq<int> {
    seq(|lists|, i requires 0 <= i < |lists| => |lists[i]|)
  }

  /** The argmax of `memeCounter`: the first family whose count beats every earlier one,
      starting from zero and `genericSadEmoji`. */
  method ChooseStart(newMemeEmojis: seq<seq<string>>, memes: seq<EmojiMeme>, genericSadEmoji: string) returns (startEmoji: string)
    requires |newMemeEmojis| == |memes|
    ensures var l := Leader(Lengths(newMemeEmojis));
      startEmoji == if l < 0 then genericSadEmoji else memes[l].startEmoji
  {
    startEmoji := genericSadEmoji;
    var maxNewEmojis := 0;
    ghost var counts := Lengths(newMemeEmojis);
    for i := 0 to |memes|
      invariant var l := Leader(counts[..i]);
        && (l < 0 ==> maxNewEmojis == 0 && startEmoji == genericSadEmoji)
        && (l >= 0 ==> maxNewEmojis == counts[l] && startEmoji == memes[l].startEmoji)
    {
      assert counts[..i + 1][..i] == counts[..i];
      if |newMemeEmojis[i]| > maxNewEmojis {
        maxNewEmojis := |newMemeEmojis[i]|;
        startEmoji := memes[i].startEmoji;
      }
    }
    assert counts[..|memes|] == counts;
  }

  /** The clauses: a random member of each family (its `NoNewEmojis` text when it has none),
      with "and " before the last. */
  method Clauses(newMemeEmojis: seq<seq<string>>, memes: seq<EmojiMeme>) returns (messages: seq<Clause>)
    requires |newMemeEmojis| == |memes| > 0
    ensures |messages| == |memes|
    ensures forall i :: 0 <= i < |memes| ==>
      var c := messages[i];
      && c.count == |newMemeEmojis[i]|
      && c.memeName == memes[i].emojiName
      && (c.last <==> i == |memes| - 1)
      && (c.count == 0 ==> c.example == memes[i].noNewEmojis)
      && (c.count > 0 ==> c.example in newMemeEmojis[i])
  {
    var randomMemeEmojis: seq<string> := [];
    for i := 0 to |memes|
      invariant |randomMemeEmojis| == i
      invariant forall k :: 0 <= k < i ==>
        && (|newMemeEmojis[k]| == 0 ==> randomMemeEmojis[k] == memes[k].noNewEmojis)
        && (|newMemeEmojis[k]| > 0 ==> randomMemeEmojis[k] in newMemeEmojis[k])
    {
      if |newMemeEmojis[i]| == 0 {
        randomMemeEmojis := randomMemeEmojis + [memes[i].noNewEmojis];
      } else {
        var pick :| 0 <= pick < |newMemeEmojis[i]|;
        randomMemeEmojis := randomMemeEmojis + [newMemeEmojis[i][pick]];
      }
    }
    messages := [];
    for i := 0 to |memes|
      invariant |messages| == i
      invariant forall k :: 0 <= k < i ==> messages[k] == Clause(|newMemeEmojis[k]|, memes[k].emojiName, randomMemeEmojis[k], false)
    {
      messages := messages + [Clause(|newMemeEmojis[i]|, memes[i].emojiName, randomMemeEmojis[i], false)];
    }
    messages := messages[|messages| - 1 := messages[|messages| - 1].(last := true)];
  }

  /** `memeCounter`: nothing without configured families; otherwise list the walked names of
      each family, open with the leading family's start emoji (`genericSadEmoji` if no family
      has a new emoji), and give one clause per family in configuration order. */
  method MemeCounter(emojis: seq<Emoji>, memes: seq<EmojiMeme>, lastNewEmoji: string, genericSadEmoji: string)
    returns (r: Option<MemeMessage>)
    ensures |memes| == 0 <==> r.None?
    ensures r.Some? ==>
      var names := Walked(emojis, Remove(lastNewEmoji, ':'));
      var l := Leader(Counts(names, memes));
      && r.value.startEmoji == (if l < 0 then genericSadEmoji else memes[l].startEmoji)
      && |r.value.clauses| == |memes|
      && forall i :: 0 <= i < |memes| ==>
           var c := r.value.clauses[i];
           && c.count == |MemeNames(names, memes[i])|
           && c.memeName == memes[i].emojiName
           && (c.last <==> i == |memes| - 1)
           && (c.count == 0 ==> c.example == memes[i].noNewEmojis)
           && (c.count > 0 ==> c.example in MemeNames(names, memes[i]))
  {
    if |memes| == 0 {
      return None;
    }
    var lastNewEmojiSanitized := Remove(lastNewEmoji, ':');
    var newMemeEmojis := CollectMemes(emojis, memes, lastNewEmojiSanitized);
    var startEmoji := ChooseStart(newMemeEmojis, memes, genericSadEmoji);
    assert Lengths(newMemeEmojis) == Counts(Walked(emojis, lastNewEmojiSanitized), memes);
    var messages := Clauses(newMemeEmojis, memes);
    r := Some(MemeMessage(startEmoji, messages));
  }

  // ---------------------------------------------------------------------------------------
  // bringsYouCounter

  /** The seven spellings that make a name a *he-brings-you* emoji. */
  const BringsYouSubstrings: seq<string> :=
    ["bringsyou", "brings-you", "brings_you", "bringyou", "bring-you", "bring_you", "he-bringin"]

  predicate IsBringsYou(name: string) {
    exists k :: 0 <= k < |BringsYouSubstrings| && Contains(name, BringsYouSubstrings[k])
  }

  predicate IsBufo(name: string) {
    Contains(name, "bufo") || Contains(name, "froge")
  }

  /** The names of `emojis` that satisfy `keep`, in list order. */
  function NamesWhere(emojis: seq<Emoji>, keep: string -> bool): (r: seq<string>)
    ensures |r| <= |emojis|
  {
    if |emojis| == 0 then []
    else
      var name := emojis[|emojis| - 1].name;
      NamesWhere(emojis[..|emojis| - 1], keep) + (if keep(name) then [name] else [])
  }

  /** A name is listed iff some emoji carries it and passes the test, once per such emoji. */
  lemma {:induction false} NamesWhereExact(emojis: seq<Emoji>, keep: string -> bool, x: string)
    ensures multiset(NamesWhere(emojis, keep))[x] == if keep(x) then multiset(NameList(emojis))[x] else 0
  {
    if |emojis| > 0 {
      var init := emojis[..|emojis| - 1];
      NamesWhereExact(init, keep, x);
      assert NameList(emojis) == NameList(init) + [emojis[|emojis| - 1].name];
    }
  }

  datatype BringsYouMessage = BringsYouMessage(startEmoji: string, bringsYouCount: nat, bringsYouExample: string,
                                               bufoCount: nat, bufoExample: string)

  /** `bringsYouCounter`: count both families over the whole list, open with ":bufo-appears:"
      when the Bufo family is strictly larger, and show one example of each. `rand.Intn` panics
      on an empty family, which is the error outcome here. */
  method BringsYouCounter(emojis: seq<Emoji>) returns (r: Result<BringsYouMessage>)
    ensures var bringsYou := NamesWhere(emojis, IsBringsYou);
      var bufo := NamesWhere(emojis, IsBufo);
      && (r.Err? <==> |bringsYou| == 0 || |bufo| == 0)
      && (r.Ok? ==>
            && r.value.startEmoji == (if |bufo| > |bringsYou| then ":bufo-appears:" else ":he-brings-you-metrics:")
            && r.value.bringsYouCount == |bringsYou| && r.value.bringsYouExample in bringsYou
            && r.value.bufoCount == |bufo| && r.value.bufoExample in bufo)
  {
    var bufoEmojis: seq<string> := [];
    var bringsYouEmojis: seq<string> := [];
    for i := 0 to |emojis|
      invariant bufoEmojis == NamesWhere(emojis[..i], IsBufo)
      invariant bringsYouEmojis == NamesWhere(emojis[..i], IsBringsYou)
    {
      assert emojis[..i + 1][..i] == emojis[..i];
      var name := emojis[i].name;
      if IsBringsYou(name) {
        bringsYouEmojis := bringsYouEmojis + [name];
      }
      if IsBufo(name) {
        bufoEmojis := bufoEmojis + [name];
      }
    }
    assert emojis[..|emojis|] == emojis;
    var startEmoji := if |bufoEmojis| > |bringsYouEmojis| then ":bufo-appears:" else ":he-brings-you-metrics:";
    if |bufoEmojis| == 0 || |bringsYouEmojis| == 0 {
      return Err("invalid argument to Intn");
    }
    var b :| 0 <= b < |bufoEmojis|;
    var y :| 0 <= y < |bringsYouEmojis|;
    r := Ok(BringsYouMessage(startEmoji, |bringsYouEmojis|, bringsYouEmojis[y], |bufoEmojis|, bufoEmojis[b]));
  }
}

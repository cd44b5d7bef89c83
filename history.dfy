/**
 * `last_week_data.go` and `emojis_wrapped.go`: resolving the emoji channel, walking its history
 * back to last week's vote prompt and the two marker messages, extracting the marker emojis,
 * and ranking emojis by the reactions left on vote prompts.
 *
 * The platform is a set of functions: `history(channelId, k, attempt)` is the answer to the
 * k-th `conversations.history` request of a walk (k = 0 carries no cursor, k > 0 the cursor of
 * page k - 1), `attempt` 0 the first try and 1 the retry; `conversations(k, attempt)` the same
 * for `conversations.list`; `ageOf(m)` the time elapsed since `m` was posted, in nanoseconds,
 * or the error of parsing its timestamp.
 */
module History {
  import opened Wrappers
  import opened Strings
  import opened Sorting
  import opened Emojis
  import opened Ranking
  import opened Dispatch
  import opened People

  datatype Reaction = Reaction(name: string, count: int, users: seq<string>)

  datatype Message = Message(text: string, ts: string, reactions: seq<Reaction>)

  /** One page of a channel's history, newest message first, and the cursor of the next page
      ("" on the last page). */
  datatype HistoryPage = HistoryPage(messages: seq<Message>, nextCursor: string)

  datatype ChannelInfo = ChannelInfo(id: string, name: string, isChannel: bool)

  datatype ChannelPage = ChannelPage(channels: seq<ChannelInfo>, nextCursor: string)

  /** The platform as the history walkers see it. `maxPages` bounds the length of every
      channel's history, which is what makes the walks end. */
  datatype Feed = Feed(
    history: (string, nat, nat) -> Result<HistoryPage>,
    waitOf: string -> Option<int>,
    ageOf: Message -> Result<int>,
    maxPages: nat)

  /** No history has more than `maxPages` pages: the answer to request `maxPages - 1` or later
      carries no cursor. */
  ghost predicate HistoryEnds(f: Feed) {
    forall id: string, k: nat, a: nat :: k + 1 >= f.maxPages && f.history(id, k, a).Ok? ==>
      f.history(id, k, a).value.nextCursor == ""
  }

  /** The two texts of a vote prompt, `votePrompt` and `votePromptPrevious`. */
  datatype Prompts = Prompts(current: string, previous: string)

  predicate IsPrompt(m: Message, p: Prompts) {
    m.text == p.current || m.text == p.previous
  }

  /** The message Go leaves in a variable nothing was assigned to. */
  const NoMessage: Message := Message("", "", [])

  /** Go's panic on an index past the end of a slice. */
  const IndexPanic: string := "index out of range"

  const NanosPerDay: int := 24 * 60 * 60 * 1000000000

  /** `GetConversationHistoryWithBackoff`: request k of a walk, retried once on a rate limit. */
  function HistoryAt(f: Feed, id: string, k: nat): Result<HistoryPage> {
    var first := f.history(id, k, 0);
    if first.Err? && RetryWait(first.error, f.waitOf).Some? then f.history(id, k, 1) else first
  }

  // ---------------------------------------------------------------------------------------
  // findLastWeekMessages

  /** The walk's variables: the three messages and the four `found` flags. */
  datatype Walk = Walk(reaction: Message, lastEmoji: Message, previous: Message,
                       foundOne: bool, foundTwo: bool, foundThree: bool, foundFour: bool)

  const Start: Walk := Walk(NoMessage, NoMessage, NoMessage, false, false, false, false)

  /** `AsWritten` follows the source; `Corrected` guards the companion index by `i + 1 < len`
      and lets the companion of the second prompt come from the next page (see README). */
  datatype Variant = AsWritten | Corrected

  /** The two checks at the top of each page, for a companion message left pending by the
      previous page. As written, the second writes `lastEmojiMessage`/`foundTwo`. */
  function Prelude(w: Walk, msgs: seq<Message>, channel: string, v: Variant): (r: Result<Walk>)
    ensures r.Err? <==> |msgs| == 0 && ((w.foundOne && !w.foundTwo) || (w.foundThree && !w.foundFour))
  {
    if w.foundOne && !w.foundTwo && |msgs| == 0 then Err("Unable to find message " + channel)
    else
      var w1 := if w.foundOne && !w.foundTwo then w.(lastEmoji := msgs[0], foundTwo := true) else w;
      if w1.foundThree && !w1.foundFour then
        if |msgs| == 0 then Err("Unable to find message " + channel)
        else if v == AsWritten then Ok(w1.(lastEmoji := msgs[0], foundTwo := true))
        else Ok(w1.(previous := msgs[0], foundFour := true))
      else Ok(w1)
  }

  /** The message loop of one page from index `i` on: the first prompt of the walk and its
      successor, then the next prompt and its successor, which ends the walk. */
  function ScanFrom(msgs: seq<Message>, i: nat, w: Walk, p: Prompts, v: Variant): Result<Walk>
    requires i <= |msgs|
    decreases |msgs| - i
  {
    if i == |msgs| || w.foundFour then Ok(w)
    else if !IsPrompt(msgs[i], p) then ScanFrom(msgs, i + 1, w, p, v)
    else if !w.foundOne then
      var w1 := w.(reaction := msgs[i], foundOne := true);
      if i + 1 < |msgs| then ScanFrom(msgs, i + 1, w1.(lastEmoji := msgs[i + 1], foundTwo := true), p, v)
      else if v == AsWritten then Err(IndexPanic)
      else ScanFrom(msgs, i + 1, w1, p, v)
    else
      var w1 := w.(previous := msgs[i], foundThree := true);
      if i + 1 < |msgs| then ScanFrom(msgs, i + 1, w1.(previous := msgs[i + 1], foundFour := true), p, v)
      else if v == AsWritten then Err(IndexPanic)
      else ScanFrom(msgs, i + 1, w1, p, v)
  }

  /** What one page does to the walk, before the cursor and age checks. */
  function PageStep(w: Walk, msgs: seq<Message>, channel: string, p: Prompts, v: Variant): Result<Walk> {
    match Prelude(w, msgs, channel, v)
    case Err(e) => Err(e)
    case Ok(w1) => ScanFrom(msgs, 0, w1, p, v)
  }

  /** The walk from request `k` on, in state `w`. */
  function WalkFrom(f: Feed, id: string, channel: string, p: Prompts, v: Variant, k: nat, w: Walk): Result<Walk>
    requires HistoryEnds(f)
    decreases f.maxPages - k
  {
    match HistoryAt(f, id, k)
    case Err(e) => Err(e)
    case Ok(page) =>
      match PageStep(w, page.messages, channel, p, v)
      case Err(e) => Err(e)
      case Ok(w2) =>
        if w2.foundFour then Ok(w2)
        else if page.nextCursor == "" then Err("Unable to find message in channel " + channel)
        else if |page.messages| == 0 then Err(IndexPanic)
        else match f.ageOf(page.messages[|page.messages| - 1])
          case Err(e) => Err(e)
          case Ok(age) =>
            if age > 16 * NanosPerDay then Err("Unable to find message in channel " + channel + " in the last 15 days")
            else WalkFrom(f, id, channel, p, v, k + 1, w2)
  }

  /** The two checks at the top of each page of `findLastWeekMessages`. */
  method PageChecks(w: Walk, msgs: seq<Message>, channel: string, v: Variant) returns (r: Result<Walk>)
    ensures r == Prelude(w, msgs, channel, v)
  {
    var w' := w;
    if w'.foundOne && !w'.foundTwo {
      if |msgs| == 0 {
        return Err("Unable to find message " + channel);
      }
      w' := w'.(lastEmoji := msgs[0], foundTwo := true);
    }
    if w'.foundThree && !w'.foundFour {
      if |msgs| == 0 {
        return Err("Unable to find message " + channel);
      }
      if v == AsWritten {
        w' := w'.(lastEmoji := msgs[0], foundTwo := true);
      } else {
        w' := w'.(previous := msgs[0], foundFour := true);
      }
    }
    return Ok(w');
  }

  /** The message loop of one page of `findLastWeekMessages`. */
  method ScanPage(msgs: seq<Message>, w0: Walk, p: Prompts, v: Variant) returns (r: Result<Walk>)
    ensures r == ScanFrom(msgs, 0, w0, p, v)
  {
    var w := w0;
    var i := 0;
    while i < |msgs| && !w.foundFour
      invariant 0 <= i <= |msgs|
      invariant ScanFrom(msgs, 0, w0, p, v) == ScanFrom(msgs, i, w, p, v)
    {
      var message := msgs[i];
      if IsPrompt(message, p) {
        if !w.foundOne {
          w := w.(reaction := message, foundOne := true);
          if v == AsWritten || i + 1 < |msgs| {
            if i + 1 >= |msgs| {
              return Err(IndexPanic);
            }
            w := w.(lastEmoji := msgs[i + 1], foundTwo := true);
          }
        } else {
          w := w.(previous := message, foundThree := true);
          if v == AsWritten || i + 1 < |msgs| {
            if i + 1 >= |msgs| {
              return Err(IndexPanic);
            }
            w := w.(previous := msgs[i + 1], foundFour := true);
          }
        }
      }
      i := i + 1;
    }
    return Ok(w);
  }

  /** `findLastWeekMessages`: page through the channel's history (newest first) until the two
      most recent vote prompts and the message after each have been seen. */
  method FindLastWeekMessages(f: Feed, id: string, channel: string, p: Prompts, v: Variant) returns (r: Result<Walk>)
    requires HistoryEnds(f)
    ensures r == WalkFrom(f, id, channel, p, v, 0, Start)
  {
    var w := Start;
    var k: nat := 0;
    while true
      invariant WalkFrom(f, id, channel, p, v, 0, Start) == WalkFrom(f, id, channel, p, v, k, w)
      decreases f.maxPages - k
    {
      var fetched, attempts, slept := WithBackoff(a => f.history(id, k, a), f.waitOf);
      assert fetched == HistoryAt(f, id, k);
      if fetched.Err? {
        return Err(fetched.error);
      }
      var page := fetched.value;
      var msgs := page.messages;
      var pre := PageChecks(w, msgs, channel, v);
      if pre.Err? {
        return Err(pre.error);
      }
      var scanned := ScanPage(msgs, pre.value, p, v);
      if scanned.Err? {
        return Err(scanned.error);
      }
      w := scanned.value;
      if w.foundFour {
        return Ok(w);
      }
      if page.nextCursor == "" {
        return Err("Unable to find message in channel " + channel);
      }
      if |msgs| == 0 {
        return Err(IndexPanic);
      }
      var age := f.ageOf(msgs[|msgs| - 1]);
      if age.Err? {
        return Err(age.error);
      }
      if age.value > 16 * NanosPerDay {
        return Err("Unable to find message in channel " + channel + " in the last 15 days");
      }
      k := k + 1;
    }
  }

  /** The flags only ever record what was found: a reaction message is a prompt, the second
      prompt comes after the first, and its companion after it. */
  predicate Consistent(w: Walk, p: Prompts) {
    && (w.foundOne ==> IsPrompt(w.reaction, p))
    && (w.foundThree ==> w.foundOne)
    && (w.foundFour ==> w.foundThree)
  }

  lemma {:induction false} ScanConsistent(msgs: seq<Message>, i: nat, w: Walk, p: Prompts, v: Variant)
    requires i <= |msgs| && Consistent(w, p)
    ensures ScanFrom(msgs, i, w, p, v).Ok? ==> Consistent(ScanFrom(msgs, i, w, p, v).value, p)
    decreases |msgs| - i
  {
    if i < |msgs| && !w.foundFour {
      if !IsPrompt(msgs[i], p) {
        ScanConsistent(msgs, i + 1, w, p, v);
      } else if !w.foundOne {
        var w1 := w.(reaction := msgs[i], foundOne := true);
        if i + 1 < |msgs| {
          ScanConsistent(msgs, i + 1, w1.(lastEmoji := msgs[i + 1], foundTwo := true), p, v);
        } else if v == Corrected {
          ScanConsistent(msgs, i + 1, w1, p, v);
        }
      } else {
        var w1 := w.(previous := msgs[i], foundThree := true);
        if i + 1 < |msgs| {
          ScanConsistent(msgs, i + 1, w1.(previous := msgs[i + 1], foundFour := true), p, v);
        } else if v == Corrected {
          ScanConsistent(msgs, i + 1, w1, p, v);
        }
      }
    }
  }

  /** A walk that succeeds has found both prompts and both companions, and its reaction
      message is a vote prompt. */
  lemma {:induction false} WalkFound(f: Feed, id: string, channel: string, p: Prompts, v: Variant, k: nat, w: Walk)
    requires HistoryEnds(f) && Consistent(w, p)
    ensures var r := WalkFrom(f, id, channel, p, v, k, w);
      r.Ok? ==> r.value.foundOne && r.value.foundThree && r.value.foundFour && IsPrompt(r.value.reaction, p)
    decreases f.maxPages - k
  {
    var fetched := HistoryAt(f, id, k);
    if fetched.Ok? {
      var msgs := fetched.value.messages;
      var pre := Prelude(w, msgs, channel, v);
      if pre.Ok? {
        assert Consistent(pre.value, p);
        ScanConsistent(msgs, 0, pre.value, p, v);
        var w2 := PageStep(w, msgs, channel, p, v);
        if w2.Ok? && !w2.value.foundFour && fetched.value.nextCursor != "" && |msgs| > 0 {
          WalkFound(f, id, channel, p, v, k + 1, w2.value);
        }
      }
    }
  }

  /** Messages `i..j` of a page hold no prompt: the scan passes over them unchanged. */
  lemma {:induction false} ScanSkips(msgs: seq<Message>, i: nat, j: nat, w: Walk, p: Prompts, v: Variant)
    requires i <= j <= |msgs|
    requires forall k :: i <= k < j ==> !IsPrompt(msgs[k], p)
    ensures ScanFrom(msgs, i, w, p, v) == ScanFrom(msgs, j, w, p, v)
    decreases j - i
  {
    if i < j && !w.foundFour {
      ScanSkips(msgs, i + 1, j, w, p, v);
    }
  }

  /** One page holds both prompts, each followed by a message: in either variant the walk takes
      the first prompt as the reaction message, its successor as the last emoji message, and
      the successor of the next prompt as the previous week's last emoji message. */
  lemma ScanOnePage(msgs: seq<Message>, i: nat, j: nat, p: Prompts, v: Variant)
    requires i < j && j + 1 < |msgs|
    requires IsPrompt(msgs[i], p) && IsPrompt(msgs[j], p)
    requires forall k :: 0 <= k < i ==> !IsPrompt(msgs[k], p)
    requires forall k :: i < k < j ==> !IsPrompt(msgs[k], p)
    ensures ScanFrom(msgs, 0, Start, p, v) == Ok(Walk(msgs[i], msgs[i + 1], msgs[j + 1], true, true, true, true))
  {
    ScanSkips(msgs, 0, i, Start, p, v);
    var w := Start.(reaction := msgs[i], foundOne := true, lastEmoji := msgs[i + 1], foundTwo := true);
    ScanSkips(msgs, i + 1, j, w, p, v);
    var w' := w.(previous := msgs[j + 1], foundThree := true, foundFour := true);
    assert ScanFrom(msgs, j + 1, w', p, v) == Ok(w');
  }

  /** As written: when the first prompt of the first page is that page's last message, the
      companion lookup indexes past the end and the run panics. */
  lemma CompanionPanics(f: Feed, id: string, channel: string, p: Prompts)
    requires HistoryEnds(f)
    requires HistoryAt(f, id, 0).Ok?
    requires var msgs := HistoryAt(f, id, 0).value.messages;
      && |msgs| > 0 && IsPrompt(msgs[|msgs| - 1], p)
      && forall k :: 0 <= k < |msgs| - 1 ==> !IsPrompt(msgs[k], p)
    ensures WalkFrom(f, id, channel, p, AsWritten, 0, Start) == Err(IndexPanic)
  {
    var msgs := HistoryAt(f, id, 0).value.messages;
    ScanSkips(msgs, 0, |msgs| - 1, Start, p, AsWritten);
  }

  /** Corrected: in the same situation the walk goes on, and if it succeeds, the reaction
      message is that prompt and the last emoji message is the first message of the next page. */
  lemma CompanionOnNextPage(f: Feed, id: string, channel: string, p: Prompts)
    requires HistoryEnds(f)
    requires HistoryAt(f, id, 0).Ok? && HistoryAt(f, id, 1).Ok?
    requires var msgs := HistoryAt(f, id, 0).value.messages;
      && |msgs| > 0 && IsPrompt(msgs[|msgs| - 1], p)
      && forall k :: 0 <= k < |msgs| - 1 ==> !IsPrompt(msgs[k], p)
    ensures var r := WalkFrom(f, id, channel, p, Corrected, 0, Start);
      r.Ok? ==>
        && r.value.reaction == HistoryAt(f, id, 0).value.messages[|HistoryAt(f, id, 0).value.messages| - 1]
        && |HistoryAt(f, id, 1).value.messages| > 0
        && r.value.lastEmoji == HistoryAt(f, id, 1).value.messages[0]
  {
    var msgs := HistoryAt(f, id, 0).value.messages;
    var prompt := msgs[|msgs| - 1];
    ScanSkips(msgs, 0, |msgs| - 1, Start, p, Corrected);
    var w1 := Start.(reaction := prompt, foundOne := true);
    assert ScanFrom(msgs, 0, Start, p, Corrected) == Ok(w1);
    var r := WalkFrom(f, id, channel, p, Corrected, 0, Start);
    if r.Ok? {
      assert r == WalkFrom(f, id, channel, p, Corrected, 1, w1);
      var next := HistoryAt(f, id, 1).value.messages;
      assert |next| > 0;
      var w2 := w1.(lastEmoji := next[0], foundTwo := true);
      assert Prelude(w1, next, channel, Corrected) == Ok(w2);
      ScanKeepsPair(next, 0, w2, p);
      var w3 := ScanFrom(next, 0, w2, p, Corrected).value;
      KeepsPair(f, id, channel, p, 1, w2);
    }
  }

  /** Corrected: once the first pair is found, a page scan leaves it alone. */
  lemma {:induction false} ScanKeepsPair(msgs: seq<Message>, i: nat, w: Walk, p: Prompts)
    requires i <= |msgs| && w.foundOne && w.foundTwo
    ensures var r := ScanFrom(msgs, i, w, p, Corrected);
      r.Ok? && r.value.foundOne && r.value.foundTwo && r.value.reaction == w.reaction && r.value.lastEmoji == w.lastEmoji
    decreases |msgs| - i
  {
    if i < |msgs| && !w.foundFour {
      if !IsPrompt(msgs[i], p) {
        ScanKeepsPair(msgs, i + 1, w, p);
      } else {
        var w1 := w.(previous := msgs[i], foundThree := true);
        if i + 1 < |msgs| {
          ScanKeepsPair(msgs, i + 1, w1.(previous := msgs[i + 1], foundFour := true), p);
        } else {
          ScanKeepsPair(msgs, i + 1, w1, p);
        }
      }
    }
  }

  /** Corrected: once the first pair is found, the rest of the walk leaves it alone. */
  lemma {:induction false} KeepsPair(f: Feed, id: string, channel: string, p: Prompts, k: nat, w: Walk)
    requires HistoryEnds(f) && w.foundOne && w.foundTwo
    ensures var r := WalkFrom(f, id, channel, p, Corrected, k, w);
      r.Ok? ==> r.value.reaction == w.reaction && r.value.lastEmoji == w.lastEmoji
    decreases f.maxPages - k
  {
    var fetched := HistoryAt(f, id, k);
    if fetched.Ok? {
      var msgs := fetched.value.messages;
      var pre := Prelude(w, msgs, channel, Corrected);
      if pre.Ok? {
        ScanKeepsPair(msgs, 0, pre.value, p);
        var w2 := ScanFrom(msgs, 0, pre.value, p, Corrected).value;
        if !w2.foundFour && fetched.value.nextCursor != "" && |msgs| > 0 {
          KeepsPair(f, id, channel, p, k + 1, w2);
        }
      }
    }
  }

  /** As written, a scan never leaves a companion pending: each found flag comes with its
      companion's flag, so the two checks for a pending companion at the top of a page never
      fire. */
  lemma {:induction false} AsWrittenNeverPending(msgs: seq<Message>, i: nat, w: Walk, p: Prompts)
    requires i <= |msgs|
    requires w.foundOne == w.foundTwo && w.foundThree == w.foundFour
    ensures var r := ScanFrom(msgs, i, w, p, AsWritten);
      r.Ok? ==> r.value.foundOne == r.value.foundTwo && r.value.foundThree == r.value.foundFour
    decreases |msgs| - i
  {
    if i < |msgs| && !w.foundFour {
      if !IsPrompt(msgs[i], p) {
        AsWrittenNeverPending(msgs, i + 1, w, p);
      } else if !w.foundOne {
        if i + 1 < |msgs| {
          AsWrittenNeverPending(msgs, i + 1, w.(reaction := msgs[i], foundOne := true, lastEmoji := msgs[i + 1], foundTwo := true), p);
        }
      } else {
        if i + 1 < |msgs| {
          AsWrittenNeverPending(msgs, i + 1, w.(previous := msgs[i + 1], foundThree := true, foundFour := true), p);
        }
      }
    }
  }

  // ---------------------------------------------------------------------------------------
  // dealWithLastWeekMessages

  /** The marker of a message: the second-to-last piece of its text split on ':'. */
  function MarkerOf(text: string): (m: Option<string>)
    ensures m.Some? <==> |Split(text, ':')| >= 2
    ensures m.Some? ==> ':' !in m.value
  {
    var parts := Split(text, ':');
    if |parts| < 2 then None else Some(parts[|parts| - 2])
  }

  /** A message that ends with an emoji tag ":name:" has `name` as its marker. */
  lemma MarkerOfTagged(prefix: string, name: string)
    requires ':' !in name
    ensures MarkerOf(prefix + ":" + name + ":") == Some(name)
  {
    var tail := name + [':'] + "";
    assert prefix + ":" + name + ":" == prefix + [':'] + tail;
    SplitAppend(prefix, tail, ':');
    SplitAppend(name, "", ':');
    SplitWithout(name);
    SplitWithout("");
    assert name + [':'] + "" == tail;
    assert Split(tail, ':') == [name] + [""];
    var parts := Split(prefix, ':') + ([name] + [""]);
    assert Split(prefix + ":" + name + ":", ':') == parts;
    assert parts[|parts| - 2] == name;
  }

  lemma SplitWithout(s: string)
    requires ':' !in s
    ensures Split(s, ':') == [s]
  {
    assert IndexOf(s, ':') == -1;
  }

  /** A text with no ':' has no marker. */
  lemma MarkerOfUntagged(text: string)
    requires ':' !in text
    ensures MarkerOf(text).None?
  {
    assert IndexOf(text, ':') == -1;
  }

  /** The two marker emojis: the last new emoji of last week's and of the week before's post. */
  datatype Markers = Markers(lastNewEmoji: string, previousLastNewEmoji: string)

  /** What `dealWithLastWeekMessages` yields after a successful walk. */
  function MarkersOf(w: Walk): (r: Result<Markers>)
    ensures r.Ok? <==> MarkerOf(w.lastEmoji.text).Some? && MarkerOf(w.previous.text).Some?
    ensures r.Ok? ==> r.value == Markers(MarkerOf(w.lastEmoji.text).value, MarkerOf(w.previous.text).value)
  {
    match MarkerOf(w.lastEmoji.text)
    case None => Err("Unable to get last emoji from message " + w.lastEmoji.text)
    case Some(last) =>
      match MarkerOf(w.previous.text)
      case None => Err("Unable to get last emoji from message " + w.lastEmoji.text)
      case Some(previous) => Ok(Markers(last, previous))
  }

  /** `dealWithLastWeekMessages`: a non-empty override stands for both markers without any
      lookup; otherwise resolve the channel, walk its history and read both markers. Also
      returns the reaction message the walk found, which the source keeps in a global. */
  method DealWithLastWeekMessages(overRide: string, channelName: string, cachedChannelId: string,
                                  conversations: (nat, nat) -> Result<ChannelPage>, f: Feed, p: Prompts, v: Variant)
    returns (r: Result<Markers>, reaction: Option<Message>)
    requires HistoryEnds(f) && ChannelsEnd(conversations, f.maxPages)
    ensures overRide != "" ==> r == Ok(Markers(overRide, overRide)) && reaction.None?
    ensures overRide == "" ==>
      var found := ChannelFor(channelName, cachedChannelId, conversations, f.waitOf, f.maxPages);
      (found.Err? ==> r == Err(found.error) && reaction.None?) &&
      (found.Ok? ==>
        var walked := WalkFrom(f, found.value, channelName, p, v, 0, Start);
        (walked.Err? ==> r == Err(walked.error) && reaction.None?) &&
        (walked.Ok? ==> r == MarkersOf(walked.value) && reaction == Some(walked.value.reaction)))
  {
    if overRide != "" {
      return Ok(Markers(overRide, overRide)), None;
    }
    var channelId := GetChannel(channelName, cachedChannelId, conversations, f.waitOf, f.maxPages);
    if channelId.Err? {
      return Err(channelId.error), None;
    }
    var walk := FindLastWeekMessages(f, channelId.value, channelName, p, v);
    if walk.Err? {
      return Err(walk.error), None;
    }
    reaction := Some(walk.value.reaction);
    var parts := Split(walk.value.lastEmoji.text, ':');
    if |parts| < 2 {
      return Err("Unable to get last emoji from message " + walk.value.lastEmoji.text), reaction;
    }
    var lastNewEmoji := parts[|parts| - 2];
    parts := Split(walk.value.previous.text, ':');
    if |parts| < 2 {
      return Err("Unable to get last emoji from message " + walk.value.lastEmoji.text), reaction;
    }
    var previousLastNewEmoji := parts[|parts| - 2];
    r := Ok(Markers(lastNewEmoji, previousLastNewEmoji));
  }

  // ---------------------------------------------------------------------------------------
  // getChannel

  /** No channel listing has more than `maxPages` pages. */
  ghost predicate ChannelsEnd(conversations: (nat, nat) -> Result<ChannelPage>, maxPages: nat) {
    forall k: nat, a: nat :: k + 1 >= maxPages && conversations(k, a).Ok? ==> conversations(k, a).value.nextCursor == ""
  }

  /** `GetConversationsWithBackoff` for request k of the listing. */
  function ChannelsAt(conversations: (nat, nat) -> Result<ChannelPage>, waitOf: string -> Option<int>, k: nat): Result<ChannelPage> {
    var first := conversations(k, 0);
    if first.Err? && RetryWait(first.error, waitOf).Some? then conversations(k, 1) else first
  }

  /** The name looked up: the configured name without a leading '#'. */
  function ChannelKey(channelName: string): (key: string)
    requires |channelName| > 0
    ensures channelName[0] == '#' ==> "#" + key == channelName
    ensures channelName[0] != '#' ==> key == channelName
  {
    if channelName[0] == '#' then channelName[1..] else channelName
  }

  /** The first channel (not a group or DM) of a page with the name, if any. */
  function FirstChannel(channels: seq<ChannelInfo>, name: string): (i: int)
    ensures -1 <= i < |channels|
    ensures i >= 0 ==> channels[i].isChannel && channels[i].name == name
    ensures forall j :: 0 <= j < |channels| && (i < 0 || j < i) ==> !(channels[j].isChannel && channels[j].name == name)
  {
    if |channels| == 0 then -1
    else if channels[0].isChannel && channels[0].name == name then 0
    else
      var i := FirstChannel(channels[1..], name);
      if i < 0 then -1 else i + 1
  }

  /** The listing from request `k` on. */
  function ChannelFrom(conversations: (nat, nat) -> Result<ChannelPage>, waitOf: string -> Option<int>, maxPages: nat,
                       channelName: string, name: string, k: nat): Result<string>
    requires ChannelsEnd(conversations, maxPages)
    decreases maxPages - k
  {
    match ChannelsAt(conversations, waitOf, k)
    case Err(e) => Err(e)
    case Ok(page) =>
      var i := FirstChannel(page.channels, name);
      if i >= 0 then Ok(page.channels[i].id)
      else if page.nextCursor == "" then Err("Unable to find channel " + channelName)
      else ChannelFrom(conversations, waitOf, maxPages, channelName, name, k + 1)
  }

  /** What `getChannel` answers. */
  function ChannelFor(channelName: string, cachedChannelId: string, conversations: (nat, nat) -> Result<ChannelPage>,
                      waitOf: string -> Option<int>, maxPages: nat): Result<string>
    requires ChannelsEnd(conversations, maxPages)
  {
    if |channelName| == 0 then Err("No channel name provided")
    else if cachedChannelId != "" then Ok(cachedChannelId)
    else ChannelFrom(conversations, waitOf, maxPages, channelName, ChannelKey(channelName), 0)
  }

  /** The channel loop of one listing page: the first real channel with the name. */
  method ScanChannels(channels: seq<ChannelInfo>, name: string) returns (found: bool, data: ChannelInfo)
    ensures found <==> FirstChannel(channels, name) >= 0
    ensures found ==> data == channels[FirstChannel(channels, name)]
  {
    found := false;
    data := ChannelInfo("", "", false);
    var j := 0;
    while j < |channels| && !found
      invariant 0 <= j <= |channels|
      invariant forall m :: 0 <= m < j && !found ==> !(channels[m].isChannel && channels[m].name == name)
      invariant found ==> 0 < j && data == channels[j - 1] && data.isChannel && data.name == name
      invariant found ==> forall m :: 0 <= m < j - 1 ==> !(channels[m].isChannel && channels[m].name == name)
    {
      if channels[j].isChannel && channels[j].name == name {
        found := true;
        data := channels[j];
      }
      j := j + 1;
    }
    if found {
      assert FirstChannel(channels, name) == j - 1;
    } else {
      assert FirstChannel(channels, name) == -1;
    }
  }

  /** `getChannel`: the cached id when configured, otherwise the id of the first channel named
      like `channelName` (a leading '#' dropped) across the listing's pages. */
  method GetChannel(channelName: string, cachedChannelId: string, conversations: (nat, nat) -> Result<ChannelPage>,
                    waitOf: string -> Option<int>, maxPages: nat) returns (r: Result<string>)
    requires ChannelsEnd(conversations, maxPages)
    ensures r == ChannelFor(channelName, cachedChannelId, conversations, waitOf, maxPages)
  {
    if |channelName| == 0 {
      return Err("No channel name provided");
    }
    if cachedChannelId != "" {
      return Ok(cachedChannelId);
    }
    var name := channelName;
    if name[0] == '#' {
      name := name[1..];
    }
    var k: nat := 0;
    while true
      invariant ChannelFor(channelName, cachedChannelId, conversations, waitOf, maxPages)
             == ChannelFrom(conversations, waitOf, maxPages, channelName, name, k)
      decreases maxPages - k
    {
      var fetched, attempts, slept := WithBackoff(a => conversations(k, a), waitOf);
      assert fetched == ChannelsAt(conversations, waitOf, k);
      if fetched.Err? {
        return Err(fetched.error);
      }
      var found, data := ScanChannels(fetched.value.channels, name);
      if found {
        return Ok(data.id);
      }
      if fetched.value.nextCursor == "" {
        return Err("Unable to find channel " + channelName);
      }
      k := k + 1;
    }
  }

  /** A channel id found by listing belongs to a channel of some page named like the
      configured name without its '#'. */
  lemma {:induction false} ChannelFromFound(conversations: (nat, nat) -> Result<ChannelPage>, waitOf: string -> Option<int>,
                                            maxPages: nat, channelName: string, name: string, k: nat)
    requires ChannelsEnd(conversations, maxPages)
    ensures var r := ChannelFrom(conversations, waitOf, maxPages, channelName, name, k);
      r.Ok? ==> exists m: nat, c: ChannelInfo ::
        m >= k && ChannelsAt(conversations, waitOf, m).Ok? && c in ChannelsAt(conversations, waitOf, m).value.channels &&
        c.isChannel && c.name == name && c.id == r.value
    decreases maxPages - k
  {
    var fetched := ChannelsAt(conversations, waitOf, k);
    if fetched.Ok? {
      var i := FirstChannel(fetched.value.channels, name);
      if i >= 0 {
        assert fetched.value.channels[i] in fetched.value.channels;
      } else if fetched.value.nextCursor != "" {
        ChannelFromFound(conversations, waitOf, maxPages, channelName, name, k + 1);
      }
    }
  }

  // ---------------------------------------------------------------------------------------
  // printTopEmojisByReactionVote

  /** A reaction as a count entry of the ranking. */
  function Vote(r: Reaction): StringCount {
    StringCount(r.count, r.name, "")
  }

  /** Every reaction of the messages as a count entry, in message order then reaction order. */
  function Votes(ms: seq<Message>): seq<StringCount> {
    if |ms| == 0 then [] else Votes(ms[..|ms| - 1]) + ReactionVotes(ms[|ms| - 1].reactions)
  }

  function ReactionVotes(rs: seq<Reaction>): seq<StringCount> {
    if |rs| == 0 then [] else ReactionVotes(rs[..|rs| - 1]) + [Vote(rs[|rs| - 1])]
  }

  /** Every user who left a reaction on one of the messages. */
  function Voters(ms: seq<Message>): set<string> {
    if |ms| == 0 then {} else Voters(ms[..|ms| - 1]) + ReactionUsers(ms[|ms| - 1].reactions)
  }

  function ReactionUsers(rs: seq<Reaction>): set<string> {
    if |rs| == 0 then {} else ReactionUsers(rs[..|rs| - 1]) + UserSet(rs[|rs| - 1].users)
  }

  /** The users of one reaction, as a set. */
  function UserSet(users: seq<string>): (s: set<string>)
    ensures forall u :: u in s <==> u in users
  {
    if |users| == 0 then {}
    else
      assert users == users[..|users| - 1] + [users[|users| - 1]];
      UserSet(users[..|users| - 1]) + {users[|users| - 1]}
  }

  lemma {:induction false} ReactionVotesMembers(rs: seq<Reaction>, e: StringCount)
    ensures e in ReactionVotes(rs) <==> exists j :: 0 <= j < |rs| && e == Vote(rs[j])
  {
    if |rs| > 0 {
      var init := rs[..|rs| - 1];
      ReactionVotesMembers(init, e);
      if exists j :: 0 <= j < |rs| - 1 && e == Vote(rs[j]) {
        var j :| 0 <= j < |rs| - 1 && e == Vote(rs[j]);
        assert init[j] == rs[j];
      }
      if exists j :: 0 <= j < |init| && e == Vote(init[j]) {
        var j :| 0 <= j < |init| && e == Vote(init[j]);
        assert init[j] == rs[j];
      }
    }
  }

  /** The entries ranked are exactly the reactions of the messages. */
  lemma {:induction false} VotesMembers(ms: seq<Message>, e: StringCount)
    ensures e in Votes(ms) <==> exists i, j :: 0 <= i < |ms| && 0 <= j < |ms[i].reactions| && e == Vote(ms[i].reactions[j])
  {
    if |ms| > 0 {
      var init := ms[..|ms| - 1];
      var last := ms[|ms| - 1];
      VotesMembers(init, e);
      ReactionVotesMembers(last.reactions, e);
      assert Votes(ms) == Votes(init) + ReactionVotes(last.reactions);
      if e in Votes(init) {
        var i, j :| 0 <= i < |init| && 0 <= j < |init[i].reactions| && e == Vote(init[i].reactions[j]);
        assert init[i] == ms[i];
      } else if e in ReactionVotes(last.reactions) {
        var j :| 0 <= j < |last.reactions| && e == Vote(last.reactions[j]);
        assert 0 <= |ms| - 1 < |ms| && e == Vote(ms[|ms| - 1].reactions[j]);
      } else {
        forall i, j | 0 <= i < |ms| && 0 <= j < |ms[i].reactions| ensures e != Vote(ms[i].reactions[j]) {
          if i < |ms| - 1 {
            assert init[i] == ms[i];
          }
        }
      }
    }
  }

  lemma {:induction false} ReactionUsersMembers(rs: seq<Reaction>, u: string)
    ensures u in ReactionUsers(rs) <==> exists j :: 0 <= j < |rs| && u in rs[j].users
  {
    if |rs| > 0 {
      var init := rs[..|rs| - 1];
      ReactionUsersMembers(init, u);
      if exists j :: 0 <= j < |rs| - 1 && u in rs[j].users {
        var j :| 0 <= j < |rs| - 1 && u in rs[j].users;
        assert init[j] == rs[j];
      }
      if exists j :: 0 <= j < |init| && u in init[j].users {
        var j :| 0 <= j < |init| && u in init[j].users;
        assert init[j] == rs[j];
      }
    }
  }

  /** The voters counted are exactly the users who reacted to some message. */
  lemma {:induction false} VotersMembers(ms: seq<Message>, u: string)
    ensures u in Voters(ms) <==> exists i, j :: 0 <= i < |ms| && 0 <= j < |ms[i].reactions| && u in ms[i].reactions[j].users
  {
    if |ms| > 0 {
      var init := ms[..|ms| - 1];
      VotersMembers(init, u);
      ReactionUsersMembers(ms[|ms| - 1].reactions, u);
      if exists i, j :: 0 <= i < |ms| && 0 <= j < |ms[i].reactions| && u in ms[i].reactions[j].users {
        var i, j :| 0 <= i < |ms| && 0 <= j < |ms[i].reactions| && u in ms[i].reactions[j].users;
        if i < |ms| - 1 {
          assert init[i] == ms[i];
        }
      }
      if exists i, j :: 0 <= i < |init| && 0 <= j < |init[i].reactions| && u in init[i].reactions[j].users {
        var i, j :| 0 <= i < |init| && 0 <= j < |init[i].reactions| && u in init[i].reactions[j].users;
        assert init[i] == ms[i];
      }
    }
  }

  /** The flattening loop: every reaction becomes an entry, every reacting user joins the set. */
  method TallyReactions(messages: seq<Message>) returns (emojis: seq<StringCount>, uniqueUsers: set<string>)
    ensures emojis == Votes(messages)
    ensures uniqueUsers == Voters(messages)
  {
    emojis, uniqueUsers := [], {};
    for i := 0 to |messages|
      invariant emojis == Votes(messages[..i])
      invariant uniqueUsers == Voters(messages[..i])
    {
      assert messages[..i + 1][..i] == messages[..i];
      emojis, uniqueUsers := TallyMessage(emojis, uniqueUsers, messages[i].reactions);
    }
    assert messages[..|messages|] == messages;
  }

  /** The reactions of one message, flattened onto the entries and users so far. */
  method TallyMessage(emojis: seq<StringCount>, uniqueUsers: set<string>, reactions: seq<Reaction>)
    returns (emojis': seq<StringCount>, uniqueUsers': set<string>)
    ensures emojis' == emojis + ReactionVotes(reactions)
    ensures uniqueUsers' == uniqueUsers + ReactionUsers(reactions)
  {
    emojis', uniqueUsers' := emojis, uniqueUsers;
    for j := 0 to |reactions|
      invariant emojis' == emojis + ReactionVotes(reactions[..j])
      invariant uniqueUsers' == uniqueUsers + ReactionUsers(reactions[..j])
    {
      var reaction := reactions[j];
      assert reactions[..j + 1][..j] == reactions[..j];
      emojis' := emojis' + [Vote(reaction)];
      uniqueUsers' := AddReactionUsers(uniqueUsers', reaction.users);
    }
    assert reactions[..|reactions|] == reactions;
  }

  /** The users of one reaction, added to the set. */
  method AddReactionUsers(uniqueUsers: set<string>, users: seq<string>) returns (uniqueUsers': set<string>)
    ensures uniqueUsers' == uniqueUsers + UserSet(users)
  {
    uniqueUsers' := uniqueUsers;
    for u := 0 to |users|
      invariant uniqueUsers' == uniqueUsers + UserSet(users[..u])
    {
      assert users[..u + 1][..u] == users[..u];
      uniqueUsers' := uniqueUsers' + {users[u]};
    }
    assert users[..|users|] == users;
  }

  /** The header line: last week's voter count, or in wrapped mode the year and the voters. */
  datatype Header = LastWeekHeader(voters: nat) | LastYearHeader(year: int, voters: nat)

  /** The wrapped year: the current year, or the previous one when run in January. */
  function WrappedYear(year: int, month: int): (y: int)
    ensures month == 1 ==> y == year - 1
    ensures month != 1 ==> y == year
  {
    if month == 1 then year - 1 else year
  }

  /** How many creators the first message lists: 20 in wrapped mode, `TopPeopleToPrint` otherwise. */
  function PeopleToPrint(wrapped: bool): (n: int)
    ensures wrapped ==> n == 20
    ensures !wrapped ==> n == TopPeopleToPrint
  {
    if wrapped then 20 else TopPeopleToPrint
  }

  /** The outcome of ranking the reactions of `messages`: some `ByCount` order of the votes, cut
      with the tie-aware rule (names without colons), then `printTopCreators` over the selection. */
  ghost predicate VoteRanking(catalog: Catalog, wrapped: bool, maxPrintCount: int, messages: seq<Message>,
                              aprilFools: Option<string>, mode: Mode, fetch: seq<string> -> Result<seq<User>>,
                              skip: set<string>, mute: set<string>, r: Result<(seq<CreatorLine>, seq<CreatorLine>)>)
  {
    exists sorted: seq<StringCount>, sel: Result<Selection> ::
      && multiset(sorted) == multiset(Votes(messages))
      && SortedBy(sorted, ByCountLe)
      && CollectsTop(sorted, maxPrintCount, MinReaction, catalog.emojiMap, false, aprilFools, sel)
      && (sel.Err? ==> r == Err(sel.error))
      && (sel.Ok? ==> WellFormedSelection(sel.value) &&
                      CreatorsOutcome(sel.value, PeopleToPrint(wrapped), mode, fetch, skip, mute, r))
  }

  /** `printTopEmojisByReactionVote`: flatten the reactions of the messages, rank them by count
      (the same tie-aware cut as `printTopEmojis`, names without colons), count the distinct
      voters, and hand the selection to `printTopCreators`. `now` is the current (year, month). */
  method PrintTopEmojisByReactionVote(catalog: Catalog, wrapped: bool, maxPrintCount: int, messages: seq<Message>,
                                      aprilFools: Option<string>, year: int, month: int, mode: Mode,
                                      fetch: seq<string> -> Result<seq<User>>, skip: set<string>, mute: set<string>)
    returns (header: Header, r: Result<(seq<CreatorLine>, seq<CreatorLine>)>)
    ensures header == if wrapped then LastYearHeader(WrappedYear(year, month), |Voters(messages)|)
                      else LastWeekHeader(|Voters(messages)|)
    ensures VoteRanking(catalog, wrapped, maxPrintCount, messages, aprilFools, mode, fetch, skip, mute, r)
  {
    var emojis, uniqueUsers := TallyReactions(messages);
    var a := new StringCount[|emojis|](i requires 0 <= i < |emojis| => emojis[i]);
    assert a[..] == emojis;
    ByCountOrder();
    Sort(a, ByCountLe);
    var sorted := a[..];
    var sel := CollectTop(sorted, maxPrintCount, MinReaction, catalog.emojiMap, false, aprilFools);
    var peopleToPrint := TopPeopleToPrint;
    header := LastWeekHeader(|uniqueUsers|);
    if wrapped {
      peopleToPrint := 20;
      var y := year;
      if month == 1 {
        y := y - 1;
      }
      header := LastYearHeader(y, |uniqueUsers|);
    }
    if sel.Err? {
      return header, Err(sel.error);
    }
    r := PrintTopCreators(sel.value, peopleToPrint, mode, fetch, skip, mute);
  }

  // ---------------------------------------------------------------------------------------
  // emojis_wrapped.go

  /** The prompts of a page, in page order. */
  function PagePrompts(msgs: seq<Message>, p: Prompts): (ps: seq<Message>)
    ensures forall m :: m in ps <==> m in msgs && IsPrompt(m, p)
  {
    if |msgs| == 0 then []
    else PagePrompts(msgs[..|msgs| - 1], p) + (if IsPrompt(msgs[|msgs| - 1], p) then [msgs[|msgs| - 1]] else [])
  }

  function Then(found: seq<Message>, rest: Result<seq<Message>>): Result<seq<Message>> {
    if rest.Err? then rest else Ok(found + rest.value)
  }

  lemma ThenThen(a: seq<Message>, b: seq<Message>, rest: Result<seq<Message>>)
    ensures Then(a, Then(b, rest)) == Then(a + b, rest)
  {
    if rest.Ok? {
      assert a + (b + rest.value) == (a + b) + rest.value;
    }
  }

  /** The prompt walk from request `k` on: every prompt of every page (no retry), until a page
      without a cursor or one whose last message is over a year old. */
  function PromptsFrom(f: Feed, id: string, p: Prompts, k: nat): Result<seq<Message>>
    requires HistoryEnds(f)
    decreases f.maxPages - k
  {
    match f.history(id, k, 0)
    case Err(e) => Err(e)
    case Ok(page) =>
      var found := PagePrompts(page.messages, p);
      if page.nextCursor == "" then Ok(found)
      else if |page.messages| == 0 then Err(IndexPanic)
      else match f.ageOf(page.messages[|page.messages| - 1])
        case Err(e) => Err(e)
        case Ok(age) =>
          if age > 365 * NanosPerDay then Ok(found)
          else Then(found, PromptsFrom(f, id, p, k + 1))
  }

  /** Everything the prompt walk returns is a vote prompt. */
  lemma {:induction false} PromptsFromArePrompts(f: Feed, id: string, p: Prompts, k: nat)
    requires HistoryEnds(f)
    ensures var r := PromptsFrom(f, id, p, k);
      r.Ok? ==> forall m :: m in r.value ==> IsPrompt(m, p)
    decreases f.maxPages - k
  {
    var page := f.history(id, k, 0);
    if page.Ok? && page.value.nextCursor != "" && |page.value.messages| > 0 {
      PromptsFromArePrompts(f, id, p, k + 1);
    }
  }

  /** Every prompt of the first page is in the result, in front, whenever the walk succeeds. */
  lemma FirstPageKept(f: Feed, id: string, p: Prompts, k: nat)
    requires HistoryEnds(f)
    ensures var r := PromptsFrom(f, id, p, k);
      r.Ok? ==> f.history(id, k, 0).Ok? && PagePrompts(f.history(id, k, 0).value.messages, p) <= r.value
  {
  }

  /** The message loop of `findAllVotePrompts`: the page's prompts are appended in page order. */
  method AddPagePrompts(found: seq<Message>, msgs: seq<Message>, p: Prompts) returns (found': seq<Message>)
    ensures found' == found + PagePrompts(msgs, p)
  {
    found' := found;
    for i := 0 to |msgs|
      invariant found' == found + PagePrompts(msgs[..i], p)
    {
      assert msgs[..i + 1][..i] == msgs[..i];
      if IsPrompt(msgs[i], p) {
        found' := found' + [msgs[i]];
      }
    }
    assert msgs[..|msgs|] == msgs;
  }

  /** `findAllVotePrompts`: every vote prompt of the channel's history, page by page. */
  method FindAllVotePrompts(f: Feed, id: string, p: Prompts) returns (r: Result<seq<Message>>)
    requires HistoryEnds(f)
    ensures r == PromptsFrom(f, id, p, 0)
  {
    var reactionMessages: seq<Message> := [];
    var k: nat := 0;
    ThenThen([], [], PromptsFrom(f, id, p, 0));
    assert Then([], PromptsFrom(f, id, p, 0)) == PromptsFrom(f, id, p, 0) by {
      if PromptsFrom(f, id, p, 0).Ok? {
        assert [] + PromptsFrom(f, id, p, 0).value == PromptsFrom(f, id, p, 0).value;
      }
    }
    while true
      invariant PromptsFrom(f, id, p, 0) == Then(reactionMessages, PromptsFrom(f, id, p, k))
      decreases f.maxPages - k
    {
      var page := f.history(id, k, 0);
      if page.Err? {
        return Err(page.error);
      }
      var msgs := page.value.messages;
      ghost var before := reactionMessages;
      reactionMessages := AddPagePrompts(reactionMessages, msgs, p);
      if page.value.nextCursor == "" {
        return Ok(reactionMessages);
      }
      if |msgs| == 0 {
        return Err(IndexPanic);
      }
      var age := f.ageOf(msgs[|msgs| - 1]);
      if age.Err? {
        return Err(age.error);
      }
      if age.value > 365 * NanosPerDay {
        return Ok(reactionMessages);
      }
      ThenThen(before, PagePrompts(msgs, p), PromptsFrom(f, id, p, k + 1));
      k := k + 1;
    }
  }

  /** `i` is the first prompt whose timestamp does not parse. */
  ghost predicate FirstBadTimestamp(prompts: seq<Message>, ageOf: Message -> Result<int>, i: int) {
    && 0 <= i < |prompts|
    && ageOf(prompts[i]).Err?
    && forall k :: 0 <= k < i ==> ageOf(prompts[k]).Ok?
  }

  /** The per-prompt voter counts `emojisWrapped` prints; a prompt whose timestamp does not
      parse aborts. */
  method PromptVoterCounts(prompts: seq<Message>, ageOf: Message -> Result<int>) returns (r: Result<seq<nat>>)
    ensures r.Err? <==> exists i :: 0 <= i < |prompts| && ageOf(prompts[i]).Err?
    ensures r.Err? ==> exists i :: FirstBadTimestamp(prompts, ageOf, i) && r.error == ageOf(prompts[i]).error
    ensures r.Ok? ==> |r.value| == |prompts| && forall i :: 0 <= i < |prompts| ==> r.value[i] == |Voters([prompts[i]])|
  {
    var counts: seq<nat> := [];
    for i := 0 to |prompts|
      invariant |counts| == i
      invariant forall k :: 0 <= k < i ==> ageOf(prompts[k]).Ok? && counts[k] == |Voters([prompts[k]])|
    {
      var msg := prompts[i];
      var timestamp := ageOf(msg);
      if timestamp.Err? {
        assert FirstBadTimestamp(prompts, ageOf, i);
        return Err(timestamp.error);
      }
      var emojis, voters := TallyReactions([msg]);
      counts := counts + [|voters|];
    }
    r := Ok(counts);
  }

  /** `emojisWrapped`: the year's vote prompts, their voter counts, and the ranking of all their
      reactions with room for 100 emojis and 20 creators. */
  method EmojisWrapped(catalog: Catalog, channelName: string, cachedChannelId: string,
                       conversations: (nat, nat) -> Result<ChannelPage>, f: Feed, p: Prompts,
                       aprilFools: Option<string>, year: int, month: int, mode: Mode,
                       fetch: seq<string> -> Result<seq<User>>, skip: set<string>, mute: set<string>)
    returns (voterCounts: seq<nat>, header: Option<Header>, r: Result<(seq<CreatorLine>, seq<CreatorLine>)>)
    requires HistoryEnds(f) && ChannelsEnd(conversations, f.maxPages)
    ensures var id := ChannelFor(channelName, cachedChannelId, conversations, f.waitOf, f.maxPages);
      id.Err? ==> r == Err(id.error) && header.None?
    ensures var id := ChannelFor(channelName, cachedChannelId, conversations, f.waitOf, f.maxPages);
      id.Ok? && PromptsFrom(f, id.value, p, 0).Err? ==> r == Err(PromptsFrom(f, id.value, p, 0).error) && header.None?
    ensures var id := ChannelFor(channelName, cachedChannelId, conversations, f.waitOf, f.maxPages);
      id.Ok? && PromptsFrom(f, id.value, p, 0).Ok? ==>
        var prompts := PromptsFrom(f, id.value, p, 0).value;
        && (header.Some? <==> forall i :: 0 <= i < |prompts| ==> f.ageOf(prompts[i]).Ok?)
        && (header.None? ==>
              exists i :: FirstBadTimestamp(prompts, f.ageOf, i) && r == Err(f.ageOf(prompts[i]).error))
        && (header.Some? ==>
              && header.value == LastYearHeader(WrappedYear(year, month), |Voters(prompts)|)
              && |voterCounts| == |prompts|
              && (forall i :: 0 <= i < |prompts| ==> voterCounts[i] == |Voters([prompts[i]])|)
              && VoteRanking(catalog, true, 100, prompts, aprilFools, mode, fetch, skip, mute, r))
  {
    voterCounts, header := [], None;
    var channelId := GetChannel(channelName, cachedChannelId, conversations, f.waitOf, f.maxPages);
    if channelId.Err? {
      return voterCounts, header, Err(channelId.error);
    }
    var messages := FindAllVotePrompts(f, channelId.value, p);
    if messages.Err? {
      return voterCounts, header, Err(messages.error);
    }
    var counts := PromptVoterCounts(messages.value, f.ageOf);
    if counts.Err? {
      return voterCounts, header, Err(counts.error);
    }
    voterCounts := counts.value;
    var h;
    h, r := PrintTopEmojisByReactionVote(catalog, true, 100, messages.value, aprilFools, year, month, mode, fetch, skip, mute);
    header := Some(h);
  }
}

/**
 * The emoji catalog and the admin-list fetcher (list_emojis.go): the emoji record, one parsed
 * response page, the page loops of `getAllEmojis` / `getEmojisBackTo`, and the name-indexed
 * lookup map built after fetching.
 */
module Emojis {
  import opened Wrappers

  /** One custom emoji as the admin endpoint reports it. */
  datatype Emoji = Emoji(
    name: string,
    isAlias: int,
    aliasFor: string,
    url: string,
    created: int,
    teamId: string,
    userId: string,
    userDisplayName: string)

  datatype Paging = Paging(count: int, total: int, page: int, pages: int)

  /** One decoded response of the admin list endpoint. */
  datatype EmojiResponse = EmojiResponse(
    ok: bool,
    error: string,
    emoji: seq<Emoji>,
    customEmojiTotalCount: int,
    paging: Paging)

  /** What one HTTP round trip yields: a transport error, a body JSON cannot decode, or a decoded body. */
  datatype RawPage = TransportError(message: string) | Undecodable(message: string) | Decoded(body: EmojiResponse)

  /** The form fields `getEmojis` posts for one page. */
  datatype ListRequest = ListRequest(page: int, count: int, sortBy: string, sortDir: string)

  /** The fetched catalog: the response with every page's emojis, and the name lookup. */
  datatype Catalog = Catalog(response: EmojiResponse, emojiMap: map<string, Emoji>)

  const FastPageSize: int := 1000
  const FullPageSize: int := 10000

  /** The page size of the `init` hook: smaller pages in fast mode. */
  function PageSize(fastMode: bool): (n: int)
    ensures n > 0
    ensures fastMode ==> n == FastPageSize
    ensures !fastMode ==> n == FullPageSize
  {
    if fastMode then FastPageSize else FullPageSize
  }

  /** The request for one page: newest first, `PageSize` entries per page. */
  function RequestFor(page: int, fastMode: bool): (q: ListRequest)
    ensures q.page == page && q.count == PageSize(fastMode)
    ensures q.sortBy == "created" && q.sortDir == "desc"
  {
    ListRequest(page, PageSize(fastMode), "created", "desc")
  }

  /** `parseEmojiResponse`: a decoded body is accepted only when its `ok` flag is set. */
  function ParseEmojiResponse(raw: RawPage): (r: Result<EmojiResponse>)
    ensures r.Ok? <==> raw.Decoded? && raw.body.ok
    ensures r.Ok? ==> r.value == raw.body
    ensures raw.Decoded? && !raw.body.ok ==> r == Err("recieved error from Slack: " + raw.body.error)
    ensures raw.Undecodable? ==> r == Err(raw.message)
  {
    match raw
    case TransportError(m) => Err(m)
    case Undecodable(m) => Err(m)
    case Decoded(body) =>
      if body.ok then Ok(body) else Err("recieved error from Slack: " + body.error)
  }

  /** The outcome of asking `server` for page `k`, transport and parse errors included. */
  function Fetched(server: ListRequest -> RawPage, fastMode: bool, k: int): Result<EmojiResponse> {
    match server(RequestFor(k, fastMode))
    case TransportError(m) => Err(m)
    case other => ParseEmojiResponse(other)
  }

  /** The page loop carries on after page `k` when the next page is within `k`'s page count and,
      for `getEmojisBackTo`, page `k` does not hold the marker. */
  predicate ContinuesAfter(page: EmojiResponse, k: int, stopAt: Option<string>) {
    && k + 1 <= page.paging.pages
    && (stopAt.Some? ==> forall e :: e in page.emoji ==> e.name != stopAt.value)
  }

  /** Pages 1..n were all fetched successfully and the loop went on after each of 1..n-1. */
  predicate FetchedThrough(server: ListRequest -> RawPage, fastMode: bool, n: nat, stopAt: Option<string>) {
    forall k :: 1 <= k <= n ==>
      Fetched(server, fastMode, k).Ok? &&
      (k < n ==> ContinuesAfter(Fetched(server, fastMode, k).value, k, stopAt))
  }

  /** The emojis of pages 1..n, in page order. */
  function PagesEmoji(server: ListRequest -> RawPage, fastMode: bool, n: nat): seq<Emoji>
    requires forall k :: 1 <= k <= n ==> Fetched(server, fastMode, k).Ok?
  {
    if n == 0 then [] else PagesEmoji(server, fastMode, n - 1) + Fetched(server, fastMode, n).value.emoji
  }

  /** The stop check of the page loop: whether the page holds the name. */
  method HasName(emoji: seq<Emoji>, name: string) returns (found: bool)
    ensures found <==> exists e :: e in emoji && e.name == name
  {
    found := false;
    for i := 0 to |emoji|
      invariant found <==> exists e :: e in emoji[..i] && e.name == name
    {
      if emoji[i].name == name {
        found := true;
      }
      assert emoji[..i + 1] == emoji[..i] + [emoji[i]];
    }
    assert emoji[..|emoji|] == emoji;
  }

  /**
   * The loop shared by `getAllEmojis` (`stopAt == None`) and `getEmojisBackTo` (`stopAt ==
   * Some(lastEmoji)`): request pages 1, 2, ... while the page number is within the page count of
   * the page parsed last (and the marker has not been seen), appending every page's emojis to the
   * first page's response. `maxPages` bounds every page count the server reports, which is what
   * makes the loop end.
   */
  method FetchPages(server: ListRequest -> RawPage, fastMode: bool, maxPages: nat, stopAt: Option<string>)
    returns (r: Result<EmojiResponse>, requested: nat)
    requires forall q :: server(q).Decoded? ==> server(q).body.paging.pages <= maxPages
    ensures 1 <= requested
    ensures FetchedThrough(server, fastMode, requested - 1, stopAt)
    ensures r.Err? <==> Fetched(server, fastMode, requested).Err?
    ensures r.Err? ==> r.error == Fetched(server, fastMode, requested).error
    ensures r.Ok? ==> FetchedThrough(server, fastMode, requested, stopAt)
    ensures r.Ok? ==> !ContinuesAfter(Fetched(server, fastMode, requested).value, requested, stopAt)
    ensures r.Ok? ==> r.value == Fetched(server, fastMode, 1).value.(emoji := PagesEmoji(server, fastMode, requested))
  {
    var all: Option<EmojiResponse> := None;
    var current: Option<EmojiResponse> := None;
    var stop := false;
    var page := 1;
    while current.None? || (!stop && page <= current.value.paging.pages)
      invariant page >= 1
      invariant current.None? <==> page == 1
      invariant all.None? <==> page == 1
      invariant FetchedThrough(server, fastMode, page - 1, stopAt)
      invariant current.Some? ==> current == Some(Fetched(server, fastMode, page - 1).value)
      invariant current.Some? ==> all == Some(Fetched(server, fastMode, 1).value.(emoji := PagesEmoji(server, fastMode, page - 1)))
      invariant current.Some? ==> (stop <==> stopAt.Some? && exists e :: e in current.value.emoji && e.name == stopAt.value)
      invariant current.Some? ==> current.value.paging.pages <= maxPages
      decreases maxPages + 2 - page
    {
      var raw := server(RequestFor(page, fastMode));
      var parsed := if raw.TransportError? then Err(raw.message) else ParseEmojiResponse(raw);
      assert parsed == Fetched(server, fastMode, page);
      if parsed.Err? {
        return Err(parsed.error), page;
      }
      current := Some(parsed.value);
      assert PagesEmoji(server, fastMode, page) == PagesEmoji(server, fastMode, page - 1) + parsed.value.emoji;
      if all.None? {
        all := Some(parsed.value);
        assert PagesEmoji(server, fastMode, 0) == [];
        assert PagesEmoji(server, fastMode, 1) == parsed.value.emoji;
      } else {
        all := Some(all.value.(emoji := all.value.emoji + parsed.value.emoji));
      }
      stop := false;
      if stopAt.Some? {
        stop := HasName(parsed.value.emoji, stopAt.value);
      }
      page := page + 1;
    }
    return Ok(all.value), page - 1;
  }

  /** `getAllEmojis`: every page, then the lookup map. `requested` is the last page asked for:
      the first that fails, or the first whose page count ends the loop. */
  method GetAllEmojis(server: ListRequest -> RawPage, fastMode: bool, maxPages: nat)
    returns (r: Result<Catalog>, requested: nat)
    requires forall q :: server(q).Decoded? ==> server(q).body.paging.pages <= maxPages
    ensures 1 <= requested
    ensures FetchedThrough(server, fastMode, requested - 1, None)
    ensures r.Err? <==> Fetched(server, fastMode, requested).Err?
    ensures r.Err? ==> r.error == Fetched(server, fastMode, requested).error
    ensures r.Ok? ==> FetchedThrough(server, fastMode, requested, None)
    ensures r.Ok? ==> Fetched(server, fastMode, requested).value.paging.pages < requested + 1
    ensures r.Ok? ==> r.value.response == Fetched(server, fastMode, 1).value.(emoji := PagesEmoji(server, fastMode, requested))
    ensures r.Ok? ==> IsEmojiMap(r.value.response.emoji, r.value.emojiMap)
  {
    var resp;
    resp, requested := FetchPages(server, fastMode, maxPages, None);
    if resp.Err? {
      return Err(resp.error), requested;
    }
    var m := BuildEmojiMap(resp.value.emoji);
    return Ok(Catalog(resp.value, m)), requested;
  }

  /** `getEmojisBackTo`: pages up to and including the first one that holds `lastEmoji`;
      `requested` is the last page asked for, as in `GetAllEmojis`. */
  method GetEmojisBackTo(server: ListRequest -> RawPage, fastMode: bool, maxPages: nat, lastEmoji: string)
    returns (r: Result<Catalog>, requested: nat)
    requires forall q :: server(q).Decoded? ==> server(q).body.paging.pages <= maxPages
    ensures 1 <= requested
    ensures FetchedThrough(server, fastMode, requested - 1, Some(lastEmoji))
    ensures r.Err? <==> Fetched(server, fastMode, requested).Err?
    ensures r.Err? ==> r.error == Fetched(server, fastMode, requested).error
    ensures r.Ok? ==> FetchedThrough(server, fastMode, requested, Some(lastEmoji))
    ensures r.Ok? ==> !ContinuesAfter(Fetched(server, fastMode, requested).value, requested, Some(lastEmoji))
    ensures r.Ok? ==> r.value.response == Fetched(server, fastMode, 1).value.(emoji := PagesEmoji(server, fastMode, requested))
    ensures r.Ok? ==> IsEmojiMap(r.value.response.emoji, r.value.emojiMap)
  {
    var resp;
    resp, requested := FetchPages(server, fastMode, maxPages, Some(lastEmoji));
    if resp.Err? {
      return Err(resp.error), requested;
    }
    var m := BuildEmojiMap(resp.value.emoji);
    return Ok(Catalog(resp.value, m)), requested;
  }

  /** No later entry of `emojis` than index `i` has the same name. */
  predicate LastWithName(emojis: seq<Emoji>, i: int)
    requires 0 <= i < |emojis|
  {
    forall j :: i < j < |emojis| ==> emojis[j].name != emojis[i].name
  }

  /** `m` indexes `emojis` by name, the last entry of a repeated name winning. */
  ghost predicate IsEmojiMap(emojis: seq<Emoji>, m: map<string, Emoji>) {
    && (forall n :: n in m <==> exists i :: 0 <= i < |emojis| && emojis[i].name == n)
    && (forall i :: 0 <= i < |emojis| && LastWithName(emojis, i) ==> m[emojis[i].name] == emojis[i])
  }

  /** The `emojiMap` loop of `getAllEmojis`. */
  method BuildEmojiMap(emojis: seq<Emoji>) returns (m: map<string, Emoji>)
    ensures IsEmojiMap(emojis, m)
  {
    m := map[];
    for i := 0 to |emojis|
      invariant m.Keys == set k | 0 <= k < i :: emojis[k].name
      invariant forall k :: 0 <= k < i && LastBefore(emojis, k, i) ==> m[emojis[k].name] == emojis[k]
    {
      m := m[emojis[i].name := emojis[i]];
    }
  }

  /** No entry between `k` and `i` (exclusive) has the name of entry `k`. */
  predicate LastBefore(emojis: seq<Emoji>, k: int, i: int)
    requires 0 <= k < i <= |emojis|
  {
    forall j :: k < j < i ==> emojis[j].name != emojis[k].name
  }
}

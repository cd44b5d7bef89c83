# slack-emoji-bot, modelled in Dafny

The bot runs once a week against a Slack workspace and posts a digest of its custom emojis. A run does the following:

- It pages through the workspace's emoji list (`emoji.adminList`, newest first) and indexes the list by name.
- It ranks last week's emojis by the reactions they received. The ranking comes either from pasted reaction text or from the reactions on the channel's two most recent vote prompts. It credits each emoji's creator.
- It compares the list with the previous on-disk snapshot to report deleted emojis, and derives the file name of each cached image.
- It removes skip-listed emojis. It then announces the emojis uploaded since last week's marker emoji. The announcement is batched into channel messages of 23 tags, plus an audit thread split at 10000 characters.
- It ranks uploaders (all time, this week, and first-time uploaders), the longest emoji names, and "meme" families (name substrings such as `bufo` or `brings-you`).
- It routes every message by its type and the configured run mode: printed, sent to the channel, DMed to the owner, fanned out to the reviewers, or dropped.
- It retries a Slack call once when the error carries a rate-limit wait.
- In "wrapped" mode it ranks a whole year's votes.

The model keeps the source's structure, one module per concern:

| module | file | what it holds |
|---|---|---|
| `Wrappers` | wrappers.dfy | `Option`, `Result` |
| `Strings` | strings.dfy | Go's string order and the `strings`/`strconv` calls the bot uses |
| `Sorting` | sorting.dfy | an in-place sort on an array, standing for `sort.Sort` |
| `Emojis` | emojis.dfy | emoji pages, the paging loops, the name index |
| `Dispatch` | dispatch.dfy | message routing, `sendMessage`, the rate-limit retry, the reviewer fan-out |
| `Snapshots` | snapshots.dfy | snapshot selection, deleted-emoji detection, cached image names |
| `SkipFilter` | skipfilter.dfy | `removeSkippedEmojis` |
| `Ranking` | ranking.dfy | `ByCount`, reaction-text parsing, the tie-aware top-N cut |
| `People` | people.dfy | user batches, upload counts, new uploaders, the people and creator listings, the deleted-emoji report |
| `NewEmojis` | newemojis.dfy | `mostRecentEmojis`: the walk to the marker, channel batches, audit parts |
| `History` | history.dfy | channel lookup, the history walk for last week's prompts, reaction votes, wrapped mode |
| `Memes` | memes.dfy | `memeCounter`, `bringsYouCounter` |
| `Longest` | longest.dfy | `longestEmojis` |

Every external effect is a parameter:

- the emoji server is a function from request to raw page;
- the Slack platform is a function from (request, attempt) to result;
- channel listings and histories are functions from (request number, attempt) to page;
- a directory listing is a value;
- the clock is an age function on messages;
- the rate-limit parser is a function from error text to wait.

Go panics (a bad slice, an index past the end, a nil map entry, `rand.Intn(0)`) are modelled as `Err` outcomes. Go's `rand.Intn` is a nondeterministic choice (`:|`).

## Model

| member | source | states |
|---|---|---|
| Strings.IndexOf | response_caching.go:63 | the first position of the character, or -1 exactly when it does not occur |
| Strings.IndexOfUnique | response_caching.go:68 | the first position is the unique position holding the character with none before it |
| Strings.IndexOfAppendLeft | response_caching.go:63 | in a concatenation, a character found in the left part is found at its position there |
| Strings.IndexOfAppendRight | response_caching.go:63 | a character only in the right part is found at its position there, shifted by the left length |
| Strings.ContainsAt | brings-you-counter.go:12-22 | `strings.Contains` holds iff the substring occurs at some position |
| Strings.Remove | literally_1984.go:9 | `strings.ReplaceAll(s, ":", "")` leaves no ':' and never lengthens the string |
| Strings.RemoveAppend | literally_1984.go:9 | `strings.ReplaceAll(s, ":", "")` works character by character: it distributes over concatenation, drops each ':' and keeps every other character, so the rest survive in order |
| Strings.RemoveAbsent | meme-counter.go:21 | removing a character that does not occur leaves the string unchanged |
| Strings.Split | main.go:135 | `strings.Split` yields at least one piece, and no piece holds the separator |
| Strings.SplitJoin | last_week_data.go:38 | joining the pieces with the separator gives back the string |
| Strings.SplitAppend | last_week_data.go:38 | splitting `a + sep + b` splits `a` and `b` independently |
| Strings.Atoi | main.go:143 | `strconv.Atoi`: a parsed value is a signed or unsigned digit string within 64 bits; a digit string in range (with '+' or '-') parses to its value, and one out of range is an error (`ErrRange`) |
| Strings.LessTotal | main.go:826-831 | Go's string `<` (the `ByCount` tie-break) is total on distinct strings |
| Strings.LessTransitive | main.go:826-831 | Go's string `<` is transitive |
| Strings.LessAsymmetric | main.go:826-831 | Go's string `<` is asymmetric |
| Strings.LessIrreflexive | main.go:826-831 | no string is `<` itself |
| Sorting.Sort | main.go:150 | the array ends sorted by the total preorder, as a permutation of its old contents |
| Emojis.PageSize | list_emojis.go:17-25 | 10000 entries per page, or 1000 in fast mode |
| Emojis.RequestFor | list_emojis.go:128-135 | a page request asks for that page, `PageSize` entries, sorted by creation date descending |
| Emojis.ParseEmojiResponse | list_emojis.go:154-171 | a body is accepted iff it decodes and its `ok` flag is set; otherwise the decode error or "recieved error from Slack: " + its error |
| Emojis.FetchPages | list_emojis.go:57-72 | pages 1..n are requested in order while the page number is within the last page count; the first failed page is the error; success returns the first page's header with every page's emojis in page order |
| Emojis.HasName | list_emojis.go:104-109 | true exactly when some emoji on the page has the marker name |
| Emojis.GetAllEmojis | list_emojis.go:55-85 | pages 1, 2, … are requested until one fails or the page count is passed; the result is an error exactly when the last page requested fails, and then it is that page's error; on success the response is page 1's with every page's emojis in order, and the map indexes them all by name |
| Emojis.GetEmojisBackTo | list_emojis.go:87-126 | as `GetAllEmojis`, but the pages also stop after the first one that holds the marker; an error exactly when the last page requested fails, with that page's error |
| Emojis.BuildEmojiMap | list_emojis.go:80-83 | the map holds exactly the names of the list; each name maps to its last entry in the list |
| Dispatch.RouteFor | send_print.go:26-109 | the routing table: each message type and run mode goes to print, channel, owner, reviewers or nowhere; only review-only messages are ever dropped |
| Dispatch.RetryWait | send_print.go:120-121 | a retry happens only for a parsable, non-zero rate-limit wait |
| Dispatch.WithBackoff | send_print.go:132-166 | one attempt; a second attempt exactly when the first failed with a retry wait; the result is the last attempt's |
| Dispatch.PostFor | send_print.go:112-115 | the post carries the text, and a thread option exactly when the thread id is non-empty |
| Dispatch.SendMessage | send_print.go:111-130 | at most two posts; the result is the retry policy applied to the post |
| Dispatch.FanOut | send_print.go:42-53 | as written: one send per reviewer in order, threaded only on the first; the first error aborts; on success the returned id is "" |
| Dispatch.FanOutLosesTimestamp | send_print.go:49-51 | even when every post succeeds with a non-empty id, the fan-out returns "" |
| Dispatch.FanOutFirstTs | send_print.go:42-53 | corrected: one request per reviewer reached, thread only on the first; an error is the failed send's own result; on success the result is the first non-empty message id (`FirstId`), which is the first reviewer's whenever that one is non-empty, and "" when every id is empty or there are no reviewers |
| Dispatch.PrintMessageWithThreadId | send_print.go:26-109 | the message is printed iff the route is Print; otherwise the platform requests are those its route makes (the channel, the owner, or the reviewers then the owner) |
| Snapshots.EligibleNames | response_caching.go:165-171 | a name is listed iff some plain, non-hidden file carries it |
| Snapshots.EligibleNamesDistinct | response_caching.go:165-171 | in a listing of distinct names, the snapshot names are distinct |
| Snapshots.StringOrder | response_caching.go:175 | Go's `<=` on strings is a total preorder |
| Snapshots.ReadLastEmojiDump | response_caching.go:150-182 | a negative offset is an error; a missing directory or too few files is "none"; otherwise the selected file has exactly `offset` snapshot names above it in string order |
| Snapshots.SortedSelection | response_caching.go:175-176 | in the sorted names, the one `offset` places from the end has exactly `offset` names above it |
| Snapshots.DistinctPermutation | response_caching.go:175 | sorting distinct names keeps them distinct |
| Snapshots.DistinctCard | response_caching.go:175 | distinct names have as many members as entries |
| Snapshots.DeletedMembers | response_caching.go:128-133 | an emoji is reported deleted iff the previous snapshot had it and its name is no longer current |
| Snapshots.DeletedIsSubsequence | response_caching.go:128-133 | the report is the previous list at strictly increasing positions (a subsequence, in previous order); it is all of it when nothing is current, and empty when every name is still current |
| Snapshots.DeletedAppend | response_caching.go:128-133 | the report of a concatenation is the concatenation of the reports, so each previous entry is kept or dropped in place |
| Snapshots.DeletedEmojis | response_caching.go:117-133 | the set-then-scan loops report exactly `Deleted` |
| Snapshots.SelectedUnique | response_caching.go:172-176 | at most one snapshot name has exactly one greater name, so offset 1 picks one file |
| Snapshots.DeletedSinceLastDump | response_caching.go:109-133 | the snapshot one before the newest is compared: an unreadable listing or an unparsable snapshot is that error (and these are the only errors); no such snapshot means nothing is compared; otherwise the previous entries whose names are gone |
| People.DeletedUserLines | response_caching.go:139-142 | each deleted entry with its uploader's name, in order; an error exactly when some uploader is missing from the user map (Go's nil dereference), naming the first |
| People.DetectDeletedEmojis | response_caching.go:109-143 | the comparison's error or "nothing compared" passes through; with entries deleted, one `getUsers` lookup of their uploaders: its error, else the report lines, or, for the first uploader the lookup did not return, an `Err` standing for the nil-pointer panic at line 141 |
| Snapshots.DataUriExtension | response_caching.go:63-64 | the extension is the text between `data:image/` and the first ';', and is absent when the slice would panic |
| Snapshots.DataUriPayload | response_caching.go:68-69 | the payload is everything after the first ',' |
| Snapshots.PathExt | response_caching.go:81 | `path.Ext`: "" or a '.'-led suffix of the last path element without another '.' |
| Snapshots.ImageFileName | response_caching.go:61-81 | data URIs are named by their declared type, URLs by their path extension |
| SkipFilter.SwapOutMultiset | literally_1984.go:15-16 | a swap-remove step removes exactly one copy of the slot's element |
| SkipFilter.SwapRemoveRemovesOnlySkipped | literally_1984.go:12-18 | the filter as written removes only skip-listed elements |
| SkipFilter.SwapRemoveNoSkipped | literally_1984.go:12-18 | with nothing skip-listed, the list is unchanged |
| SkipFilter.SwapRemoveKeepsSwappedIn | literally_1984.go:12-18 | as written, on [x, y, z] with x and z skip-listed the result is [z, y] |
| SkipFilter.RecheckRemoveExact | literally_1984.go:12-18 | corrected: exactly the skip-listed elements are removed, the others keep their multiplicity |
| SkipFilter.RemoveSkippedEmojis | literally_1984.go:5-19 | as written: the array's first n slots are the swap-remove result with the configured keys |
| SkipFilter.RemoveSkippedEmojisRechecked | literally_1984.go:5-19 | corrected: no kept emoji has a skip-listed name without its colons, and every other emoji is kept |
| SkipFilter.RecheckLoop | literally_1984.go:12-18 | the first `n` array cells after the loop are the rechecked swap-remove of the original contents |
| SkipFilter.NormalizedSkipList | literally_1984.go:6-10 | the normalized list holds exactly the configured keys with their colons removed, so no normalized key holds a colon |
| SkipFilter.ColonKeysMatchOnlyWhenNormalized | literally_1984.go:8-14 | with the key `:n:` configured (and `n` itself not), the filter as written keeps every emoji named `n` with its multiplicity, while the corrected filter over the normalized keys keeps none |
| Ranking.ByCountOrder | main.go:823-832 | `ByCount` (count descending, then name) gives a total preorder |
| Ranking.ByCountSorted | main.go:823-832 | a sorted list has non-increasing counts and ascending names within a count |
| Ranking.EntriesBeforeMembers | main.go:137-149 | an entry is parsed exactly from an emoji line whose next line parses as its count |
| Ranking.ParseReactions | main.go:135-149 | the parsing loop yields `EntriesBefore` over all the lines |
| Ranking.TopCount | main.go:160-176 | every taken entry passes both break tests, and the first untaken one fails one |
| Ranking.TopAboveMinimum | main.go:166-169 | every taken entry has at least the minimum count |
| Ranking.TopTiesPastLimit | main.go:161-165 | beyond the limit only ties of the last entry within the limit are taken |
| Ranking.TopKeepsTies | main.go:161-169 | a cut between equal counts is made by the minimum, never by the limit |
| Ranking.TopReachesLimit | main.go:160-176 | when the first `maxPrintCount` entries reach the minimum, all of them are taken |
| Ranking.TopIsBest | main.go:160-176 | on a sorted list no untaken entry beats a taken one |
| Ranking.EmojiKey | main.go:170 | the map key is the name without its outer colons; a name under two characters panics |
| Ranking.CreatorOf | main.go:170-171 | a creator exists iff the key is valid and in the map, and is that emoji's uploader |
| Ranking.CollectTop | last_week_data.go:183-205 | the loop yields an error iff a taken entry has no creator; otherwise one creator, count and name per taken entry |
| Ranking.RankReactions | main.go:134-177 | the parsed entries, sorted by `ByCount` as a permutation, are cut by `TopCount` with limit 10 and minimum 3 |
| People.PrintTopEmojis | main.go:134-179 | the ranking's error, else `printTopCreators` over the selection with the first message ending at `TopPeopleToPrint`: its fetch error, its first missing creator, or its lines |
| People.Min | people_printing.go:29-34 | the smaller of the two |
| People.Batches | people_printing.go:15-17 | every batch holds 1 to 30 ids |
| People.BatchesCover | people_printing.go:15-17 | the batches concatenate to the ids |
| People.BatchesFull | people_printing.go:15-17 | only the last batch may be short |
| People.AddUsersKeys | people_printing.go:22-24 | the user map holds exactly the returned ids, each mapped to a user with that id |
| People.GetUsers | people_printing.go:11-27 | the first failed batch is the error; otherwise the map of every returned user by id |
| People.AddBatch | people_printing.go:22-24 | the map after a batch is the map of every user fetched so far, later entries replacing earlier ones with the same id |
| People.CreateNameString | people_printing.go:36-44 | "" for nobody, "Thanks to A." for one, and otherwise the names in string order joined by ", " with ", and " before the last |
| People.UploadersMembers | people_printing.go:47-59 | someone is an uploader iff they uploaded an emoji, and is listed once |
| People.UploadCountsSum | people_printing.go:47-59 | the per-uploader counts add up to the number of emojis |
| People.CountZero | people_printing.go:47-59 | a zero count means no upload |
| People.CountUploads | people_printing.go:47-59 | one entry per uploader: their id, the display name of their first upload, their number of uploads |
| People.AddUpload | people_printing.go:49-58 | one upload more keeps the map the count map of the uploads walked: new uploaders enter with count one and their display name, known ones count one more |
| People.CountAppend | people_printing.go:71-72 | counts over newer and older uploads add up |
| People.NewUploaders | people_printing.go:70-75 | a weekly uploader is kept iff the all-time map lacks them or the counts agree |
| People.NewUploaderHasNoOlderUpload | people_printing.go:72 | with the week's uploads counted all-time, equal counts mean no older upload |
| People.HandleFor | people_printing.go:107-133 | muted users are shown without '@'; others as `<@id>` in API format, `@name` otherwise |
| People.PeopleLines | people_printing.go:101-139 | at most one line per entry, at most five in the first message |
| People.PeopleRanksConsecutive | people_printing.go:109-132 | the displayed ranks are 1, 2, 3, ... across both messages |
| People.PeopleSecondEmpty | people_printing.go:114-133 | with at most five entries the second message is empty |
| People.PeopleAllShown | people_printing.go:101-139 | without skip-listed users every entry is shown, in order |
| People.PeopleLinesStep | people_printing.go:102-135 | each entry adds at most one line, at the end of the message its position selects |
| People.Considered | people_printing.go:94 | at most `maxPeople` entries are considered |
| People.RankPeople | people_printing.go:101-139 | the loop yields `RanksPeople`: the first missing user is an error naming them, otherwise the lines |
| People.RankStep | people_printing.go:103-135 | one pass adds the line the entry deserves (none when skip-listed, else to the message its position selects), keeping the rank correction equal to the skipped entries so far |
| People.Ids | people_printing.go:93-96 | the ids of the entries, in order |
| People.MapEntries | people_printing.go:86-89 | the map's values, one per key, in arbitrary order |
| People.SortByCount | people_printing.go:90 | a `ByCount`-sorted permutation of the entries |
| People.PrintTopPeople | people_printing.go:85-139 | some `ByCount` order of the map's entries is fetched and ranked |
| People.ConsideredIds | people_printing.go:93-96 | the ids of the first `maxPeople` sorted entries, in order |
| People.CreatorLinesArePositions | people_printing.go:168-200 | every creator line stands for the selected emoji at rank - 1, whose creator is not skipped; the first message holds exactly the positions below `peopleToPrint` |
| People.CreatorSecondEmpty | people_printing.go:178-198 | with no more than `peopleToPrint` selections the second message is empty |
| People.PrintTopCreators | people_printing.go:160-200 | the fetch error, else the first missing creator as an error, else the creator lines |
| NewEmojis.CreatedOrder | main.go:817-821 | `EmojiUploadDateSort` (newest first) gives a total preorder |
| NewEmojis.MarkerIndex | main.go:522-526 | the walk stops at the first emoji named like the marker, or the end |
| NewEmojis.NameGroups | main.go:559-569 | there are groups iff there are names |
| NewEmojis.NameGroupsShape | main.go:559-569 | the groups hold the names in order, 1 to 23 each, all but the last full |
| NewEmojis.SlackBatches | main.go:559-563 | one channel message of tags per group |
| NewEmojis.SlackBatchesConcat | main.go:559-563 | the channel messages joined give every name's tag, in order |
| NewEmojis.AuditParts | main.go:546-558 | there is always at least one audit part |
| NewEmojis.AuditPartsConcat | main.go:553-558 | the audit parts joined give every audit line, in order |
| NewEmojis.AuditPartsFit | main.go:554-558 | a part passes 10000 characters only when it is a single line that long; only the first part can be empty |
| NewEmojis.WalkToMarker | main.go:522-541 | the new names are the names before the marker, with per-uploader counts over them, each entry holding the display name of that uploader's first new emoji |
| NewEmojis.BatchNewEmojis | main.go:543-571 | the channel messages and audit parts of the new names, oldest first |
| NewEmojis.AddAuditPiece | main.go:553-558 | a piece joins the last audit part unless that would pass 10000 characters, when it opens a new part |
| NewEmojis.AddTag | main.go:559-569 | the tag joins the message being filled or opens a new one, and the counters keep every message at most 23 tags, all but the last full |
| NewEmojis.MostRecentEmojis | main.go:514-571 | the catalog ends sorted newest first as a permutation; the new names are the names before the marker, counted per uploader under the display name of their first one; the batches are built from them oldest first |
| History.Prelude | last_week_data.go:62-75 | the page-start checks fail exactly when the page is empty while a companion is pending |
| History.FindLastWeekMessages | last_week_data.go:51-113 | the walk loop yields `WalkFrom` from the first request |
| History.PageChecks | last_week_data.go:62-75 | the start-of-page checks yield `Prelude`: an empty page with a companion pending is an error |
| History.ScanPage | last_week_data.go:76-95 | the message loop of one page yields `ScanFrom` from its first message |
| History.ScanConsistent | last_week_data.go:76-95 | a scan keeps the found flags consistent: a reaction message is only ever recorded once it is a vote prompt |
| History.WalkFound | last_week_data.go:96-112 | a successful walk has found both prompts and both companions, and its reaction message is a vote prompt |
| History.ScanSkips | last_week_data.go:76-95 | messages without a prompt leave the walk unchanged |
| History.ScanOnePage | last_week_data.go:76-95 | one page holding both prompts with successors gives the first prompt, its successor and the second prompt's successor |
| History.CompanionPanics | last_week_data.go:81-82 | as written, a first prompt at the page's end indexes past it |
| History.CompanionOnNextPage | last_week_data.go:62-68 | corrected: that prompt's companion is the first message of the next page |
| History.ScanKeepsPair | last_week_data.go:76-95 | corrected: once found, the first pair is kept by a page scan |
| History.KeepsPair | last_week_data.go:57-111 | corrected: once found, the first pair is kept by the rest of the walk |
| History.AsWrittenNeverPending | last_week_data.go:62-75 | as written, no companion is ever left pending, so the page-start checks never fire |
| History.MarkerOf | last_week_data.go:38-42 | the marker is the second-to-last ':' piece, present iff there are at least two pieces |
| History.MarkerOfTagged | last_week_data.go:38-42 | a text ending in ":name:" has marker `name` |
| History.MarkerOfUntagged | last_week_data.go:39-40 | a text without ':' has no marker |
| History.MarkersOf | last_week_data.go:37-48 | both markers, or the error naming the last-emoji message |
| History.DealWithLastWeekMessages | last_week_data.go:17-49 | an override stands for both markers; otherwise the channel lookup, the walk and the markers, with the first error |
| History.ChannelKey | last_week_data.go:130-132 | a leading '#' is dropped |
| History.FirstChannel | last_week_data.go:144-150 | the first real channel with the name, or -1 when there is none |
| History.GetChannel | last_week_data.go:123-161 | an empty name is an error; a cached id is used as is; otherwise the paged lookup |
| History.ScanChannels | last_week_data.go:143-150 | finds a channel exactly when one of the page has the name, and then the first such |
| History.ChannelFromFound | last_week_data.go:138-160 | a found id belongs to a real channel with the name on some page |
| History.UserSet | last_week_data.go:169-171 | the set of a reaction's users |
| History.VotesMembers | last_week_data.go:166-168 | the ranked entries are exactly the reactions of the messages |
| History.VotersMembers | last_week_data.go:169-171 | the voters are exactly the users who reacted |
| History.TallyReactions | last_week_data.go:164-173 | every reaction becomes an entry, every reacting user a voter |
| History.TallyMessage | last_week_data.go:167-172 | the reactions of one message add their entries in order and their users to the set |
| History.AddReactionUsers | last_week_data.go:169-171 | the set grows by exactly the users of the reaction |
| History.WrappedYear | last_week_data.go:211-215 | the current year, or the previous one in January |
| History.PeopleToPrint | last_week_data.go:207-210 | 20 creators in wrapped mode, 5 otherwise |
| History.PrintTopEmojisByReactionVote | last_week_data.go:163-220 | the header counts the distinct voters; `VoteRanking`: the reactions are sorted and cut, and the creators listed, with the first message ending at 20 in wrapped mode |
| History.PagePrompts | emojis_wrapped.go:47-51 | the prompts of a page, in page order |
| History.PromptsFromArePrompts | emojis_wrapped.go:37-66 | every message the prompt walk returns is a vote prompt |
| History.AddPagePrompts | emojis_wrapped.go:47-51 | the message loop appends the page's prompts in page order |
| History.FindAllVotePrompts | emojis_wrapped.go:37-66 | the walk loop yields `PromptsFrom` from the first request |
| History.PromptVoterCounts | emojis_wrapped.go:21-33 | one distinct-voter count per prompt; an error exactly when some timestamp does not parse, and then the first such prompt's error |
| History.EmojisWrapped | emojis_wrapped.go:11-35 | the channel's or the walk's error; else the first unparsable timestamp's error; else the year header, one voter count per prompt, and `VoteRanking` of all the prompts in wrapped mode with room for 100 emojis |
| Memes.MemeNames | meme-counter.go:25-37 | a family lists no more names than were walked |
| Memes.MemeNamesExact | meme-counter.go:29-35 | a name is listed under a family once per time it is walked and matches, however many substrings it matches |
| Memes.Leader | meme-counter.go:39-46 | the first family with the strictly largest positive count, or -1 when none is positive |
| Memes.Counts | meme-counter.go:39-46 | one count per family |
| Memes.MatchesMeme | meme-counter.go:30-35 | a name matches iff it contains one of the family's substrings |
| Memes.CollectMemes | meme-counter.go:21-37 | each family lists its matching names walked before the marker |
| Memes.AddToMemes | meme-counter.go:29-36 | a walked name is appended to exactly the families it matches, once each |
| Memes.ChooseStart | meme-counter.go:39-46 | the leading family's start emoji, or `genericSadEmoji` when there is none |
| Memes.Clauses | meme-counter.go:48-62 | one clause per family, with a member or its fallback text, "and " on the last |
| Memes.MemeCounter | meme-counter.go:16-68 | nothing without families; otherwise the start emoji and one clause per family |
| Memes.NamesWhere | brings-you-counter.go:10-25 | the kept names never outnumber the emojis |
| Memes.NamesWhereExact | brings-you-counter.go:10-25 | a name is kept once per emoji that carries it and passes the test |
| Memes.BringsYouCounter | brings-you-counter.go:8-39 | an empty family is an error; the Bufo opening iff Bufo is strictly larger; the examples are members |
| Longest.LengthOrder | longest_emoji_names.go:5-9 | `StringLengthSort` (longer first) gives a total preorder |
| Longest.LongestEmojis | longest_emoji_names.go:11-20 | the catalog becomes a permutation ordered by non-increasing name length; the first min(100, n) are listed, numbered from 1; no unlisted name is longer |

## Left out

- HTTP, JSON decoding, base64 decoding, file writes and the console. The server, the Slack client and the directory listing are parameters; a page is either decoded or carries its decode error.
- Message texts built with `printer.Sprintf`/`fmt.Sprintf` are not modelled; the model yields the structured lines and counts they print. The sends after `mostRecentEmojis`, `printTopPeople`, `printTopCreators`, `memeCounter` and `bringsYouCounter` build their messages are left out too.
- People.DetectDeletedEmojis: the closing review-only `printMessage` of `detectDeletedEmojis` (response_caching.go:146-147) and its error are not modelled; the result is the report before that send. `Dispatch.PrintMessageWithThreadId` models one such send.
- The clock: `time.Since(timeFromMessage(m))` is an age function (nanoseconds) passed in, and its parse error is that function's error. The year and month of `time.Now()` are parameters. `timeFromMessage`'s float parsing is not modelled.
- `rand.Intn` is a nondeterministic choice of a valid index.
- The `Sscanf` of the rate-limit format is a parameter from error text to wait. The sleep is recorded, not performed.
- Lengths are counted in characters; Go counts bytes. They agree on ASCII emoji names, and the 10000-character audit limit is stated in characters.
- main.go holds older copies of functions that were later moved to their own files (`getAllEmojis`, `removeSkippedEmojis`, `printTopPeople`, `printTopCreators`, `readLastEmojiDump`, `detectDeletedEmojis`, `cacheEmojiImages`, `longestEmojis`). The model follows the split files. `printTopEmojis`, `mostRecentEmojis` and the sort types exist only in main.go and are modelled from it.
- A missing name in `emojiMap` dereferences a nil pointer in Go; the model gives an `Err`.
- `printTopCreators` is called with five arguments at last_week_data.go:219 but declared with four at people_printing.go:160. The model gives it the extra `peopleToPrint` argument. Where the first message ends at `TopPeopleToPrint`, `peopleToPrint` is 5.
- History.EmojisWrapped: `emojisWrapped` passes `getChannel`'s `string` result (last_week_data.go:123, emojis_wrapped.go:13-17) to `findAllVotePrompts`, which is declared to take a `*slack.Channel` (emojis_wrapped.go:37). As written that does not type-check. The model passes the channel id, which is what `findAllVotePrompts` reads from the channel.
- History walks, channel listings and the emoji pager take a page bound `maxPages`, beyond which the server is assumed to give no cursor, so that the loops terminate. Histories longer than that are not modelled.
- `reactionMessage` is a global in the source; `History.DealWithLastWeekMessages` returns it instead.
- Go's `%v` rendering of a message in an error text is the message text.
- The configuration constants (channel name, skip and mute lists, meme families, vote prompts, overrides, the run mode) are parameters.
- `main` and `topUploaders` (the orchestration) are not modelled.
- `Longest.LongestEmojis`, `NewEmojis.MostRecentEmojis`, `SkipFilter.RemoveSkippedEmojis` and `SkipFilter.RemoveSkippedEmojisRechecked` state their effect on the array with `old`. The count map's iteration order (`People.MapEntries`) is arbitrary and is left unspecified.
- `cacheEmojiImages` is modelled only as the file name it derives (`Snapshots.ImageFileName`). The existence check, the download and the write are I/O.
- `Dispatch.FanOut`: only the send outcomes are stated; the console output of a fan-out is not.

## Findings

| source | as written | input that shows it | evidently intended | confidence | as-written member | corrected member |
|---|---|---|---|---|---|---|
| literally_1984.go:8-10 | the colon-stripped key is computed and discarded, so a key configured as `:foo:` never matches the name `foo` | skip list {":foo:"}, emoji `foo` | keys compared without their colons, as the comment above the loop says | not executed | SkipFilter.ColonKeysMatchOnlyWhenNormalized | SkipFilter.RemoveSkippedEmojisRechecked |
| literally_1984.go:12-18 | after a swap-remove the loop moves on, so the element swapped into the slot is never checked | [x, y, z] with x and z skipped gives [z, y] | every skip-listed emoji removed | not executed | SkipFilter.SwapRemoveKeepsSwappedIn | SkipFilter.RecheckRemoveExact |
| send_print.go:49-51 | `firstTS` is assigned only when it is already non-empty, so it stays "" | two reviewers, each post succeeding with id "1700000000.000100"; the result is "" | return the first reviewer's message id | not executed | Dispatch.FanOutLosesTimestamp | Dispatch.FanOutFirstTs |
| last_week_data.go:62-94 | the guard `len >= i` always holds, so `messages[i+1]` indexes past the end when a prompt is the page's last message; the page-start checks meant for that case never fire as written (History.AsWrittenNeverPending), and the second of them writes `lastEmojiMessage`/`foundTwo` instead of `previousWeekLastEmojiMessage`/`foundFour` | a first page whose last message is its first vote prompt | guard `i + 1 < len`, the companion then taken from the first message of the next page, by the check for the matching pair | not executed | History.CompanionPanics | History.CompanionOnNextPage |

/**
 * People-facing listings (people_printing.go): user lookup in batches, the "Thanks to ..."
 * name string, per-uploader counts, first-time uploaders, and the ranked lines of
 * `printTopPeople` and `printTopCreators`. The printed text itself (thousands separators,
 * mention syntax) is kept as structured lines.
 */
module People {
  import opened Wrappers
  import opened Strings
  import opened Sorting
  import opened Emojis
  import opened Ranking
  import opened Dispatch
  import opened Snapshots

  /** The fields of a platform user the listings read. */
  datatype User = User(id: string, name: string, realName: string)

  /** `getUsers` asks for this many ids per request. */
  const UsersPerRequest: nat := 30

  /** Entries at a sorted position below this go to the first message. */
  const TopPeopleToPrint: nat := 5

  /** `minInt`. */
  function Min(a: int, b: int): (m: int)
    ensures m <= a && m <= b && (m == a || m == b)
  {
    if a < b then a else b
  }

  // ----- getUsers -----

  /** The id batches `getUsers` requests: consecutive slices of `size`, the last possibly shorter. */
  function Batches(ids: seq<string>, size: nat): (bs: seq<seq<string>>)
    requires size > 0
    ensures forall k :: 0 <= k < |bs| ==> 1 <= |bs[k]| <= size
    decreases |ids|
  {
    if |ids| == 0 then []
    else
      var end := Min(size, |ids|);
      [ids[..end]] + Batches(ids[end..], size)
  }

  function Flatten<T>(bs: seq<seq<T>>): seq<T> {
    if |bs| == 0 then [] else bs[0] + Flatten(bs[1..])
  }

  /** The batches cover the ids in order, with no gap and no overlap. */
  lemma {:induction false} BatchesCover(ids: seq<string>, size: nat)
    requires size > 0
    ensures Flatten(Batches(ids, size)) == ids
    decreases |ids|
  {
    if |ids| > 0 {
      var end := Min(size, |ids|);
      BatchesCover(ids[end..], size);
      assert ([ids[..end]] + Batches(ids[end..], size))[1..] == Batches(ids[end..], size);
      assert ids == ids[..end] + ids[end..];
    }
  }

  /** Only the last batch may be short. */
  lemma {:induction false} BatchesFull(ids: seq<string>, size: nat)
    requires size > 0
    ensures forall k :: 0 <= k < |Batches(ids, size)| - 1 ==> |Batches(ids, size)[k]| == size
    decreases |ids|
  {
    if |ids| > 0 {
      var end := Min(size, |ids|);
      BatchesFull(ids[end..], size);
      var bs := Batches(ids, size);
      assert bs[1..] == Batches(ids[end..], size);
      if |ids| < size {
        assert ids[end..] == [];
      }
    }
  }

  /** What fetching every batch in order yields: all users returned, or the first error. */
  function FetchAll(fetch: seq<string> -> Result<seq<User>>, bs: seq<seq<string>>): Result<seq<User>> {
    if |bs| == 0 then Ok([])
    else if fetch(bs[0]).Err? then Err(fetch(bs[0]).error)
    else Prepend(fetch(bs[0]).value, FetchAll(fetch, bs[1..]))
  }

  function Prepend(us: seq<User>, r: Result<seq<User>>): Result<seq<User>> {
    if r.Ok? then Ok(us + r.value) else r
  }

  /** `users[user.ID] = user` for each returned user in order: a later user with the same id wins. */
  function AddUsers(m: map<string, User>, us: seq<User>): map<string, User> {
    if |us| == 0 then m
    else AddUsers(m, us[..|us| - 1])[us[|us| - 1].id := us[|us| - 1]]
  }

  /** The user map is keyed by id: it holds exactly the returned ids, each mapped to a user with that id. */
  lemma {:induction false} AddUsersKeys(us: seq<User>)
    ensures forall id :: id in AddUsers(map[], us) <==> exists k :: 0 <= k < |us| && us[k].id == id
    ensures forall id :: id in AddUsers(map[], us) ==> AddUsers(map[], us)[id].id == id
  {
    if |us| > 0 {
      var init := us[..|us| - 1];
      AddUsersKeys(init);
      forall id | exists k :: 0 <= k < |us| && us[k].id == id ensures id in AddUsers(map[], us) {
        var k :| 0 <= k < |us| && us[k].id == id;
        if k < |us| - 1 {
          assert init[k].id == id;
        }
      }
      forall id | id in AddUsers(map[], us) ensures exists k :: 0 <= k < |us| && us[k].id == id {
        if id != us[|us| - 1].id {
          assert id in AddUsers(map[], init);
          var k :| 0 <= k < |init| && init[k].id == id;
          assert us[k].id == id;
        }
      }
    }
  }

  lemma BatchStep(ids: seq<string>, start: nat)
    requires start < |ids|
    ensures Batches(ids[start..], UsersPerRequest)
         == [ids[start..Min(start + UsersPerRequest, |ids|)]] + Batches(ids[Min(start + UsersPerRequest, |ids|)..], UsersPerRequest)
  {
    var end := Min(start + UsersPerRequest, |ids|);
    assert ids[start..][..end - start] == ids[start..end];
    assert ids[start..][end - start..] == ids[end..];
  }

  lemma FetchStep(fetch: seq<string> -> Result<seq<User>>, b: seq<string>, rest: seq<seq<string>>, fetched: seq<User>)
    ensures fetch(b).Err? ==> Prepend(fetched, FetchAll(fetch, [b] + rest)) == Err(fetch(b).error)
    ensures fetch(b).Ok? ==>
      Prepend(fetched, FetchAll(fetch, [b] + rest)) == Prepend(fetched + fetch(b).value, FetchAll(fetch, rest))
  {
    assert ([b] + rest)[1..] == rest;
    var tail := FetchAll(fetch, rest);
    if fetch(b).Ok? && tail.Ok? {
      assert fetched + (fetch(b).value + tail.value) == (fetched + fetch(b).value) + tail.value;
    }
  }

  /** The inner loop of `getUsers`: each user of one response keyed by id, in order. */
  method AddBatch(users: map<string, User>, fetched: seq<User>, results: seq<User>) returns (added: map<string, User>)
    requires users == AddUsers(map[], fetched)
    ensures added == AddUsers(map[], fetched + results)
  {
    added := users;
    assert fetched + results[..0] == fetched;
    for i := 0 to |results|
      invariant added == AddUsers(map[], fetched + results[..i])
    {
      assert (fetched + results[..i + 1])[..|fetched| + i] == fetched + results[..i];
      added := added[results[i].id := results[i]];
    }
    assert results[..|results|] == results;
  }

  /** Nothing fetched yet leaves an outcome as it is. */
  lemma PrependNothing(r: Result<seq<User>>)
    ensures Prepend([], r) == r
  {
    if r.Ok? {
      assert [] + r.value == r.value;
    }
  }

  /** `getUsers`: request the ids in batches of 30 and key every returned user by id; the first failed request aborts. */
  method GetUsers(userIds: seq<string>, fetch: seq<string> -> Result<seq<User>>) returns (r: Result<map<string, User>>)
    ensures FetchAll(fetch, Batches(userIds, UsersPerRequest)).Err? ==>
      r == Err(FetchAll(fetch, Batches(userIds, UsersPerRequest)).error)
    ensures FetchAll(fetch, Batches(userIds, UsersPerRequest)).Ok? ==>
      r == Ok(AddUsers(map[], FetchAll(fetch, Batches(userIds, UsersPerRequest)).value))
  {
    var users: map<string, User> := map[];
    var fetched: seq<User> := [];
    ghost var all := FetchAll(fetch, Batches(userIds, UsersPerRequest));
    var endIndex := 0;
    var startIndex := 0;
    assert userIds[startIndex..] == userIds;
    PrependNothing(all);
    while startIndex < |userIds|
      invariant 0 <= startIndex <= |userIds|
      invariant users == AddUsers(map[], fetched)
      invariant all == Prepend(fetched, FetchAll(fetch, Batches(userIds[startIndex..], UsersPerRequest)))
      decreases |userIds| - startIndex
    {
      endIndex := Min(startIndex + UsersPerRequest, |userIds|);
      var batch := userIds[startIndex..endIndex];
      BatchStep(userIds, startIndex);
      var results := fetch(batch);
      FetchStep(fetch, batch, Batches(userIds[endIndex..], UsersPerRequest), fetched);
      if results.Err? {
        return Err(results.error);
      }
      users := AddBatch(users, fetched, results.value);
      fetched := fetched + results.value;
      startIndex := endIndex;
    }
    assert userIds[startIndex..] == [];
    assert Batches(userIds[startIndex..], UsersPerRequest) == [];
    assert fetched + [] == fetched;
    return Ok(users);
  }

  // ----- createNameString -----

  /** "Thanks to A, B, and C." over the names in string order. */
  method CreateNameString(people: seq<string>) returns (s: string)
    ensures |people| == 0 ==> s == ""
    ensures |people| == 1 ==> s == "Thanks to " + people[0] + "."
    ensures |people| >= 2 ==>
      exists sorted: seq<string> ::
        && |sorted| == |people|
        && multiset(sorted) == multiset(people)
        && SortedBy(sorted, LessEq)
        && s == "Thanks to " + Join(sorted[..|sorted| - 1], ", ") + ", and " + sorted[|sorted| - 1] + "."
  {
    if |people| == 0 {
      return "";
    } else if |people| == 1 {
      return "Thanks to " + people[0] + ".";
    }
    var a := new string[|people|](i requires 0 <= i < |people| => people[i]);
    assert a[..] == people;
    StringOrder();
    Sort(a, LessEq);
    assert |a[..]| == |people|;
    s := "Thanks to " + Join(a[..a.Length - 1], ", ") + ", and " + a[a.Length - 1] + ".";
    assert a[..][..|a[..]| - 1] == a[..a.Length - 1];
  }

  // ----- per-uploader counts -----

  /** How many of `emojis` were uploaded by `id`. */
  function CountOf(emojis: seq<Emoji>, id: string): nat {
    if |emojis| == 0 then 0
    else CountOf(emojis[..|emojis| - 1], id) + (if emojis[|emojis| - 1].userId == id then 1 else 0)
  }

  /** The uploaders of `emojis`, each once, in order of their first upload. */
  function Uploaders(emojis: seq<Emoji>): seq<string> {
    if |emojis| == 0 then []
    else
      var u := Uploaders(emojis[..|emojis| - 1]);
      if emojis[|emojis| - 1].userId in u then u else u + [emojis[|emojis| - 1].userId]
  }

  /** The total of `CountOf` over `ids`. */
  function SumCounts(emojis: seq<Emoji>, ids: seq<string>): int {
    if |ids| == 0 then 0 else SumCounts(emojis, ids[..|ids| - 1]) + CountOf(emojis, ids[|ids| - 1])
  }

  /** Someone is an uploader exactly when they uploaded at least one emoji; nobody is listed twice. */
  lemma {:induction false} UploadersMembers(emojis: seq<Emoji>)
    ensures forall id :: id in Uploaders(emojis) <==> CountOf(emojis, id) > 0
    ensures Distinct(Uploaders(emojis))
  {
    if |emojis| > 0 {
      UploadersMembers(emojis[..|emojis| - 1]);
    }
  }

  lemma {:induction false} SumCountsSnoc(emojis: seq<Emoji>, x: Emoji, ids: seq<string>)
    ensures SumCounts(emojis + [x], ids) == SumCounts(emojis, ids) + multiset(ids)[x.userId]
  {
    assert (emojis + [x])[..|emojis|] == emojis;
    if |ids| > 0 {
      SumCountsSnoc(emojis, x, ids[..|ids| - 1]);
      assert ids == ids[..|ids| - 1] + [ids[|ids| - 1]];
    }
  }

  /** The per-uploader counts add up to the number of emojis. */
  lemma {:induction false} UploadCountsSum(emojis: seq<Emoji>)
    ensures SumCounts(emojis, Uploaders(emojis)) == |emojis|
  {
    if |emojis| > 0 {
      var init, x := emojis[..|emojis| - 1], emojis[|emojis| - 1];
      assert emojis == init + [x];
      var u := Uploaders(init);
      UploadCountsSum(init);
      UploadersMembers(init);
      SumCountsSnoc(init, x, u);
      if x.userId in u {
        DistinctMultiplicity(u, x.userId);
      } else {
        SumCountsSnoc(init, x, u);
        assert (u + [x.userId])[..|u|] == u;
        assert CountOf(init, x.userId) == 0;
      }
    }
  }

  /** Nobody has a count without an upload. */
  lemma {:induction false} CountZero(emojis: seq<Emoji>, id: string)
    ensures CountOf(emojis, id) == 0 <==> forall j :: 0 <= j < |emojis| ==> emojis[j].userId != id
  {
    if |emojis| > 0 {
      CountZero(emojis[..|emojis| - 1], id);
    }
  }

  /** `k` is where `id` first uploaded. */
  predicate FirstUploadAt(emojis: seq<Emoji>, id: string, k: int) {
    && 0 <= k < |emojis|
    && emojis[k].userId == id
    && forall j :: 0 <= j < k ==> emojis[j].userId != id
  }

  /** `people` is the count map of `seen`: one entry per uploader, holding their id, the display
      name of their first upload, and their number of uploads. */
  ghost predicate Tally(people: map<string, StringCount>, seen: seq<Emoji>) {
    TallyCounts(people, seen) && TallyNames(people, seen)
  }

  ghost predicate TallyCounts(people: map<string, StringCount>, seen: seq<Emoji>) {
    && (forall id :: id in people <==> id in Uploaders(seen))
    && (forall id :: id in people ==> people[id].id == id && people[id].count == CountOf(seen, id))
  }

  ghost predicate TallyNames(people: map<string, StringCount>, seen: seq<Emoji>) {
    forall id :: id in people ==> exists k :: FirstUploadAt(seen, id, k) && people[id].name == seen[k].userDisplayName
  }

  /** The map after counting the upload `e`. */
  function Counted(people: map<string, StringCount>, e: Emoji): map<string, StringCount> {
    if e.userId !in people then people[e.userId := StringCount(1, e.userDisplayName, e.userId)]
    else people[e.userId := people[e.userId].(count := people[e.userId].count + 1)]
  }

  lemma CountedCounts(people: map<string, StringCount>, seen: seq<Emoji>, e: Emoji)
    requires TallyCounts(people, seen)
    ensures TallyCounts(Counted(people, e), seen + [e])
  {
    assert (seen + [e])[..|seen|] == seen;
    UploadersMembers(seen);
  }

  lemma CountedNames(people: map<string, StringCount>, seen: seq<Emoji>, e: Emoji)
    requires TallyCounts(people, seen) && TallyNames(people, seen)
    ensures TallyNames(Counted(people, e), seen + [e])
  {
    var people' := Counted(people, e);
    var seen' := seen + [e];
    forall id | id in people'
      ensures exists k :: FirstUploadAt(seen', id, k) && people'[id].name == seen'[k].userDisplayName
    {
      if id in people {
        var k :| FirstUploadAt(seen, id, k) && people[id].name == seen[k].userDisplayName;
        assert seen'[k] == seen[k];
        assert FirstUploadAt(seen', id, k);
      } else {
        UploadersMembers(seen);
        CountZero(seen, id);
        assert FirstUploadAt(seen', id, |seen|);
      }
    }
  }

  /** One step of the counting loop: the upload `e` is added to the count map of `seen`. */
  method AddUpload(people: map<string, StringCount>, seen: seq<Emoji>, e: Emoji) returns (people': map<string, StringCount>)
    requires Tally(people, seen)
    ensures Tally(people', seen + [e])
  {
    if e.userId !in people {
      people' := people[e.userId := StringCount(1, e.userDisplayName, e.userId)];
    } else {
      people' := people[e.userId := people[e.userId].(count := people[e.userId].count + 1)];
    }
    assert people' == Counted(people, e);
    CountedCounts(people, seen, e);
    CountedNames(people, seen, e);
  }

  /** The count map built in `topAndNewUploaders` (and, over the new emojis, in `mostRecentEmojis`):
      one entry per uploader, holding their id, the display name of their first upload, and
      their number of uploads. */
  method CountUploads(emojis: seq<Emoji>) returns (people: map<string, StringCount>)
    ensures forall id :: id in people <==> id in Uploaders(emojis)
    ensures forall id :: id in people ==> people[id].id == id && people[id].count == CountOf(emojis, id)
    ensures forall id :: id in people ==> exists k :: FirstUploadAt(emojis, id, k) && people[id].name == emojis[k].userDisplayName
  {
    people := map[];
    for i := 0 to |emojis|
      invariant Tally(people, emojis[..i])
    {
      assert emojis[..i + 1] == emojis[..i] + [emojis[i]];
      people := AddUpload(people, emojis[..i], emojis[i]);
    }
    assert emojis[..|emojis|] == emojis;
  }

  /** Counts over a list split into newer and older parts add up. */
  lemma {:induction false} CountAppend(newer: seq<Emoji>, older: seq<Emoji>, id: string)
    ensures CountOf(newer + older, id) == CountOf(newer, id) + CountOf(older, id)
  {
    if |older| > 0 {
      var init := older[..|older| - 1];
      assert (newer + older)[..|newer + older| - 1] == newer + init;
      assert (newer + older)[|newer + older| - 1] == older[|older| - 1];
      CountAppend(newer, init, id);
    } else {
      assert newer + older == newer;
    }
  }

  // ----- first-time uploaders -----

  /** A weekly uploader is new when the all-time map lacks them or their counts agree. */
  predicate IsNewUploader(week: StringCount, allTime: map<string, StringCount>) {
    week.id !in allTime || week.count == allTime[week.id].count
  }

  /** The new-uploader loop of `topAndNewUploaders`, keyed by each entry's id. */
  method NewUploaders(weekly: map<string, StringCount>, allTime: map<string, StringCount>)
    returns (newPeople: map<string, StringCount>)
    ensures forall id :: id in newPeople <==> exists k :: k in weekly && weekly[k].id == id && IsNewUploader(weekly[k], allTime)
    ensures forall id :: id in newPeople ==> newPeople[id].id == id && IsNewUploader(newPeople[id], allTime)
    ensures forall id :: id in newPeople ==> exists k :: k in weekly && newPeople[id] == weekly[k]
  {
    newPeople := map[];
    var pending := weekly.Keys;
    while |pending| > 0
      invariant pending <= weekly.Keys
      invariant forall id :: id in newPeople <==>
        exists k :: k in weekly && k !in pending && weekly[k].id == id && IsNewUploader(weekly[k], allTime)
      invariant forall id :: id in newPeople ==> newPeople[id].id == id && IsNewUploader(newPeople[id], allTime)
      invariant forall id :: id in newPeople ==> exists k :: k in weekly && newPeople[id] == weekly[k]
      decreases pending
    {
      var key :| key in pending;
      var upload := weekly[key];
      if upload.id !in allTime || upload.count == allTime[upload.id].count {
        newPeople := newPeople[upload.id := upload];
      }
      pending := pending - {key};
    }
  }

  /** With this week's uploads in front of the older ones, every weekly uploader is in the
      all-time map, and is new exactly when none of the older emojis is theirs. */
  lemma NewUploaderHasNoOlderUpload(week: seq<Emoji>, older: seq<Emoji>, id: string)
    requires CountOf(week, id) > 0
    ensures CountOf(week + older, id) > 0
    ensures CountOf(week + older, id) == CountOf(week, id) <==> forall j :: 0 <= j < |older| ==> older[j].userId != id
  {
    CountAppend(week, older, id);
    CountZero(older, id);
  }

  // ----- printTopPeople / printTopCreators lines -----

  /** How a person is named in a line: plain (muted), "@name" (printed), or an API mention. */
  datatype Handle = Plain(name: string) | At(name: string) | Mention(id: string)

  function HandleFor(user: User, mute: set<string>, apiFormat: bool): (h: Handle)
    ensures user.name in mute ==> h == Plain(user.name)
    ensures user.name !in mute ==> h == if apiFormat then Mention(user.id) else At(user.name)
  {
    if user.name in mute then Plain(user.name)
    else if apiFormat then Mention(user.id)
    else At(user.name)
  }

  /** Messages sent as they are need the API mention syntax: every mode but printing and review DMs. */
  predicate ApiFormat(mode: Mode) {
    mode != PrintEverything && mode != DmForReview
  }

  /** One line of `printTopPeople`: rank, display name, handle, count. */
  datatype PersonLine = PersonLine(rank: int, name: string, handle: Handle, count: int)

  /** The lines `printTopPeople` is meant to produce for `entries`: skip-listed users get no
      line, the others are ranked 1, 2, 3, ... in order, and an entry at position below
      `TopPeopleToPrint` goes to the first message. */
  function PeopleLines(entries: seq<StringCount>, users: map<string, User>, skip: set<string>, mute: set<string>,
                       apiFormat: bool): (lines: (seq<PersonLine>, seq<PersonLine>))
    requires forall k :: 0 <= k < |entries| ==> entries[k].id in users
    ensures |lines.0| + |lines.1| <= |entries|
    ensures |lines.0| <= TopPeopleToPrint
  {
    if |entries| == 0 then ([], [])
    else
      var prev := PeopleLines(entries[..|entries| - 1], users, skip, mute, apiFormat);
      var e := entries[|entries| - 1];
      var user := users[e.id];
      if user.name in skip then prev
      else
        var line := PersonLine(|prev.0| + |prev.1| + 1, e.name, HandleFor(user, mute, apiFormat), e.count);
        if |entries| - 1 < TopPeopleToPrint then (prev.0 + [line], prev.1) else (prev.0, prev.1 + [line])
  }

  /** The displayed ranks are consecutive from 1, across both messages. */
  lemma {:induction false} PeopleRanksConsecutive(entries: seq<StringCount>, users: map<string, User>, skip: set<string>,
                                                  mute: set<string>, apiFormat: bool)
    requires forall k :: 0 <= k < |entries| ==> entries[k].id in users
    ensures var lines := PeopleLines(entries, users, skip, mute, apiFormat);
      forall k :: 0 <= k < |lines.0 + lines.1| ==> (lines.0 + lines.1)[k].rank == k + 1
  {
    if |entries| > 0 {
      var init := entries[..|entries| - 1];
      PeopleRanksConsecutive(init, users, skip, mute, apiFormat);
      var prev := PeopleLines(init, users, skip, mute, apiFormat);
      var lines := PeopleLines(entries, users, skip, mute, apiFormat);
      var e := entries[|entries| - 1];
      if users[e.id].name !in skip {
        var line := PersonLine(|prev.0| + |prev.1| + 1, e.name, HandleFor(users[e.id], mute, apiFormat), e.count);
        if |entries| - 1 < TopPeopleToPrint {
          PeopleSecondEmpty(init, users, skip, mute, apiFormat);
          assert lines == (prev.0 + [line], prev.1);
          assert lines.0 + lines.1 == (prev.0 + prev.1) + [line];
        } else {
          assert lines == (prev.0, prev.1 + [line]);
          assert lines.0 + lines.1 == (prev.0 + prev.1) + [line];
        }
      }
    }
  }

  lemma {:induction false} PeopleSecondEmpty(entries: seq<StringCount>, users: map<string, User>, skip: set<string>,
                                             mute: set<string>, apiFormat: bool)
    requires forall k :: 0 <= k < |entries| ==> entries[k].id in users
    requires |entries| <= TopPeopleToPrint
    ensures PeopleLines(entries, users, skip, mute, apiFormat).1 == []
  {
    if |entries| > 0 {
      PeopleSecondEmpty(entries[..|entries| - 1], users, skip, mute, apiFormat);
    }
  }

  /** Without skip-listed users every entry gets a line, in order, and the first message holds the top five. */
  lemma {:induction false} PeopleAllShown(entries: seq<StringCount>, users: map<string, User>, skip: set<string>,
                                          mute: set<string>, apiFormat: bool)
    requires forall k :: 0 <= k < |entries| ==> entries[k].id in users && users[entries[k].id].name !in skip
    ensures var lines := PeopleLines(entries, users, skip, mute, apiFormat);
      && |lines.0 + lines.1| == |entries|
      && |lines.0| == Min(TopPeopleToPrint, |entries|)
      && forall k :: 0 <= k < |entries| ==>
           (lines.0 + lines.1)[k].name == entries[k].name && (lines.0 + lines.1)[k].count == entries[k].count
  {
    if |entries| > 0 {
      var init := entries[..|entries| - 1];
      PeopleAllShown(init, users, skip, mute, apiFormat);
      var prev := PeopleLines(init, users, skip, mute, apiFormat);
      var lines := PeopleLines(entries, users, skip, mute, apiFormat);
      var e := entries[|entries| - 1];
      var line := PersonLine(|prev.0| + |prev.1| + 1, e.name, HandleFor(users[e.id], mute, apiFormat), e.count);
      if |init| < TopPeopleToPrint {
        PeopleSecondEmpty(init, users, skip, mute, apiFormat);
        assert lines == (prev.0 + [line], prev.1);
      } else {
        assert lines == (prev.0, prev.1 + [line]);
      }
      assert lines.0 + lines.1 == (prev.0 + prev.1) + [line];
      forall k | 0 <= k < |entries|
        ensures (lines.0 + lines.1)[k].name == entries[k].name && (lines.0 + lines.1)[k].count == entries[k].count
      {
        if k < |init| {
          assert entries[k] == init[k];
        }
      }
    }
  }

  /** One more entry adds at most one line, at the end of the message its position selects. */
  lemma PeopleLinesStep(entries: seq<StringCount>, i: nat, users: map<string, User>, skip: set<string>,
                        mute: set<string>, apiFormat: bool)
    requires i < |entries|
    requires forall k :: 0 <= k <= i ==> entries[k].id in users
    ensures var prev := PeopleLines(entries[..i], users, skip, mute, apiFormat);
      var user := users[entries[i].id];
      var line := PersonLine(|prev.0| + |prev.1| + 1, entries[i].name, HandleFor(user, mute, apiFormat), entries[i].count);
      PeopleLines(entries[..i + 1], users, skip, mute, apiFormat)
        == if user.name in skip then prev
           else if i < TopPeopleToPrint then (prev.0 + [line], prev.1)
           else (prev.0, prev.1 + [line])
  {
    assert entries[..i + 1][..i] == entries[..i];
  }

  /** The first entry, among the first `n`, whose user the map lacks. */
  predicate FirstMissingUser(entries: seq<StringCount>, users: map<string, User>, k: int) {
    && 0 <= k < |entries|
    && entries[k].id !in users
    && forall j :: 0 <= j < k ==> entries[j].id in users
  }

  /** How many sorted entries `printTopPeople` considers. */
  function Considered(maxPeople: int, n: nat): (m: nat)
    ensures m <= n
  {
    if maxPeople < 0 then 0 else Min(maxPeople, n)
  }

  /** `r` is what the line loop of `printTopPeople` yields on the first `m` sorted entries:
      the first user missing from the map is an error naming its id and display name;
      otherwise the intended lines. */
  ghost predicate RanksPeople(considered: seq<StringCount>, users: map<string, User>, skip: set<string>,
                              mute: set<string>, apiFormat: bool, r: Result<(seq<PersonLine>, seq<PersonLine>)>)
  {
    && (r.Err? <==> exists k :: FirstMissingUser(considered, users, k))
    && (forall k :: FirstMissingUser(considered, users, k) ==>
          r == Err("could not find user " + considered[k].id + " " + considered[k].name))
    && (r.Ok? ==>
          && (forall k :: 0 <= k < |considered| ==> considered[k].id in users)
          && r.value == PeopleLines(considered, users, skip, mute, apiFormat))
  }

  /** The first entry missing from the map decides the error. */
  lemma RanksMissing(considered: seq<StringCount>, users: map<string, User>, skip: set<string>,
                     mute: set<string>, apiFormat: bool, i: int)
    requires FirstMissingUser(considered, users, i)
    ensures RanksPeople(considered, users, skip, mute, apiFormat, Err("could not find user " + considered[i].id + " " + considered[i].name))
  {
    forall k | FirstMissingUser(considered, users, k)
      ensures k == i
    {
    }
  }

  /** With every entry in the map, the lines are the result. */
  lemma RanksAll(considered: seq<StringCount>, users: map<string, User>, skip: set<string>,
                 mute: set<string>, apiFormat: bool)
    requires forall k :: 0 <= k < |considered| ==> considered[k].id in users
    ensures RanksPeople(considered, users, skip, mute, apiFormat, Ok(PeopleLines(considered, users, skip, mute, apiFormat)))
  {
    forall k | 0 <= k < |considered|
      ensures !FirstMissingUser(considered, users, k)
    {
    }
  }

  /** One pass of the line loop of `printTopPeople`, for the entry at position `i`. */
  method RankStep(considered: seq<StringCount>, i: nat, entry: StringCount, user: User, users: map<string, User>,
                  skip: set<string>, mute: set<string>, apiFormat: bool,
                  first: seq<PersonLine>, second: seq<PersonLine>, skipCorrection: int)
    returns (first': seq<PersonLine>, second': seq<PersonLine>, skipCorrection': int)
    requires i < |considered| && entry == considered[i]
    requires forall k :: 0 <= k <= i ==> considered[k].id in users
    requires user == users[entry.id]
    requires (first, second) == PeopleLines(considered[..i], users, skip, mute, apiFormat)
    requires skipCorrection == i - |first| - |second|
    ensures (first', second') == PeopleLines(considered[..i + 1], users, skip, mute, apiFormat)
    ensures skipCorrection' == i + 1 - |first'| - |second'|
  {
    PeopleLinesStep(considered, i, users, skip, mute, apiFormat);
    first', second', skipCorrection' := first, second, skipCorrection;
    if user.name in skip {
      skipCorrection' := skipCorrection + 1;
    } else {
      var line := PersonLine(i + 1 - skipCorrection, entry.name, HandleFor(user, mute, apiFormat), entry.count);
      if i < TopPeopleToPrint {
        first' := first + [line];
      } else {
        second' := second + [line];
      }
    }
  }

  /** The line loop of `printTopPeople`: the rank is the position plus one, less the number of
      skip-listed users met so far. */
  method RankPeople(sorted: seq<StringCount>, maxPeople: int, users: map<string, User>, skip: set<string>,
                    mute: set<string>, apiFormat: bool) returns (r: Result<(seq<PersonLine>, seq<PersonLine>)>)
    ensures RanksPeople(sorted[..Considered(maxPeople, |sorted|)], users, skip, mute, apiFormat, r)
  {
    var considered := sorted[..Considered(maxPeople, |sorted|)];
    var first, second := [], [];
    var skipCorrection := 0;
    var i := 0;
    while i < maxPeople && i < |sorted|
      invariant 0 <= i <= |considered|
      invariant forall k :: 0 <= k < i ==> considered[k].id in users
      invariant (first, second) == PeopleLines(considered[..i], users, skip, mute, apiFormat)
      invariant skipCorrection == i - |first| - |second|
    {
      var entry := sorted[i];
      assert entry == considered[i];
      if entry.id !in users {
        RanksMissing(considered, users, skip, mute, apiFormat, i);
        return Err("could not find user " + entry.id + " " + entry.name);
      }
      first, second, skipCorrection := RankStep(considered, i, entry, users[entry.id], users, skip, mute, apiFormat,
                                                first, second, skipCorrection);
      i := i + 1;
    }
    assert considered[..i] == considered;
    r := Ok((first, second));
    RanksAll(considered, users, skip, mute, apiFormat);
  }

  /** The ids of the entries, in order. */
  function Ids(entries: seq<StringCount>): (ids: seq<string>)
    ensures |ids| == |entries| && forall k :: 0 <= k < |entries| ==> ids[k] == entries[k].id
  {
    if |entries| == 0 then [] else Ids(entries[..|entries| - 1]) + [entries[|entries| - 1].id]
  }

  /** `for _, count := range people`: the map's entries, one per key, in the map's arbitrary order. */
  method MapEntries(people: map<string, StringCount>) returns (entries: seq<StringCount>)
    ensures |entries| == |people|
    ensures forall k :: k in people ==> people[k] in entries
    ensures forall x :: x in entries ==> x in people.Values
  {
    entries := [];
    ghost var done: set<string> := {};
    var pending := people.Keys;
    while |pending| > 0
      invariant pending !! done && pending + done == people.Keys
      invariant |entries| == |done|
      invariant forall k :: k in done ==> people[k] in entries
      invariant forall x :: x in entries ==> x in people.Values
      decreases pending
    {
      var key :| key in pending;
      entries := entries + [people[key]];
      pending := pending - {key};
      done := done + {key};
    }
    assert done == people.Keys;
  }

  /** `sort.Sort(ByCount(...))` on a fresh slice holding `entries`. */
  method SortByCount(entries: seq<StringCount>) returns (sorted: seq<StringCount>)
    ensures multiset(sorted) == multiset(entries)
    ensures |sorted| == |entries| && forall x :: x in sorted <==> x in entries
    ensures SortedBy(sorted, ByCountLe)
  {
    var a := new StringCount[|entries|](i requires 0 <= i < |entries| => entries[i]);
    assert a[..] == entries;
    ByCountOrder();
    Sort(a, ByCountLe);
    sorted := a[..];
    assert |multiset(sorted)| == |multiset(entries)|;
    assert forall x :: x in sorted <==> x in entries by {
      assert forall x :: x in sorted <==> x in multiset(sorted);
      assert forall x :: x in entries <==> x in multiset(entries);
    }
  }

  /** The id loop of `printTopPeople`: the ids of the first `maxPeople` sorted entries. */
  method ConsideredIds(sorted: seq<StringCount>, maxPeople: int) returns (peopleIds: seq<string>)
    ensures peopleIds == Ids(sorted[..Considered(maxPeople, |sorted|)])
  {
    peopleIds := [];
    var i := 0;
    while i < maxPeople && i < |sorted|
      invariant 0 <= i <= Considered(maxPeople, |sorted|)
      invariant |peopleIds| == i && forall k :: 0 <= k < i ==> peopleIds[k] == sorted[k].id
    {
      peopleIds := peopleIds + [sorted[i].id];
      i := i + 1;
    }
  }

  /** The ranking part of `printTopPeople`: the map's entries (in the map's arbitrary order)
      sorted by count, the users of the considered ones fetched, and the lines built. The two
      messages then go out through `printMessage` / `printMessageWithThreadId`. */
  method PrintTopPeople(people: map<string, StringCount>, maxPeople: int, printOnly: bool, mode: Mode,
                        fetch: seq<string> -> Result<seq<User>>, skip: set<string>, mute: set<string>)
    returns (r: Result<(seq<PersonLine>, seq<PersonLine>)>)
    ensures exists sorted: seq<StringCount> ::
      && |sorted| == |people|
      && (forall k :: k in people ==> people[k] in sorted)
      && (forall x :: x in sorted ==> x in people.Values)
      && SortedBy(sorted, ByCountLe)
      && TopPeopleOutcome(sorted, maxPeople, printOnly, mode, fetch, skip, mute, r)
  {
    var entries := MapEntries(people);
    var sorted := SortByCount(entries);
    var peopleIds := ConsideredIds(sorted, maxPeople);
    var users := GetUsers(peopleIds, fetch);
    if users.Err? {
      r := Err(users.error);
    } else {
      r := RankPeople(sorted, maxPeople, users.value, skip, mute, !printOnly && ApiFormat(mode));
    }
    assert TopPeopleOutcome(sorted, maxPeople, printOnly, mode, fetch, skip, mute, r);
  }

  /** What `printTopPeople` yields on the sorted entries: the users of the considered entries
      are fetched in batches (a failed request is the error), then the lines are built. */
  ghost predicate TopPeopleOutcome(sorted: seq<StringCount>, maxPeople: int, printOnly: bool, mode: Mode,
                                   fetch: seq<string> -> Result<seq<User>>, skip: set<string>, mute: set<string>,
                                   r: Result<(seq<PersonLine>, seq<PersonLine>)>)
  {
    var considered := sorted[..Considered(maxPeople, |sorted|)];
    var fetched := FetchAll(fetch, Batches(Ids(considered), UsersPerRequest));
    && (fetched.Err? ==> r == Err(fetched.error))
    && (fetched.Ok? ==> RanksPeople(considered, AddUsers(map[], fetched.value), skip, mute, !printOnly && ApiFormat(mode), r))
  }

  /** One line of `printTopCreators`: rank, the creator's real name, handle, emoji, reactions. */
  datatype CreatorLine = CreatorLine(rank: int, realName: string, handle: Handle, emoji: string, reactions: int)

  /** The selection's three lists line up. */
  predicate WellFormedSelection(sel: Selection) {
    |sel.creators| == |sel.counts| == |sel.emojis|
  }

  /** The lines `printTopCreators` produces for the first `n` selected emojis: a skip-listed
      creator gets no line, the others are ranked by position plus one (so a skipped creator
      leaves a gap), and positions below `peopleToPrint` go to the first message. */
  function CreatorLines(sel: Selection, n: nat, users: map<string, User>, skip: set<string>, mute: set<string>,
                        apiFormat: bool, peopleToPrint: int): (lines: (seq<CreatorLine>, seq<CreatorLine>))
    requires WellFormedSelection(sel) && n <= |sel.creators|
    requires forall k :: 0 <= k < n ==> sel.creators[k] in users
  {
    if n == 0 then ([], [])
    else
      var prev := CreatorLines(sel, n - 1, users, skip, mute, apiFormat, peopleToPrint);
      var i := n - 1;
      var user := users[sel.creators[i]];
      if user.name in skip then prev
      else
        var line := CreatorLine(i + 1, user.realName, HandleFor(user, mute, apiFormat), sel.emojis[i], sel.counts[i]);
        if i < peopleToPrint then (prev.0 + [line], prev.1) else (prev.0, prev.1 + [line])
  }

  /** Every line of `all` stands for the selected emoji at position rank - 1, among the first
      `n`, whose creator is not skip-listed, and the ranks increase. */
  ghost predicate CreatorPositions(all: seq<CreatorLine>, sel: Selection, n: nat, users: map<string, User>, skip: set<string>)
    requires WellFormedSelection(sel) && n <= |sel.creators|
    requires forall k :: 0 <= k < n ==> sel.creators[k] in users
  {
    && (forall j :: 0 <= j < |all| ==>
          && 1 <= all[j].rank <= n
          && users[sel.creators[all[j].rank - 1]].name !in skip
          && all[j].emoji == sel.emojis[all[j].rank - 1]
          && all[j].reactions == sel.counts[all[j].rank - 1])
    && (forall j, j' :: 0 <= j < j' < |all| ==> all[j].rank < all[j'].rank)
  }

  /** The line of position `n - 1` extends the lines of the first `n - 1` positions. */
  lemma CreatorPositionsSnoc(all: seq<CreatorLine>, sel: Selection, n: nat, users: map<string, User>, skip: set<string>,
                             line: CreatorLine)
    requires WellFormedSelection(sel) && 0 < n <= |sel.creators|
    requires forall k :: 0 <= k < n ==> sel.creators[k] in users
    requires CreatorPositions(all, sel, n - 1, users, skip)
    requires line.rank == n && users[sel.creators[n - 1]].name !in skip
    requires line.emoji == sel.emojis[n - 1] && line.reactions == sel.counts[n - 1]
    ensures CreatorPositions(all + [line], sel, n, users, skip)
  {
  }

  /** Every line stands for the selected emoji at position rank - 1, whose creator is not
      skip-listed; ranks increase through both messages, and the first message holds exactly
      the positions below `peopleToPrint`. */
  lemma {:induction false} CreatorLinesArePositions(sel: Selection, n: nat, users: map<string, User>, skip: set<string>,
                                                    mute: set<string>, apiFormat: bool, peopleToPrint: int)
    requires WellFormedSelection(sel) && n <= |sel.creators|
    requires forall k :: 0 <= k < n ==> sel.creators[k] in users
    ensures var lines := CreatorLines(sel, n, users, skip, mute, apiFormat, peopleToPrint);
      && CreatorPositions(lines.0 + lines.1, sel, n, users, skip)
      && (forall j :: 0 <= j < |lines.0| ==> lines.0[j].rank - 1 < peopleToPrint)
      && (forall j :: 0 <= j < |lines.1| ==> lines.1[j].rank - 1 >= peopleToPrint)
  {
    if n > 0 {
      CreatorLinesArePositions(sel, n - 1, users, skip, mute, apiFormat, peopleToPrint);
      var prev := CreatorLines(sel, n - 1, users, skip, mute, apiFormat, peopleToPrint);
      var lines := CreatorLines(sel, n, users, skip, mute, apiFormat, peopleToPrint);
      var i := n - 1;
      var user := users[sel.creators[i]];
      if user.name !in skip {
        var line := CreatorLine(i + 1, user.realName, HandleFor(user, mute, apiFormat), sel.emojis[i], sel.counts[i]);
        if i < peopleToPrint {
          CreatorSecondEmpty(sel, n - 1, users, skip, mute, apiFormat, peopleToPrint);
          assert lines == (prev.0 + [line], prev.1);
        } else {
          assert lines == (prev.0, prev.1 + [line]);
        }
        assert lines.0 + lines.1 == (prev.0 + prev.1) + [line];
        CreatorPositionsSnoc(prev.0 + prev.1, sel, n, users, skip, line);
      } else {
        assert lines == prev;
      }
    }
  }

  lemma {:induction false} CreatorSecondEmpty(sel: Selection, n: nat, users: map<string, User>, skip: set<string>,
                                              mute: set<string>, apiFormat: bool, peopleToPrint: int)
    requires WellFormedSelection(sel) && n <= |sel.creators|
    requires forall k :: 0 <= k < n ==> sel.creators[k] in users
    requires n <= peopleToPrint
    ensures CreatorLines(sel, n, users, skip, mute, apiFormat, peopleToPrint).1 == []
  {
    if n > 0 {
      CreatorSecondEmpty(sel, n - 1, users, skip, mute, apiFormat, peopleToPrint);
    }
  }

  /** The first selected creator whose user the map lacks. */
  predicate FirstMissingCreator(sel: Selection, users: map<string, User>, k: int) {
    && 0 <= k < |sel.creators|
    && sel.creators[k] !in users
    && forall j :: 0 <= j < k ==> sel.creators[j] in users
  }

  /** What the line loop of `printTopCreators` yields given the fetched users. */
  ghost predicate RanksCreators(sel: Selection, users: map<string, User>, skip: set<string>, mute: set<string>,
                                apiFormat: bool, peopleToPrint: int, r: Result<(seq<CreatorLine>, seq<CreatorLine>)>)
    requires WellFormedSelection(sel)
  {
    && (r.Err? <==> exists k :: FirstMissingCreator(sel, users, k))
    && (forall k :: FirstMissingCreator(sel, users, k) ==> r == Err("could not find user " + sel.creators[k]))
    && (r.Ok? ==>
          && (forall k :: 0 <= k < |sel.creators| ==> sel.creators[k] in users)
          && r.value == CreatorLines(sel, |sel.creators|, users, skip, mute, apiFormat, peopleToPrint))
  }

  /** What `printTopCreators` yields: the fetch error, or the ranked lines over the fetched users. */
  ghost predicate CreatorsOutcome(sel: Selection, peopleToPrint: int, mode: Mode, fetch: seq<string> -> Result<seq<User>>,
                                  skip: set<string>, mute: set<string>, r: Result<(seq<CreatorLine>, seq<CreatorLine>)>)
    requires WellFormedSelection(sel)
  {
    var fetched := FetchAll(fetch, Batches(sel.creators, UsersPerRequest));
    && (fetched.Err? ==> r == Err(fetched.error))
    && (fetched.Ok? ==> RanksCreators(sel, AddUsers(map[], fetched.value), skip, mute, ApiFormat(mode), peopleToPrint, r))
  }

  /** `printTopCreators` up to its two messages: fetch the creators' users, then one line per
      selected emoji whose creator is not skip-listed. `peopleToPrint` is where the first
      message ends (see README). */
  method PrintTopCreators(sel: Selection, peopleToPrint: int, mode: Mode, fetch: seq<string> -> Result<seq<User>>,
                          skip: set<string>, mute: set<string>) returns (r: Result<(seq<CreatorLine>, seq<CreatorLine>)>)
    requires WellFormedSelection(sel)
    ensures CreatorsOutcome(sel, peopleToPrint, mode, fetch, skip, mute, r)
  {
    var userMap := GetUsers(sel.creators, fetch);
    if userMap.Err? {
      return Err(userMap.error);
    }
    var users := userMap.value;
    var apiFormat := ApiFormat(mode);
    var first, second := [], [];
    for i := 0 to |sel.creators|
      invariant forall k :: 0 <= k < i ==> sel.creators[k] in users
      invariant (first, second) == CreatorLines(sel, i, users, skip, mute, apiFormat, peopleToPrint)
    {
      var peopleId := sel.creators[i];
      if peopleId !in users {
        CreatorsMissing(sel, users, skip, mute, apiFormat, peopleToPrint, i);
        return Err("could not find user " + peopleId);
      }
      var user := users[peopleId];
      if user.name in skip {
        continue;
      }
      var line := CreatorLine(i + 1, user.realName, HandleFor(user, mute, apiFormat), sel.emojis[i], sel.counts[i]);
      if i < peopleToPrint {
        first := first + [line];
      } else {
        second := second + [line];
      }
    }
    r := Ok((first, second));
    CreatorsAll(sel, users, skip, mute, apiFormat, peopleToPrint);
  }
  /** `printTopEmojis`: rank the pasted reaction list, then hand the selection to
      `printTopCreators` with the first message ending at `TopPeopleToPrint`; a creator-less
      emoji, a failed user fetch or a missing user is its error. `sel` is the ranking. */
  method PrintTopEmojis(reactions: string, catalog: Catalog, mode: Mode, fetch: seq<string> -> Result<seq<User>>,
                        skip: set<string>, mute: set<string>)
    returns (sel: Result<Selection>, r: Result<(seq<CreatorLine>, seq<CreatorLine>)>)
    ensures RanksReactions(reactions, catalog, sel)
    ensures sel.Err? ==> r == Err(sel.error)
    ensures sel.Ok? ==> WellFormedSelection(sel.value)
    ensures sel.Ok? ==> CreatorsOutcome(sel.value, TopPeopleToPrint, mode, fetch, skip, mute, r)
  {
    sel := RankReactions(reactions, catalog);
    if sel.Err? {
      return sel, Err(sel.error);
    }
    r := PrintTopCreators(sel.value, TopPeopleToPrint, mode, fetch, skip, mute);
  }


  /** The first creator missing from the map decides the error. */
  lemma CreatorsMissing(sel: Selection, users: map<string, User>, skip: set<string>, mute: set<string>,
                        apiFormat: bool, peopleToPrint: int, i: int)
    requires WellFormedSelection(sel)
    requires FirstMissingCreator(sel, users, i)
    ensures RanksCreators(sel, users, skip, mute, apiFormat, peopleToPrint, Err("could not find user " + sel.creators[i]))
  {
    forall k | FirstMissingCreator(sel, users, k)
      ensures k == i
    {
    }
  }

  /** With every creator in the map, the lines are the result. */
  lemma CreatorsAll(sel: Selection, users: map<string, User>, skip: set<string>, mute: set<string>,
                    apiFormat: bool, peopleToPrint: int)
    requires WellFormedSelection(sel)
    requires forall k :: 0 <= k < |sel.creators| ==> sel.creators[k] in users
    ensures RanksCreators(sel, users, skip, mute, apiFormat, peopleToPrint,
                          Ok(CreatorLines(sel, |sel.creators|, users, skip, mute, apiFormat, peopleToPrint)))
  {
    forall k | 0 <= k < |sel.creators|
      ensures !FirstMissingCreator(sel, users, k)
    {
    }
  }

  // ----- detectDeletedEmojis -----

  /** One line of the deleted-emoji report: the entry and its uploader's user name. */
  datatype DeletedLine = DeletedLine(emoji: Emoji, userName: string)

  /** `userMap[emoji.UserId].Name` for an id the lookup did not return dereferences nil. */
  function NilUser(userId: string): string {
    "nil user for " + userId
  }

  /** `k` is the first deleted entry whose uploader the lookup did not return. */
  ghost predicate FirstMissingUploader(missing: seq<Emoji>, users: map<string, User>, k: int) {
    && 0 <= k < |missing|
    && missing[k].userId !in users
    && forall j :: 0 <= j < k ==> missing[j].userId in users
  }

  /** Each deleted entry, in order, with the name of its uploader. */
  ghost predicate LinesFor(missing: seq<Emoji>, users: map<string, User>, lines: seq<DeletedLine>) {
    && |lines| == |missing|
    && forall k :: 0 <= k < |missing| ==>
         missing[k].userId in users && lines[k] == DeletedLine(missing[k], users[missing[k].userId].name)
  }

  /** The report loop of `detectDeletedEmojis`: each deleted entry with its uploader's name; the
      first entry whose uploader is not in the map is the nil dereference. */
  method DeletedUserLines(missing: seq<Emoji>, users: map<string, User>) returns (r: Result<seq<DeletedLine>>)
    ensures r.Err? <==> exists k :: 0 <= k < |missing| && missing[k].userId !in users
    ensures r.Err? ==> exists k :: FirstMissingUploader(missing, users, k) && r.error == NilUser(missing[k].userId)
    ensures r.Ok? ==> LinesFor(missing, users, r.value)
  {
    var lines: seq<DeletedLine> := [];
    for i := 0 to |missing|
      invariant LinesFor(missing[..i], users, lines)
    {
      if missing[i].userId !in users {
        assert FirstMissingUploader(missing, users, i);
        return Err(NilUser(missing[i].userId));
      }
      lines := lines + [DeletedLine(missing[i], users[missing[i].userId].name)];
    }
    assert missing[..|missing|] == missing;
    return Ok(lines);
  }

  /**
   * `detectDeletedEmojis`: compare against the snapshot one before the newest and, when entries
   * were deleted, look their uploaders up with one `getUsers` call and report each entry with its
   * uploader's name. `deleted` is the outcome of the comparison.
   */
  method DetectDeletedEmojis(current: seq<Emoji>, listing: Listing, load: string -> RawPage,
                             fetch: seq<string> -> Result<seq<User>>)
    returns (deleted: Result<Option<seq<Emoji>>>, r: Result<Option<seq<DeletedLine>>>)
    requires listing.Entries? ==> WellFormedEntries(listing.entries)
    ensures LastDumpOutcome(current, listing, load, deleted)
    ensures deleted.Err? ==> r == Err(deleted.error)
    ensures deleted == Ok(None) ==> r == Ok(None)
    ensures deleted == Ok(Some([])) ==> r == Ok(Some([]))
    ensures deleted.Ok? && deleted.value.Some? && |deleted.value.value| > 0 ==>
      var missing := deleted.value.value;
      var fetched := FetchAll(fetch, Batches(UploaderIds(missing), UsersPerRequest));
      && (fetched.Err? ==> r == Err(fetched.error))
      && (fetched.Ok? ==>
            var users := AddUsers(map[], fetched.value);
            && (r.Err? <==> exists k :: 0 <= k < |missing| && missing[k].userId !in users)
            && (r.Err? ==> exists k :: FirstMissingUploader(missing, users, k) && r.error == NilUser(missing[k].userId))
            && (r.Ok? ==> r.value.Some? && LinesFor(missing, users, r.value.value)))
  {
    deleted := DeletedSinceLastDump(current, listing, load);
    if deleted.Err? {
      return deleted, Err(deleted.error);
    }
    if deleted.value.None? {
      return deleted, Ok(None);
    }
    var missing := deleted.value.value;
    if |missing| == 0 {
      return deleted, Ok(Some([]));
    }
    var userMap := GetUsers(UploaderIds(missing), fetch);
    if userMap.Err? {
      return deleted, Err(userMap.error);
    }
    var lines := DeletedUserLines(missing, userMap.value);
    if lines.Err? {
      return deleted, Err(lines.error);
    }
    return deleted, Ok(Some(lines.value));
  }
}

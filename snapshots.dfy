/**
 * The snapshot store (response_caching.go): choosing the N-th most recent dump from a directory
 * listing, the deleted-emoji difference between two snapshots, and the file name an emoji
 * image is cached under. Reading and writing files is outside the model: the directory listing
 * and the loading of a dump are parameters.
 */
module Snapshots {
  import opened Wrappers
  import opened Strings
  import opened Sorting
  import opened Emojis

  /** One directory entry as `ioutil.ReadDir` reports it. */
  datatype DirEntry = DirEntry(name: string, isDir: bool)

  /** The outcome of listing the snapshot directory. */
  datatype Listing = Missing | Unreadable(message: string) | Entries(entries: seq<DirEntry>)

  /** A directory lists non-empty names, each once. */
  predicate WellFormedEntries(entries: seq<DirEntry>) {
    && (forall k :: 0 <= k < |entries| ==> |entries[k].name| > 0)
    && (forall i, j :: 0 <= i < j < |entries| ==> entries[i].name != entries[j].name)
  }

  /** Only plain files whose names do not start with '.' are snapshots. */
  predicate Eligible(e: DirEntry)
    requires |e.name| > 0
  {
    !e.isDir && e.name[0] != '.'
  }

  /** The names of the snapshot files, in listing order. */
  function EligibleNames(entries: seq<DirEntry>): (names: seq<string>)
    requires forall k :: 0 <= k < |entries| ==> |entries[k].name| > 0
    ensures |names| <= |entries|
    ensures forall n :: n in names <==> exists k :: 0 <= k < |entries| && entries[k].name == n && Eligible(entries[k])
  {
    if |entries| == 0 then []
    else
      var rest := EligibleNames(entries[1..]);
      assert forall k :: 1 <= k < |entries| ==> entries[1..][k - 1] == entries[k];
      if Eligible(entries[0]) then [entries[0].name] + rest else rest
  }

  /** No value occurs twice in `s`. */
  predicate Distinct<T(==)>(s: seq<T>) {
    forall i, j :: 0 <= i < j < |s| ==> s[i] != s[j]
  }

  lemma {:induction false} EligibleNamesDistinct(entries: seq<DirEntry>)
    requires WellFormedEntries(entries)
    ensures Distinct(EligibleNames(entries))
  {
    if |entries| > 0 {
      assert WellFormedEntries(entries[1..]) by {
        assert forall k :: 0 <= k < |entries| - 1 ==> entries[1..][k] == entries[k + 1];
      }
      EligibleNamesDistinct(entries[1..]);
      if Eligible(entries[0]) {
        var rest := EligibleNames(entries[1..]);
        assert entries[0].name !in rest;
        assert EligibleNames(entries) == [entries[0].name] + rest;
      }
    }
  }

  /** `sel` is one of `names`, and exactly `offset` of them come after it in string order. */
  ghost predicate SelectedAtOffset(names: seq<string>, offset: nat, sel: string) {
    sel in names && |Above(names, sel)| == offset
  }

  /** The names that come after `sel` in string order. */
  ghost function Above(names: seq<string>, sel: string): set<string> {
    set n | n in names && Less(sel, n)
  }

  lemma StringOrder()
    ensures TotalPreorder(LessEq)
  {
    forall x, y ensures LessEq(x, y) || LessEq(y, x) {
      LessTotal(x, y);
    }
    forall x, y, z | LessEq(x, y) && LessEq(y, z) ensures LessEq(x, z) {
      if x != y && y != z {
        LessTransitive(x, y, z);
      }
    }
  }

  /**
   * `readLastEmojiDump`: a negative offset is an error; a missing directory, or no more than
   * `offset` snapshot files, means "no snapshot"; otherwise the file `offset` places from the
   * end of the sorted names (offset 0 is the greatest name).
   */
  method ReadLastEmojiDump(offset: int, listing: Listing) returns (r: Result<Option<string>>)
    requires listing.Entries? ==> WellFormedEntries(listing.entries)
    ensures offset < 0 ==> r.Err?
    ensures offset >= 0 && listing.Missing? ==> r == Ok(None)
    ensures offset >= 0 && listing.Unreadable? ==> r == Err(listing.message)
    ensures offset >= 0 && listing.Entries? ==> r.Ok?
    ensures offset >= 0 && listing.Entries? ==>
      (r.value.None? <==> |EligibleNames(listing.entries)| <= offset)
    ensures offset >= 0 && listing.Entries? && r.value.Some? ==>
      SelectedAtOffset(EligibleNames(listing.entries), offset, r.value.value)
  {
    if offset < 0 {
      return Err("negative offset not allowed");
    }
    match listing
    case Missing => return Ok(None);
    case Unreadable(m) => return Err(m);
    case Entries(files) =>
      var fileNames: seq<string> := [];
      for i := 0 to |files|
        invariant fileNames == EligibleNames(files[..i])
      {
        assert files[..i + 1] == files[..i] + [files[i]];
        EligibleNamesSnoc(files[..i], files[i]);
        if !files[i].isDir && files[i].name[0] != '.' {
          fileNames := fileNames + [files[i].name];
        }
      }
      assert files[..|files|] == files;
      if |fileNames| <= offset {
        return Ok(None);
      }
      EligibleNamesDistinct(files);
      var sorted := new string[|fileNames|](k requires 0 <= k < |fileNames| => fileNames[k]);
      assert sorted[..] == fileNames;
      StringOrder();
      Sort(sorted, LessEq);
      var idx := sorted.Length - 1 - offset;
      SortedSelection(fileNames, sorted[..], idx);
      return Ok(Some(sorted[idx]));
  }

  lemma EligibleNamesSnoc(entries: seq<DirEntry>, e: DirEntry)
    requires forall k :: 0 <= k < |entries| ==> |entries[k].name| > 0
    requires |e.name| > 0
    ensures EligibleNames(entries + [e]) == EligibleNames(entries) + (if Eligible(e) then [e.name] else [])
    decreases |entries|
  {
    if |entries| > 0 {
      assert (entries + [e])[1..] == entries[1..] + [e];
      EligibleNamesSnoc(entries[1..], e);
    }
  }

  /** In a sorted permutation of distinct names, the element at `idx` has exactly the elements
      after it as greater names. */
  lemma SortedSelection(names: seq<string>, sorted: seq<string>, idx: int)
    requires Distinct(names)
    requires multiset(sorted) == multiset(names)
    requires SortedBy(sorted, LessEq)
    requires 0 <= idx < |sorted|
    ensures SelectedAtOffset(names, |sorted| - 1 - idx, sorted[idx])
  {
    assert forall n :: n in names <==> n in sorted by {
      forall n ensures n in names <==> n in sorted {
        assert n in names <==> n in multiset(names);
        assert n in sorted <==> n in multiset(sorted);
      }
    }
    DistinctPermutation(names, sorted);
    var greater := Above(names, sorted[idx]);
    var after := sorted[idx + 1..];
    forall n ensures n in greater <==> n in after {
      if n in greater {
        var j :| 0 <= j < |sorted| && sorted[j] == n;
        if j <= idx {
          if j < idx {
            assert LessEq(sorted[j], sorted[idx]);
            LessAsymmetric(sorted[idx], n);
          } else {
            LessIrreflexive(n);
          }
          assert false;
        }
        assert after[j - idx - 1] == n;
      }
      if n in after {
        var j :| 0 <= j < |after| && after[j] == n;
        assert sorted[idx + 1 + j] == n;
        assert LessEq(sorted[idx], n);
        assert sorted[idx] != n;
      }
    }
    DistinctCard(after);
    assert greater == set n | n in after;
  }

  lemma {:induction false} DistinctPermutation(names: seq<string>, sorted: seq<string>)
    requires Distinct(names)
    requires multiset(sorted) == multiset(names)
    ensures Distinct(sorted)
  {
    forall i, j | 0 <= i < j < |sorted| ensures sorted[i] != sorted[j] {
      if sorted[i] == sorted[j] {
        MultiplicityTwo(sorted, i, j);
        DistinctMultiplicity(names, sorted[i]);
        assert false;
      }
    }
  }

  lemma MultiplicityTwo<T>(s: seq<T>, i: int, j: int)
    requires 0 <= i < j < |s| && s[i] == s[j]
    ensures multiset(s)[s[i]] >= 2
  {
    assert s == s[..i] + [s[i]] + s[i + 1..j] + [s[j]] + s[j + 1..];
  }

  lemma {:induction false} DistinctMultiplicity<T>(s: seq<T>, x: T)
    requires Distinct(s)
    ensures multiset(s)[x] <= 1
  {
    if |s| > 0 {
      assert s == [s[0]] + s[1..];
      DistinctMultiplicity(s[1..], x);
      if s[0] == x {
        assert x !in s[1..];
      }
    }
  }

  lemma {:induction false} DistinctCard<T>(s: seq<T>)
    requires Distinct(s)
    ensures |set x | x in s| == |s|
  {
    if |s| > 0 {
      DistinctCard(s[1..]);
      assert (set x | x in s) == (set x | x in s[1..]) + {s[0]};
      assert s[0] !in s[1..];
    }
  }

  /** The names present in a snapshot. */
  function Names(emojis: seq<Emoji>): set<string> {
    set k | 0 <= k < |emojis| :: emojis[k].name
  }

  /** The previous snapshot's entries whose name the current list no longer has, in previous order. */
  function Deleted(previous: seq<Emoji>, current: set<string>): seq<Emoji> {
    if |previous| == 0 then []
    else (if previous[0].name in current then [] else [previous[0]]) + Deleted(previous[1..], current)
  }

  /** An emoji is reported deleted exactly when the previous snapshot had it and its name is gone. */
  lemma {:induction false} DeletedMembers(previous: seq<Emoji>, current: set<string>, e: Emoji)
    ensures e in Deleted(previous, current) <==> e in previous && e.name !in current
  {
    if |previous| > 0 {
      DeletedMembers(previous[1..], current, e);
      assert previous == [previous[0]] + previous[1..];
    }
  }

  /** `picked` is `from` at the strictly increasing positions `idx`: a subsequence of `from`. */
  ghost predicate Picks(idx: seq<int>, from: seq<Emoji>, picked: seq<Emoji>) {
    && |idx| == |picked|
    && (forall k :: 0 <= k < |idx| ==> 0 <= idx[k] < |from| && from[idx[k]] == picked[k])
    && (forall k, l :: 0 <= k < l < |idx| ==> idx[k] < idx[l])
  }

  /** The report keeps previous-snapshot order: it is the previous list with some entries
      dropped; nothing is dropped when no name is current, everything when every name is. */
  lemma DeletedIsSubsequence(previous: seq<Emoji>, current: set<string>)
    ensures exists idx :: Picks(idx, previous, Deleted(previous, current))
    ensures |current| == 0 ==> Deleted(previous, current) == previous
    ensures (forall k :: 0 <= k < |previous| ==> previous[k].name in current) ==> Deleted(previous, current) == []
  {
    var idx := DeletedPicks(previous, current);
    DeletedExtremes(previous, current);
  }

  lemma {:induction false} DeletedExtremes(previous: seq<Emoji>, current: set<string>)
    ensures |current| == 0 ==> Deleted(previous, current) == previous
    ensures (forall k :: 0 <= k < |previous| ==> previous[k].name in current) ==> Deleted(previous, current) == []
  {
    if |previous| > 0 {
      DeletedExtremes(previous[1..], current);
      assert forall k :: 1 <= k < |previous| ==> previous[1..][k - 1] == previous[k];
    }
  }

  /** The positions of the previous list the report keeps. */
  lemma {:induction false} DeletedPicks(previous: seq<Emoji>, current: set<string>) returns (idx: seq<int>)
    ensures Picks(idx, previous, Deleted(previous, current))
  {
    if |previous| == 0 {
      idx := [];
    } else {
      var rest := DeletedPicks(previous[1..], current);
      idx := PicksCons(rest, previous, Deleted(previous[1..], current));
      if previous[0].name !in current {
        idx := [0] + idx;
      }
    }
  }

  /** Picks from the tail of `from` shift to picks from `from`, with or without its head. */
  lemma PicksCons(idx: seq<int>, from: seq<Emoji>, picked: seq<Emoji>) returns (shifted: seq<int>)
    requires |from| > 0 && Picks(idx, from[1..], picked)
    ensures Picks(shifted, from, picked)
    ensures Picks([0] + shifted, from, [from[0]] + picked)
  {
    shifted := seq(|idx|, k requires 0 <= k < |idx| => idx[k] + 1);
    forall k | 0 <= k < |idx| ensures from[shifted[k]] == picked[k] {
      assert from[1..][idx[k]] == from[idx[k] + 1];
    }
  }

  /** The report of a concatenation is the concatenation of the reports. */
  lemma {:induction false} DeletedAppend(p: seq<Emoji>, q: seq<Emoji>, current: set<string>)
    ensures Deleted(p + q, current) == Deleted(p, current) + Deleted(q, current)
  {
    if |p| > 0 {
      assert (p + q)[1..] == p[1..] + q;
      DeletedAppend(p[1..], q, current);
    } else {
      assert p + q == q;
    }
  }

  /** The set-then-scan loops of `detectDeletedEmojis`. */
  method DeletedEmojis(previous: seq<Emoji>, current: seq<Emoji>) returns (missing: seq<Emoji>)
    ensures missing == Deleted(previous, Names(current))
  {
    var allCurrent: set<string> := {};
    for i := 0 to |current|
      invariant allCurrent == Names(current[..i])
    {
      assert Names(current[..i + 1]) == Names(current[..i]) + {current[i].name} by {
        assert forall k :: 0 <= k < i ==> current[..i + 1][k] == current[..i][k];
      }
      allCurrent := allCurrent + {current[i].name};
    }
    assert current[..|current|] == current;
    missing := [];
    for i := 0 to |previous|
      invariant missing + Deleted(previous[i..], allCurrent) == Deleted(previous, allCurrent)
    {
      assert previous[i..][1..] == previous[i + 1..];
      if previous[i].name !in allCurrent {
        missing := missing + [previous[i]];
      }
    }
  }

  /** What comparing against the snapshot one before the newest yields: the listing's error, no
      snapshot to compare (`None`), the selected snapshot's parse error, or the previous entries
      whose names are gone from `current`. */
  ghost predicate LastDumpOutcome(current: seq<Emoji>, listing: Listing, load: string -> RawPage,
                                  d: Result<Option<seq<Emoji>>>)
    requires listing.Entries? ==> WellFormedEntries(listing.entries)
  {
    && (listing.Unreadable? ==> d == Err(listing.message))
    && (listing.Missing? ==> d == Ok(None))
    && (listing.Entries? && |EligibleNames(listing.entries)| <= 1 ==> d == Ok(None))
    && (listing.Entries? && |EligibleNames(listing.entries)| > 1 ==>
          exists sel ::
            && SelectedAtOffset(EligibleNames(listing.entries), 1, sel)
            && (ParseEmojiResponse(load(sel)).Err? ==> d == Err(ParseEmojiResponse(load(sel)).error))
            && (ParseEmojiResponse(load(sel)).Ok? ==>
                  d == Ok(Some(Deleted(ParseEmojiResponse(load(sel)).value.emoji, Names(current))))))
  }

  /** A name with one greater name beside it needs at least two names. */
  lemma SelectedNeedsTwo(names: seq<string>, sel: string)
    requires SelectedAtOffset(names, 1, sel)
    ensures |names| > 1
  {
    var greater := Above(names, sel);
    var n :| n in greater;
    LessIrreflexive(sel);
    var i :| 0 <= i < |names| && names[i] == sel;
    var j :| 0 <= j < |names| && names[j] == n;
    assert i != j;
  }

  /** At most one name has exactly one greater name. */
  lemma SelectedUnique(names: seq<string>, a: string, b: string)
    requires SelectedAtOffset(names, 1, a) && SelectedAtOffset(names, 1, b)
    ensures a == b
  {
    if a != b {
      LessTotal(a, b);
      if Less(a, b) {
        GreaterBelow(names, a, b);
      } else {
        GreaterBelow(names, b, a);
      }
    }
  }

  /** A name below another has that name, and everything above it, above itself too. */
  lemma GreaterBelow(names: seq<string>, a: string, b: string)
    requires b in names && Less(a, b)
    ensures |Above(names, a)| >= 1 + |Above(names, b)|
  {
    var ga := Above(names, a);
    var gb := Above(names, b);
    forall n | n in gb ensures n in ga {
      LessTransitive(a, b, n);
    }
    LessIrreflexive(b);
    assert b in ga && b !in gb;
    assert gb + {b} <= ga;
    assert |gb + {b}| == |gb| + 1;
    SubsetCard(gb + {b}, ga);
  }

  lemma SubsetCard<T>(a: set<T>, b: set<T>)
    requires a <= b
    ensures |a| <= |b|
  {
    assert b == a + (b - a);
  }

  /**
   * The comparison half of `detectDeletedEmojis`: read the snapshot one before the newest
   * (offset 1, since the newest is the dump just written) and list its entries whose names the
   * current list no longer has.
   */
  method DeletedSinceLastDump(current: seq<Emoji>, listing: Listing, load: string -> RawPage)
    returns (r: Result<Option<seq<Emoji>>>)
    requires listing.Entries? ==> WellFormedEntries(listing.entries)
    ensures LastDumpOutcome(current, listing, load, r)
    ensures r.Err? <==>
      || listing.Unreadable?
      || (listing.Entries? && exists sel ::
            SelectedAtOffset(EligibleNames(listing.entries), 1, sel) && ParseEmojiResponse(load(sel)).Err?)
  {
    var dump := ReadLastEmojiDump(1, listing);
    if dump.Err? {
      return Err(dump.error);
    }
    if dump.value.None? {
      if listing.Entries? {
        forall sel | SelectedAtOffset(EligibleNames(listing.entries), 1, sel) ensures false {
          SelectedNeedsTwo(EligibleNames(listing.entries), sel);
        }
      }
      return Ok(None);
    }
    var sel := dump.value.value;
    forall other | SelectedAtOffset(EligibleNames(listing.entries), 1, other) ensures other == sel {
      SelectedUnique(EligibleNames(listing.entries), sel, other);
    }
    var last := ParseEmojiResponse(load(sel));
    if last.Err? {
      return Err(last.error);
    }
    var missing := DeletedEmojis(last.value.emoji, current);
    return Ok(Some(missing));
  }

  /** The uploader ids `detectDeletedEmojis` collects beside the deleted entries, in order. */
  function UploaderIds(emojis: seq<Emoji>): (ids: seq<string>)
    ensures |ids| == |emojis|
    ensures forall k :: 0 <= k < |emojis| ==> ids[k] == emojis[k].userId
  {
    if |emojis| == 0 then [] else UploaderIds(emojis[..|emojis| - 1]) + [emojis[|emojis| - 1].userId]
  }

  const DataImagePrefix: string := "data:image/"

  /**
   * The extension of an inline image: the text from position len("data:image/") up to the first
   * ';'. `None` where Go's slice expression would panic (no ';', or one before that position).
   */
  function DataUriExtension(url: string): (ext: Option<string>)
    ensures ext.Some? <==> IndexOf(url, ';') >= |DataImagePrefix|
    ensures ext.Some? ==> ';' !in ext.value
    ensures ext.Some? ==> exists rest :: url == url[..|DataImagePrefix|] + ext.value + ";" + rest
  {
    var i := IndexOf(url, ';');
    if i < |DataImagePrefix| then None
    else
      var e := url[|DataImagePrefix|..i];
      assert url == url[..|DataImagePrefix|] + e + ";" + url[i + 1..];
      assert ';' !in e by {
        assert forall k :: 0 <= k < |e| ==> e[k] == url[..i][|DataImagePrefix| + k];
      }
      Some(e)
  }

  /** The base64 payload of an inline image: everything after the first ','. */
  function DataUriPayload(url: string): (payload: string)
    ensures ',' in url ==> exists head :: url == head + "," + payload && ',' !in head
    ensures ',' !in url ==> payload == url
  {
    var i := IndexOf(url, ',');
    assert i >= 0 ==> url == url[..i] + "," + url[i + 1..];
    url[i + 1..]
  }

  /** `path.Ext`: the suffix from the final '.' of the final '/'-separated element, or "". */
  function PathExt(p: string): (ext: string)
    ensures ext == "" || (ext[0] == '.' && EndsWith(p, ext) && '/' !in ext && '.' !in ext[1..])
    ensures ext == "" ==> forall k :: 0 <= k < |p| && '/' !in p[k..] ==> p[k] != '.'
  {
    if |p| == 0 || p[|p| - 1] == '/' then ""
    else if p[|p| - 1] == '.' then "."
    else
      var e := PathExt(p[..|p| - 1]);
      if e == "" then ""
      else
        assert p[..|p| - 1][|p| - 1 - |e|..] == e;
        e + [p[|p| - 1]]
  }

  /** The cached image's file name: data URIs by their declared type, URLs by their path extension. */
  function ImageFileName(e: Emoji): (f: Option<string>)
    ensures StartsWith(e.url, "data:") ==> (f.Some? <==> DataUriExtension(e.url).Some?)
    ensures StartsWith(e.url, "data:") && f.Some? ==> f.value == e.name + "." + DataUriExtension(e.url).value
    ensures !StartsWith(e.url, "data:") ==> f == Some(e.name + PathExt(e.url))
  {
    if StartsWith(e.url, "data:") then
      match DataUriExtension(e.url)
      case Some(ext) => Some(e.name + "." + ext)
      case None => None
    else Some(e.name + PathExt(e.url))
  }
}

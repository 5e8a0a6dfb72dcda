/** Imaging.run: group the mapping pipelines by (window, start, end), and for
    each group choose its calibrated files by feed and assemble the two
    doImage command lines (combine with dbcon, then map). */
module Imaging {
  import opened Strings
  import opened Wrappers

  /** A mapping pipeline: its spectral window, the first and last scan of the map, and its feed. */
  datatype MappingPipeline = MappingPipeline(window: int, start: int, end: int, feed: int)

  /** The MapStruct(window, start, end) key of the grouping. */
  datatype MapKey = MapKey(window: int, start: int, end: int)

  function KeyOf(mp: MappingPipeline): MapKey {
    MapKey(mp.window, mp.start, mp.end)
  }

  // ---------------------------------------------------------------- grouping

  /** Every one of the first n pipelines has its key in `maps`, with its feed in that key's set. */
  predicate Grouped(pipelines: seq<MappingPipeline>, n: nat, maps: map<MapKey, set<int>>)
    requires n <= |pipelines|
  {
    forall k :: 0 <= k < n ==> KeyOf(pipelines[k]) in maps && pipelines[k].feed in maps[KeyOf(pipelines[k])]
  }

  /** Every key of `maps` is the key of one of the first n pipelines. */
  predicate KeysFrom(pipelines: seq<MappingPipeline>, n: nat, maps: map<MapKey, set<int>>)
    requires n <= |pipelines|
  {
    forall key :: key in maps ==> exists k :: 0 <= k < n && KeyOf(pipelines[k]) == key
  }

  /** Every feed filed under a key belongs to one of the first n pipelines with that key. */
  predicate FeedsFrom(pipelines: seq<MappingPipeline>, n: nat, maps: map<MapKey, set<int>>)
    requires n <= |pipelines|
  {
    forall key, feed :: key in maps && feed in maps[key] ==>
      exists k :: 0 <= k < n && KeyOf(pipelines[k]) == key && pipelines[k].feed == feed
  }

  /** Lines 66-71: one entry per distinct (window, start, end), holding the
      feeds of exactly the pipelines with that key. */
  method GroupPipelines(pipelines: seq<MappingPipeline>) returns (maps: map<MapKey, set<int>>)
    ensures Grouped(pipelines, |pipelines|, maps)
    ensures KeysFrom(pipelines, |pipelines|, maps)
    ensures FeedsFrom(pipelines, |pipelines|, maps)
  {
    maps := map[];
    var i := 0;
    while i < |pipelines|
      invariant 0 <= i <= |pipelines|
      invariant forall k :: 0 <= k < i ==> KeyOf(pipelines[k]) in maps
      invariant KeysFrom(pipelines, i, maps)
      invariant forall key :: key in maps ==> maps[key] == {}
    {
      maps := maps[KeyOf(pipelines[i]) := {}];
      i := i + 1;
    }
    i := 0;
    while i < |pipelines|
      invariant 0 <= i <= |pipelines|
      invariant forall k :: 0 <= k < |pipelines| ==> KeyOf(pipelines[k]) in maps
      invariant KeysFrom(pipelines, |pipelines|, maps)
      invariant Grouped(pipelines, i, maps)
      invariant FeedsFrom(pipelines, i, maps)
    {
      var key := KeyOf(pipelines[i]);
      AddFeedStep(pipelines, i, maps);
      maps := maps[key := maps[key] + {pipelines[i].feed}];
      i := i + 1;
    }
  }

  /** One step of the second loop of lines 70-71 keeps the grouping invariants. */
  lemma AddFeedStep(pipelines: seq<MappingPipeline>, i: nat, maps: map<MapKey, set<int>>)
    requires i < |pipelines|
    requires forall k :: 0 <= k < |pipelines| ==> KeyOf(pipelines[k]) in maps
    requires KeysFrom(pipelines, |pipelines|, maps)
    requires Grouped(pipelines, i, maps) && FeedsFrom(pipelines, i, maps)
    ensures var m := maps[KeyOf(pipelines[i]) := maps[KeyOf(pipelines[i])] + {pipelines[i].feed}];
      (forall k :: 0 <= k < |pipelines| ==> KeyOf(pipelines[k]) in m)
      && KeysFrom(pipelines, |pipelines|, m)
      && Grouped(pipelines, i + 1, m) && FeedsFrom(pipelines, i + 1, m)
  {
    var key := KeyOf(pipelines[i]);
    var m := maps[key := maps[key] + {pipelines[i].feed}];
    forall key', feed | key' in m && feed in m[key']
      ensures exists k :: 0 <= k < i + 1 && KeyOf(pipelines[k]) == key' && pipelines[k].feed == feed
    {
      if key' == key && feed == pipelines[i].feed {
      } else {
        assert feed in maps[key'];
      }
    }
  }

  // ---------------------------------------------------------------- feeds of a group

  /** A set without elements is the empty set. */
  lemma NoElementsEmpty(s: set<int>)
    ensures (forall y :: y !in s) ==> s == {}
  {
    if forall y :: y !in s {
      assert forall y :: y in s <==> y in {};
    }
  }

  /** A least element of a non-empty finite set of feeds. */
  lemma {:induction false} MinWitness(s: set<int>) returns (m: int)
    requires s != {}
    ensures m in s && forall x :: x in s ==> m <= x
    decreases |s|
  {
    NoElementsEmpty(s);
    var y :| y in s;
    if s == {y} {
      m := y;
    } else {
      var r := MinWitness(s - {y});
      m := if y < r then y else r;
      forall x | x in s ensures m <= x {
        if x != y {
          assert x in s - {y};
        }
      }
    }
  }

  /** Every non-empty finite set of feeds has a least element. */
  lemma HasMin(s: set<int>)
    requires s != {}
    ensures exists m :: m in s && forall x :: x in s ==> m <= x
  {
    var m := MinWitness(s);
  }

  /** The least element of a non-empty set of feeds. */
  function SetMin(s: set<int>): (m: int)
    requires s != {}
    ensures m in s && forall x :: x in s ==> m <= x
  {
    HasMin(s);
    var m :| m in s && forall x :: x in s ==> m <= x;
    m
  }

  /** sorted(feeds): the least feed first, then the others sorted. */
  function SortedFeeds(s: set<int>): (r: seq<int>)
    decreases |s|
    ensures |r| == |s|
  {
    if s == {} then [] else [SetMin(s)] + SortedFeeds(s - {SetMin(s)})
  }

  /** sorted(feeds) holds exactly the feeds of the set. */
  lemma {:induction false} SortedFeedsMembers(s: set<int>)
    ensures forall x :: x in SortedFeeds(s) <==> x in s
    decreases |s|
  {
    if s != {} {
      var m := SetMin(s);
      var rest := SortedFeeds(s - {m});
      SortedFeedsMembers(s - {m});
      assert SortedFeeds(s) == [m] + rest;
      forall x ensures x in [m] + rest <==> x in s {
        assert x in [m] + rest <==> x == m || x in rest;
      }
    }
  }

  /** sorted(feeds) is strictly ascending, so it lists each feed once. */
  lemma {:induction false} SortedFeedsAscending(s: set<int>)
    ensures forall i, j :: 0 <= i < j < |SortedFeeds(s)| ==> SortedFeeds(s)[i] < SortedFeeds(s)[j]
    decreases |s|
  {
    if s != {} {
      var m := SetMin(s);
      var rest := SortedFeeds(s - {m});
      SortedFeedsAscending(s - {m});
      SortedFeedsMembers(s - {m});
      var r := [m] + rest;
      assert SortedFeeds(s) == r;
      forall i, j | 0 <= i < j < |r| ensures r[i] < r[j] {
        assert r[j] == rest[j - 1];
        assert rest[j - 1] in s - {m};
        if i > 0 {
          assert r[i] == rest[i - 1];
        }
      }
    }
  }

  /** map(str, sorted(feeds)): one word per feed. */
  function FeedStrings(s: set<int>): (r: seq<string>)
    ensures |r| == |s|
    ensures AllWords(r)
  {
    var sorted := SortedFeeds(s);
    seq(|sorted|, k requires 0 <= k < |sorted| => IntToStr(sorted[k]))
  }

  /** The feed strings are str(f) for the feeds in ascending order: a feed is
      in the set exactly when its decimal form is among them. */
  lemma FeedStringsOfFeeds(s: set<int>)
    ensures forall k :: 0 <= k < |FeedStrings(s)| ==> FeedStrings(s)[k] == IntToStr(SortedFeeds(s)[k])
    ensures forall f :: f in s <==> IntToStr(f) in FeedStrings(s)
  {
    SortedFeedsMembers(s);
    var sorted, r := SortedFeeds(s), FeedStrings(s);
    forall f ensures f in s <==> IntToStr(f) in r {
      if f in s {
        var k :| 0 <= k < |sorted| && sorted[k] == f;
        assert r[k] == IntToStr(f);
      }
      if IntToStr(f) in r {
        var k :| 0 <= k < |r| && r[k] == IntToStr(f);
        IntToStrInjective(sorted[k], f);
      }
    }
  }

  /** The substring that marks a file as calibrated for the feed: 'feed<f>_'. */
  function FeedPattern(feed: string): (r: string)
    ensures |r| == |feed| + 5
    ensures r[..4] == "feed" && r[4..|r| - 1] == feed && r[|r| - 1] == '_'
  {
    "feed" + feed + "_"
  }

  /** The files of `files` that contain `pattern`, in their order. */
  function Matching(pattern: string, files: seq<string>): seq<string>
    decreases |files|
  {
    if files == [] then []
    else
      var last := files[|files| - 1];
      Matching(pattern, files[..|files| - 1]) + (if Contains(last, pattern) then [last] else [])
  }

  /** The filtered list: for each feed in turn, the files that carry its pattern. */
  function FeedMajor(feeds: seq<string>, files: seq<string>): seq<string>
    decreases |feeds|
  {
    if feeds == [] then []
    else FeedMajor(feeds[..|feeds| - 1], files) + Matching(FeedPattern(feeds[|feeds| - 1]), files)
  }

  /** Lines 88-93: feed-major nested loops appending the files that carry 'feed<f>_'. */
  method FilterByFeed(feeds: seq<string>, allImfiles: seq<string>) returns (imfiles: seq<string>)
    ensures imfiles == FeedMajor(feeds, allImfiles)
  {
    imfiles := [];
    var fi := 0;
    while fi < |feeds|
      invariant 0 <= fi <= |feeds|
      invariant imfiles == FeedMajor(feeds[..fi], allImfiles)
    {
      var pattern := FeedPattern(feeds[fi]);
      ghost var before := imfiles;
      var j := 0;
      while j < |allImfiles|
        invariant 0 <= j <= |allImfiles|
        invariant imfiles == before + Matching(pattern, allImfiles[..j])
      {
        assert allImfiles[..j + 1][..j] == allImfiles[..j];
        if Contains(allImfiles[j], pattern) {
          imfiles := imfiles + [allImfiles[j]];
        }
        j := j + 1;
      }
      assert allImfiles[..|allImfiles|] == allImfiles;
      assert feeds[..fi + 1][..fi] == feeds[..fi];
      fi := fi + 1;
    }
    assert feeds[..|feeds|] == feeds;
  }

  /** The file name carries the pattern of one of the feeds. */
  predicate MatchesSome(feeds: seq<string>, x: string) {
    exists k :: 0 <= k < |feeds| && Contains(x, FeedPattern(feeds[k]))
  }

  /** A file carries one of the feeds' markers exactly when it carries one of
      the earlier feeds' markers or the last feed's. */
  lemma MatchesSomeLast(feeds: seq<string>, x: string)
    requires feeds != []
    ensures MatchesSome(feeds, x) <==>
      MatchesSome(feeds[..|feeds| - 1], x) || Contains(x, FeedPattern(feeds[|feeds| - 1]))
  {
    var init := feeds[..|feeds| - 1];
    if MatchesSome(feeds, x) && !Contains(x, FeedPattern(feeds[|feeds| - 1])) {
      var k :| 0 <= k < |feeds| && Contains(x, FeedPattern(feeds[k]));
      assert init[k] == feeds[k];
    }
    if MatchesSome(init, x) {
      var k :| 0 <= k < |init| && Contains(x, FeedPattern(init[k]));
      assert feeds[k] == init[k];
    }
  }

  /** A file is kept by one pattern exactly when it was globbed and carries it. */
  lemma MatchingMember(pattern: string, files: seq<string>, x: string)
    ensures x in Matching(pattern, files) <==> x in files && Contains(x, pattern)
  {
    MatchingCount(pattern, files, x);
    assert x in Matching(pattern, files) <==> multiset(Matching(pattern, files))[x] > 0;
    assert x in files <==> multiset(files)[x] > 0;
  }

  /** A file is selected exactly when it was globbed and carries the pattern of one of the feeds. */
  lemma {:induction false} FeedMajorMember(feeds: seq<string>, files: seq<string>, x: string)
    ensures x in FeedMajor(feeds, files) <==> x in files && MatchesSome(feeds, x)
    decreases |feeds|
  {
    if feeds != [] {
      var init, pattern := feeds[..|feeds| - 1], FeedPattern(feeds[|feeds| - 1]);
      FeedMajorMember(init, files, x);
      MatchingMember(pattern, files, x);
      MatchesSomeLast(feeds, x);
      var a, b := FeedMajor(init, files), Matching(pattern, files);
      assert FeedMajor(feeds, files) == a + b;
      assert x in a + b <==> x in a || x in b;
    }
  }

  /** Without feeds nothing is selected. */
  lemma FeedMajorNeedsFeeds(feeds: seq<string>, files: seq<string>)
    ensures FeedMajor(feeds, files) != [] ==> |feeds| >= 1
  {
  }

  /** How many of the feeds' patterns the file name carries. */
  function FeedsMatched(feeds: seq<string>, x: string): nat
    decreases |feeds|
  {
    if feeds == [] then 0
    else FeedsMatched(feeds[..|feeds| - 1], x) + (if Contains(x, FeedPattern(feeds[|feeds| - 1])) then 1 else 0)
  }

  /** Filtering by one pattern keeps every copy of a matching file and no copy of another. */
  lemma {:induction false} MatchingCount(pattern: string, files: seq<string>, x: string)
    ensures multiset(Matching(pattern, files))[x] == if Contains(x, pattern) then multiset(files)[x] else 0
    decreases |files|
  {
    if files != [] {
      var init := files[..|files| - 1];
      assert files == init + [files[|files| - 1]];
      MatchingCount(pattern, init, x);
    }
  }

  /** A globbed file appears in the filtered list once for every feed whose
      pattern it carries. */
  lemma {:induction false} FeedMajorCount(feeds: seq<string>, files: seq<string>, x: string)
    ensures multiset(FeedMajor(feeds, files))[x] == multiset(files)[x] * FeedsMatched(feeds, x)
    decreases |feeds|
  {
    if feeds != [] {
      var init, pattern := feeds[..|feeds| - 1], FeedPattern(feeds[|feeds| - 1]);
      var before, added := FeedMajor(init, files), Matching(pattern, files);
      assert FeedMajor(feeds, files) == before + added;
      assert multiset(before + added)[x] == multiset(before)[x] + multiset(added)[x];
      FeedMajorCount(init, files, x);
      MatchingCount(pattern, files, x);
      var m, c, d := multiset(files)[x], FeedsMatched(init, x), if Contains(x, pattern) then 1 else 0;
      assert multiset(added)[x] == m * d;
      assert FeedsMatched(feeds, x) == c + d;
      Distribute(m, c, d);
    }
  }

  lemma Distribute(m: int, c: int, d: int)
    ensures m * c + m * d == m * (c + d)
  {
  }

  // ---------------------------------------------------------------- arguments

  /** The command-line options Imaging.run reads. */
  datatype ClParams = ClParams(
    channels: string,
    average: int,
    verbose: int,
    displayIdlToSdfits: bool,
    idlToSdfitsRmsFlag: int,
    idlToSdfitsBaselineSubtract: int,
    keeptempfiles: bool)

  /** Lines 98-103: an explicit channel range wins; otherwise, when the file
      has channels, the range chanMin:chanMax; otherwise `channels` keeps
      whatever it held before this map (nothing, on the first map). */
  function ChannelArg(cl: ClParams, nchans: int, chanMin: int, chanMax: int, previous: Option<string>): (r: Option<string>)
    ensures r.None? <==> cl.channels == "" && nchans == 0 && previous.None?
    ensures cl.channels != "" ==> r == Some(cl.channels)
    ensures cl.channels == "" && nchans != 0 ==> r == Some(IntToStr(chanMin) + ":" + IntToStr(chanMax))
    ensures cl.channels == "" && nchans == 0 ==> r == previous
  {
    if cl.channels != "" then Some(cl.channels)
    else if nchans != 0 then Some(IntToStr(chanMin) + ":" + IntToStr(chanMax))
    else previous
  }

  /** The default range reads back as the two channel numbers on either side of ':'. */
  lemma ChannelArgReadsBack(cl: ClParams, nchans: int, chanMin: int, chanMax: int, previous: Option<string>)
    requires cl.channels == "" && nchans != 0
    ensures var r := ChannelArg(cl, nchans, chanMin, chanMax, previous);
      r.Some? && IntValue(Before(r.value, ':')) == chanMin && IntValue(After(r.value, ':')) == chanMax
  {
    IntPairReadsBack(chanMin, ':', chanMax);
  }

  /** Lines 108-111 and 123-126: a switch becomes '1' or '0'. */
  function SwitchFlag(b: bool): (r: string)
    ensures IsWord(r)
    ensures r == "1" || r == "0"
    ensures r == "1" <==> b
  {
    if b then "1" else "0"
  }

  /** Lines 113-121: a value is passed as str(value), or '0' when it is zero. */
  function ValueFlag(v: int): (r: string)
    ensures IsWord(r)
    ensures r == "0" <==> v == 0
    ensures v != 0 ==> r == IntToStr(v)
  {
    if v != 0 then IntToStr(v) else "0"
  }

  /** Line 82: str(start) + '_' + str(end). */
  function ScanRange(key: MapKey): string {
    IntToStr(key.start) + "_" + IntToStr(key.end)
  }

  /** The scan range reads back as the first and last scan on either side of '_'. */
  lemma ScanRangeReadsBack(key: MapKey)
    ensures IntValue(Before(ScanRange(key), '_')) == key.start
    ensures IntValue(After(ScanRange(key), '_')) == key.end
  {
    IntPairReadsBack(key.start, '_', key.end);
  }

  /** The paths of the doImage tool and the two scripts it runs. */
  datatype Tools = Tools(doimage: string, dbconScript: string, mapScript: string)

  /** The arguments of step 1 before the file list, in order. */
  function Step1Head(tools: Tools, aipsNumber: string, feeds: seq<string>, cl: ClParams, channels: string): (r: seq<string>)
    ensures |r| == 11
  {
    [tools.doimage, tools.dbconScript, aipsNumber, Join(feeds, ","),
     IntToStr(cl.average), channels, SwitchFlag(cl.displayIdlToSdfits),
     ValueFlag(cl.idlToSdfitsRmsFlag), IntToStr(cl.verbose),
     ValueFlag(cl.idlToSdfitsBaselineSubtract), SwitchFlag(cl.keeptempfiles)]
  }

  /** Lines 106 and 128-133: the step-1 command line, the file names joined into one field. */
  function Step1Line(tools: Tools, aipsNumber: string, feeds: seq<string>, cl: ClParams, channels: string, imfiles: seq<string>): string {
    Join(Step1Head(tools, aipsNumber, feeds, cl, channels) + [Join(imfiles, " ")], " ")
  }

  /** Line 152: the '-u=_<start>_<end>' argument of step 2. */
  function UserArg(key: MapKey): string {
    "-u=_" + IntToStr(key.start) + "_" + IntToStr(key.end)
  }

  /** The step-2 argument is one word: '-u=' and '_' before the scan range of line 82. */
  lemma UserArgIsScanRange(key: MapKey)
    ensures IsWord(UserArg(key))
    ensures UserArg(key) == "-u=" + "_" + ScanRange(key)
  {
    var a, b := IntToStr(key.start), IntToStr(key.end);
    assert NoSpace("-u=_") && NoSpace("_");
    ConcatNoSpace("-u=_", a);
    ConcatNoSpace("-u=_" + a, "_");
    ConcatNoSpace("-u=_" + a + "_", b);
    assert "-u=_" + a + "_" + b == "-u=" + "_" + (a + "_" + b);
  }

  /** Lines 151-152: the step-2 command line. */
  function Step2Line(tools: Tools, aipsNumber: string, key: MapKey): string {
    Join([tools.doimage, tools.mapScript, aipsNumber, UserArg(key)], " ")
  }

  /** The eleven fixed step-1 arguments are single words when the paths,
      the AIPS number, the feeds and the channel range are. */
  lemma Step1HeadWords(tools: Tools, aipsNumber: string, feeds: seq<string>, cl: ClParams, channels: string)
    requires IsWord(tools.doimage) && IsWord(tools.dbconScript) && IsWord(aipsNumber) && IsWord(channels)
    requires |feeds| >= 1 && AllWords(feeds)
    ensures AllWords(Step1Head(tools, aipsNumber, feeds, cl, channels))
  {
    JoinIsWord(feeds, ",");
  }

  /** Popen receives the step-1 line split on whitespace: when the paths,
      the channel range and the file names are single words, that is the
      eleven fixed arguments followed by the selected files in order. */
  lemma Step1Arguments(tools: Tools, aipsNumber: string, feeds: seq<string>, cl: ClParams, channels: string, imfiles: seq<string>)
    requires IsWord(tools.doimage) && IsWord(tools.dbconScript) && IsWord(aipsNumber) && IsWord(channels)
    requires |feeds| >= 1 && AllWords(feeds)
    requires |imfiles| >= 1 && AllWords(imfiles)
    ensures Split(Step1Line(tools, aipsNumber, feeds, cl, channels, imfiles))
      == Step1Head(tools, aipsNumber, feeds, cl, channels) + imfiles
  {
    var head := Step1Head(tools, aipsNumber, feeds, cl, channels);
    Step1HeadWords(tools, aipsNumber, feeds, cl, channels);
    JoinFlatten(head, imfiles);
    AllWordsConcat(head, imfiles);
    SplitJoin(head + imfiles);
  }

  /** The step-2 arguments: doImage, the map script, the AIPS number and
      '-u=' followed by '_' and the scan range. */
  lemma Step2Arguments(tools: Tools, aipsNumber: string, key: MapKey)
    requires IsWord(tools.doimage) && IsWord(tools.mapScript) && IsWord(aipsNumber)
    ensures Split(Step2Line(tools, aipsNumber, key))
      == [tools.doimage, tools.mapScript, aipsNumber, "-u=" + "_" + ScanRange(key)]
  {
    UserArgIsScanRange(key);
    SplitJoin([tools.doimage, tools.mapScript, aipsNumber, UserArg(key)]);
  }

  // ---------------------------------------------------------------- one run

  /** What the run takes from outside: the files glob finds for each map,
      the channel count of the DATA column of each readable file, the user
      id and the tool paths. */
  datatype Environment = Environment(
    globbed: map<MapKey, seq<string>>,
    nchans: map<string, int>,
    uid: nat,
    tools: Tools)

  /** Lines 84-85: the files glob finds for the map; none when it is not listed. */
  function Globbed(env: Environment, key: MapKey): seq<string> {
    if key in env.globbed then env.globbed[key] else []
  }

  /** Python's int() of a non-integral quotient: truncation toward zero. */
  function TruncDiv(a: int, b: int): (q: int)
    requires b > 0
    ensures a >= 0 ==> 0 <= q && q * b <= a < q * b + b
    ensures a < 0 ==> q <= 0 && q * b - b < a <= q * b
  {
    if a >= 0 then
      DivBounds(a, b);
      a / b
    else
      DivBounds(-a, b);
      -((-a) / b)
  }

  /** Euclidean division of a natural number. */
  lemma DivBounds(a: nat, b: int)
    requires b > 0
    ensures 0 <= a / b && (a / b) * b <= a < (a / b) * b + b
  {
    var q, r := a / b, a % b;
    assert a == q * b + r && 0 <= r < b;
  }

  /** Line 101: int(nchans * .02), the channel at 2% of the band. */
  function ChanMin(nchans: int): (r: int)
    ensures nchans >= 0 ==> 0 <= r && 100 * r <= 2 * nchans < 100 * r + 100
    ensures nchans < 0 ==> r <= 0 && 100 * r - 100 < 2 * nchans <= 100 * r
  {
    TruncDiv(2 * nchans, 100)
  }

  /** Line 102: int(nchans * .98), the channel at 98% of the band. */
  function ChanMax(nchans: int): (r: int)
    ensures nchans >= 0 ==> 0 <= r && 100 * r <= 98 * nchans < 100 * r + 100
    ensures nchans < 0 ==> r <= 0 && 100 * r - 100 < 98 * nchans <= 100 * r
  {
    TruncDiv(98 * nchans, 100)
  }

  /** For a file with channels, both ends of the default range lie inside
      the band, the start no later than the end. */
  lemma ChanRangeInBand(nchans: int)
    requires nchans >= 0
    ensures 0 <= ChanMin(nchans) <= ChanMax(nchans) <= nchans
    ensures nchans >= 50 ==> ChanMin(nchans) >= 1 && ChanMax(nchans) < nchans
  {
    var lo, hi := 2 * nchans, 98 * nchans;
    assert lo / 100 <= hi / 100 by {
      DivMonotone(lo, hi, 100);
    }
    assert hi / 100 <= nchans by {
      DivMonotone(hi, 100 * nchans, 100);
    }
    if nchans >= 50 {
      DivMonotone(100, lo, 100);
      assert hi + 2 * nchans == 100 * nchans;
      assert hi < 100 * nchans - 99;
      DivMonotone(hi, 100 * nchans - 100, 100);
      assert (100 * nchans - 100) / 100 == nchans - 1;
    }
  }

  lemma DivMonotone(a: int, b: int, d: int)
    requires 0 <= a <= b && d > 0
    ensures a / d <= b / d
  {
    var q1, q2 := a / d, b / d;
    var k := q1 - q2 - 1;
    assert q1 * d <= a && b < q2 * d + d;
    assert k * d == q1 * d - q2 * d - d;
    assert k * d < 0;
  }

  /** The two doImage command lines of one map; Popen receives each split on whitespace. */
  datatype Commands = Commands(step1: string, step2: string)

  /** Why Imaging.run stops: no file of the map matched a feed (imfiles[0]
      raises), the first file cannot be read as FITS, or `channels` was never
      assigned. */
  datatype ImagingError = NoImageFiles(key: MapKey) | UnreadableFile(file: string) | ChannelsUnassigned(key: MapKey)

  /** The outcome of one map: its commands and the value `channels` is left
      with, or the error that stops the run. */
  datatype MapStep = Issued(cmds: Commands, channels: string) | Stopped(error: ImagingError)

  /** The commands issued, in map order, and the error that ended the run early, if any. */
  datatype Outcome = Outcome(issued: seq<Commands>, failure: Option<ImagingError>)

  /** Lines 88-93: the map's files filtered by feed. */
  function MapFiles(env: Environment, key: MapKey, feedSet: set<int>): seq<string> {
    FeedMajor(FeedStrings(feedSet), Globbed(env, key))
  }

  /** The channel range one map settles on (lines 95-103), given the value
      `channels` held before it; nothing when the map stops first. */
  function MapChannels(env: Environment, cl: ClParams, key: MapKey, feedSet: set<int>, previous: Option<string>): Option<string> {
    var imfiles := MapFiles(env, key, feedSet);
    if imfiles == [] || imfiles[0] !in env.nchans then None
    else
      var nchans := env.nchans[imfiles[0]];
      ChannelArg(cl, nchans, ChanMin(nchans), ChanMax(nchans), previous)
  }

  /** Why a map that settles on no channel range stops: it has no file, its
      first file cannot be read, or `channels` is still unassigned. */
  function MapError(env: Environment, key: MapKey, feedSet: set<int>): ImagingError {
    var imfiles := MapFiles(env, key, feedSet);
    if imfiles == [] then NoImageFiles(key)
    else if imfiles[0] !in env.nchans then UnreadableFile(imfiles[0])
    else ChannelsUnassigned(key)
  }

  /** Lines 105-152: the two command lines of a map with channel range `channels`. */
  function MapCommands(env: Environment, cl: ClParams, key: MapKey, feedSet: set<int>, channels: string): Commands {
    var aipsNumber := IntToStr(env.uid);
    Commands(
      Step1Line(env.tools, aipsNumber, FeedStrings(feedSet), cl, channels, MapFiles(env, key, feedSet)),
      Step2Line(env.tools, aipsNumber, key))
  }

  /** Lines 75-152 for one map, given the value `channels` held before it. */
  function PlanMap(env: Environment, cl: ClParams, key: MapKey, feedSet: set<int>, previous: Option<string>): MapStep {
    match MapChannels(env, cl, key, feedSet, previous)
    case None => Stopped(MapError(env, key, feedSet))
    case Some(channels) => Issued(MapCommands(env, cl, key, feedSet, channels), channels)
  }

  /** A map settles on a channel range only when its first file can be
      read, and then on the command-line range whenever one is given. */
  lemma MapChannelsSettles(env: Environment, cl: ClParams, key: MapKey, feedSet: set<int>, previous: Option<string>)
    ensures var r, files := MapChannels(env, cl, key, feedSet, previous), MapFiles(env, key, feedSet);
      (r.Some? ==> files != [] && files[0] in env.nchans)
      && (files != [] && files[0] in env.nchans && cl.channels != "" ==> r == Some(cl.channels))
  {
  }

  /** A map issues its commands exactly when it settles on a range, and
      otherwise names the first reason it cannot. */
  lemma PlanMapStops(env: Environment, cl: ClParams, key: MapKey, feedSet: set<int>, previous: Option<string>)
    ensures var r, files := PlanMap(env, cl, key, feedSet, previous), MapFiles(env, key, feedSet);
      (r.Issued? <==> MapChannels(env, cl, key, feedSet, previous).Some?)
      && (r.Issued? ==> r.channels == MapChannels(env, cl, key, feedSet, previous).value)
      && (r.Stopped? ==> (r.error.NoImageFiles? <==> files == []))
      && (r.Stopped? ==> (r.error.UnreadableFile? <==> files != [] && files[0] !in env.nchans))
      && (r.Stopped? ==> (r.error.ChannelsUnassigned? <==> files != [] && files[0] in env.nchans))
  {
  }

  /** Every map of `order` is a key of `maps`. */
  predicate InMaps(order: seq<MapKey>, maps: map<MapKey, set<int>>) {
    forall i :: 0 <= i < |order| ==> order[i] in maps
  }

  lemma InMapsSuffix(order: seq<MapKey>, maps: map<MapKey, set<int>>, t: nat)
    requires InMaps(order, maps) && t <= |order|
    ensures InMaps(order[t..], maps)
  {
    assert forall i :: 0 <= i < |order| - t ==> order[t..][i] == order[t + i];
  }

  /** The maps of `order` processed in turn, `channels` carried from one to the next. */
  function RunFrom(env: Environment, cl: ClParams, maps: map<MapKey, set<int>>, order: seq<MapKey>, channels: Option<string>): Outcome
    requires InMaps(order, maps)
    decreases |order|
  {
    if order == [] then Outcome([], None)
    else
      match PlanMap(env, cl, order[0], maps[order[0]], channels)
      case Stopped(e) => Outcome([], Some(e))
      case Issued(c, ch) =>
        InMapsSuffix(order, maps, 1);
        var rest := RunFrom(env, cl, maps, order[1..], Some(ch));
        Outcome([c] + rest.issued, rest.failure)
  }

  /** Lines 75-152 for one map: filter its files by feed, choose the
      channel range and build both argument lists. */
  method ProcessMap(env: Environment, cl: ClParams, key: MapKey, feedSet: set<int>, previous: Option<string>)
    returns (step: MapStep)
    ensures step == PlanMap(env, cl, key, feedSet, previous)
  {
    var feeds := FeedStrings(feedSet);
    var imfiles := FilterByFeed(feeds, Globbed(env, key));
    if imfiles == [] {
      return Stopped(NoImageFiles(key));
    }
    if imfiles[0] !in env.nchans {
      return Stopped(UnreadableFile(imfiles[0]));
    }
    var nchans := env.nchans[imfiles[0]];
    var chosen := ChannelArg(cl, nchans, ChanMin(nchans), ChanMax(nchans), previous);
    if chosen.None? {
      return Stopped(ChannelsUnassigned(key));
    }
    var aipsNumber := IntToStr(env.uid);
    var cmd1 := Step1Line(env.tools, aipsNumber, feeds, cl, chosen.value, imfiles);
    var cmd2 := Step2Line(env.tools, aipsNumber, key);
    step := Issued(Commands(cmd1, cmd2), chosen.value);
  }

  lemma ConcatAssoc<T>(a: seq<T>, b: seq<T>, c: seq<T>)
    ensures a + (b + c) == (a + b) + c
  {
  }

  /** The loop of Run after t maps: the commands issued so far followed by
      the run from map t on give the whole run, or it has stopped with `failure`. */
  ghost predicate RunSoFar(env: Environment, cl: ClParams, maps: map<MapKey, set<int>>, order: seq<MapKey>,
                           t: nat, channels: Option<string>, issued: seq<Commands>, failure: Option<ImagingError>)
    requires InMaps(order, maps) && t <= |order|
  {
    InMapsSuffix(order, maps, t);
    if failure.None? then
      var rest := RunFrom(env, cl, maps, order[t..], channels);
      RunFrom(env, cl, maps, order, None) == Outcome(issued + rest.issued, rest.failure)
    else
      RunFrom(env, cl, maps, order, None) == Outcome(issued, failure)
  }

  /** Before the first map nothing has been issued. */
  lemma RunSoFarStart(env: Environment, cl: ClParams, maps: map<MapKey, set<int>>, order: seq<MapKey>)
    requires InMaps(order, maps)
    ensures RunSoFar(env, cl, maps, order, 0, None, [], None)
  {
    assert order[0..] == order;
    assert [] + RunFrom(env, cl, maps, order, None).issued == RunFrom(env, cl, maps, order, None).issued;
  }

  /** When every map is done, or one has failed, the commands issued are the whole run. */
  lemma RunSoFarEnd(env: Environment, cl: ClParams, maps: map<MapKey, set<int>>, order: seq<MapKey>,
                    t: nat, channels: Option<string>, issued: seq<Commands>, failure: Option<ImagingError>)
    requires InMaps(order, maps) && t <= |order|
    requires RunSoFar(env, cl, maps, order, t, channels, issued, failure)
    requires t == |order| || failure.Some?
    ensures RunFrom(env, cl, maps, order, None) == Outcome(issued, failure)
  {
    if failure.None? {
      assert order[t..] == [];
      assert issued + [] == issued;
    }
  }

  /** One map's step advances the loop of Run. */
  lemma RunStep(env: Environment, cl: ClParams, maps: map<MapKey, set<int>>, order: seq<MapKey>,
                t: nat, channels: Option<string>, issued: seq<Commands>, step: MapStep)
    requires InMaps(order, maps) && t < |order|
    requires RunSoFar(env, cl, maps, order, t, channels, issued, None)
    requires step == PlanMap(env, cl, order[t], maps[order[t]], channels)
    ensures step.Stopped? ==> RunSoFar(env, cl, maps, order, t, channels, issued, Some(step.error))
    ensures step.Issued? ==> RunSoFar(env, cl, maps, order, t + 1, Some(step.channels), issued + [step.cmds], None)
  {
    InMapsSuffix(order, maps, t);
    InMapsSuffix(order, maps, t + 1);
    assert order[t..][0] == order[t];
    assert order[t..][1..] == order[t + 1..];
    if step.Issued? {
      ConcatAssoc(issued, [step.cmds], RunFrom(env, cl, maps, order[t + 1..], Some(step.channels)).issued);
    }
  }

  /** One pass of the loop over the maps: process map t and keep the
      account of the run. */
  method VisitMap(env: Environment, cl: ClParams, maps: map<MapKey, set<int>>, order: seq<MapKey>,
                  t: nat, channels: Option<string>, issued: seq<Commands>)
    returns (step: MapStep)
    requires InMaps(order, maps) && t < |order|
    requires RunSoFar(env, cl, maps, order, t, channels, issued, None)
    ensures step.Stopped? ==> RunSoFar(env, cl, maps, order, t, channels, issued, Some(step.error))
    ensures step.Issued? ==> RunSoFar(env, cl, maps, order, t + 1, Some(step.channels), issued + [step.cmds], None)
  {
    step := ProcessMap(env, cl, order[t], maps[order[t]], channels);
    RunStep(env, cl, maps, order, t, channels, issued, step);
  }

  /** Imaging.run (lines 66-152 without logging and process I/O): group the
      pipelines, then visit the maps in `order`, the dictionary's iteration
      order (each key once), producing each map's two argument lists until
      one map fails. */
  method Run(env: Environment, cl: ClParams, pipelines: seq<MappingPipeline>, order: seq<MapKey>)
    returns (maps: map<MapKey, set<int>>, outcome: Outcome)
    requires forall t :: 0 <= t < |order| ==> exists k :: 0 <= k < |pipelines| && KeyOf(pipelines[k]) == order[t]
    requires forall k :: 0 <= k < |pipelines| ==> KeyOf(pipelines[k]) in order
    requires forall i, j :: 0 <= i < j < |order| ==> order[i] != order[j]
    ensures Grouped(pipelines, |pipelines|, maps) && KeysFrom(pipelines, |pipelines|, maps)
    ensures FeedsFrom(pipelines, |pipelines|, maps)
    ensures InMaps(order, maps)
    ensures outcome == RunFrom(env, cl, maps, order, None)
  {
    maps := GroupPipelines(pipelines);
    forall i | 0 <= i < |order| ensures order[i] in maps {
      var k :| 0 <= k < |pipelines| && KeyOf(pipelines[k]) == order[i];
    }
    RunSoFarStart(env, cl, maps, order);
    var issued: seq<Commands> := [];
    var channels: Option<string> := None;
    var failure: Option<ImagingError> := None;
    var t := 0;
    while t < |order| && failure.None?
      invariant 0 <= t <= |order|
      invariant RunSoFar(env, cl, maps, order, t, channels, issued, failure)
      decreases |order| - t, if failure.None? then 1 else 0
    {
      var step := VisitMap(env, cl, maps, order, t, channels, issued);
      if step.Stopped? {
        failure := Some(step.error);
      } else {
        issued := issued + [step.cmds];
        channels := Some(step.channels);
        t := t + 1;
      }
    }
    RunSoFarEnd(env, cl, maps, order, t, channels, issued, failure);
    outcome := Outcome(issued, failure);
  }

  /** A run issues at most one pair of commands per map, and one per map
      exactly when no map fails. */
  lemma {:induction false} RunIssuesPerMap(env: Environment, cl: ClParams, maps: map<MapKey, set<int>>, order: seq<MapKey>, channels: Option<string>)
    requires InMaps(order, maps)
    ensures |RunFrom(env, cl, maps, order, channels).issued| <= |order|
    ensures RunFrom(env, cl, maps, order, channels).failure.None? <==>
      |RunFrom(env, cl, maps, order, channels).issued| == |order|
    decreases |order|
  {
    if order != [] {
      InMapsSuffix(order, maps, 1);
      match PlanMap(env, cl, order[0], maps[order[0]], channels)
      case Stopped(e) =>
      case Issued(c, ch) => RunIssuesPerMap(env, cl, maps, order[1..], Some(ch));
    }
  }

  /** With an explicit channel range no map can fail for lack of one; a
      run stops early only at a map without files or with an unreadable one. */
  lemma {:induction false} ExplicitChannelsNeverUnassigned(env: Environment, cl: ClParams, maps: map<MapKey, set<int>>, order: seq<MapKey>, channels: Option<string>)
    requires InMaps(order, maps)
    requires cl.channels != ""
    ensures RunFrom(env, cl, maps, order, channels).failure.Some? ==>
      !RunFrom(env, cl, maps, order, channels).failure.value.ChannelsUnassigned?
    decreases |order|
  {
    if order != [] {
      InMapsSuffix(order, maps, 1);
      match PlanMap(env, cl, order[0], maps[order[0]], channels)
      case Stopped(e) =>
      case Issued(c, ch) => ExplicitChannelsNeverUnassigned(env, cl, maps, order[1..], Some(ch));
    }
  }

  /** The tool paths are single words, as are the files glob returns for
      each map of `order`. */
  predicate WordPaths(env: Environment, order: seq<MapKey>) {
    IsWord(env.tools.doimage) && IsWord(env.tools.dbconScript) && IsWord(env.tools.mapScript)
    && forall i :: 0 <= i < |order| ==> AllWords(Globbed(env, order[i]))
  }

  /** The channel range of a command is a single word: the command-line
      value, chanMin:chanMax, or the previous map's range. */
  lemma ChannelArgWord(cl: ClParams, nchans: int, chanMin: int, chanMax: int, previous: Option<string>)
    requires NoSpace(cl.channels)
    requires previous.Some? ==> IsWord(previous.value)
    ensures var r := ChannelArg(cl, nchans, chanMin, chanMax, previous); r.Some? ==> IsWord(r.value)
  {
    if cl.channels == "" && nchans != 0 {
      assert NoSpace(":");
      ConcatNoSpace(IntToStr(chanMin), ":");
      ConcatNoSpace(IntToStr(chanMin) + ":", IntToStr(chanMax));
    }
  }

  /** The argument lists of one map with channel range `channels`: step 1
      is the eleven fixed arguments followed by the map's files selected by
      feed; step 2 ends in '-u=' + '_' + the map's scan range. */
  predicate CommandsOfMap(env: Environment, cl: ClParams, key: MapKey, feedSet: set<int>, channels: string, c: Commands) {
    var feeds := FeedStrings(feedSet);
    IsWord(channels)
    && Split(c.step1) == Step1Head(env.tools, IntToStr(env.uid), feeds, cl, channels) + MapFiles(env, key, feedSet)
    && Split(c.step2) == [env.tools.doimage, env.tools.mapScript, IntToStr(env.uid), "-u=" + "_" + ScanRange(key)]
  }

  /** When one map's commands are issued, Popen receives those argument
      lists, with the command-line channel range whenever one is given. */
  lemma PlanMapCommands(env: Environment, cl: ClParams, key: MapKey, feedSet: set<int>, previous: Option<string>)
    requires WordPaths(env, [key])
    requires NoSpace(cl.channels)
    requires WordOrNone(previous)
    ensures var step := PlanMap(env, cl, key, feedSet, previous);
      step.Issued? ==>
        (cl.channels != "" ==> step.channels == cl.channels)
        && CommandsOfMap(env, cl, key, feedSet, step.channels, step.cmds)
  {
    var step := PlanMap(env, cl, key, feedSet, previous);
    if step.Issued? {
      var feeds := FeedStrings(feedSet);
      var files := Globbed(env, key);
      var imfiles := FeedMajor(feeds, files);
      assert AllWords(files) by {
        assert [key][0] == key;
      }
      FeedMajorNeedsFeeds(feeds, files);
      forall k | 0 <= k < |imfiles| ensures IsWord(imfiles[k]) {
        FeedMajorMember(feeds, files, imfiles[k]);
      }
      var nchans := env.nchans[imfiles[0]];
      ChannelArgWord(cl, nchans, ChanMin(nchans), ChanMax(nchans), previous);
      Step2Arguments(env.tools, IntToStr(env.uid), key);
      Step1Arguments(env.tools, IntToStr(env.uid), feeds, cl, step.channels, imfiles);
    }
  }

  /** The value `channels` holds when map t of `order` is reached. */
  function ChannelsAt(env: Environment, cl: ClParams, maps: map<MapKey, set<int>>, order: seq<MapKey>,
                      channels: Option<string>, t: nat): Option<string>
    requires InMaps(order, maps) && t <= |order|
    decreases t
  {
    if t == 0 then channels
    else
      match MapChannels(env, cl, order[0], maps[order[0]], channels)
      case None => channels
      case Some(ch) =>
        InMapsSuffix(order, maps, 1);
        ChannelsAt(env, cl, maps, order[1..], Some(ch), t - 1)
  }

  /** The t-th command pair a run issues is what map t produces from the
      channel range left by the maps before it. */
  lemma {:induction false} RunIssuedAt(env: Environment, cl: ClParams, maps: map<MapKey, set<int>>, order: seq<MapKey>,
                                       channels: Option<string>, t: nat)
    requires InMaps(order, maps)
    requires t < |RunFrom(env, cl, maps, order, channels).issued|
    ensures t < |order|
    ensures var step := PlanMap(env, cl, order[t], maps[order[t]], ChannelsAt(env, cl, maps, order, channels, t));
      step.Issued? && RunFrom(env, cl, maps, order, channels).issued[t] == step.cmds
    decreases |order|
  {
    InMapsSuffix(order, maps, 1);
    var step := PlanMap(env, cl, order[0], maps[order[0]], channels);
    if t > 0 {
      RunIssuedAt(env, cl, maps, order[1..], Some(step.channels), t - 1);
      assert order[1..][t - 1] == order[t];
    }
  }

  /** No value yet, or a single word. */
  predicate WordOrNone(ch: Option<string>) {
    ch.Some? ==> IsWord(ch.value)
  }

  /** A map settles on a single-word channel range when the command-line
      one has no whitespace and the previous one is a word. */
  lemma MapChannelsWord(env: Environment, cl: ClParams, key: MapKey, feedSet: set<int>, previous: Option<string>)
    requires NoSpace(cl.channels) && WordOrNone(previous)
    ensures WordOrNone(MapChannels(env, cl, key, feedSet, previous))
  {
    var imfiles := MapFiles(env, key, feedSet);
    if imfiles != [] && imfiles[0] in env.nchans {
      var nchans := env.nchans[imfiles[0]];
      ChannelArgWord(cl, nchans, ChanMin(nchans), ChanMax(nchans), previous);
    }
  }

  /** Every channel range a run carries is a single word when the
      command-line one has no whitespace. */
  lemma {:induction false} ChannelsAtWord(env: Environment, cl: ClParams, maps: map<MapKey, set<int>>, order: seq<MapKey>,
                                          channels: Option<string>, t: nat)
    requires InMaps(order, maps) && t <= |order|
    requires NoSpace(cl.channels) && WordOrNone(channels)
    ensures WordOrNone(ChannelsAt(env, cl, maps, order, channels, t))
    decreases t
  {
    if t > 0 {
      InMapsSuffix(order, maps, 1);
      var key := order[0];
      var ch := MapChannels(env, cl, key, maps[key], channels);
      MapChannelsWord(env, cl, key, maps[key], channels);
      if ch.Some? {
        ChannelsAtWord(env, cl, maps, order[1..], ch, t - 1);
      }
    }
  }

  /** Every command pair a run issues is its map's argument lists for the
      channel range then in force, and for the command-line range when one
      is given. */
  lemma RunCommandsPerMap(env: Environment, cl: ClParams, maps: map<MapKey, set<int>>, order: seq<MapKey>, t: nat)
    requires InMaps(order, maps) && WordPaths(env, order)
    requires NoSpace(cl.channels)
    requires t < |RunFrom(env, cl, maps, order, None).issued|
    ensures t < |order|
    ensures var step := PlanMap(env, cl, order[t], maps[order[t]], ChannelsAt(env, cl, maps, order, None, t));
      step.Issued?
      && CommandsOfMap(env, cl, order[t], maps[order[t]], step.channels, RunFrom(env, cl, maps, order, None).issued[t])
      && (cl.channels != "" ==> step.channels == cl.channels)
  {
    RunIssuedAt(env, cl, maps, order, None, t);
    ChannelsAtWord(env, cl, maps, order, None, t);
    assert [order[t]][0] == order[t];
    PlanMapCommands(env, cl, order[t], maps[order[t]], ChannelsAt(env, cl, maps, order, None, t));
  }
}

# GBT-Pipeline imaging core in Dafny

This project models two parts of the GBT spectral-line pipeline.

The first part is **the `dbcon` ParselTongue script** (`src/contrib/dbcon.py`). It:

- clears the AIPS catalog of the work disk;
- reserves slot 0 with a MANDL image;
- loads every spectra file with UVLOD and drops every file whose reference frequency is more than 1e5 Hz away from the first file's;
- folds the kept data sets together with DBCON, zapping each intermediate result;
- zaps the raw inputs from the highest catalog position down;
- sorts what is left with UVSRT and writes it with FITTP to `<stem>_dbcon.fits`.

The catalog is a class with one `seq<Entry>` field (`AipsCatalog.Catalog`). Its methods do what the AIPS tasks do to the catalog, and `Dbcon.Combine` is the script itself, written as a method over that class. Its postcondition records:

- which files are kept;
- which positions every DBCON call reads;
- which entries are zapped, and in what order;
- what UVSRT sorts;
- that exactly the sorted entry is left for export;
- the output file name.

The second part is **`Imaging.run`** (`src/Imaging.py`). It:

1. groups the mapping pipelines into one set of feeds per (window, start, end);
2. for each map, picks the globbed files that carry a `feed<f>_` marker, feed by feed in ascending order;
3. chooses the channel range;
4. builds the two `doImage` command lines.

`Imaging.Run` is the method with the outer loop. It is proved equal to the recursive reference `Imaging.RunFrom`. Lemmas over `RunFrom` then state what the commands split into, what channel range applies and when a run stops.

`Strings` gives the Python built-ins their meaning (`str(int)`, `join`, `split()`, `rfind`, `in`). `Wrappers` holds `Option`.

For `dbcon.py`, the script's comments and its code disagree, and the model follows the code. Line 94 says the merge loop keeps "adding in one", so each iteration should fold in the next raw input. The loop `for i in range(2, kount)` (line 95) instead reads catalog position `i` (lines 100-102), and position `i` holds the i-th kept input, E_i. The first merge (lines 84-92) has already read E_2 at position 2. So, with three or more kept files, E_2 is merged twice and E_kount is never merged, although lines 110-117 zap it. `Dbcon.MergeChain` and `Dbcon.Combine` model the loop as written. The findings table below sets this against the intended reading.

## Model

| member | source | states |
|---|---|---|
| `AipsCatalog.MaxSeq` | src/contrib/dbcon.py:67 | the result bounds the sequence number of every entry with that name and class, and is reached by one of them when positive |
| `AipsCatalog.NextSeq` | src/contrib/dbcon.py:67 | a task writing with default output sequence gets a number above every existing entry of that name and class |
| `AipsCatalog.NextSeqFresh` | src/contrib/dbcon.py:92 | the first entry of a name and class gets sequence 1 |
| `AipsCatalog.NextSeqAfterSingle` | src/contrib/dbcon.py:104 | with one entry of that name and class, the next DBCON output gets its number plus one |
| `AipsCatalog.RemoveAt` | src/contrib/dbcon.py:74 | removing a position keeps the entries below and shifts the ones above down by one |
| `AipsCatalog.IndexOf` | src/contrib/dbcon.py:74 | the position of the first entry equal to the key |
| `AipsCatalog.IndexOfDistinct` | src/contrib/dbcon.py:116-117 | in a catalog without repeated keys, the key read at position i is found at i |
| `AipsCatalog.PyIndex` | src/contrib/dbcon.py:68 | Python list indexing: the slot read is the one position of the list congruent to the index modulo its length, so a negative index counts from the end and a non-negative one is its own slot |
| `AipsCatalog.Catalog.constructor` | src/contrib/dbcon.py:46 | a new catalog is empty and valid |
| `AipsCatalog.Catalog.Clear` | src/contrib/dbcon.py:46 | zapping the whole catalog leaves it empty |
| `AipsCatalog.Catalog.Create` | src/contrib/dbcon.py:58 | a task output is appended with the next sequence number; the keys stay distinct |
| `AipsCatalog.Catalog.At` | src/contrib/dbcon.py:68 | `AIPSCat()[disk][i]` returns the entry at i, counting from the end when i is negative |
| `AipsCatalog.Catalog.Find` | src/contrib/dbcon.py:97-99 | a task input named by name, class and sequence is that catalog entry |
| `AipsCatalog.Catalog.Zap` | src/contrib/dbcon.py:74 | the entry leaves the catalog, the entries above move down one, and the keys stay distinct |
| `Dbcon.Accepts` | src/contrib/dbcon.py:72 | a file is kept exactly when the frequency difference is within ±1e5 Hz |
| `Dbcon.Kept` | src/contrib/dbcon.py:63-76 | the kept files are no more than the files loaded |
| `Dbcon.KeptIff` | src/contrib/dbcon.py:63-76 | a file is kept exactly when it was loaded and passes the frequency guard |
| `Dbcon.KeptStartsWithHead` | src/contrib/dbcon.py:70-71 | a first file that passes the guard is the first one kept |
| `Dbcon.Accepted` | src/contrib/dbcon.py:61-76 | the files the load loop keeps against the first file's frequency; `KeptIff` and `FirstFileAccepted` state what they are |
| `Dbcon.FirstFileAccepted` | src/contrib/dbcon.py:70-76 | the first file sets the reference frequency, so it is always kept and at least one file survives |
| `Dbcon.In2Positions` | src/contrib/dbcon.py:87-102 | one second input per DBCON call, kount - 1 of them when two or more files are kept |
| `Dbcon.RawPositionsReadAsWritten` | src/contrib/dbcon.py:84-102 | with three or more kept files, position 2 is read twice, position kount never, and every position from 1 to kount - 1 is read |
| `Dbcon.IntendedPositionsReadEachOnce` | src/contrib/dbcon.py:94-102 | read as line 94 describes, the merges read each kept position 1..kount exactly once and nothing else, and on two files they agree with the script as written |
| `Dbcon.AscendingCount` | src/contrib/dbcon.py:94-102 | in 1, 2, ..., n each of 1..n occurs once and nothing else occurs |
| `Dbcon.ZapDescending` | src/contrib/dbcon.py:110-117 | zapping positions j down to 1 removes j entries |
| `Dbcon.ZapDescendingRemovesInputs` | src/contrib/dbcon.py:109-117 | zapping from the highest raw position down leaves exactly the placeholder and the merged result |
| `Dbcon.ZapAscendingDiffers` | src/contrib/dbcon.py:109 | zapping the same positions in increasing order never leaves just the placeholder and the merged result, which is why the order is reversed |
| `Dbcon.SplitextRoot` | src/contrib/dbcon.py:165 | `os.path.splitext(p)[0]` is a prefix of p. It is shorter exactly when some '.' of the last path component follows more than dots, and then it stops at the last '.' of that component |
| `Dbcon.NoExtensionDot` | src/contrib/dbcon.py:165 | when the last '.' of the last component is missing or follows only dots, no '.' of that component starts an extension |
| `Dbcon.OutputName` | src/contrib/dbcon.py:165-169 | the name ends in `_dbcon.fits`; the stem is the root cut at its last '_' when that '_' is past position 0, and the whole root otherwise |
| `Dbcon.CountDownPositions` | src/contrib/dbcon.py:110-111 | the positions `j = kount+1-i` for i = 1..kount fall strictly from kount to 1 and are exactly the positions 1..kount |
| `Dbcon.MergeChainExtend` | src/contrib/dbcon.py:95-107 | one more DBCON call that reads the previous result and the next position keeps the merge chain |
| `Dbcon.LoadOne` | src/contrib/dbcon.py:63-76 | one file is appended; it is counted when the guard passes and zapped otherwise, with the catalog restored |
| `Dbcon.LoadFiles` | src/contrib/dbcon.py:61-76 | the catalog holds the placeholder followed by one entry per kept file, in load order, the first with sequence 1 |
| `Dbcon.MergeKeyFree` | src/contrib/dbcon.py:92 | before the first merge no entry is called (first name, DBCON) |
| `Dbcon.MergeNextSeq` | src/contrib/dbcon.py:104 | with the last result the only entry called (first name, DBCON), the next merge writes the sequence after it |
| `Dbcon.MergeOne` | src/contrib/dbcon.py:95-107 | iteration i reads DBCON sequence i-1 and position i, writes DBCON sequence i and zaps sequence i-1 |
| `Dbcon.MergeAccepted` | src/contrib/dbcon.py:78-107 | kount-1 DBCON calls form the merge chain; the intermediate results are zapped; the last result is DBCON sequence kount-1 at the end of the catalog |
| `Dbcon.ZapRawInputs` | src/contrib/dbcon.py:109-117 | the raw inputs are zapped from position kount down to 1, one by one, leaving the placeholder and the merged result |
| `Dbcon.SortAndExport` | src/contrib/dbcon.py:119-164 | UVSRT reads the merged (or single) entry; after the placeholder and the pre-sort entry are zapped, only the sorted entry is left for FITTP |
| `Dbcon.NamesSeparateSingle` | src/contrib/dbcon.py:78 | with one input file, no merge runs, so any class of that file meets the script's requirements once the placeholder's key differs from it |
| `Dbcon.Combine` | src/contrib/dbcon.py:41-175 | the whole script: the kept files, the merge chain, the zaps in order, the sort input, the single exported entry and the output name |
| `Imaging.GroupPipelines` | src/Imaging.py:66-71 | one key per distinct (window, start, end); each key's set holds the feeds of exactly the pipelines with that key |
| `Imaging.AddFeedStep` | src/Imaging.py:70-71 | adding one pipeline's feed keeps the grouping invariants |
| `Imaging.SetMin` | src/Imaging.py:88 | the least feed of a non-empty set |
| `Imaging.SortedFeeds` | src/Imaging.py:88 | `sorted` of a set has one element per feed |
| `Imaging.SortedFeedsMembers` | src/Imaging.py:88 | `sorted` of a set holds exactly the set's feeds |
| `Imaging.SortedFeedsAscending` | src/Imaging.py:88 | `sorted` of a set is strictly ascending |
| `Imaging.FeedStrings` | src/Imaging.py:88 | `map(str, sorted(feeds))` has one word per feed |
| `Imaging.FeedStringsOfFeeds` | src/Imaging.py:88 | the k-th string is `str` of the k-th feed in ascending order, and a feed is in the set exactly when its decimal form is among the strings |
| `Imaging.FeedPattern` | src/Imaging.py:92 | 'feed' + f + '_': its first four characters are 'feed', then the feed string, then '_' |
| `Imaging.Matching` | src/Imaging.py:91-93 | one feed's pass over the globbed files; `MatchingMember` and `MatchingCount` state what it keeps |
| `Imaging.FeedMajor` | src/Imaging.py:89-93 | the feed-major filtered list; `FeedMajorMember` and `FeedMajorCount` state what it holds |
| `Imaging.FilterByFeed` | src/Imaging.py:89-93 | the nested loops produce the feed-major list `FeedMajor` |
| `Imaging.MatchesSomeLast` | src/Imaging.py:90-92 | a file carries one of the feeds' markers exactly when it carries one of the earlier feeds' markers or the last feed's |
| `Imaging.MatchingMember` | src/Imaging.py:91-93 | one feed's pass keeps a file exactly when it was globbed and carries the marker |
| `Imaging.FeedMajorMember` | src/Imaging.py:88-93 | a file is selected exactly when it was globbed and carries the `feed<f>_` marker of one of the map's feeds |
| `Imaging.FeedMajorNeedsFeeds` | src/Imaging.py:90 | without feeds nothing is selected |
| `Imaging.MatchingCount` | src/Imaging.py:91-93 | one feed's pass keeps every copy of a matching file and none of the others |
| `Imaging.FeedMajorCount` | src/Imaging.py:88-93 | a file appears once for each of its copies and each feed whose marker it carries |
| `Imaging.ChannelArg` | src/Imaging.py:98-103 | `channels` stays unassigned exactly when no explicit range is given, the file has no channels and no earlier map assigned it; an explicit range wins; a file with channels and no explicit range gives `chanMin:chanMax`; otherwise the previous value is kept |
| `Imaging.ChannelArgReadsBack` | src/Imaging.py:101-103 | the default range reads back, on either side of ':', as the channel numbers chan_min and chan_max |
| `Imaging.TruncDiv` | src/Imaging.py:101-102 | Python's `int()` of a quotient truncates toward zero: for a >= 0 the result q >= 0 has q*b <= a < q*b + b, and for a < 0 the result q <= 0 has q*b - b < a <= q*b |
| `Imaging.ChanMin` | src/Imaging.py:101 | `int(nchans*.02)`: for nchans >= 0 the largest r >= 0 with 100*r <= 2*nchans, and toward zero for a negative count |
| `Imaging.ChanMax` | src/Imaging.py:102 | `int(nchans*.98)`: for nchans >= 0 the largest r >= 0 with 100*r <= 98*nchans, and toward zero for a negative count |
| `Imaging.ChanRangeInBand` | src/Imaging.py:101-102 | the 2% and 98% channels lie in the band, in order; with at least 50 channels they lie strictly inside it |
| `Imaging.SwitchFlag` | src/Imaging.py:108-111 | a switch becomes '1' exactly when it is on, and '0' otherwise |
| `Imaging.ValueFlag` | src/Imaging.py:113-121 | a value becomes '0' exactly when it is zero, and `str(value)` otherwise |
| `Imaging.Step1Head` | src/Imaging.py:128-132 | the step-1 line has eleven fixed fields before the file names |
| `Imaging.ScanRange` | src/Imaging.py:82 | `str(start) + '_' + str(end)`; `ScanRangeReadsBack` states what it means |
| `Imaging.ScanRangeReadsBack` | src/Imaging.py:82 | the scan range reads back, on either side of '_', as the map's first and last scan |
| `Imaging.UserArg` | src/Imaging.py:152 | the `-u=_<start>_<end>` argument; `UserArgIsScanRange` states what it means |
| `Imaging.UserArgIsScanRange` | src/Imaging.py:152 | the step-2 argument is one word: '-u=' and '_' before the scan range of line 82 |
| `Imaging.Step1Line` | src/Imaging.py:106-133 | the step-1 command line; `Step1Arguments` states what Popen receives from it |
| `Imaging.Step2Line` | src/Imaging.py:151-152 | the step-2 command line; `Step2Arguments` states what Popen receives from it |
| `Imaging.Step1HeadWords` | src/Imaging.py:128-132 | the fixed step-1 fields are single words when the paths and the channel range are |
| `Imaging.Step1Arguments` | src/Imaging.py:128-137 | splitting the step-1 line gives the eleven fixed arguments followed by the selected files in order |
| `Imaging.Step2Arguments` | src/Imaging.py:151-155 | splitting the step-2 line gives doImage, the map script, the AIPS number and '-u=_' with the scan range |
| `Imaging.MapChannels` | src/Imaging.py:95-103 | the channel range one map settles on; `MapChannelsSettles` states when it has one |
| `Imaging.MapChannelsSettles` | src/Imaging.py:95-103 | a map settles on a range only when it has a first file that can be read, and then on the command-line range whenever one is given |
| `Imaging.MapCommands` | src/Imaging.py:105-152 | one map's two command lines; `PlanMapCommands` states what Popen receives |
| `Imaging.PlanMap` | src/Imaging.py:73-152 | one map's outcome; `PlanMapStops` states when it stops |
| `Imaging.PlanMapStops` | src/Imaging.py:88-103 | a map issues its commands exactly when it settles on a channel range; otherwise it fails on a missing file, then on an unreadable one, then on `channels` never being assigned |
| `Imaging.ProcessMap` | src/Imaging.py:75-152 | one map's processing gives the step defined by `PlanMap` |
| `Imaging.RunStep` | src/Imaging.py:73-152 | one map's step advances the account of the run |
| `Imaging.VisitMap` | src/Imaging.py:73-152 | one pass of the outer loop keeps the account of the run |
| `Imaging.Run` | src/Imaging.py:66-155 | the grouping is exact, and the commands issued and the failure are those of the reference `RunFrom` |
| `Imaging.RunFrom` | src/Imaging.py:73-152 | the maps processed in turn with `channels` carried from one to the next; `RunIssuesPerMap`, `RunIssuedAt` and `ExplicitChannelsNeverUnassigned` state what it issues |
| `Imaging.RunIssuesPerMap` | src/Imaging.py:73 | a run issues at most one command pair per map, and one per map exactly when no map fails |
| `Imaging.ExplicitChannelsNeverUnassigned` | src/Imaging.py:95-99 | with an explicit channel range a run stops only at a map with no file or an unreadable first file |
| `Imaging.ChannelArgWord` | src/Imaging.py:98-103 | the channel range is one word when the command-line one has no whitespace |
| `Imaging.MapChannelsWord` | src/Imaging.py:95-103 | every map settles on a one-word channel range |
| `Imaging.PlanMapCommands` | src/Imaging.py:128-152 | an issued map's two lines split into its argument lists, with the command-line range when one is given |
| `Imaging.RunIssuedAt` | src/Imaging.py:73-152 | the t-th command pair of a run is map t's, for the channel range the earlier maps left |
| `Imaging.ChannelsAtWord` | src/Imaging.py:98-103 | every channel range the run carries from map to map is one word |
| `Imaging.RunCommandsPerMap` | src/Imaging.py:73-155 | every command pair a run issues splits into its map's argument lists, with the command-line range when one is given |
| `Strings.NatToStr` | src/Imaging.py:82 | `str(n)` is a non-empty run of decimal digits with no leading zero |
| `Strings.NatToStrReadsBack` | src/Imaging.py:82 | the digits of `str(n)` read back as n |
| `Strings.IntToStr` | src/Imaging.py:82 | `str(i)` is one word of digits and '-', and it is "0" exactly for zero |
| `Strings.IntToStrReadsBack` | src/Imaging.py:82 | `str(i)` is the digits of \|i\|, after '-' when i is negative, and `int()` reads it back as i |
| `Strings.IntToStrInjective` | src/Imaging.py:88 | distinct integers print differently |
| `Strings.IntPairReadsBack` | src/Imaging.py:82 | two numbers joined by a separator that is neither '-' nor a digit read back as those numbers on either side of it |
| `Strings.SplitAtSeparator` | src/Imaging.py:103 | a string joined around a separator it does not contain splits back into its two halves at the first separator |
| `Strings.Split` | src/Imaging.py:137 | `str.split()` gives only words |
| `Strings.RFind` | src/contrib/dbcon.py:166 | `rfind` gives -1 exactly when the character is absent, and otherwise its last position |
| `Strings.RFindLast` | src/contrib/dbcon.py:165-166 | no position after the one `rfind` returns holds the character |
| `Strings.Join` | src/Imaging.py:128-133 | `sep.join(xs)` is empty for no elements and otherwise begins with the first |
| `Strings.ContainsIff` | src/Imaging.py:92 | `sub in s` holds exactly when sub occurs at some position of s |
| `Strings.SplitJoin` | src/Imaging.py:137 | splitting a space-joined list of words gives the list back |
| `Strings.JoinFlatten` | src/Imaging.py:106 | joining a list after the joined file names equals joining the whole list |
| `Strings.JoinIsWord` | src/Imaging.py:129 | words joined by a separator without whitespace form one word |

## Left out

- The usage message and `quit()` of `dbcon.py` when there are fewer than two arguments (lines 31-39), and every `print` and `log.doMessage`.
- The AIPS user number and the disk choice (`mydisk`, `baddisk`) of `dbcon.py`: one work disk is modelled, and what the tasks compute on the data is not.
- The header values read at lines 121-131. Line 133 prints some of them (raDeg, decDeg, imxSize, imySize, cellsize); nChan, refChan, nuRef and dNu are never used. None of them affects the catalog. The entry they are read from (line 120) is modelled: it is the entry zapped at line 158.
- Dbcon.Combine requires, when two or more files are kept, that no kept file is called (first file's name, DBCON) and that the placeholder is not either. That is the key DBCON writes. A single kept file may have any class, since no merge runs (`NamesSeparateSingle`). With two or more kept files and such a file the first merge writes a sequence above that file's instead of 1. Line 99 then names DBCON sequence i - 1, which is that raw file or no entry at all, and line 106 zaps the raw file or fails. With exactly two kept files, line 154 names DBCON sequence 1 in the same way. The script then zaps or sorts the wrong entry, or a task fails, and `Dbcon.MergeOne` and `Dbcon.MergeAccepted` carry the same precondition.
- A failing AIPS task: any of `uvlod.go()` (line 67), `mandl.go()` (line 58), `dbcon.go()` (lines 92, 104), `uvsrt.go()` (line 155) and `fittp.go()` (line 175) can fail. A failure aborts the script with the catalog half-built. `AipsCatalog.Catalog.Create` models only a task that succeeds.
- Dbcon.Accepts compares exact real frequencies, while line 72 subtracts doubles. By Sterbenz's lemma, the subtraction of two doubles of the same sign within a factor of two of each other is exact, so for such frequencies the guard decides as the model does. Other inputs can round differently, and that is not modelled.
- Which slot AIPS fills: an output is modelled as appended at the end of the catalog, with sequence one above the highest of its name and class. The placeholder image made by MANDL is an entry of its own name and class.
- Deleting an existing output file (lines 170-172) and the FITTP write itself: file system effects.
- The existence checks on the imaging scripts and `sys.exit` (`src/Imaging.py:59-64`): the tool paths are inputs.
- The globbing of `src/Imaging.py:84-85`: the files found for each map are an input (`Environment.globbed`). The FITS header read of lines 95-97 is an input too (`Environment.nchans`); a first file not listed there stands for one fitsio cannot read.
- The dictionary iteration order of line 73 is an input (`order`), constrained to list each map once. `os.getuid()` is an input (`Environment.uid`).
- Imaging.ChanMin and Imaging.ChanMax compute `int(nchans*.02)` and `int(nchans*.98)` on exact rationals, not on doubles. The floating-point rounding of `.02` and `.98` is not modelled.
- The subprocesses and their output: the model yields the two command lines per map, then proves what they split into. The failure handling of `p.communicate()` (lines 139-143) is not modelled.
- The `NameError` of a first map with no explicit range and no channels is modelled as the error `ChannelsUnassigned`. An `IndexError` from a map with no selected file is modelled as `NoImageFiles`.
- Imaging.Step1Arguments states the split step-1 list only when the tool paths, the AIPS number, the feeds, the channel range and the file names contain no whitespace. Otherwise `split()` breaks them, and the model states nothing about that line.
- Imaging.Step2Arguments states the split step-2 list only when the doImage and map-script paths and the AIPS number contain no whitespace.
- Imaging.PlanMapCommands states an issued map's argument lists only when the tool paths and the map's globbed files contain no whitespace (`WordPaths`), the command-line range has none (`NoSpace(cl.channels)`) and the previous range is one word.
- Imaging.RunCommandsPerMap states every issued pair's argument lists only under `WordPaths` for all maps and `NoSpace(cl.channels)`. A path or range with whitespace makes `split()` break it, and nothing is stated about such a run.
- Feeds are integers, so `map(str, sorted(...))` sorts numbers. Python 2's `map` returns a list, which lets `feeds` be used twice.
- The numeric command-line options (`average`, `verbose`, the two idlToSdfits values) are modelled as integers, and `channels` as a string. A float option's `str()` form is not modelled.

## Findings

| source | as written | input that shows it | evidently intended | confidence | as-written member | corrected member |
|---|---|---|---|---|---|---|
| src/contrib/dbcon.py:95-102 | iteration i of `for i in range(2, kount)` gives DBCON catalog position i as its second input | three kept files: the merges read positions 1 and 2, then 2 again, and position 3 is zapped at line 117 without being merged | iteration i reads position i + 1, so every kept input 1..kount is merged exactly once ("keep adding in one", line 94) | not executed | `Dbcon.RawPositionsReadAsWritten` | `Dbcon.IntendedPositionsReadEachOnce` |

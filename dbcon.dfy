/** The dbcon script: load every spectra file into a cleared AIPS catalog
    behind a placeholder image, drop files whose reference frequency is more
    than 1e5 Hz away from the first file's, fold the kept ones together with
    DBCON, delete the raw inputs, sort the merged data with UVSRT and export
    the one entry that is left to <stem>_dbcon.fits. */
module Dbcon {
  import opened Strings
  import opened AipsCatalog
  import opened Wrappers

  /** One spectra file named on the command line, as uvlod loads it: its
      path, the name and class of the catalog entry uvlod writes for it, and
      its header's reference frequency crval[2] in Hz. */
  datatype SpectraFile = SpectraFile(path: string, name: string, klass: string, nu: real)

  /** The frequency tolerance, 1.E5 Hz. */
  const Tolerance: real := 100000.0

  /** The class DBCON gives its output. */
  const DbconClass: string := "DBCON"

  /** The class the script asks UVSRT to write. */
  const SortedClass: string := "UVSRT"

  /** The suffix of the exported file. */
  const OutSuffix: string := "_dbcon.fits"

  // ---------------------------------------------------------------- frequency guard

  /** The load loop keeps a file unless firstNu - nuRef lies below -1e5 or above 1e5. */
  function Accepts(firstNu: real, nuRef: real): (ok: bool)
    ensures ok <==> -Tolerance <= firstNu - nuRef <= Tolerance
  {
    !((firstNu - nuRef) < -Tolerance || (firstNu - nuRef) > Tolerance)
  }

  /** The files the load loop keeps, in load order, against reference firstNu. */
  function Kept(firstNu: real, fs: seq<SpectraFile>): (r: seq<SpectraFile>)
    decreases |fs|
    ensures |r| <= |fs|
  {
    if fs == [] then []
    else Kept(firstNu, fs[..|fs| - 1]) + (if Accepts(firstNu, fs[|fs| - 1].nu) then [fs[|fs| - 1]] else [])
  }

  /** A file is kept exactly when it is loaded and passes the guard. */
  lemma {:induction false} KeptIff(firstNu: real, fs: seq<SpectraFile>, f: SpectraFile)
    ensures f in Kept(firstNu, fs) <==> f in fs && Accepts(firstNu, f.nu)
    decreases |fs|
  {
    if fs != [] {
      assert fs == fs[..|fs| - 1] + [fs[|fs| - 1]];
      KeptIff(firstNu, fs[..|fs| - 1], f);
    }
  }

  /** The files that pass the guard: the first file sets the reference. */
  function Accepted(files: seq<SpectraFile>): seq<SpectraFile>
    requires |files| >= 1
  {
    Kept(files[0].nu, files)
  }

  /** When the first file passes the guard it is the first one kept. */
  lemma {:induction false} KeptStartsWithHead(firstNu: real, fs: seq<SpectraFile>)
    requires |fs| >= 1 && Accepts(firstNu, fs[0].nu)
    ensures |Kept(firstNu, fs)| >= 1 && Kept(firstNu, fs)[0] == fs[0]
    decreases |fs|
  {
    if |fs| > 1 {
      KeptStartsWithHead(firstNu, fs[..|fs| - 1]);
    }
  }

  /** The first file seeds the reference and is always kept, so at least one
      file survives the load loop and it is the first one. */
  lemma FirstFileAccepted(files: seq<SpectraFile>)
    requires |files| >= 1
    ensures |Accepted(files)| >= 1 && Accepted(files)[0] == files[0]
  {
    KeptStartsWithHead(files[0].nu, files);
  }

  // ---------------------------------------------------------------- merge plan

  /** The catalog position DBCON reads as its second input, merge by merge:
      position 2 in the first merge, position i in loop iteration i = 2..kount-1. */
  function In2Positions(kount: nat): (r: seq<nat>)
    ensures |r| == if kount < 2 then 0 else kount - 1
  {
    if kount < 2 then [] else seq(kount - 1, t => if t == 0 then 2 else t + 1)
  }

  /** Unfolding helper for the merge proofs: the t-th entry of
      In2Positions. What the positions mean is stated by
      RawPositionsReadAsWritten. */
  lemma In2PositionsAt(kount: nat, t: nat)
    requires kount >= 2 && t < kount - 1
    ensures |In2Positions(kount)| == kount - 1
    ensures In2Positions(kount)[t] == if t == 0 then 2 else t + 1
  {
  }

  /** Every raw-input position the merges read, in order: 1 and 2, then 2..kount-1. */
  function RawPositionsRead(kount: nat): seq<nat>
  {
    if kount < 2 then [] else [1] + In2Positions(kount)
  }

  /** What lines 94 and 105 describe: every merge after the first adds the
      next raw input, so call t reads position t + 2. */
  function IntendedIn2Positions(kount: nat): seq<nat>
  {
    if kount < 2 then [] else seq(kount - 1, t => t + 2)
  }

  /** The raw-input positions the intended merges read, in order. */
  function IntendedRawPositionsRead(kount: nat): seq<nat>
  {
    if kount < 2 then [] else [1] + IntendedIn2Positions(kount)
  }

  /** The positions 1, 2, ..., n. */
  function Ascending(n: nat): (r: seq<nat>)
    ensures |r| == n
  {
    seq(n, t => t + 1)
  }

  /** In 1, 2, ..., n each of 1..n occurs once and nothing else occurs. */
  lemma {:induction false} AscendingCount(n: nat, p: int)
    ensures multiset(Ascending(n))[p] == if 1 <= p <= n then 1 else 0
    decreases n
  {
    if n > 0 {
      assert Ascending(n) == Ascending(n - 1) + [n];
      AscendingCount(n - 1, p);
    }
  }

  /** The intended merges read each kept position 1..kount exactly once and
      nothing else; on two files they agree with the script as written. */
  lemma IntendedPositionsReadEachOnce(kount: nat)
    requires kount >= 2
    ensures forall p :: multiset(IntendedRawPositionsRead(kount))[p] == if 1 <= p <= kount then 1 else 0
    ensures kount == 2 ==> IntendedRawPositionsRead(kount) == RawPositionsRead(kount)
  {
    assert IntendedRawPositionsRead(kount) == Ascending(kount);
    forall p ensures multiset(Ascending(kount))[p] == if 1 <= p <= kount then 1 else 0 {
      AscendingCount(kount, p);
    }
  }

  /** As written, the merges read position 2 twice and never read position
      kount once three or more files are kept; every other kept position is
      read once. */
  lemma RawPositionsReadAsWritten(kount: nat)
    requires kount >= 3
    ensures multiset(RawPositionsRead(kount))[2] == 2
    ensures kount !in RawPositionsRead(kount)
    ensures forall p :: 1 <= p < kount ==> p in RawPositionsRead(kount)
    ensures forall p :: p in RawPositionsRead(kount) ==> 1 <= p < kount
  {
    var tail := seq(kount - 3, t => t + 3);
    assert In2Positions(kount) == [2, 2] + tail;
    var r := RawPositionsRead(kount);
    assert r == [1, 2, 2] + tail;
    assert forall k :: 0 <= k < |tail| ==> tail[k] >= 3;
    assert multiset(tail)[2] == 0;
    assert multiset(r) == multiset([1, 2, 2]) + multiset(tail);
    forall p | 3 <= p < kount ensures p in r {
      assert tail[p - 3] == p;
      assert r[p] == p;
    }
  }

  // ---------------------------------------------------------------- deleting the raw inputs

  /** Zap position j, then j-1, ..., down to 1, of catalog s. */
  function ZapDescending(s: seq<Entry>, j: nat): (r: seq<Entry>)
    requires j < |s|
    decreases j
    ensures |r| == |s| - j
  {
    if j == 0 then s else ZapDescending(RemoveAt(s, j), j - 1)
  }

  /** Zap position j, then j+1, ..., up to last, of catalog s; None when a
      position is past the end of the shrinking catalog (Python's IndexError). */
  function ZapAscending(s: seq<Entry>, j: nat, last: nat): Option<seq<Entry>>
    decreases |s|
  {
    if j > last then Some(s)
    else if j >= |s| then None
    else ZapAscending(RemoveAt(s, j), j + 1, last)
  }

  /** Zapping positions j down to 1 of [p] + raw[..j] + [d] leaves [p, d]. */
  lemma {:induction false} ZapDescendingPrefix(p: Entry, raw: seq<Entry>, d: Entry, j: nat)
    requires j <= |raw|
    ensures ZapDescending([p] + raw[..j] + [d], j) == [p, d]
    decreases j
  {
    if j == 0 {
      assert [p] + raw[..0] + [d] == [p, d];
    } else {
      var s := [p] + raw[..j] + [d];
      assert RemoveAt(s, j) == [p] + raw[..j - 1] + [d];
      ZapDescendingPrefix(p, raw, d, j - 1);
    }
  }

  /** Zapping positions kount, kount-1, ..., 1 of [placeholder] + raw inputs +
      [merged result] removes exactly the raw inputs. */
  lemma ZapDescendingRemovesInputs(p: Entry, raw: seq<Entry>, d: Entry)
    ensures ZapDescending([p] + raw + [d], |raw|) == [p, d]
  {
    assert raw[..|raw|] == raw;
    ZapDescendingPrefix(p, raw, d, |raw|);
  }

  /** Zapping upward from position 2 or higher never touches position 1. */
  lemma {:induction false} ZapAscendingKeepsSecond(s: seq<Entry>, j: nat, last: nat)
    requires j >= 2 && |s| >= 2
    ensures ZapAscending(s, j, last).Some? ==>
      |ZapAscending(s, j, last).value| >= 2 && ZapAscending(s, j, last).value[1] == s[1]
    decreases |s|
  {
    if j > last || j >= |s| {
    } else {
      ZapAscendingKeepsSecond(RemoveAt(s, j), j + 1, last);
    }
  }

  /** Zapping the same positions in increasing order fails: with two or more
      raw inputs the shrinking catalog either runs out of positions or keeps
      the second raw input, so it never ends as [placeholder, merged]. */
  lemma ZapAscendingDiffers(p: Entry, raw: seq<Entry>, d: Entry)
    requires |raw| >= 2
    requires Distinct([p] + raw + [d])
    ensures ZapAscending([p] + raw + [d], 1, |raw|) != Some([p, d])
  {
    var s := [p] + raw + [d];
    var s1 := RemoveAt(s, 1);
    assert s1[1] == raw[1];
    var s2 := RemoveAt(s1, 2);
    assert s2[1] == raw[1];
    assert ZapAscending(s, 1, |raw|) == ZapAscending(s1, 2, |raw|) == ZapAscending(s2, 3, |raw|);
    ZapAscendingKeepsSecond(s2, 3, |raw|);
    assert s[2] == raw[1] && s[|s| - 1] == d;
  }

  // ---------------------------------------------------------------- output file name

  predicate AllDots(s: string) {
    forall i :: 0 <= i < |s| ==> s[i] == '.'
  }

  /** Position i of p is a '.' in the last path component with something
      other than dots before it in that component: an extension starts there. */
  predicate ExtensionDot(p: string, i: int) {
    RFind(p, '/') < i < |p| && p[i] == '.' && !AllDots(p[RFind(p, '/') + 1..i])
  }

  /** When splitext keeps p whole, no position of p starts an extension:
      only the last '.' can, and only dots precede it in its component. */
  lemma NoExtensionDot(p: string)
    requires var sepIndex, dotIndex := RFind(p, '/'), RFind(p, '.');
      !(dotIndex > sepIndex && !AllDots(p[sepIndex + 1..dotIndex]))
    ensures forall i :: !ExtensionDot(p, i)
  {
    var sepIndex, dotIndex := RFind(p, '/'), RFind(p, '.');
    RFindLast(p, '.');
    if dotIndex > sepIndex {
      forall i | sepIndex < i < |p| && p[i] == '.' ensures AllDots(p[sepIndex + 1..i]) {
        assert i <= dotIndex;
        assert p[sepIndex + 1..i] == p[sepIndex + 1..dotIndex][..i - sepIndex - 1];
      }
    } else {
      assert forall i :: sepIndex < i < |p| ==> p[i] != '.';
    }
  }

  /** os.path.splitext(p)[0] on POSIX: p without the extension that starts at
      the last '.' of the last path component, unless only dots precede that
      '.' within the component. */
  function SplitextRoot(p: string): (root: string)
    ensures root <= p
    ensures root != p ==>
      && p[|root|] == '.'
      && '/' !in p[|root|..]
      && '.' !in p[|root| + 1..]
      && !AllDots(p[RFind(p, '/') + 1..|root|])
    ensures root == p <==> forall i :: !ExtensionDot(p, i)
  {
    var sepIndex := RFind(p, '/');
    var dotIndex := RFind(p, '.');
    if dotIndex > sepIndex && !AllDots(p[sepIndex + 1..dotIndex]) then
      NoSlashAfter(p, sepIndex, dotIndex);
      var root := p[..dotIndex];
      assert |root| == dotIndex && p[|root|] == '.';
      assert '.' !in p[|root| + 1..];
      assert p[RFind(p, '/') + 1..|root|] == p[sepIndex + 1..dotIndex];
      assert ExtensionDot(p, dotIndex);
      root
    else
      NoExtensionDot(p);
      p
  }

  /** Past the last '/' of p there is no '/'. */
  lemma NoSlashAfter(p: string, sepIndex: int, from: int)
    requires sepIndex == RFind(p, '/') && sepIndex < from <= |p|
    ensures '/' !in p[from..]
  {
    if sepIndex == -1 {
      forall k | 0 <= k < |p| - from ensures p[from..][k] != '/' {
        assert p[k + from] in p;
      }
    } else {
      forall k | 0 <= k < |p| - from ensures p[from..][k] != '/' {
        assert p[k + from] == p[sepIndex + 1..][k + from - sepIndex - 1];
      }
    }
  }

  /** Lines 165-169: the stem of the first file, cut before its last '_' when
      that '_' is past position 0, followed by "_dbcon.fits". */
  function OutputName(firstFile: string): (out: string)
    ensures |out| >= |OutSuffix| && out[|out| - |OutSuffix|..] == OutSuffix
    ensures var root, base := SplitextRoot(firstFile), out[..|out| - |OutSuffix|];
      && base <= root
      && (base == root <==> (|root| == 0 || '_' !in root[1..]))
      && (base != root ==> |base| > 0 && root[|base|] == '_' && '_' !in root[|base| + 1..])
  {
    var outName := SplitextRoot(firstFile);
    var iUnder := RFind(outName, '_');
    var stem := if iUnder > 0 then outName[..iUnder] else outName;
    assert (stem + OutSuffix)[..|stem|] == stem;
    assert iUnder <= 0 && |outName| > 0 ==> '_' !in outName[1..] by {
      if iUnder == 0 {
        assert outName[1..] == outName[iUnder + 1..];
      } else if iUnder == -1 && |outName| > 0 {
        assert forall k :: 0 <= k < |outName| - 1 ==> outName[1..][k] == outName[k + 1];
      }
    }
    assert iUnder > 0 ==> '_' in outName[1..] by {
      if iUnder > 0 {
        assert outName[1..][iUnder - 1] == '_';
      }
    }
    stem + OutSuffix
  }

  // ---------------------------------------------------------------- the script

  /** One DBCON call: its two inputs, the catalog position the second was
      read from, and the entry it wrote. */
  datatype Merge = Merge(in1: Entry, in2Pos: nat, in2: Entry, out: Entry)

  /** What a run of the script did to the catalog. */
  datatype Trace = Trace(
    kount: nat,                  // files that passed the guard
    loaded: seq<Entry>,          // their catalog entries, in load order
    merges: seq<Merge>,          // DBCON calls, in order
    dbconZapped: seq<Entry>,     // intermediate DBCON results zapped in the merge loop
    rawZapPositions: seq<nat>,   // positions zapped to remove the raw inputs
    rawZapped: seq<Entry>,       // the entries found there
    sortInput: Entry,            // the entry UVSRT reads
    exported: Entry,             // the entry FITTP writes out
    outName: string)             // the file it is written to

  /** The positions n, n-1, ..., 1. The ensures only unfold the definition
      for the zap loop; CountDownPositions states what the sequence is. */
  function CountDown(n: nat): (r: seq<nat>)
    ensures |r| == n
    ensures forall t :: 0 <= t < n ==> r[t] == n - t
  {
    seq(n, t => n - t)
  }

  /** n, n-1, ..., 1 falls strictly from n to 1 and holds exactly the positions 1..n. */
  lemma CountDownPositions(n: nat)
    ensures forall i, j :: 0 <= i < j < n ==> CountDown(n)[i] > CountDown(n)[j]
    ensures n >= 1 ==> CountDown(n)[0] == n && CountDown(n)[n - 1] == 1
    ensures forall p :: p in CountDown(n) <==> 1 <= p <= n
  {
    var r := CountDown(n);
    forall p | 1 <= p <= n ensures p in r {
      assert r[n - p] == p;
    }
  }

  /** The keys the script relies on being free: the placeholder's key
      differs from the first file's, and when two or more files are kept, so
      that DBCON runs, no kept file and not the placeholder is called (first
      file's name, DBCON), the key DBCON writes. */
  predicate NamesSeparate(files: seq<SpectraFile>, mandlName: string, mandlClass: string) {
    |files| > 0 ==>
      && (|Accepted(files)| >= 2 ==>
            && (forall k :: 0 <= k < |Accepted(files)| ==>
                  !(Accepted(files)[k].name == files[0].name && Accepted(files)[k].klass == DbconClass))
            && !(mandlName == files[0].name && mandlClass == DbconClass))
      && !(mandlName == files[0].name && mandlClass == files[0].klass)
  }

  /** A single input file of any class, DBCON included, meets the script's
      requirements once the placeholder's key differs from its own. */
  lemma NamesSeparateSingle(f: SpectraFile, mandlName: string, mandlClass: string)
    requires !(mandlName == f.name && mandlClass == f.klass)
    ensures NamesSeparate([f], mandlName, mandlClass)
  {
    assert |Accepted([f])| <= 1;
  }

  /** Before the first merge the key DBCON writes is taken by no entry. */
  lemma MergeKeyFree(placeholder: Entry, loaded: seq<Entry>)
    requires |loaded| >= 1
    requires !(placeholder.name == loaded[0].name && placeholder.klass == DbconClass)
    requires forall k :: 0 <= k < |loaded| ==> !(loaded[k].name == loaded[0].name && loaded[k].klass == DbconClass)
    ensures var s := [placeholder] + loaded;
      forall j :: 0 <= j < |s| ==> !(s[j].name == loaded[0].name && s[j].klass == DbconClass)
  {
    var s := [placeholder] + loaded;
    assert forall j :: 1 <= j < |s| ==> s[j] == loaded[j - 1];
  }

  /** When the last merge result d is the only entry called (first name,
      DBCON), the next merge writes the sequence after d's. */
  lemma MergeNextSeq(placeholder: Entry, loaded: seq<Entry>, d: Entry)
    requires |loaded| >= 1 && d.name == loaded[0].name && d.klass == DbconClass && d.seqNo >= 1
    requires !(placeholder.name == loaded[0].name && placeholder.klass == DbconClass)
    requires forall k :: 0 <= k < |loaded| ==> !(loaded[k].name == loaded[0].name && loaded[k].klass == DbconClass)
    ensures NextSeq([placeholder] + loaded + [d], d.name, DbconClass) == d.seqNo + 1
  {
    var s := [placeholder] + loaded + [d];
    MergeKeyFree(placeholder, loaded);
    assert forall j :: 0 <= j < |s| - 1 ==> s[j] == ([placeholder] + loaded)[j];
    NextSeqAfterSingle(s, |s| - 1, d.name, DbconClass);
  }

  /** The entries `loaded` stand for the kept files `kept`, position by position. */
  predicate LoadedFrom(loaded: seq<Entry>, kept: seq<SpectraFile>) {
    |loaded| == |kept| &&
    forall k :: 0 <= k < |loaded| ==> loaded[k].name == kept[k].name && loaded[k].klass == kept[k].klass
  }

  /** The DBCON calls fold the loaded entries as the script does: the first
      reads positions 1 and 2, call t > 0 reads the previous result and
      position In2Positions(|loaded|)[t]; call t writes DBCON sequence t + 1
      under the first entry's name. */
  predicate MergeChain(merges: seq<Merge>, loaded: seq<Entry>) {
    && |loaded| >= 1
    && (|merges| > 0 ==> merges[0].in1 == loaded[0])
    && |merges| <= |In2Positions(|loaded|)|
    && (forall t :: 0 <= t < |merges| ==>
      && merges[t].in2Pos == In2Positions(|loaded|)[t]
      && 1 <= merges[t].in2Pos <= |loaded|
      && merges[t].in2 == loaded[merges[t].in2Pos - 1]
      && merges[t].out == Entry(loaded[0].name, DbconClass, t + 1))
    && (forall t :: 1 <= t < |merges| ==> merges[t].in1 == merges[t - 1].out)
  }

  lemma MergeChainExtend(merges: seq<Merge>, loaded: seq<Entry>, m: Merge)
    requires MergeChain(merges, loaded) && 1 <= |merges| < |loaded| - 1
    requires m.in1 == merges[|merges| - 1].out
    requires m.in2Pos == |merges| + 1 && m.in2 == loaded[|merges|]
    requires m.out == Entry(loaded[0].name, DbconClass, |merges| + 1)
    ensures MergeChain(merges + [m], loaded)
  {
    In2PositionsAt(|loaded|, |merges|);
    var ms := merges + [m];
    forall t | 0 <= t < |ms|
      ensures && ms[t].in2Pos == In2Positions(|loaded|)[t]
              && 1 <= ms[t].in2Pos <= |loaded|
              && ms[t].in2 == loaded[ms[t].in2Pos - 1]
              && ms[t].out == Entry(loaded[0].name, DbconClass, t + 1)
    {
      if t < |merges| {
        assert ms[t] == merges[t];
      }
    }
  }

  /** The intermediate results zapped are the outputs of every merge but the last, in order. */
  predicate ZappedIntermediates(dbconZapped: seq<Entry>, merges: seq<Merge>) {
    && |dbconZapped| == (if |merges| > 0 then |merges| - 1 else 0)
    && forall t :: 0 <= t < |dbconZapped| ==> dbconZapped[t] == merges[t].out
  }

  /** The raw inputs are zapped from the highest position down. */
  predicate ZappedInReverse(positions: seq<nat>, zapped: seq<Entry>, loaded: seq<Entry>) {
    && positions == CountDown(|loaded|)
    && |zapped| == |loaded|
    && forall t :: 0 <= t < |zapped| ==> zapped[t] == loaded[|loaded| - 1 - t]
  }

  /** Lines 64-76, one file: uvlod appends an entry for it; the guard against
      firstNu (set from this file while nothing has been kept yet) either
      counts it or zaps that last entry. */
  method LoadOne(cat: Catalog, placeholder: Entry, loaded: seq<Entry>, kount: nat, firstNu: real, f: SpectraFile)
    returns (kount': nat, loaded': seq<Entry>, firstNu': real)
    requires cat.Valid() && cat.entries == [placeholder] + loaded && kount == |loaded|
    modifies cat
    ensures cat.Valid()
    ensures cat.entries == [placeholder] + loaded'
    ensures firstNu' == if kount == 0 then f.nu else firstNu
    ensures Accepts(firstNu', f.nu) ==>
      && kount' == kount + 1
      && loaded' == loaded + [Entry(f.name, f.klass, NextSeq(old(cat.entries), f.name, f.klass))]
    ensures !Accepts(firstNu', f.nu) ==> kount' == kount && loaded' == loaded
  {
    var e := cat.Create(f.name, f.klass);
    var spectra := cat.At(-1);
    var nuRef := f.nu;
    firstNu' := firstNu;
    if kount == 0 {
      firstNu' := nuRef;
    }
    if (firstNu' - nuRef) < -Tolerance || (firstNu' - nuRef) > Tolerance {
      IndexOfDistinct(cat.entries, |cat.entries| - 1);
      cat.Zap(spectra);
      assert cat.entries == [placeholder] + loaded;
      kount', loaded' := kount, loaded;
    } else {
      kount', loaded' := kount + 1, loaded + [e];
    }
  }

  /** Lines 61-76: load every file after the placeholder and keep the ones
      the guard accepts, in load order. */
  method LoadFiles(cat: Catalog, files: seq<SpectraFile>, placeholder: Entry)
    returns (kount: nat, loaded: seq<Entry>)
    requires |files| >= 1
    requires cat.Valid() && cat.entries == [placeholder]
    requires !(placeholder.name == files[0].name && placeholder.klass == files[0].klass)
    modifies cat
    ensures cat.Valid()
    ensures cat.entries == [placeholder] + loaded
    ensures kount == |loaded| && LoadedFrom(loaded, Accepted(files))
    ensures kount >= 1 && loaded[0].seqNo == 1
  {
    kount := 0;
    var firstNu: real := 0.0;
    loaded := [];
    var t := 0;
    while t < |files|
      invariant 0 <= t <= |files|
      invariant cat.Valid()
      invariant cat.entries == [placeholder] + loaded
      invariant t > 0 ==> firstNu == files[0].nu
      invariant kount == |loaded| && LoadedFrom(loaded, Kept(files[0].nu, files[..t]))
      invariant t > 0 ==> kount >= 1 && loaded[0].seqNo == 1
    {
      var f := files[t];
      ghost var keptBefore := Kept(files[0].nu, files[..t]);
      assert files[..t + 1][..t] == files[..t];
      assert Kept(files[0].nu, files[..t + 1])
        == keptBefore + (if Accepts(files[0].nu, f.nu) then [f] else []);
      if t == 0 {
        NextSeqFresh(cat.entries, f.name, f.klass);
      }
      kount, loaded, firstNu := LoadOne(cat, placeholder, loaded, kount, firstNu, f);
      t := t + 1;
    }
    assert files[..|files|] == files;
  }

  /** Lines 96-107, iteration i: DBCON reads DBCON sequence i-1 (the last
      entry) and position i, writes sequence i, and sequence i-1 is zapped. */
  method MergeOne(cat: Catalog, placeholder: Entry, loaded: seq<Entry>, d: Entry, i: nat)
    returns (m: Merge, stale: Entry, d': Entry)
    requires 2 <= i < |loaded|
    requires cat.Valid() && cat.entries == [placeholder] + loaded + [d]
    requires d == Entry(loaded[0].name, DbconClass, i - 1)
    requires !(placeholder.name == loaded[0].name && placeholder.klass == DbconClass)
    requires forall k :: 0 <= k < |loaded| ==> !(loaded[k].name == loaded[0].name && loaded[k].klass == DbconClass)
    modifies cat
    ensures cat.Valid()
    ensures cat.entries == [placeholder] + loaded + [d']
    ensures d' == Entry(loaded[0].name, DbconClass, i)
    ensures m == Merge(d, i, loaded[i - 1], d') && stale == d
  {
    var last := cat.At(-1);
    var prev := cat.Find(last.name, DbconClass, i - 1);
    var next := cat.At(i);
    MergeNextSeq(placeholder, loaded, d);
    d' := cat.Create(prev.name, DbconClass);
    m := Merge(prev, i, next, d');
    var newest := cat.At(-1);
    stale := Entry(newest.name, DbconClass, i - 1);
    ghost var before := cat.entries;
    IndexOfDistinct(before, |before| - 2);
    cat.Zap(stale);
    RemoveNextToLast([placeholder] + loaded, d, d');
  }

  /** Zapping the entry before the last keeps the others in order. */
  lemma RemoveNextToLast(a: seq<Entry>, x: Entry, y: Entry)
    ensures RemoveAt(a + [x] + [y], |a|) == a + [y]
  {
    var s := a + [x] + [y];
    assert s[..|a|] == a && s[|a| + 1..] == [y];
  }

  /** Lines 78-107: merge positions 1 and 2, then fold in one more input per
      iteration i = 2..kount-1, zapping the previous result each time. */
  method MergeAccepted(cat: Catalog, placeholder: Entry, loaded: seq<Entry>)
    returns (merges: seq<Merge>, dbconZapped: seq<Entry>, d: Entry)
    requires |loaded| >= 2
    requires cat.Valid() && cat.entries == [placeholder] + loaded
    requires !(placeholder.name == loaded[0].name && placeholder.klass == DbconClass)
    requires forall k :: 0 <= k < |loaded| ==> !(loaded[k].name == loaded[0].name && loaded[k].klass == DbconClass)
    modifies cat
    ensures cat.Valid()
    ensures cat.entries == [placeholder] + loaded + [d]
    ensures d == Entry(loaded[0].name, DbconClass, |loaded| - 1)
    ensures |merges| == |loaded| - 1 && merges[|merges| - 1].out == d
    ensures MergeChain(merges, loaded)
    ensures ZappedIntermediates(dbconZapped, merges)
  {
    var kount := |loaded|;
    // always do the first two
    var in1 := cat.At(1);
    var in2 := cat.At(2);
    NextSeqFresh(cat.entries, in1.name, DbconClass);
    d := cat.Create(in1.name, DbconClass);
    merges := [Merge(in1, 2, in2, d)];
    dbconZapped := [];
    In2PositionsAt(kount, 0);

    // and keep adding in one
    var i := 2;
    while i < kount
      invariant 2 <= i <= kount
      invariant cat.Valid()
      invariant cat.entries == [placeholder] + loaded + [d]
      invariant d == Entry(loaded[0].name, DbconClass, i - 1)
      invariant |merges| == i - 1 && merges[|merges| - 1].out == d
      invariant MergeChain(merges, loaded)
      invariant ZappedIntermediates(dbconZapped, merges)
    {
      var m, stale;
      m, stale, d := MergeOne(cat, placeholder, loaded, d, i);
      MergeChainExtend(merges, loaded, m);
      merges := merges + [m];
      dbconZapped := dbconZapped + [stale];
      i := i + 1;
    }
  }

  /** Lines 109-117: zap position j = kount, kount-1, ..., 1. */
  method ZapRawInputs(cat: Catalog, placeholder: Entry, loaded: seq<Entry>, d: Entry)
    returns (positions: seq<nat>, zapped: seq<Entry>)
    requires cat.Valid() && cat.entries == [placeholder] + loaded + [d]
    modifies cat
    ensures cat.Valid()
    ensures cat.entries == [placeholder, d]
    ensures cat.entries == ZapDescending(old(cat.entries), |loaded|)
    ensures ZappedInReverse(positions, zapped, loaded)
  {
    var kount := |loaded|;
    positions, zapped := [], [];
    var i := 1;
    while i < kount + 1
      invariant 1 <= i <= kount + 1
      invariant cat.Valid()
      invariant cat.entries == [placeholder] + loaded[..kount + 1 - i] + [d]
      invariant positions == CountDown(kount)[..i - 1]
      invariant |zapped| == i - 1
      invariant forall t :: 0 <= t < i - 1 ==> zapped[t] == loaded[kount - 1 - t]
    {
      var j := kount + 1 - i;
      var e := cat.At(j);
      IndexOfDistinct(cat.entries, j);
      cat.Zap(Entry(e.name, e.klass, e.seqNo));
      assert cat.entries == [placeholder] + loaded[..j - 1] + [d];
      assert CountDown(kount)[..i] == CountDown(kount)[..i - 1] + [j];
      positions := positions + [j];
      zapped := zapped + [e];
      i := i + 1;
    }
    assert positions == CountDown(kount);
    ZapDescendingRemovesInputs(placeholder, loaded, d);
  }

  /** Lines 119-164 after the merges: read the last entry, zap the
      placeholder, sort into class UVSRT, zap the pre-sort entry and read the
      one entry left for export. */
  method SortAndExport(cat: Catalog, placeholder: Entry, d: Entry, kount: nat)
    returns (sortInput: Entry, exported: Entry)
    requires cat.Valid() && cat.entries == [placeholder, d]
    requires kount < 2 ==> d.seqNo == kount
    requires kount >= 2 ==> d.klass == DbconClass && d.seqNo == kount - 1
    modifies cat
    ensures sortInput == d
    ensures exported.name == d.name && exported.klass == SortedClass
    ensures cat.entries == [exported]
  {
    // the merged (or single) data set
    var spectra := cat.At(-1);

    // free the placeholder's slot
    var image := cat.At(0);
    cat.Zap(image);
    assert cat.entries == [d];

    // sort
    var top := cat.At(-1);
    var inClass: string;
    var inSeq: int;
    if kount < 2 {
      inClass := top.klass;
      inSeq := kount;
    } else {
      inClass := DbconClass;
      inSeq := kount - 1;
    }
    sortInput := cat.Find(top.name, inClass, inSeq);
    var sorted := cat.Create(sortInput.name, SortedClass);

    // clean up the last input; what is left is written out
    IndexOfDistinct(cat.entries, 0);
    cat.Zap(spectra);
    assert cat.entries == [sorted];
    exported := cat.At(-1);
  }

  /** The script (lines 41-175) against catalog `cat`; mandlName and
      mandlClass name the placeholder image MANDL writes. */
  method Combine(cat: Catalog, files: seq<SpectraFile>, mandlName: string, mandlClass: string)
    returns (tr: Trace)
    requires |files| >= 1
    requires NamesSeparate(files, mandlName, mandlClass)
    modifies cat
    // frequency guard
    ensures tr.kount == |Accepted(files)| && tr.kount >= 1
    ensures LoadedFrom(tr.loaded, Accepted(files)) && Distinct(tr.loaded)
    ensures tr.loaded[0].seqNo == 1
    // merges
    ensures |tr.merges| == if tr.kount >= 2 then tr.kount - 1 else 0
    ensures MergeChain(tr.merges, tr.loaded)
    ensures ZappedIntermediates(tr.dbconZapped, tr.merges)
    // removing the raw inputs
    ensures tr.kount >= 2 ==> ZappedInReverse(tr.rawZapPositions, tr.rawZapped, tr.loaded)
    ensures tr.kount < 2 ==> tr.rawZapPositions == [] && tr.rawZapped == []
    // sort and export
    ensures tr.kount >= 2 ==> tr.sortInput == tr.merges[tr.kount - 2].out
    ensures tr.kount >= 2 ==> tr.sortInput.klass == DbconClass && tr.sortInput.seqNo == tr.kount - 1
    ensures tr.kount < 2 ==> tr.sortInput == tr.loaded[0] && tr.sortInput.seqNo == tr.kount
    ensures tr.exported.name == tr.sortInput.name && tr.exported.klass == SortedClass
    ensures cat.entries == [tr.exported]
    ensures tr.outName == OutputName(files[0].path)
  {
    cat.Clear();
    // a temporary image reserves the first slot
    var placeholder := cat.Create(mandlName, mandlClass);

    var kount, loaded := LoadFiles(cat, files, placeholder);
    assert Distinct(loaded) by {
      assert forall k :: 0 <= k < |loaded| ==> loaded[k] == cat.entries[k + 1];
    }
    FirstFileAccepted(files);
    assert loaded[0].name == files[0].name;

    var merges: seq<Merge> := [];
    var dbconZapped: seq<Entry> := [];
    var rawZapPositions: seq<nat> := [];
    var rawZapped: seq<Entry> := [];
    var d: Entry;
    if kount > 1 {
      merges, dbconZapped, d := MergeAccepted(cat, placeholder, loaded);
      rawZapPositions, rawZapped := ZapRawInputs(cat, placeholder, loaded, d);
    } else {
      d := loaded[0];
    }
    var sortInput, exported := SortAndExport(cat, placeholder, d, kount);
    var outName := OutputName(files[0].path);

    tr := Trace(kount, loaded, merges, dbconZapped, rawZapPositions, rawZapped, sortInput, exported, outName);
  }
}

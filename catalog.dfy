/** The AIPS catalog of one disk as the dbcon script sees it through
    AIPSCat()[disk]: a list of entries in slot order. Creating an entry
    appends it; zapping an entry removes it and the entries above it move
    down one position. */
module AipsCatalog {

  /** An entry is known by its name, class and sequence number; these three
      are also how an AIPS task or AIPSUVData(...) refers to it. */
  datatype Entry = Entry(name: string, klass: string, seqNo: int)

  /** No two entries of the catalog share a key. */
  predicate Distinct(s: seq<Entry>) {
    forall i, j :: 0 <= i < j < |s| ==> s[i] != s[j]
  }

  /** The highest sequence number among entries named `name` of class
      `klass`, or 0 when there is none. */
  function MaxSeq(s: seq<Entry>, name: string, klass: string): (m: int)
    decreases |s|
    ensures m >= 0
    ensures forall k :: 0 <= k < |s| && s[k].name == name && s[k].klass == klass ==> s[k].seqNo <= m
    ensures m > 0 ==> exists k :: 0 <= k < |s| && s[k].name == name && s[k].klass == klass && s[k].seqNo == m
  {
    if s == [] then 0
    else
      var rest := MaxSeq(s[1..], name, klass);
      assert forall k :: 1 <= k < |s| ==> s[k] == s[1..][k - 1];
      if s[0].name == name && s[0].klass == klass && s[0].seqNo > rest then s[0].seqNo else rest
  }

  /** The sequence number a task writing (name, klass) with the default
      output sequence 0 receives: one above the highest in use. */
  function NextSeq(s: seq<Entry>, name: string, klass: string): (n: int)
    ensures n >= 1
    ensures forall k :: 0 <= k < |s| && s[k].name == name && s[k].klass == klass ==> s[k].seqNo < n
  {
    MaxSeq(s, name, klass) + 1
  }

  /** The position of the first entry equal to e. */
  function IndexOf(s: seq<Entry>, e: Entry): (i: nat)
    requires e in s
    decreases |s|
    ensures i < |s| && s[i] == e
    ensures forall k :: 0 <= k < i ==> s[k] != e
  {
    if s[0] == e then 0 else 1 + IndexOf(s[1..], e)
  }

  /** s with position i taken out; the entries above i move down one. */
  function RemoveAt(s: seq<Entry>, i: nat): (r: seq<Entry>)
    requires i < |s|
    ensures |r| == |s| - 1
    ensures forall k :: 0 <= k < i ==> r[k] == s[k]
    ensures forall k :: i <= k < |r| ==> r[k] == s[k + 1]
  {
    s[..i] + s[i + 1..]
  }

  /** Python's list indexing: a negative position counts from the end, so
      the slot is the one position of the list congruent to i modulo its
      length, and a non-negative i is its own slot. */
  function PyIndex(n: nat, i: int): (k: nat)
    requires -(n as int) <= i < n
    ensures k < n
    ensures (k as int - i) % (n as int) == 0
    ensures i >= 0 ==> k == i
    ensures i < 0 ==> k == n + i
  {
    if i < 0 then n + i else i
  }

  /** In a catalog without repeated keys the key of position i is found at i. */
  lemma IndexOfDistinct(s: seq<Entry>, i: nat)
    requires Distinct(s) && i < |s|
    ensures IndexOf(s, s[i]) == i
  {
  }

  /** One entry of a catalog whose sequence numbers are all positive is the
      only entry called (name, klass): the next such entry gets its number plus one. */
  lemma NextSeqAfterSingle(s: seq<Entry>, k: nat, name: string, klass: string)
    requires k < |s| && s[k].name == name && s[k].klass == klass && s[k].seqNo >= 1
    requires forall j :: 0 <= j < |s| && j != k ==> !(s[j].name == name && s[j].klass == klass)
    ensures NextSeq(s, name, klass) == s[k].seqNo + 1
  {
  }

  /** A sequence with no entry called (name, klass) gives that key sequence 1. */
  lemma NextSeqFresh(s: seq<Entry>, name: string, klass: string)
    requires forall j :: 0 <= j < |s| ==> !(s[j].name == name && s[j].klass == klass)
    ensures NextSeq(s, name, klass) == 1
  {
  }

  class Catalog {
    /** The entries of the working disk, in slot order. */
    var entries: seq<Entry>

    /** Keys are unique and every sequence number is positive. */
    ghost predicate Valid()
      reads this
    {
      Distinct(entries) && forall k :: 0 <= k < |entries| ==> entries[k].seqNo >= 1
    }

    constructor ()
      ensures Valid() && entries == []
    {
      entries := [];
    }

    /** AIPSCat().zap(): empty the catalog. */
    method Clear()
      modifies this
      ensures Valid() && entries == []
    {
      entries := [];
    }

    /** The catalog effect of a task (uvlod, mandl, dbcon, uvsrt) that writes a
        new entry (name, klass) with default output sequence: it is appended. */
    method Create(name: string, klass: string) returns (e: Entry)
      requires Valid()
      modifies this
      ensures Valid()
      ensures e == Entry(name, klass, NextSeq(old(entries), name, klass))
      ensures entries == old(entries) + [e]
    {
      e := Entry(name, klass, NextSeq(entries, name, klass));
      entries := entries + [e];
    }

    /** AIPSCat()[disk][i]; Python raises IndexError outside the range. */
    method At(i: int) returns (e: Entry)
      requires -|entries| <= i < |entries|
      ensures e == entries[PyIndex(|entries|, i)]
      ensures e in entries
    {
      e := entries[if i < 0 then |entries| + i else i];
    }

    /** A task input given as (name, klass, seq); AIPS fails when no such entry exists. */
    method Find(name: string, klass: string, seqNo: int) returns (e: Entry)
      requires Entry(name, klass, seqNo) in entries
      ensures e in entries
      ensures e.name == name && e.klass == klass && e.seqNo == seqNo
    {
      e := Entry(name, klass, seqNo);
    }

    /** AIPSUVData(name, klass, disk, seq).zap(): that entry leaves the catalog
        and the entries above it move down one position. */
    method Zap(e: Entry)
      requires Valid()
      requires e in entries
      modifies this
      ensures Valid()
      ensures entries == RemoveAt(old(entries), IndexOf(old(entries), e))
      ensures e !in entries
    {
      var i := IndexOf(entries, e);
      var before := entries;
      entries := RemoveAt(entries, i);
      forall k | 0 <= k < |entries| ensures entries[k] != e {
        if k < i {
        } else {
          assert entries[k] == before[k + 1];
        }
      }
    }
  }
}

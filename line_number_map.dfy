/**
 * The map from lines of a concatenated shader source back to the file and
 * line each came from (`render/shader/LineNumberMap.java`). Entries are
 * ordered and compared by their global line alone, so the builder's
 * `TreeSet` holds at most one entry per global line, and the built map is
 * that set as an ascending array searched with `Arrays.binarySearch`.
 */
module LineNumberMaps {
  import opened Base

  /** Global line `globalLine` of the concatenated source is line `localLine` of `fileName`. */
  datatype Entry = Entry(localLine: int, globalLine: int, fileName: string)

  /** Strictly ascending by global line: the order of the `TreeSet` and of the array `build()` returns. */
  predicate Ascending(es: seq<Entry>) {
    forall i, j :: 0 <= i < j < |es| ==> es[i].globalLine < es[j].globalLine
  }

  /** Every entry has a global line below `g`. */
  predicate AllBelow(es: seq<Entry>, g: int) {
    forall i :: 0 <= i < |es| ==> es[i].globalLine < g
  }

  /** `entries.remove(entry)`: drops the entry equal to one with global line `g`, if there is one. */
  function Remove(es: seq<Entry>, g: int): seq<Entry> {
    if es == [] then []
    else if es[0].globalLine == g then Remove(es[1..], g)
    else [es[0]] + Remove(es[1..], g)
  }

  /** `remove` keeps exactly the entries with another global line, in their order. */
  lemma {:induction false} RemoveSpec(es: seq<Entry>, g: int)
    ensures forall x :: x in Remove(es, g) <==> x in es && x.globalLine != g
    ensures Ascending(es) ==> Ascending(Remove(es, g))
  {
    if es != [] {
      RemoveSpec(es[1..], g);
      assert Ascending(es) ==> forall x :: x in es[1..] ==> es[0].globalLine < x.globalLine;
    }
  }

  /** `entries.add(entry)`: inserts `e` in order, unless an entry with the same global line is already there. */
  function Add(es: seq<Entry>, e: Entry): seq<Entry> {
    if es == [] then [e]
    else if e.globalLine < es[0].globalLine then [e] + es
    else if e.globalLine == es[0].globalLine then es
    else [es[0]] + Add(es[1..], e)
  }

  /** `add` loses no entry, brings in nothing but `e`, brings in `e` when its line is free, and keeps the order. */
  lemma AddSpec(es: seq<Entry>, e: Entry)
    ensures forall x :: x in es ==> x in Add(es, e)
    ensures forall x :: x in Add(es, e) ==> x == e || x in es
    ensures (forall x :: x in es ==> x.globalLine != e.globalLine) ==> e in Add(es, e)
    ensures Ascending(es) ==> Ascending(Add(es, e))
  {
    AddMembers(es, e);
    if Ascending(es) {
      AddAscending(es, e);
    }
  }

  /** The entries of `add`: the old ones, and `e` when its line is free. */
  lemma {:induction false} AddMembers(es: seq<Entry>, e: Entry)
    ensures forall x :: x in es ==> x in Add(es, e)
    ensures forall x :: x in Add(es, e) ==> x == e || x in es
    ensures (forall x :: x in es ==> x.globalLine != e.globalLine) ==> e in Add(es, e)
  {
    if es != [] && e.globalLine > es[0].globalLine {
      AddMembers(es[1..], e);
      assert es == [es[0]] + es[1..];
    }
  }

  /** `add` keeps ascending entries ascending. */
  lemma {:induction false} AddAscending(es: seq<Entry>, e: Entry)
    requires Ascending(es)
    ensures Ascending(Add(es, e))
  {
    if es != [] && e.globalLine > es[0].globalLine {
      AddAscending(es[1..], e);
      AddMembers(es[1..], e);
      HeadBelowTail(es);
      ConsAscending(es[0], Add(es[1..], e));
    } else if es != [] && e.globalLine < es[0].globalLine {
      HeadBelowTail(es);
      assert es == [es[0]] + es[1..];
      ConsAscending(e, es);
    }
  }

  /** The head of ascending entries lies below every other entry. */
  lemma HeadBelowTail(es: seq<Entry>)
    requires Ascending(es) && es != []
    ensures forall x :: x in es[1..] ==> es[0].globalLine < x.globalLine
  {
    forall x | x in es[1..]
      ensures es[0].globalLine < x.globalLine
    {
      var j :| 0 <= j < |es[1..]| && es[1..][j] == x;
      assert es[j + 1] == x;
    }
  }

  /** An entry below every entry of ascending `r` can go in front. */
  lemma ConsAscending(h: Entry, r: seq<Entry>)
    requires Ascending(r) && forall x :: x in r ==> h.globalLine < x.globalLine
    ensures Ascending([h] + r)
  {
    var s := [h] + r;
    forall i, j | 0 <= i < j < |s|
      ensures s[i].globalLine < s[j].globalLine
    {
      assert s[j] == r[j - 1] && r[j - 1] in r;
      if i > 0 {
        assert s[i] == r[i - 1];
      }
    }
  }

  /** `add` alone does not replace: with an entry of the same global line present, the set is unchanged. */
  lemma {:induction false} AddKeepsPresent(es: seq<Entry>, e: Entry, i: nat)
    requires Ascending(es) && i < |es| && es[i].globalLine == e.globalLine
    ensures Add(es, e) == es
  {
    if i > 0 {
      assert es[0].globalLine < e.globalLine;
      AddKeepsPresent(es[1..], e, i - 1);
    }
  }

  /** An entry past every other one is added at the end. */
  lemma {:induction false} AddPast(es: seq<Entry>, e: Entry)
    requires AllBelow(es, e.globalLine)
    ensures Add(es, e) == es + [e]
  {
    if es != [] {
      AddPast(es[1..], e);
    }
  }

  /** Removing a global line no entry has changes nothing. */
  lemma {:induction false} RemoveAbsent(es: seq<Entry>, g: int)
    requires AllBelow(es, g)
    ensures Remove(es, g) == es
  {
    if es != [] {
      RemoveAbsent(es[1..], g);
    }
  }

  /** Removing the global line of the last of ascending entries drops just that entry. */
  lemma {:induction false} RemoveLast(es: seq<Entry>)
    requires Ascending(es) && es != []
    ensures Remove(es, es[|es| - 1].globalLine) == es[..|es| - 1]
  {
    var g := es[|es| - 1].globalLine;
    if |es| == 1 {
    } else {
      assert es[0].globalLine < g;
      assert es[1..][|es| - 2] == es[|es| - 1];
      RemoveLast(es[1..]);
      assert es[..|es| - 1] == [es[0]] + es[1..][..|es| - 2];
    }
  }

  /** What `addEntry` leaves: `e` in place of the entry with its global line, or added in order. */
  function Put(es: seq<Entry>, e: Entry): seq<Entry> {
    Add(Remove(es, e.globalLine), e)
  }

  /**
   * `addEntry` replaces: afterwards the entries are still ascending, `e` is
   * one of them, and every other entry is an old one with another global line.
   */
  lemma PutReplaces(es: seq<Entry>, e: Entry)
    requires Ascending(es)
    ensures Ascending(Put(es, e))
    ensures forall x :: x in Put(es, e) <==> x == e || (x in es && x.globalLine != e.globalLine)
  {
    RemoveSpec(es, e.globalLine);
    AddSpec(Remove(es, e.globalLine), e);
  }

  /** An entry past every other one is appended, or replaces the last one when it shares its global line. */
  lemma PutLast(es: seq<Entry>, e: Entry)
    requires Ascending(es) && AllBelow(es, e.globalLine + 1)
    ensures Put(es, e) == if es != [] && es[|es| - 1].globalLine == e.globalLine then es[..|es| - 1] + [e] else es + [e]
  {
    var n := |es|;
    if es != [] && es[n - 1].globalLine == e.globalLine {
      RemoveLast(es);
      assert AllBelow(es[..n - 1], e.globalLine);
      AddPast(es[..n - 1], e);
    } else {
      assert AllBelow(es, e.globalLine);
      RemoveAbsent(es, e.globalLine);
      AddPast(es, e);
    }
  }

  /** `LineNumberMap`: the entries `build()` copied out of the builder. */
  datatype LineNumberMap = LineNumberMap(entries: seq<Entry>)

  /** `LineNumberMap.Builder`: a `TreeSet` of entries, ordered by global line. */
  class Builder {
    var entries: seq<Entry>

    ghost predicate Valid()
      reads this
    {
      Ascending(entries)
    }

    /** `new LineNumberMap.Builder()`: an empty set. */
    constructor ()
      ensures Valid() && entries == []
    {
      entries := [];
    }

    /** `addEntry(localLine, globalLine, fileName)`: remove the equal entry, then add the new one. */
    method AddEntry(localLine: int, globalLine: int, fileName: string)
      requires Valid()
      modifies this
      ensures Valid() && entries == Put(old(entries), Entry(localLine, globalLine, fileName))
    {
      var entry := Entry(localLine, globalLine, fileName);
      PutReplaces(entries, entry);
      entries := Remove(entries, globalLine);
      entries := Add(entries, entry);
    }

    /** `build()`: the set as an array, in ascending order, duplicates excluded by construction. */
    function Build(): (m: LineNumberMap)
      reads this
      ensures Valid() ==> Ascending(m.entries)
      ensures forall x :: x in m.entries <==> x in entries
    {
      LineNumberMap(entries)
    }
  }

  // ----- Lookup -----

  /** The insertion point of `g`: the number of leading entries with a smaller global line. */
  function Rank(es: seq<Entry>, g: int): (p: nat)
    ensures p <= |es|
  {
    if es == [] || es[0].globalLine >= g then 0 else 1 + Rank(es[1..], g)
  }

  /**
   * `Arrays.binarySearch(entries, new Entry(0, g, null))`: the index of the
   * entry with global line `g`, or `-(insertion point) - 1` when there is none.
   */
  function BinarySearch(es: seq<Entry>, g: int): int {
    var p: int := Rank(es, g);
    if p < |es| && es[p].globalLine == g then p else -p - 1
  }

  /** On ascending entries the search keeps the library's promise. */
  lemma {:induction false} BinarySearchContract(es: seq<Entry>, g: int)
    requires Ascending(es)
    ensures var idx := BinarySearch(es, g);
            (idx >= 0 ==> idx < |es| && es[idx].globalLine == g)
            && (idx < 0 ==> var p := -idx - 1;
                  0 <= p <= |es|
                  && (forall i :: 0 <= i < p ==> es[i].globalLine < g)
                  && (forall i :: p <= i < |es| ==> es[i].globalLine > g))
  {
    RankSplits(es, g);
  }

  /** The entries before the insertion point lie below `g`, the ones from it on at or above it. */
  lemma {:induction false} RankSplits(es: seq<Entry>, g: int)
    requires Ascending(es)
    ensures forall i :: 0 <= i < Rank(es, g) ==> es[i].globalLine < g
    ensures forall i :: Rank(es, g) <= i < |es| ==> es[i].globalLine >= g
  {
    if es != [] && es[0].globalLine < g {
      RankSplits(es[1..], g);
      forall i | 1 <= i < Rank(es, g)
        ensures es[i].globalLine < g
      {
        assert es[1..][i - 1] == es[i];
      }
      forall i | Rank(es, g) <= i < |es|
        ensures es[i].globalLine >= g
      {
        assert es[1..][i - 1] == es[i];
      }
    }
  }

  /**
   * `getEntry(globalLine)`, as written: an exact hit past index 0 gives
   * that entry, a line before the first entry gives the first, a miss
   * gives the entry before the insertion point; an exact hit at index 0
   * reads index -2, and an empty map reads index 0.
   */
  function GetEntry(m: LineNumberMap, g: int): Result<Entry> {
    var es := m.entries;
    var index := BinarySearch(es, g);
    if index > 0 then Success(es[index])
    else if index == -1 then (if es != [] then Success(es[0]) else Failure(IndexOutOfBounds(0)))
    else if 0 <= -index - 2 < |es| then Success(es[-index - 2])
    else Failure(IndexOutOfBounds(-index - 2))
  }

  /** `getActualFileName(globalLine)`: the file of the entry found. */
  function GetActualFileName(m: LineNumberMap, g: int): (r: Result<string>)
    ensures r.Success? <==> GetEntry(m, g).Success?
    ensures r.Success? ==> r.value == GetEntry(m, g).value.fileName
  {
    var e :- GetEntry(m, g);
    Success(e.fileName)
  }

  /** `getActualLineNumber(globalLine)`: the entry's local line, moved on by the distance from its global line. */
  function GetActualLineNumber(m: LineNumberMap, g: int): (r: Result<int>)
    ensures r.Success? <==> GetEntry(m, g).Success?
    ensures r.Success? ==> var e := GetEntry(m, g).value; r.value - e.localLine == g - e.globalLine
  {
    var e :- GetEntry(m, g);
    Success(g - e.globalLine + e.localLine)
  }

  /**
   * On an ascending, non-empty map, any line other than the first entry's
   * own finds an entry: the first one for a line before it, and otherwise
   * the entry with the greatest global line not above `g`.
   */
  lemma GetEntryIsFloor(m: LineNumberMap, g: int)
    requires Ascending(m.entries) && m.entries != [] && g != m.entries[0].globalLine
    ensures GetEntry(m, g).Success? && GetEntry(m, g).value in m.entries
    ensures g < m.entries[0].globalLine ==> GetEntry(m, g).value == m.entries[0]
    ensures g > m.entries[0].globalLine ==>
              GetEntry(m, g).value.globalLine <= g
              && forall x :: x in m.entries && x.globalLine <= g ==> x.globalLine <= GetEntry(m, g).value.globalLine
  {
    var es := m.entries;
    BinarySearchContract(es, g);
    var idx := BinarySearch(es, g);
    if idx >= 0 {
      assert idx != 0;
    } else {
      var p := -idx - 1;
      if g > es[0].globalLine {
        assert p >= 1;
        forall x | x in es && x.globalLine <= g
          ensures x.globalLine <= es[p - 1].globalLine
        {
          var i :| 0 <= i < |es| && es[i] == x;
          assert i < p;
        }
      }
    }
  }

  /** As written, the first entry's own global line is an exact hit at index 0 and reads index -2. */
  lemma FirstEntryHitFails(m: LineNumberMap)
    requires Ascending(m.entries) && m.entries != []
    ensures GetEntry(m, m.entries[0].globalLine) == Failure(IndexOutOfBounds(-2))
  {
    assert Rank(m.entries, m.entries[0].globalLine) == 0;
  }

  /** An empty map has no entry for any line. */
  lemma EmptyMapFails(g: int)
    ensures GetEntry(LineNumberMap([]), g) == Failure(IndexOutOfBounds(0))
  {
  }

  /** Entries past `g` do not change what a lookup of `g` finds among the earlier ones. */
  lemma {:induction false} RankIgnoresLater(pre: seq<Entry>, post: seq<Entry>, g: int)
    requires forall i :: 0 <= i < |post| ==> post[i].globalLine > g
    ensures Rank(pre + post, g) == Rank(pre, g) || (Rank(pre, g) == |pre| && Rank(pre + post, g) == |pre|)
    ensures Rank(pre, g) <= |pre| && (Rank(pre, g) < |pre| ==> Rank(pre + post, g) == Rank(pre, g))
    ensures Rank(pre, g) == |pre| ==> Rank(pre + post, g) == |pre|
  {
    if pre == [] {
      assert pre + post == post;
    } else {
      assert (pre + post)[1..] == pre[1..] + post;
      RankIgnoresLater(pre[1..], post, g);
    }
  }

  /** Appending entries past `g` to a non-empty map does not change the lookup of `g`. */
  lemma LookupIgnoresLater(pre: seq<Entry>, post: seq<Entry>, g: int)
    requires pre != [] && forall i :: 0 <= i < |post| ==> post[i].globalLine > g
    ensures GetEntry(LineNumberMap(pre + post), g) == GetEntry(LineNumberMap(pre), g)
  {
    RankIgnoresLater(pre, post, g);
    var p := Rank(pre, g);
    if p < |pre| {
      assert (pre + post)[p] == pre[p];
    } else if post != [] {
      assert (pre + post)[p] == post[0];
    }
    var idx := BinarySearch(pre, g);
    if idx > 0 {
      assert (pre + post)[idx] == pre[idx];
    } else if idx != -1 && 0 <= -idx - 2 < |pre| {
      assert (pre + post)[-idx - 2] == pre[-idx - 2];
    }
  }

  /**
   * With every entry at or below `g`, a global line past the first entry's
   * finds the last entry.
   */
  lemma LookupFindsLast(es: seq<Entry>, g: int)
    requires Ascending(es) && es != [] && AllBelow(es, g + 1) && g > es[0].globalLine
    ensures GetEntry(LineNumberMap(es), g) == Success(es[|es| - 1])
  {
    GetEntryIsFloor(LineNumberMap(es), g);
    var e := GetEntry(LineNumberMap(es), g).value;
    var last := es[|es| - 1];
    assert last.globalLine <= e.globalLine;
  }

  // ----- The lookup with the exact-hit test corrected -----

  /**
   * `getEntry` with the exact-hit test the other branches imply,
   * `index >= 0`: an exact hit gives its entry wherever it is.
   */
  function GetEntryCorrected(m: LineNumberMap, g: int): Result<Entry> {
    var es := m.entries;
    var index := BinarySearch(es, g);
    if index >= 0 then Success(es[index])
    else if index == -1 then (if es != [] then Success(es[0]) else Failure(IndexOutOfBounds(0)))
    else if 0 <= -index - 2 < |es| then Success(es[-index - 2])
    else Failure(IndexOutOfBounds(-index - 2))
  }

  /**
   * On an ascending, non-empty map the corrected lookup finds an entry for
   * every line: the first one for a line before it, and otherwise the entry
   * with the greatest global line not above `g`.
   */
  lemma CorrectedGetEntryIsFloor(m: LineNumberMap, g: int)
    requires Ascending(m.entries) && m.entries != []
    ensures GetEntryCorrected(m, g).Success? && GetEntryCorrected(m, g).value in m.entries
    ensures g < m.entries[0].globalLine ==> GetEntryCorrected(m, g).value == m.entries[0]
    ensures g >= m.entries[0].globalLine ==>
              GetEntryCorrected(m, g).value.globalLine <= g
              && forall x :: x in m.entries && x.globalLine <= g ==> x.globalLine <= GetEntryCorrected(m, g).value.globalLine
  {
    var es := m.entries;
    BinarySearchContract(es, g);
    var idx := BinarySearch(es, g);
    if idx < 0 {
      var p := -idx - 1;
      if g >= es[0].globalLine {
        assert p >= 1;
        forall x | x in es && x.globalLine <= g
          ensures x.globalLine <= es[p - 1].globalLine
        {
          var i :| 0 <= i < |es| && es[i] == x;
          assert i < p;
        }
      }
    }
  }

  /** The correction changes only the lookup of the first entry's own line. */
  lemma CorrectionOnlyAtFirstEntry(m: LineNumberMap, g: int)
    requires Ascending(m.entries) && (m.entries == [] || g != m.entries[0].globalLine)
    ensures GetEntryCorrected(m, g) == GetEntry(m, g)
  {
    if m.entries != [] {
      BinarySearchContract(m.entries, g);
      assert BinarySearch(m.entries, g) != 0;
    }
  }

  /** On an ascending map, the corrected lookup of the first entry's own line finds that entry. */
  lemma CorrectedFirstEntryHit(m: LineNumberMap)
    requires Ascending(m.entries) && m.entries != []
    ensures GetEntryCorrected(m, m.entries[0].globalLine) == Success(m.entries[0])
  {
    assert Rank(m.entries, m.entries[0].globalLine) == 0;
  }

  /** A one-entry map from line 1 of `a`: as written its own line throws, corrected it is found. */
  lemma FirstEntryHitExample()
    ensures GetEntry(LineNumberMap([Entry(1, 1, "a")]), 1) == Failure(IndexOutOfBounds(-2))
    ensures GetEntryCorrected(LineNumberMap([Entry(1, 1, "a")]), 1) == Success(Entry(1, 1, "a"))
  {
    FirstEntryHitFails(LineNumberMap([Entry(1, 1, "a")]));
  }

  /** `getActualFileName` on the corrected lookup. */
  function GetActualFileNameCorrected(m: LineNumberMap, g: int): (r: Result<string>)
    ensures r.Success? <==> GetEntryCorrected(m, g).Success?
    ensures r.Success? ==> r.value == GetEntryCorrected(m, g).value.fileName
  {
    var e :- GetEntryCorrected(m, g);
    Success(e.fileName)
  }

  /** `getActualLineNumber` on the corrected lookup. */
  function GetActualLineNumberCorrected(m: LineNumberMap, g: int): (r: Result<int>)
    ensures r.Success? <==> GetEntryCorrected(m, g).Success?
    ensures r.Success? ==> var e := GetEntryCorrected(m, g).value; r.value - e.localLine == g - e.globalLine
  {
    var e :- GetEntryCorrected(m, g);
    Success(g - e.globalLine + e.localLine)
  }
}

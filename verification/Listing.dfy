/**
The folder listing of the file manager: pages of a listing are fetched one after another and kept in a
cache, and every answer is the cached entries, sorted anew. The bucket does not change between the
requests, page 0 is asked for without a token, and the token for page i stands for i.
*/
module Listing {
  import opened StringOrder

  datatype ObjectEntry = ObjectEntry(
    key: string, isFolder: bool, size: int, contentType: string, lastModified: int)

  // ----- sorting -----

  /** The sort columns; any other name means the key. */
  predicate LessFile(a: ObjectEntry, b: ObjectEntry, sortBy: string) {
    if sortBy == "size" && a.size != b.size then a.size < b.size
    else if sortBy == "type" && a.contentType != b.contentType then Less(a.contentType, b.contentType)
    else if sortBy == "modified" && a.lastModified != b.lastModified then a.lastModified < b.lastModified
    else Less(a.key, b.key)
  }

  /** The comparison sortEntries gives the library's stable sort. */
  predicate Precedes(a: ObjectEntry, b: ObjectEntry, sortBy: string, desc: bool) {
    if a.isFolder != b.isFolder then a.isFolder
    else if a.isFolder then Less(a.key, b.key)
    else if desc then !LessFile(a, b, sortBy)
    else LessFile(a, b, sortBy)
  }

  /** An insertion from the right: the entry passes those it precedes. */
  function Inserted(sorted: seq<ObjectEntry>, e: ObjectEntry, sortBy: string, desc: bool): seq<ObjectEntry> {
    if sorted == [] then [e]
    else
      var last := sorted[|sorted| - 1];
      if Precedes(e, last, sortBy, desc) then Inserted(sorted[..|sorted| - 1], e, sortBy, desc) + [last]
      else sorted + [e]
  }

  function SortEntries(entries: seq<ObjectEntry>, sortBy: string, desc: bool): seq<ObjectEntry> {
    if entries == [] then []
    else Inserted(SortEntries(entries[..|entries| - 1], sortBy, desc), entries[|entries| - 1], sortBy, desc)
  }

  ghost predicate DistinctKeys(entries: seq<ObjectEntry>) {
    forall i, j :: 0 <= i < j < |entries| ==> entries[i].key != entries[j].key
  }

  ghost predicate IsSorted(entries: seq<ObjectEntry>, sortBy: string, desc: bool) {
    forall i, j :: 0 <= i < j < |entries| ==> Precedes(entries[i], entries[j], sortBy, desc)
  }

  /** On entries with distinct keys the comparison is a strict total order, for every column and both
      directions. */
  lemma PrecedesIsTotal(a: ObjectEntry, b: ObjectEntry, sortBy: string, desc: bool)
    requires a.key != b.key
    ensures Precedes(a, b, sortBy, desc) <==> !Precedes(b, a, sortBy, desc)
  {
    LessIsTotal(a.key, b.key);
    LessIsTotal(a.contentType, b.contentType);
  }

  lemma LessFileIsTransitive(a: ObjectEntry, b: ObjectEntry, c: ObjectEntry, sortBy: string)
    requires LessFile(a, b, sortBy) && LessFile(b, c, sortBy)
    ensures LessFile(a, c, sortBy)
  {
    if Less(a.key, b.key) && Less(b.key, c.key) {
      LessIsTransitive(a.key, b.key, c.key);
    }
    if Less(a.contentType, b.contentType) && Less(b.contentType, c.contentType) {
      LessIsTransitive(a.contentType, b.contentType, c.contentType);
      LessIsTotal(a.contentType, c.contentType);
    }
  }

  lemma LessFileIsTotal(a: ObjectEntry, b: ObjectEntry, sortBy: string)
    requires a.key != b.key
    ensures LessFile(a, b, sortBy) <==> !LessFile(b, a, sortBy)
  {
    LessIsTotal(a.key, b.key);
    LessIsTotal(a.contentType, b.contentType);
  }

  lemma PrecedesIsTransitive(a: ObjectEntry, b: ObjectEntry, c: ObjectEntry, sortBy: string, desc: bool)
    requires a.key != b.key && b.key != c.key && a.key != c.key
    requires Precedes(a, b, sortBy, desc) && Precedes(b, c, sortBy, desc)
    ensures Precedes(a, c, sortBy, desc)
  {
    if a.isFolder && b.isFolder && c.isFolder {
      LessIsTransitive(a.key, b.key, c.key);
    } else if !a.isFolder && !b.isFolder && !c.isFolder {
      LessFileIsTotal(a, b, sortBy);
      LessFileIsTotal(b, c, sortBy);
      LessFileIsTotal(a, c, sortBy);
      if desc {
        LessFileIsTransitive(c, b, a, sortBy);
      } else {
        LessFileIsTransitive(a, b, c, sortBy);
      }
    }
  }

  predicate IsNewKey(entries: seq<ObjectEntry>, key: string) {
    forall i :: 0 <= i < |entries| ==> entries[i].key != key
  }

  lemma {:induction false} InsertedPermutes(sorted: seq<ObjectEntry>, e: ObjectEntry, sortBy: string, desc: bool)
    ensures multiset(Inserted(sorted, e, sortBy, desc)) == multiset(sorted) + multiset{e}
  {
    if sorted != [] {
      var front, last := sorted[..|sorted| - 1], sorted[|sorted| - 1];
      InsertedPermutes(front, e, sortBy, desc);
      assert sorted == front + [last];
    }
  }

  lemma {:induction false} SortPermutes(entries: seq<ObjectEntry>, sortBy: string, desc: bool)
    ensures multiset(SortEntries(entries, sortBy, desc)) == multiset(entries)
  {
    if entries != [] {
      var front, e := entries[..|entries| - 1], entries[|entries| - 1];
      SortPermutes(front, sortBy, desc);
      InsertedPermutes(SortEntries(front, sortBy, desc), e, sortBy, desc);
      assert entries == front + [e];
    }
  }

  lemma {:induction false} InsertedIsSorted(sorted: seq<ObjectEntry>, e: ObjectEntry, sortBy: string, desc: bool)
    requires DistinctKeys(sorted) && IsSorted(sorted, sortBy, desc) && IsNewKey(sorted, e.key)
    ensures DistinctKeys(Inserted(sorted, e, sortBy, desc)) && IsSorted(Inserted(sorted, e, sortBy, desc), sortBy, desc)
  {
    if sorted != [] {
      var front, last := sorted[..|sorted| - 1], sorted[|sorted| - 1];
      PrecedesIsTotal(e, last, sortBy, desc);
      if Precedes(e, last, sortBy, desc) {
        InsertedIsSorted(front, e, sortBy, desc);
        InsertedMembers(front, e, sortBy, desc);
        var rest := Inserted(front, e, sortBy, desc);
        forall i | 0 <= i < |rest| ensures Precedes(rest[i], last, sortBy, desc) && rest[i].key != last.key {
          assert rest[i] in rest;
        }
        AppendIsSorted(rest, last, sortBy, desc);
      } else {
        forall i | 0 <= i < |front| ensures Precedes(front[i], e, sortBy, desc) {
          PrecedesIsTransitive(front[i], last, e, sortBy, desc);
        }
        AppendIsSorted(sorted, e, sortBy, desc);
      }
    }
  }

  lemma AppendIsSorted(entries: seq<ObjectEntry>, last: ObjectEntry, sortBy: string, desc: bool)
    requires DistinctKeys(entries) && IsSorted(entries, sortBy, desc)
    requires forall i :: 0 <= i < |entries| ==> Precedes(entries[i], last, sortBy, desc) && entries[i].key != last.key
    ensures DistinctKeys(entries + [last]) && IsSorted(entries + [last], sortBy, desc)
  {
  }

  lemma {:induction false} InsertedMembers(sorted: seq<ObjectEntry>, e: ObjectEntry, sortBy: string, desc: bool)
    ensures forall x :: x in Inserted(sorted, e, sortBy, desc) <==> x in sorted || x == e
  {
    if sorted != [] {
      InsertedMembers(sorted[..|sorted| - 1], e, sortBy, desc);
      assert sorted == sorted[..|sorted| - 1] + [sorted[|sorted| - 1]];
    }
  }

  /** An answer is the cached entries in the requested order. */
  lemma {:induction false} SortIsSorted(entries: seq<ObjectEntry>, sortBy: string, desc: bool)
    requires DistinctKeys(entries)
    ensures DistinctKeys(SortEntries(entries, sortBy, desc))
    ensures IsSorted(SortEntries(entries, sortBy, desc), sortBy, desc)
    ensures forall x :: x in SortEntries(entries, sortBy, desc) <==> x in entries
  {
    if entries != [] {
      var front, e := entries[..|entries| - 1], entries[|entries| - 1];
      SortIsSorted(front, sortBy, desc);
      var sorted := SortEntries(front, sortBy, desc);
      forall i | 0 <= i < |sorted| ensures sorted[i].key != e.key {
        assert sorted[i] in front;
      }
      InsertedIsSorted(sorted, e, sortBy, desc);
      InsertedMembers(sorted, e, sortBy, desc);
      assert entries == front + [e];
    }
  }

  /** a comes before b by the column's values, and by the key where they are equal. */
  predicate InColumn(a: ObjectEntry, b: ObjectEntry, sortBy: string) {
    match sortBy
    case "size" => a.size < b.size || (a.size == b.size && Less(a.key, b.key))
    case "modified" => a.lastModified < b.lastModified || (a.lastModified == b.lastModified && Less(a.key, b.key))
    case "type" => Less(a.contentType, b.contentType) || (a.contentType == b.contentType && Less(a.key, b.key))
    case _ => Less(a.key, b.key)
  }

  /** What each column compares: of two files of a sorted listing the first comes before the second in the
      column, or after it in descending order; folders always go by their keys. */
  lemma SortedByColumn(entries: seq<ObjectEntry>, sortBy: string, desc: bool, i: int, j: int)
    requires DistinctKeys(entries) && 0 <= i < j < |SortEntries(entries, sortBy, desc)|
    ensures var a, b := SortEntries(entries, sortBy, desc)[i], SortEntries(entries, sortBy, desc)[j];
      && (b.isFolder ==> a.isFolder && Less(a.key, b.key))
      && (!a.isFolder ==> !b.isFolder && if desc then InColumn(b, a, sortBy) else InColumn(a, b, sortBy))
  {
    var sorted := SortEntries(entries, sortBy, desc);
    SortIsSorted(entries, sortBy, desc);
    assert Precedes(sorted[i], sorted[j], sortBy, desc) && sorted[i].key != sorted[j].key;
    LessIsTotal(sorted[i].key, sorted[j].key);
    LessIsTotal(sorted[i].contentType, sorted[j].contentType);
  }

  /** There is only one sorted order. */
  lemma {:induction false} SortedIsUnique(a: seq<ObjectEntry>, b: seq<ObjectEntry>, sortBy: string, desc: bool)
    requires multiset(a) == multiset(b)
    requires DistinctKeys(a) && DistinctKeys(b) && IsSorted(a, sortBy, desc) && IsSorted(b, sortBy, desc)
    ensures a == b
  {
    if a == [] {
      assert |multiset(b)| == 0;
    } else {
      LastIsSame(a, b, sortBy, desc);
      FrontMultiset(a);
      FrontMultiset(b);
      SortedIsUnique(a[..|a| - 1], b[..|b| - 1], sortBy, desc);
      assert a == a[..|a| - 1] + [a[|a| - 1]] && b == b[..|b| - 1] + [b[|b| - 1]];
    }
  }

  lemma FrontMultiset(a: seq<ObjectEntry>)
    requires a != []
    ensures multiset(a[..|a| - 1]) == multiset(a) - multiset{a[|a| - 1]}
  {
    assert a == a[..|a| - 1] + [a[|a| - 1]];
  }

  lemma LastIsSame(a: seq<ObjectEntry>, b: seq<ObjectEntry>, sortBy: string, desc: bool)
    requires a != [] && multiset(a) == multiset(b)
    requires DistinctKeys(a) && DistinctKeys(b) && IsSorted(a, sortBy, desc) && IsSorted(b, sortBy, desc)
    ensures b != [] && a[|a| - 1] == b[|b| - 1]
  {
    assert a[|a| - 1] in multiset(b);
    assert b[|b| - 1] in multiset(a);
    var i :| 0 <= i < |b| && b[i] == a[|a| - 1];
    var j :| 0 <= j < |a| && a[j] == b[|b| - 1];
    if i < |b| - 1 {
      PrecedesIsTotal(b[i], b[|b| - 1], sortBy, desc);
    }
  }

  // ----- descending is ascending backwards -----

  function Folders(entries: seq<ObjectEntry>): seq<ObjectEntry> {
    if entries == [] then []
    else
      var last := entries[|entries| - 1];
      Folders(entries[..|entries| - 1]) + (if last.isFolder then [last] else [])
  }

  function Files(entries: seq<ObjectEntry>): seq<ObjectEntry> {
    if entries == [] then []
    else
      var last := entries[|entries| - 1];
      Files(entries[..|entries| - 1]) + (if last.isFolder then [] else [last])
  }

  function Reversed(entries: seq<ObjectEntry>): (r: seq<ObjectEntry>)
    ensures |r| == |entries| && forall i :: 0 <= i < |r| ==> r[i] == entries[|entries| - 1 - i]
  {
    if entries == [] then [] else [entries[|entries| - 1]] + Reversed(entries[..|entries| - 1])
  }

  lemma {:induction false} ReversedPermutes(entries: seq<ObjectEntry>)
    ensures multiset(Reversed(entries)) == multiset(entries)
  {
    if entries != [] {
      ReversedPermutes(entries[..|entries| - 1]);
      assert entries == entries[..|entries| - 1] + [entries[|entries| - 1]];
    }
  }

  /** Folders come first. */
  lemma {:induction false} FoldersComeFirst(entries: seq<ObjectEntry>, sortBy: string, desc: bool)
    requires IsSorted(entries, sortBy, desc)
    ensures entries == Folders(entries) + Files(entries)
    ensures forall i :: 0 <= i < |Folders(entries)| ==> Folders(entries)[i].isFolder
    ensures forall i :: 0 <= i < |Files(entries)| ==> !Files(entries)[i].isFolder
  {
    if entries != [] {
      var front, last := entries[..|entries| - 1], entries[|entries| - 1];
      FoldersComeFirst(front, sortBy, desc);
      assert entries == front + [last];
      NoFileBeforeFolder(Folders(front), Files(front), last, sortBy, desc);
      if last.isFolder {
        assert Files(front) == [] && Folders(entries) == Folders(front) + [last];
      } else {
        assert Folders(entries) == Folders(front) && Files(entries) == Files(front) + [last];
      }
    }
  }

  lemma NoFileBeforeFolder(
    folders: seq<ObjectEntry>, files: seq<ObjectEntry>, last: ObjectEntry, sortBy: string, desc: bool)
    requires forall i :: 0 <= i < |files| ==> !files[i].isFolder
    ensures last.isFolder && files != [] ==> !IsSorted(folders + files + [last], sortBy, desc)
  {
    if last.isFolder && files != [] {
      var all := folders + files + [last];
      assert !Precedes(all[|folders|], all[|all| - 1], sortBy, desc);
    }
  }

  lemma {:induction false} PartsOfFolders(folders: seq<ObjectEntry>)
    requires forall i :: 0 <= i < |folders| ==> folders[i].isFolder
    ensures Folders(folders) == folders && Files(folders) == []
  {
    if folders != [] {
      var front, last := folders[..|folders| - 1], folders[|folders| - 1];
      PartsOfFolders(front);
      assert Folders(folders) == Folders(front) + [last] && Files(folders) == Files(front) + [];
      assert folders == front + [last];
    }
  }

  lemma {:induction false} PartsOf(folders: seq<ObjectEntry>, files: seq<ObjectEntry>)
    requires forall i :: 0 <= i < |folders| ==> folders[i].isFolder
    requires forall i :: 0 <= i < |files| ==> !files[i].isFolder
    ensures Folders(folders + files) == folders && Files(folders + files) == files
  {
    if files == [] {
      PartsOfFolders(folders);
      assert folders + files == folders;
    } else {
      PartsOf(folders, files[..|files| - 1]);
      assert (folders + files)[..|folders + files| - 1] == folders + files[..|files| - 1];
    }
  }

  /** For every column, descending order lists the folders as ascending order does, and the files exactly
      backwards. */
  lemma DescendingReversesFiles(entries: seq<ObjectEntry>, sortBy: string)
    requires DistinctKeys(entries)
    ensures var up, down := SortEntries(entries, sortBy, false), SortEntries(entries, sortBy, true);
      && up == Folders(up) + Files(up)
      && down == Folders(up) + Reversed(Files(up))
      && Folders(down) == Folders(up) && Files(down) == Reversed(Files(up))
  {
    var up, down := SortEntries(entries, sortBy, false), SortEntries(entries, sortBy, true);
    SortIsSorted(entries, sortBy, false);
    SortIsSorted(entries, sortBy, true);
    SortPermutes(entries, sortBy, false);
    SortPermutes(entries, sortBy, true);
    FoldersComeFirst(up, sortBy, false);
    BackwardsIsSorted(Folders(up), Files(up), Reversed(Files(up)), sortBy);
    ReversedPermutes(Files(up));
    var backwards := Folders(up) + Reversed(Files(up));
    assert multiset(backwards) == multiset(Folders(up)) + multiset(Files(up)) == multiset(up);
    SortedIsUnique(down, backwards, sortBy, true);
    PartsOf(Folders(up), Reversed(Files(up)));
  }

  lemma FileBackwards(a: ObjectEntry, b: ObjectEntry, sortBy: string)
    requires !a.isFolder && !b.isFolder && a.key != b.key && Precedes(a, b, sortBy, false)
    ensures Precedes(b, a, sortBy, true)
  {
    LessFileIsTotal(a, b, sortBy);
  }

  lemma BackwardsIsSorted(
    folders: seq<ObjectEntry>, files: seq<ObjectEntry>, backwards: seq<ObjectEntry>, sortBy: string)
    requires DistinctKeys(folders + files) && IsSorted(folders + files, sortBy, false)
    requires forall i :: 0 <= i < |folders| ==> folders[i].isFolder
    requires forall i :: 0 <= i < |files| ==> !files[i].isFolder
    requires |backwards| == |files| && forall i :: 0 <= i < |files| ==> backwards[i] == files[|files| - 1 - i]
    ensures DistinctKeys(folders + backwards) && IsSorted(folders + backwards, sortBy, true)
  {
    var m := |folders|;
    forall i, j | 0 <= i < j < m + |files|
      ensures (folders + backwards)[i].key != (folders + backwards)[j].key
      ensures Precedes((folders + backwards)[i], (folders + backwards)[j], sortBy, true)
    {
      BackwardsPair(folders, files, sortBy, i, if j < m then j else m + |files| - 1 - (j - m));
      if i >= m {
        BackwardsPair(folders, files, sortBy, m + |files| - 1 - (j - m), m + |files| - 1 - (i - m));
        FileBackwards(backwards[j - m], backwards[i - m], sortBy);
      }
    }
  }

  /** What the ascending order says of two positions. */
  lemma BackwardsPair(folders: seq<ObjectEntry>, files: seq<ObjectEntry>, sortBy: string, i: int, j: int)
    requires DistinctKeys(folders + files) && IsSorted(folders + files, sortBy, false)
    ensures 0 <= i < j < |folders| + |files| ==>
      && (folders + files)[i].key != (folders + files)[j].key
      && Precedes((folders + files)[i], (folders + files)[j], sortBy, false)
  {
  }
}

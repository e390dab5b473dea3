/**
 * The files-by-batch dashboard (src/components/FilesDashboard.tsx): grouping the file
 * list into batch groups, the per-status tally, and the view state (expanded groups,
 * status filter).
 */
module FilesDashboard {
  import opened Wrappers
  import opened Types
  import opened Sorting

  // ---------------------------------------------------------------------------
  // Batch keys and group headers
  // ---------------------------------------------------------------------------

  /**
   * The key `batch_id?.toString() || 'individual'`. The decimal form of an integer is
   * never empty and never 'individual', and distinct integers print differently, so
   * the string key is modelled by this datatype.
   */
  datatype GroupKey = BatchKey(batchId: int) | Individual

  /** A group of files as the dashboard renders it. */
  datatype BatchGroup = BatchGroup(batchId: Option<int>, batchName: string, files: seq<FileRecord>)

  const IndividualFilesName: string := "Individual Files"

  /**
   * `id?.toString() || 'individual'` for an optional batch id: the string of a present
   * id is never empty, so every present id, 0 included, is its own key.
   */
  function KeyOfBatchId(id: Option<int>): (r: GroupKey)
    ensures r.Individual? <==> id.None?
    ensures id.Some? ==> r.BatchKey? && r.batchId == id.value
  {
    if id.Some? then BatchKey(id.value) else Individual
  }

  /** Line 66: the key a file is grouped under. Only a file without a batch is individual. */
  function KeyOf(f: FileRecord): (r: GroupKey)
    ensures r.Individual? <==> f.batchId.None?
  {
    KeyOfBatchId(f.batchId)
  }

  /** Lines 105 and 181: the key recomputed from a group's stored batch id when it is rendered. */
  function DisplayKey(g: BatchGroup): (r: GroupKey)
    ensures r.Individual? <==> g.batchId.None?
  {
    KeyOfBatchId(g.batchId)
  }

  /** `file.batch_id || null`: batch id 0 is falsy and is stored as null. */
  function StoredBatchId(f: FileRecord): (r: Option<int>)
    ensures r.Some? <==> f.batchId.Some? && f.batchId.value != 0
    ensures r.Some? ==> r == f.batchId
  {
    if f.batchId.Some? && f.batchId.value != 0 then f.batchId else None
  }

  /** `file.batch_name || 'Individual Files'`: an absent or empty name falls back. */
  function BatchLabel(f: FileRecord): (r: string)
    ensures f.batchName.Some? && f.batchName.value != "" ==> r == f.batchName.value
    ensures f.batchName.None? || f.batchName.value == "" ==> r == IndividualFilesName
  {
    if f.batchName.Some? && f.batchName.value != "" then f.batchName.value else IndividualFilesName
  }

  /** The empty group created for the first file of a key. */
  function Header(f: FileRecord): BatchGroup {
    BatchGroup(StoredBatchId(f), BatchLabel(f), [])
  }

  /**
   * A group renders under the key it was grouped under exactly when its first file's
   * batch id is not 0: line 70 stores batch 0 as null, which renders as `individual`.
   */
  lemma RenderedKeyMatchesGroupKey(f: FileRecord)
    ensures DisplayKey(Header(f)) == KeyOf(f) <==> f.batchId != Some(0)
  {
    if f.batchId == Some(0) {
      assert StoredBatchId(f).None?;
    }
  }

  function FileId(f: FileRecord): int {
    f.id
  }

  /** `Math.max(...files.map(f => f.id))` of a non-empty list. */
  function MaxId(files: seq<FileRecord>): (m: int)
    requires files != []
    ensures exists i :: 0 <= i < |files| && files[i].id == m
    ensures forall i :: 0 <= i < |files| ==> files[i].id <= m
  {
    if |files| == 1 then files[0].id
    else
      var rest := MaxId(files[1..]);
      assert forall i :: 1 <= i < |files| ==> files[i] == files[1..][i - 1];
      if files[0].id >= rest then files[0].id else rest
  }

  /** The rank groups are ordered by: their newest file id. Groups are never empty (GroupsAreKeyClasses). */
  function NewestId(g: BatchGroup): int {
    if g.files == [] then 0 else MaxId(g.files)
  }

  // ---------------------------------------------------------------------------
  // The grouping, as a specification
  // ---------------------------------------------------------------------------

  /** The distinct keys of `files` in order of first occurrence: the key order of the `Map`. */
  function Keys(files: seq<FileRecord>): seq<GroupKey> {
    if files == [] then []
    else
      var prefix, last := files[..|files| - 1], files[|files| - 1];
      Keys(prefix) + (if KeyOf(last) in Keys(prefix) then [] else [KeyOf(last)])
  }

  /** The files with key `k`, in input order. */
  function Members(files: seq<FileRecord>, k: GroupKey): seq<FileRecord> {
    if files == [] then []
    else
      var prefix, last := files[..|files| - 1], files[|files| - 1];
      Members(prefix, k) + (if KeyOf(last) == k then [last] else [])
  }

  /** The first file with key `k`, if any. */
  function FirstWithKey(files: seq<FileRecord>, k: GroupKey): Option<FileRecord> {
    if files == [] then None
    else
      var prefix, last := files[..|files| - 1], files[|files| - 1];
      var p := FirstWithKey(prefix, k);
      if p.Some? then p else if KeyOf(last) == k then Some(last) else None
  }

  /**
   * The group built for key `k`, before its files are sorted: the header comes from
   * the first file with that key and the files are all files with that key. The
   * `None` case is a key no file has, which is never looked up.
   */
  function GroupOf(files: seq<FileRecord>, k: GroupKey): BatchGroup {
    match FirstWithKey(files, k)
    case Some(first) => Header(first).(files := Members(files, k))
    case None => BatchGroup(None, IndividualFilesName, [])
  }

  /** `group.files.sort((a, b) => b.id - a.id)`. */
  function SortFiles(g: BatchGroup): BatchGroup {
    g.(files := SortDesc(g.files, FileId))
  }

  /** `Array.from(groups.values())` right after the `forEach` of lines 65-77. */
  function Unsorted(files: seq<FileRecord>): seq<BatchGroup> {
    var ks := Keys(files);
    seq(|ks|, i requires 0 <= i < |ks| => GroupOf(files, ks[i]))
  }

  function SortEach(gs: seq<BatchGroup>): seq<BatchGroup> {
    seq(|gs|, i requires 0 <= i < |gs| => SortFiles(gs[i]))
  }

  /** The `batchGroups` memo of lines 62-90: group, sort each group, order groups by newest file. */
  function BatchGroups(files: seq<FileRecord>): seq<BatchGroup> {
    SortDesc(SortEach(Unsorted(files)), NewestId)
  }

  /** All files of all groups, group after group. */
  function Flatten(gs: seq<BatchGroup>): seq<FileRecord> {
    if gs == [] then [] else gs[0].files + Flatten(gs[1..])
  }

  // ---------------------------------------------------------------------------
  // What the specification functions mean
  // ---------------------------------------------------------------------------

  /** Position `i` holds the first file with key `k`. */
  ghost predicate IsFirstWithKey(files: seq<FileRecord>, k: GroupKey, i: int) {
    0 <= i < |files| && KeyOf(files[i]) == k && forall j :: 0 <= j < i ==> KeyOf(files[j]) != k
  }

  /** `Members` keeps exactly the files with the key. */
  lemma {:induction false} MembersSpec(files: seq<FileRecord>, k: GroupKey)
    ensures forall f :: f in Members(files, k) <==> f in files && KeyOf(f) == k
  {
    if files != [] {
      var prefix, last := files[..|files| - 1], files[|files| - 1];
      assert files == prefix + [last];
      MembersSpec(prefix, k);
    }
  }

  /** `FirstWithKey` finds the earliest file with the key, and finds none only when no file has it. */
  lemma {:induction false} FirstWithKeySpec(files: seq<FileRecord>, k: GroupKey)
    ensures FirstWithKey(files, k).None? <==> forall i :: 0 <= i < |files| ==> KeyOf(files[i]) != k
    ensures FirstWithKey(files, k).Some? ==>
      exists i :: IsFirstWithKey(files, k, i) && files[i] == FirstWithKey(files, k).value
  {
    if files != [] {
      var prefix, last := files[..|files| - 1], files[|files| - 1];
      FirstWithKeySpec(prefix, k);
      assert forall i :: 0 <= i < |prefix| ==> files[i] == prefix[i];
      if FirstWithKey(prefix, k).Some? {
        var i :| IsFirstWithKey(prefix, k, i) && prefix[i] == FirstWithKey(prefix, k).value;
        assert IsFirstWithKey(files, k, i);
      } else if KeyOf(last) == k {
        assert IsFirstWithKey(files, k, |files| - 1);
      }
    }
  }

  /** The keys are distinct and no more than the files. */
  lemma {:induction false} KeysDistinct(files: seq<FileRecord>)
    ensures forall i, j :: 0 <= i < j < |Keys(files)| ==> Keys(files)[i] != Keys(files)[j]
    ensures |Keys(files)| <= |files|
  {
    if files != [] {
      KeysDistinct(files[..|files| - 1]);
    }
  }

  /** A key is listed exactly when some file has it; a key that is not listed has no members. */
  lemma {:induction false} KeysSpec(files: seq<FileRecord>)
    ensures forall k :: k in Keys(files) <==> FirstWithKey(files, k).Some?
    ensures forall k :: k !in Keys(files) ==> Members(files, k) == []
  {
    if files != [] {
      KeysSpec(files[..|files| - 1]);
    }
  }

  /** Appending one file to the list. */
  lemma AppendFile(prefix: seq<FileRecord>, last: FileRecord, k: GroupKey)
    ensures Keys(prefix + [last]) == Keys(prefix) + (if KeyOf(last) in Keys(prefix) then [] else [KeyOf(last)])
    ensures GroupOf(prefix + [last], k)
         == if KeyOf(last) != k then GroupOf(prefix, k)
            else if k in Keys(prefix) then GroupOf(prefix, k).(files := GroupOf(prefix, k).files + [last])
            else Header(last).(files := [last])
  {
    assert (prefix + [last])[..|prefix|] == prefix;
    KeysSpec(prefix);
  }

  // ---------------------------------------------------------------------------
  // The grouping, as the component runs it
  // ---------------------------------------------------------------------------

  /**
   * Lines 63-77: one pass over the files, creating a group with the first file's
   * header when a key is new and appending the file to its group.
   */
  method CollectGroups(files: seq<FileRecord>) returns (order: seq<GroupKey>, table: map<GroupKey, BatchGroup>)
    ensures order == Keys(files)
    ensures forall k :: k in table <==> k in order
    ensures forall k :: k in table ==> table[k] == GroupOf(files, k)
  {
    order, table := [], map[];
    for i := 0 to |files|
      invariant order == Keys(files[..i])
      invariant forall k :: k in table <==> k in order
      invariant forall k :: k in table ==> table[k] == GroupOf(files[..i], k)
    {
      var file := files[i];
      var key := KeyOf(file);
      ghost var before := table;
      if key !in table {
        table := table[key := Header(file)];
        order := order + [key];
      }
      table := table[key := table[key].(files := table[key].files + [file])];
      assert files[..i + 1] == files[..i] + [file];
      AppendFile(files[..i], file, key);
      forall k | k in table ensures table[k] == GroupOf(files[..i + 1], k) {
        AppendFile(files[..i], file, k);
      }
    }
    assert files[..|files|] == files;
  }

  /** Lines 80-82: sort the files of every group in place, newest first. */
  method SortGroupFiles(order: seq<GroupKey>, table: map<GroupKey, BatchGroup>) returns (sorted: map<GroupKey, BatchGroup>)
    requires forall i, j :: 0 <= i < j < |order| ==> order[i] != order[j]
    requires forall k :: k in table <==> k in order
    ensures forall k :: k in sorted <==> k in table
    ensures forall k :: k in table ==> sorted[k] == SortFiles(table[k])
  {
    sorted := table;
    for j := 0 to |order|
      invariant forall k :: k in sorted <==> k in table
      invariant forall k :: k in sorted ==> sorted[k] == if k in order[..j] then SortFiles(table[k]) else table[k]
    {
      var key := order[j];
      assert key !in order[..j];
      assert order[..j + 1] == order[..j] + [key];
      sorted := sorted[key := sorted[key].(files := SortDesc(sorted[key].files, FileId))];
    }
    assert order[..|order|] == order;
  }

  /**
   * Lines 62-90: build the groups, sort every group's files, then sort the groups
   * by their newest file.
   */
  method GroupByBatch(files: seq<FileRecord>) returns (groups: seq<BatchGroup>)
    ensures groups == BatchGroups(files)
  {
    var order, table := CollectGroups(files);
    KeysDistinct(files);
    var sorted := SortGroupFiles(order, table);
    var values := GroupsInOrder(order, sorted);
    OrderedGroups(files, order, sorted, values);
    groups := SortDesc(values, NewestId);
  }

  /** `Array.from(groups.values())`: the groups in the order their keys were first seen. */
  method GroupsInOrder(order: seq<GroupKey>, table: map<GroupKey, BatchGroup>) returns (values: seq<BatchGroup>)
    requires forall k :: k in order ==> k in table
    ensures |values| == |order|
    ensures forall m :: 0 <= m < |order| ==> values[m] == table[order[m]]
  {
    values := [];
    for j := 0 to |order|
      invariant |values| == j
      invariant forall m :: 0 <= m < j ==> values[m] == table[order[m]]
    {
      values := values + [table[order[j]]];
    }
  }

  /** Groups read off a table of sorted groups in key order are the sorted groups of `Unsorted`. */
  lemma OrderedGroups(files: seq<FileRecord>, order: seq<GroupKey>, table: map<GroupKey, BatchGroup>, values: seq<BatchGroup>)
    requires order == Keys(files)
    requires forall k :: k in order ==> k in table && table[k] == SortFiles(GroupOf(files, k))
    requires |values| == |order|
    requires forall m :: 0 <= m < |order| ==> values[m] == table[order[m]]
    ensures values == SortEach(Unsorted(files))
  {
    assert |values| == |SortEach(Unsorted(files))|;
    forall m | 0 <= m < |values| ensures values[m] == SortEach(Unsorted(files))[m] {
      assert order[m] in order;
    }
  }

  // ---------------------------------------------------------------------------
  // Grouping is a partition
  // ---------------------------------------------------------------------------

  lemma {:induction false} FlattenAppend(a: seq<BatchGroup>, b: seq<BatchGroup>)
    ensures Flatten(a + b) == Flatten(a) + Flatten(b)
  {
    if a != [] {
      assert (a + b)[0] == a[0];
      assert (a + b)[1..] == a[1..] + b;
      FlattenAppend(a[1..], b);
      calc {
        Flatten(a + b);
        a[0].files + Flatten(a[1..] + b);
        a[0].files + (Flatten(a[1..]) + Flatten(b));
        (a[0].files + Flatten(a[1..])) + Flatten(b);
      }
    } else {
      assert a + b == b;
    }
  }

  /** Appending a file to one group adds that file to the flattened files. */
  lemma FlattenExtend(s: seq<BatchGroup>, p: int, x: FileRecord)
    requires 0 <= p < |s|
    ensures multiset(Flatten(s[p := s[p].(files := s[p].files + [x])])) == multiset(Flatten(s)) + multiset{x}
  {
    var t := s[p := s[p].(files := s[p].files + [x])];
    FlattenSplit(s, p);
    FlattenSplit(t, p);
    assert t[..p] == s[..p] && t[p + 1..] == s[p + 1..];
    assert Flatten(t) == Flatten(s[..p]) + (s[p].files + [x]) + Flatten(s[p + 1..]);
  }

  /** The files of a group list are those before group `p`, then group `p`'s, then those after. */
  lemma {:induction false} FlattenSplit(s: seq<BatchGroup>, p: int)
    requires 0 <= p < |s|
    ensures Flatten(s) == Flatten(s[..p]) + s[p].files + Flatten(s[p + 1..])
    decreases p
  {
    if p == 0 {
      assert s[..0] == [] && s[1..] == s[p + 1..];
    } else {
      FlattenSplit(s[1..], p - 1);
      assert s[1..][..p - 1] == s[..p][1..];
      assert s[1..][p - 1] == s[p] && s[1..][p..] == s[p + 1..];
      assert s[..p][0] == s[0];
    }
  }

  /** A file with a new key adds a group of its own at the end. */
  lemma UnsortedAppendNew(prefix: seq<FileRecord>, last: FileRecord)
    requires KeyOf(last) !in Keys(prefix)
    ensures Unsorted(prefix + [last]) == Unsorted(prefix) + [Header(last).(files := [last])]
  {
    var before, after := Unsorted(prefix), Unsorted(prefix + [last]);
    AppendFile(prefix, last, KeyOf(last));
    assert |after| == |before| + 1;
    assert after[|before|] == Header(last).(files := [last]);
    forall i | 0 <= i < |before| ensures after[i] == before[i] {
      AppendFile(prefix, last, Keys(prefix)[i]);
    }
  }

  /** A file with a known key joins the end of that key's group. */
  lemma UnsortedAppendOld(prefix: seq<FileRecord>, last: FileRecord, p: int)
    requires 0 <= p < |Keys(prefix)| && Keys(prefix)[p] == KeyOf(last)
    ensures var before := Unsorted(prefix);
      Unsorted(prefix + [last]) == before[p := before[p].(files := before[p].files + [last])]
  {
    var before, after := Unsorted(prefix), Unsorted(prefix + [last]);
    KeysDistinct(prefix);
    AppendFile(prefix, last, KeyOf(last));
    forall i | 0 <= i < |before| && i != p ensures after[i] == before[i] {
      AppendFile(prefix, last, Keys(prefix)[i]);
    }
  }

  /** The groups the loop has built hold exactly the files it has seen. */
  lemma {:induction false} UnsortedPartition(files: seq<FileRecord>)
    ensures multiset(Flatten(Unsorted(files))) == multiset(files)
    decreases |files|
  {
    if files != [] {
      var prefix, last := files[..|files| - 1], files[|files| - 1];
      assert files == prefix + [last];
      UnsortedPartition(prefix);
      var before := Unsorted(prefix);
      if KeyOf(last) !in Keys(prefix) {
        var g := Header(last).(files := [last]);
        UnsortedAppendNew(prefix, last);
        FlattenAppend(before, [g]);
        assert Flatten([g]) == [last] by {
          assert [g][1..] == [];
        }
        assert Flatten(Unsorted(files)) == Flatten(before) + [last];
      } else {
        var p :| 0 <= p < |Keys(prefix)| && Keys(prefix)[p] == KeyOf(last);
        UnsortedAppendOld(prefix, last, p);
        FlattenExtend(before, p, last);
        assert multiset(Flatten(Unsorted(files))) == multiset(Flatten(before)) + multiset{last};
      }
      assert multiset(files) == multiset(prefix) + multiset{last};
    }
  }

  lemma {:induction false} FlattenSameBags(a: seq<BatchGroup>, b: seq<BatchGroup>)
    requires |a| == |b|
    requires forall i :: 0 <= i < |a| ==> multiset(a[i].files) == multiset(b[i].files)
    ensures multiset(Flatten(a)) == multiset(Flatten(b))
  {
    if a != [] {
      FlattenSameBags(a[1..], b[1..]);
    }
  }

  lemma {:induction false} FlattenInsert(x: BatchGroup, s: seq<BatchGroup>)
    requires SortedDesc(s, NewestId)
    ensures multiset(Flatten(Insert(x, s, NewestId))) == multiset(x.files) + multiset(Flatten(s))
  {
    if s == [] {
      assert [x][1..] == [];
    } else if NewestId(s[0]) <= NewestId(x) {
      assert ([x] + s)[1..] == s;
    } else {
      TailSorted(s, NewestId);
      FlattenInsert(x, s[1..]);
      var t := Insert(x, s[1..], NewestId);
      assert Insert(x, s, NewestId) == [s[0]] + t;
      assert ([s[0]] + t)[1..] == t;
      assert Flatten([s[0]] + t) == s[0].files + Flatten(t);
      assert Flatten(s) == s[0].files + Flatten(s[1..]);
    }
  }

  lemma {:induction false} FlattenSort(s: seq<BatchGroup>)
    ensures multiset(Flatten(SortDesc(s, NewestId))) == multiset(Flatten(s))
  {
    if s != [] {
      FlattenSort(s[1..]);
      FlattenInsert(s[0], SortDesc(s[1..], NewestId));
    }
  }

  /** Lines 65-77: concatenating the groups' files gives back the input, up to order. */
  lemma GroupingIsPartition(files: seq<FileRecord>)
    ensures multiset(Flatten(BatchGroups(files))) == multiset(files)
  {
    var u := Unsorted(files);
    UnsortedPartition(files);
    FlattenSameBags(SortEach(u), u);
    FlattenSort(SortEach(u));
  }

  // ---------------------------------------------------------------------------
  // Shape of the groups
  // ---------------------------------------------------------------------------

  /** The key of a group's files (groups are never empty). */
  function MemberKey(g: BatchGroup): GroupKey {
    if g.files == [] then Individual else KeyOf(g.files[0])
  }

  /** `g` is the group the dashboard builds for the key of its first file. */
  ghost predicate IsGroupOf(files: seq<FileRecord>, g: BatchGroup) {
    && g.files != []
    && KeyOf(g.files[0]) in Keys(files)
    && g == SortFiles(GroupOf(files, KeyOf(g.files[0])))
  }

  /** The group laid out for the `m`-th key is built for that key and holds files of that key. */
  lemma LaidGroup(files: seq<FileRecord>, m: int)
    requires 0 <= m < |Keys(files)|
    ensures IsGroupOf(files, SortEach(Unsorted(files))[m])
    ensures MemberKey(SortEach(Unsorted(files))[m]) == Keys(files)[m]
  {
    var k := Keys(files)[m];
    KeysSpec(files);
    FirstWithKeySpec(files, k);
    MembersSpec(files, k);
    var i :| IsFirstWithKey(files, k, i) && files[i] == FirstWithKey(files, k).value;
    assert files[i] in Members(files, k);
    var g := SortEach(Unsorted(files))[m];
    assert g == SortFiles(GroupOf(files, k));
    assert GroupOf(files, k).files == Members(files, k);
    assert multiset(g.files) == multiset(Members(files, k));
    assert files[i] in multiset(g.files);
    assert g.files[0] in multiset(Members(files, k));
    assert KeyOf(g.files[0]) == k;
  }

  lemma BatchGroupsShape(files: seq<FileRecord>)
    ensures |BatchGroups(files)| <= |files|
    ensures forall i :: 0 <= i < |BatchGroups(files)| ==> IsGroupOf(files, BatchGroups(files)[i])
    ensures DistinctBy(BatchGroups(files), MemberKey)
  {
    var ks := Keys(files);
    var laid := SortEach(Unsorted(files));
    var gs := BatchGroups(files);
    KeysDistinct(files);
    forall m | 0 <= m < |laid| ensures IsGroupOf(files, laid[m]) && MemberKey(laid[m]) == ks[m] {
      LaidGroup(files, m);
    }
    SortKeepsDistinct(laid, NewestId, MemberKey);
    forall i | 0 <= i < |gs| ensures IsGroupOf(files, gs[i]) {
      assert gs[i] in multiset(laid);
    }
  }

  /** A built group holds exactly the files of its key. */
  lemma GroupMembers(files: seq<FileRecord>, g: BatchGroup)
    requires IsGroupOf(files, g)
    ensures forall a :: 0 <= a < |g.files| ==> KeyOf(g.files[a]) == KeyOf(g.files[0])
    ensures forall f :: f in files && KeyOf(f) == KeyOf(g.files[0]) ==> f in g.files
  {
    var k := KeyOf(g.files[0]);
    MembersSpec(files, k);
    assert multiset(g.files) == multiset(Members(files, k));
    forall a | 0 <= a < |g.files| ensures KeyOf(g.files[a]) == k {
      assert g.files[a] in multiset(Members(files, k));
    }
    forall f | f in files && KeyOf(f) == k ensures f in g.files {
      assert f in multiset(Members(files, k));
    }
  }

  /**
   * Lines 63-77: every group is non-empty and all its files share one key; different
   * groups have different keys; a group holds every file of its key; there are at
   * most as many groups as files.
   */
  lemma GroupsAreKeyClasses(files: seq<FileRecord>)
    ensures var gs := BatchGroups(files);
      && |gs| <= |files|
      && (forall i :: 0 <= i < |gs| ==> gs[i].files != [])
      && (forall i, a :: 0 <= i < |gs| && 0 <= a < |gs[i].files| ==> KeyOf(gs[i].files[a]) == KeyOf(gs[i].files[0]))
      && (forall i, j :: 0 <= i < j < |gs| ==> KeyOf(gs[i].files[0]) != KeyOf(gs[j].files[0]))
      && (forall i, f :: 0 <= i < |gs| && f in files && KeyOf(f) == KeyOf(gs[i].files[0]) ==> f in gs[i].files)
  {
    var gs := BatchGroups(files);
    BatchGroupsShape(files);
    forall i | 0 <= i < |gs|
      ensures forall a :: 0 <= a < |gs[i].files| ==> KeyOf(gs[i].files[a]) == KeyOf(gs[i].files[0])
      ensures forall f :: f in files && KeyOf(f) == KeyOf(gs[i].files[0]) ==> f in gs[i].files
    {
      GroupMembers(files, gs[i]);
    }
    forall i, j | 0 <= i < j < |gs| ensures KeyOf(gs[i].files[0]) != KeyOf(gs[j].files[0]) {
      assert MemberKey(gs[i]) != MemberKey(gs[j]);
    }
  }

  /** Line 81: inside a group, file ids never increase. */
  lemma GroupFilesNewestFirst(files: seq<FileRecord>)
    ensures var gs := BatchGroups(files);
      forall i, a, b :: 0 <= i < |gs| && 0 <= a < b < |gs[i].files| ==> gs[i].files[a].id >= gs[i].files[b].id
  {
    var gs := BatchGroups(files);
    BatchGroupsShape(files);
    forall i, a, b | 0 <= i < |gs| && 0 <= a < b < |gs[i].files|
      ensures gs[i].files[a].id >= gs[i].files[b].id
    {
      assert SortedDesc(gs[i].files, FileId);
      assert FileId(gs[i].files[a]) >= FileId(gs[i].files[b]);
    }
  }

  /**
   * Lines 85-89: groups come in non-increasing order of their newest file id, so the
   * newest file of a group is at least as new as every file of any later group.
   */
  lemma GroupsNewestFirst(files: seq<FileRecord>)
    ensures var gs := BatchGroups(files);
      && (forall i :: 0 <= i < |gs| ==> gs[i].files != [])
      && (forall i, j, b :: 0 <= i < j < |gs| && 0 <= b < |gs[j].files| ==> MaxId(gs[i].files) >= gs[j].files[b].id)
  {
    var gs := BatchGroups(files);
    BatchGroupsShape(files);
    forall i, j, b | 0 <= i < j < |gs| && 0 <= b < |gs[j].files|
      ensures MaxId(gs[i].files) >= gs[j].files[b].id
    {
      assert NewestId(gs[i]) >= NewestId(gs[j]);
    }
  }

  /**
   * Lines 66-71: a group takes its header from the first input file with its key: the
   * batch id as `batch_id || null` and the name as `batch_name || 'Individual Files'`.
   */
  lemma GroupHeaders(files: seq<FileRecord>)
    ensures var gs := BatchGroups(files);
      forall i :: 0 <= i < |gs| ==>
        && gs[i].files != []
        && FirstWithKey(files, KeyOf(gs[i].files[0])).Some?
        && gs[i].batchId == StoredBatchId(FirstWithKey(files, KeyOf(gs[i].files[0])).value)
        && gs[i].batchName == BatchLabel(FirstWithKey(files, KeyOf(gs[i].files[0])).value)
  {
    var gs := BatchGroups(files);
    BatchGroupsShape(files);
    KeysSpec(files);
  }

  lemma {:induction false} InFlatten(gs: seq<BatchGroup>, f: FileRecord)
    requires f in Flatten(gs)
    ensures exists i :: 0 <= i < |gs| && f in gs[i].files
  {
    if f !in gs[0].files {
      InFlatten(gs[1..], f);
      var i :| 0 <= i < |gs[1..]| && f in gs[1..][i].files;
      assert gs[i + 1] == gs[1..][i];
    }
  }

  /**
   * Lines 70 and 181: a file in batch 0 gets a group of its own (key "0"), but that
   * group stores batch id null, so its rendered key is 'individual', the same as the
   * group of files without a batch.
   */
  lemma BatchZeroSharesIndividualKey(files: seq<FileRecord>, zero: FileRecord, loose: FileRecord)
    requires zero in files && zero.batchId == Some(0)
    requires loose in files && loose.batchId == None
    ensures var gs := BatchGroups(files);
      exists a, b :: 0 <= a < |gs| && 0 <= b < |gs| && a != b
        && DisplayKey(gs[a]) == Individual && DisplayKey(gs[b]) == Individual
  {
    var gs := BatchGroups(files);
    var a := GroupHolding(files, zero);
    var b := GroupHolding(files, loose);
    FirstWithKeySpec(files, BatchKey(0));
    var first := FirstWithKey(files, BatchKey(0)).value;
    assert KeyOf(first) == BatchKey(0);
    FirstWithKeySpec(files, Individual);
    var other := FirstWithKey(files, Individual).value;
    assert KeyOf(other) == Individual;
    assert gs[a].batchId == None && gs[b].batchId == None;
    assert a != b by {
      assert KeyOf(gs[a].files[0]) != KeyOf(gs[b].files[0]);
    }
  }

  /** The group that holds a file is the one of the file's key, headed by the first file with that key. */
  lemma GroupHolding(files: seq<FileRecord>, f: FileRecord) returns (a: nat)
    requires f in files
    ensures var gs := BatchGroups(files);
      && a < |gs| && f in gs[a].files && KeyOf(gs[a].files[0]) == KeyOf(f)
      && FirstWithKey(files, KeyOf(f)).Some?
      && gs[a].batchId == StoredBatchId(FirstWithKey(files, KeyOf(f)).value)
  {
    var gs := BatchGroups(files);
    GroupingIsPartition(files);
    GroupsAreKeyClasses(files);
    GroupHeaders(files);
    assert f in multiset(Flatten(gs));
    InFlatten(gs, f);
    a :| 0 <= a < |gs| && f in gs[a].files;
    var i :| 0 <= i < |gs[a].files| && gs[a].files[i] == f;
  }

  /** Ids 5 and 3 in batch 2 followed by id 7 without a batch. */
  ghost predicate ExampleFiles(f5: FileRecord, f3: FileRecord, f7: FileRecord) {
    && f5.id == 5 && f5.batchId == Some(2) && f5.batchName == Some("Batch 2")
    && f3.id == 3 && f3.batchId == Some(2) && f3.batchName == Some("Batch 2")
    && f7.id == 7 && f7.batchId == None && f7.batchName == None
  }

  lemma ExampleKeys(f5: FileRecord, f3: FileRecord, f7: FileRecord)
    requires ExampleFiles(f5, f3, f7)
    ensures Keys([f5, f3, f7]) == [BatchKey(2), Individual]
    ensures Members([f5, f3], Individual) == [] && FirstWithKey([f5, f3], Individual) == None
    ensures Members([f5, f3], BatchKey(2)) == [f5, f3] && FirstWithKey([f5, f3], BatchKey(2)) == Some(f5)
  {
    assert [f5, f3, f7][..2] == [f5, f3] && [f5, f3][..1] == [f5] && [f5][..0] == [];
    assert KeyOf(f5) == BatchKey(2) && KeyOf(f3) == BatchKey(2) && KeyOf(f7) == Individual;
    assert Keys([f5]) == [BatchKey(2)];
    assert Keys([f5, f3]) == [BatchKey(2)];
    assert Members([f5][..0], Individual) == [] && FirstWithKey([f5][..0], Individual) == None;
    assert Members([f5], Individual) == [] && FirstWithKey([f5], Individual) == None;
    assert Members([f5], BatchKey(2)) == [f5] && FirstWithKey([f5], BatchKey(2)) == Some(f5);
  }

  lemma ExampleUnsorted(f5: FileRecord, f3: FileRecord, f7: FileRecord)
    requires ExampleFiles(f5, f3, f7)
    ensures Unsorted([f5, f3, f7])
         == [BatchGroup(Some(2), "Batch 2", [f5, f3]), BatchGroup(None, IndividualFilesName, [f7])]
  {
    var files := [f5, f3, f7];
    ExampleKeys(f5, f3, f7);
    assert files[..2] == [f5, f3];
    assert Members(files, BatchKey(2)) == [f5, f3] && FirstWithKey(files, BatchKey(2)) == Some(f5);
    assert Members(files, Individual) == [f7] && FirstWithKey(files, Individual) == Some(f7);
    assert GroupOf(files, BatchKey(2)) == BatchGroup(Some(2), "Batch 2", [f5, f3]);
    assert GroupOf(files, Individual) == BatchGroup(None, IndividualFilesName, [f7]);
  }

  /** Two files already newest first stay as they are. */
  lemma TwoSorted(a: FileRecord, b: FileRecord)
    requires a.id > b.id
    ensures SortDesc([a, b], FileId) == [a, b]
  {
    assert [a, b][1..] == [b] && [b][1..] == [];
    assert SortDesc([b], FileId) == [b];
  }

  lemma ExampleEachSorted(f5: FileRecord, f3: FileRecord, f7: FileRecord)
    requires ExampleFiles(f5, f3, f7)
    ensures SortEach(Unsorted([f5, f3, f7]))
         == [BatchGroup(Some(2), "Batch 2", [f5, f3]), BatchGroup(None, IndividualFilesName, [f7])]
  {
    var g2 := BatchGroup(Some(2), "Batch 2", [f5, f3]);
    var gi := BatchGroup(None, IndividualFilesName, [f7]);
    ExampleUnsorted(f5, f3, f7);
    TwoSorted(f5, f3);
    assert SortFiles(g2) == g2;
    assert SortFiles(gi) == gi by {
      assert [f7][1..] == [];
    }
    SortEachTwo(g2, gi);
  }

  /** Two groups whose files are already sorted are left as they are. */
  lemma SortEachTwo(g: BatchGroup, h: BatchGroup)
    requires SortFiles(g) == g && SortFiles(h) == h
    ensures SortEach([g, h]) == [g, h]
  {
  }

  /**
   * A worked example: ids 5 and 3 in batch 2 and id 7 without a batch
   * give the group of individual files [7] first, then batch 2 with [5, 3].
   */
  lemma GroupingExample(f5: FileRecord, f3: FileRecord, f7: FileRecord)
    requires ExampleFiles(f5, f3, f7)
    ensures BatchGroups([f5, f3, f7])
         == [BatchGroup(None, IndividualFilesName, [f7]), BatchGroup(Some(2), "Batch 2", [f5, f3])]
  {
    var g2 := BatchGroup(Some(2), "Batch 2", [f5, f3]);
    var gi := BatchGroup(None, IndividualFilesName, [f7]);
    ExampleEachSorted(f5, f3, f7);
    assert NewestId(g2) == 5 by {
      assert MaxId([f5, f3]) == 5 by { assert [f5, f3][1..] == [f3]; }
    }
    assert NewestId(gi) == 7;
    NewerGroupFirst(g2, gi);
  }

  /** Of two groups, the one with the newer file comes first. */
  lemma NewerGroupFirst(g: BatchGroup, h: BatchGroup)
    requires NewestId(g) < NewestId(h)
    ensures SortDesc([g, h], NewestId) == [h, g]
  {
    assert [g, h][1..] == [h] && [h][1..] == [];
    assert SortDesc([h], NewestId) == [h];
    assert Insert(g, [h][1..], NewestId) == [g];
  }

  // ---------------------------------------------------------------------------
  // Status tally
  // ---------------------------------------------------------------------------

  /** How many files have status `st`. */
  function CountOf(files: seq<FileRecord>, st: FileStatus): (n: nat)
    ensures n <= |files|
    ensures n > 0 <==> exists i :: 0 <= i < |files| && files[i].status == st
  {
    if files == [] then 0
    else
      var prefix, last := files[..|files| - 1], files[|files| - 1];
      assert forall i :: 0 <= i < |prefix| ==> files[i] == prefix[i];
      CountOf(prefix, st) + (if last.status == st then 1 else 0)
  }

  /**
   * Lines 56-59 (and 216-219 for one group): `files.reduce` into a record from status
   * to count. A status is a key exactly when some file has it, and its count is the
   * number of such files.
   */
  method CountStatuses(files: seq<FileRecord>) returns (counts: map<FileStatus, nat>)
    ensures forall st :: st in counts <==> exists i :: 0 <= i < |files| && files[i].status == st
    ensures forall st :: st in counts ==> counts[st] == CountOf(files, st) && counts[st] >= 1
  {
    counts := map[];
    for i := 0 to |files|
      invariant forall st :: st in counts <==> CountOf(files[..i], st) > 0
      invariant forall st :: st in counts ==> counts[st] == CountOf(files[..i], st)
    {
      var st := files[i].status;
      counts := counts[st := (if st in counts then counts[st] else 0) + 1];
      forall s ensures CountOf(files[..i + 1], s) == CountOf(files[..i], s) + (if s == st then 1 else 0) {
        CountOfStep(files, i, s);
      }
    }
    assert files[..|files|] == files;
  }

  /** Counting one more file of the list. */
  lemma CountOfStep(files: seq<FileRecord>, i: nat, st: FileStatus)
    requires i < |files|
    ensures CountOf(files[..i + 1], st) == CountOf(files[..i], st) + (if files[i].status == st then 1 else 0)
  {
    assert files[..i + 1][..i] == files[..i];
  }

  /** The five counts add up to the number of files. */
  lemma {:induction false} TallySumsToLength(files: seq<FileRecord>)
    ensures CountOf(files, Uploaded) + CountOf(files, Queued) + CountOf(files, Processing)
          + CountOf(files, Completed) + CountOf(files, Failed) == |files|
  {
    if files != [] {
      TallySumsToLength(files[..|files| - 1]);
    }
  }

  lemma {:induction false} CountOfAppend(a: seq<FileRecord>, b: seq<FileRecord>, st: FileStatus)
    ensures CountOf(a + b, st) == CountOf(a, st) + CountOf(b, st)
    decreases |b|
  {
    if b == [] {
      assert a + b == a;
    } else {
      assert (a + b)[..|a + b| - 1] == a + b[..|b| - 1];
      assert (a + b)[|a + b| - 1] == b[|b| - 1];
      CountOfAppend(a, b[..|b| - 1], st);
    }
  }

  lemma CountOfRemove(b: seq<FileRecord>, i: int, st: FileStatus)
    requires 0 <= i < |b|
    ensures CountOf(b, st) == CountOf(b[..i] + b[i + 1..], st) + (if b[i].status == st then 1 else 0)
  {
    assert b == b[..i] + [b[i]] + b[i + 1..];
    CountOfAppend(b[..i] + [b[i]], b[i + 1..], st);
    CountOfAppend(b[..i], [b[i]], st);
    CountOfAppend(b[..i], b[i + 1..], st);
    assert [b[i]][..0] == [];
  }

  /** Counting does not depend on order. */
  lemma {:induction false} CountOfPermutation(a: seq<FileRecord>, b: seq<FileRecord>, st: FileStatus)
    requires multiset(a) == multiset(b)
    ensures CountOf(a, st) == CountOf(b, st)
    decreases |a|
  {
    if a != [] {
      var prefix, x := a[..|a| - 1], a[|a| - 1];
      assert a == prefix + [x];
      assert x in multiset(b);
      var i :| 0 <= i < |b| && b[i] == x;
      var rest := b[..i] + b[i + 1..];
      assert b == b[..i] + [x] + b[i + 1..];
      assert multiset(prefix) == multiset(a) - multiset{x} by {
        assert multiset(a) == multiset(prefix) + multiset{x};
      }
      assert multiset(rest) == multiset(b) - multiset{x} by {
        assert multiset(b) == multiset(b[..i]) + multiset{x} + multiset(b[i + 1..]);
        assert multiset(rest) == multiset(b[..i]) + multiset(b[i + 1..]);
      }
      CountOfPermutation(prefix, rest, st);
      CountOfRemove(b, i, st);
    }
  }

  /** The per-group tallies of status `st`, summed over the groups. */
  function GroupCount(gs: seq<BatchGroup>, st: FileStatus): nat {
    if gs == [] then 0 else CountOf(gs[0].files, st) + GroupCount(gs[1..], st)
  }

  lemma {:induction false} GroupCountIsFlattenCount(gs: seq<BatchGroup>, st: FileStatus)
    ensures GroupCount(gs, st) == CountOf(Flatten(gs), st)
  {
    if gs != [] {
      GroupCountIsFlattenCount(gs[1..], st);
      CountOfAppend(gs[0].files, Flatten(gs[1..]), st);
    }
  }

  /** Lines 216-219 against 56-59: the per-batch tallies add up to the global tally. */
  lemma PerBatchTalliesSumToGlobal(files: seq<FileRecord>, st: FileStatus)
    ensures GroupCount(BatchGroups(files), st) == CountOf(files, st)
  {
    GroupingIsPartition(files);
    GroupCountIsFlattenCount(BatchGroups(files), st);
    CountOfPermutation(Flatten(BatchGroups(files)), files, st);
  }

  // ---------------------------------------------------------------------------
  // View state
  // ---------------------------------------------------------------------------

  /** Line 135: clicking a status card selects it, or clears the filter if it is selected. */
  function NextStatusFilter(current: Option<FileStatus>, clicked: FileStatus): (r: Option<FileStatus>)
    ensures r.None? <==> current == Some(clicked)
    ensures r.Some? ==> r.value == clicked
  {
    if current == Some(clicked) then None else Some(clicked)
  }

  /** Lines 93-98: the expanded set with membership of `k` flipped. */
  function Toggled(expanded: set<GroupKey>, k: GroupKey): (r: set<GroupKey>)
    ensures k in r <==> k !in expanded
    ensures forall other :: other != k ==> (other in r <==> other in expanded)
  {
    if k in expanded then expanded - {k} else expanded + {k}
  }

  /** Toggling the same key twice restores the set. */
  lemma ToggleTwiceRestores(expanded: set<GroupKey>, k: GroupKey)
    ensures Toggled(Toggled(expanded, k), k) == expanded
  {
  }

  /** The keys of the rendered groups (line 105). */
  function DisplayKeys(groups: seq<BatchGroup>): (r: set<GroupKey>)
    ensures forall k :: k in r <==> exists i :: 0 <= i < |groups| && DisplayKey(groups[i]) == k
  {
    set i | 0 <= i < |groups| :: DisplayKey(groups[i])
  }

  /**
   * Lines 103-108: when the group count changed since the last render (or on the first
   * render), there are groups and nothing is expanded, expand every group.
   */
  function AutoExpanded(lastCount: Option<nat>, groups: seq<BatchGroup>, expanded: set<GroupKey>): (r: set<GroupKey>)
    ensures lastCount != Some(|groups|) && |groups| > 0 && expanded == {} ==> r == DisplayKeys(groups)
    ensures !(lastCount != Some(|groups|) && |groups| > 0 && expanded == {}) ==> r == expanded
    ensures r == {} ==> expanded == {}
  {
    if lastCount != Some(|groups|) && |groups| > 0 && expanded == {} then
      assert DisplayKey(groups[0]) in DisplayKeys(groups);
      DisplayKeys(groups)
    else expanded
  }

  /** The component's own state: the status filter and the expanded groups. */
  class DashboardView {
    /** `statusFilter`, where '' is `None`. */
    var statusFilter: Option<FileStatus>
    var expanded: set<GroupKey>
    /** The group count of the last render, the dependency of the auto-expand effect. */
    var lastGroupCount: Option<nat>

    constructor()
      ensures statusFilter == None && expanded == {} && lastGroupCount == None
    {
      statusFilter := None;
      expanded := {};
      lastGroupCount := None;
    }

    /** Line 135. */
    method ClickStatus(clicked: FileStatus)
      modifies this
      ensures statusFilter == NextStatusFilter(old(statusFilter), clicked)
      ensures expanded == old(expanded) && lastGroupCount == old(lastGroupCount)
    {
      statusFilter := NextStatusFilter(statusFilter, clicked);
    }

    /** Line 154: the "All" button clears the filter. */
    method ShowAll()
      modifies this
      ensures statusFilter == None
      ensures expanded == old(expanded) && lastGroupCount == old(lastGroupCount)
    {
      statusFilter := None;
    }

    /** Lines 92-100. */
    method ToggleBatchExpansion(k: GroupKey)
      modifies this
      ensures expanded == Toggled(old(expanded), k)
      ensures statusFilter == old(statusFilter) && lastGroupCount == old(lastGroupCount)
    {
      var next := expanded;
      if k in next {
        next := next - {k};
      } else {
        next := next + {k};
      }
      expanded := next;
    }

    /** Lines 103-108, run after a render that produced `groups`. */
    method AfterRender(groups: seq<BatchGroup>)
      modifies this
      ensures expanded == AutoExpanded(old(lastGroupCount), groups, old(expanded))
      ensures lastGroupCount == Some(|groups|)
      ensures statusFilter == old(statusFilter)
    {
      if lastGroupCount != Some(|groups|) && |groups| > 0 && expanded == {} {
        expanded := DisplayKeys(groups);
      }
      lastGroupCount := Some(|groups|);
    }
  }

  /**
   * Auto-expansion is not one-shot: after the user collapses every group, a change
   * in the number of groups expands them all again.
   */
  method AutoExpandRefires(one: BatchGroup, two: BatchGroup) returns (expandedAtEnd: set<GroupKey>)
    requires DisplayKey(one) != DisplayKey(two)
    ensures expandedAtEnd == {DisplayKey(one), DisplayKey(two)}
  {
    var view := new DashboardView();
    assert DisplayKeys([one]) == {DisplayKey(one)} by {
      forall k ensures k in DisplayKeys([one]) <==> k == DisplayKey(one) {
        if k == DisplayKey(one) { assert DisplayKey([one][0]) == k; }
      }
    }
    assert DisplayKeys([one, two]) == {DisplayKey(one), DisplayKey(two)} by {
      forall k ensures k in DisplayKeys([one, two]) <==> k == DisplayKey(one) || k == DisplayKey(two) {
        if k == DisplayKey(one) { assert DisplayKey([one, two][0]) == k; }
        if k == DisplayKey(two) { assert DisplayKey([one, two][1]) == k; }
      }
    }
    view.AfterRender([one]);
    assert view.expanded == {DisplayKey(one)};
    view.ToggleBatchExpansion(DisplayKey(one));
    assert view.expanded == {};
    view.AfterRender([one, two]);
    expandedAtEnd := view.expanded;
  }
}

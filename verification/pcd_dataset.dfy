/**
 * `PointCloudDataset` and `collate_fn` (pcd_dataset.py): the index of one
 * density bucket, item access that turns a read failure into a sentinel
 * pair, and batch assembly that drops the sentinels.
 */
module PcdDataset {
  import opened Wrappers
  import opened Seqs
  import opened PurePaths
  import opened Decimal
  import opened FileTree

  /** The only suffix the index accepts, compared exactly (no lower-casing). */
  const IndexedSuffix: string := ".ply"

  /** The entry test of the index scan; unlike the sampling loop it is case-sensitive and keeps "._" names. */
  predicate IsIndexed(e: Entry)
  {
    e.isFile && Suffix(e.name) == IndexedSuffix
  }

  /**
   * A constructed dataset: `dataFolder` is `<root>/ply`, `files` the indexed
   * paths in listing order and `labels` their stems.
   */
  datatype Dataset = Dataset(dataFolder: Path, pointNumbers: int, files: seq<Path>, labels: seq<string>)

  /** The folder a dataset for `root` and density `n` scans: `<root>/ply/str(n)`. */
  function Bucket(root: Path, n: int): Path
  {
    Join(Join(root, "ply"), IntToStr(n))
  }

  /** The index invariant: one label per file, each the stem of a ".ply" file inside the bucket. */
  predicate Valid(d: Dataset)
  {
    && |d.files| == |d.labels|
    && forall k :: 0 <= k < |d.files| ==>
         Parent(d.files[k]) == Join(d.dataFolder, IntToStr(d.pointNumbers)) &&
         IsIndexed(Entry(Name(d.files[k]), true)) &&
         d.labels[k] == Stem(Name(d.files[k]))
  }

  /** The scan loop of `__init__`: a path and a label for each indexed entry of the listing. */
  function Scan(folder: Path, listing: seq<Entry>): (r: (seq<Path>, seq<string>))
    ensures |r.0| == |r.1| == |Filter(listing, IsIndexed)|
  {
    (MapFilter(listing, IsIndexed, (e: Entry) => Join(folder, e.name)), MapFilter(listing, IsIndexed, (e: Entry) => Stem(e.name)))
  }

  /** The scan follows listing order: the k-th path and label come from the k-th indexed entry. */
  lemma {:induction false} ScanAt(folder: Path, listing: seq<Entry>)
    ensures var r := Scan(folder, listing);
      forall k :: 0 <= k < |r.0| ==>
        r.0[k] == Join(folder, Filter(listing, IsIndexed)[k].name) && r.1[k] == Stem(Filter(listing, IsIndexed)[k].name)
  {
    MapFilterAt(listing, IsIndexed, (e: Entry) => Join(folder, e.name));
    MapFilterAt(listing, IsIndexed, (e: Entry) => Stem(e.name));
  }

  /** Listing a directory: `Some(entries)`, or `None` where `iterdir` raises (missing folder). */
  type Lister = Path -> Option<seq<Entry>>

  /**
   * `PointCloudDataset(data_folder, point_numbers)`. Construction scans
   * `<root>/ply/str(n)` once and fails exactly when that folder cannot be
   * listed; the index it builds keeps the dataset invariant and holds one
   * entry per ".ply" file of the listing.
   */
  function NewDataset(root: Path, n: int, listDir: Lister): (r: Option<Dataset>)
    ensures r.Some? <==> listDir(Bucket(root, n)).Some?
    ensures r.Some? ==> Valid(r.value) && r.value.dataFolder == Join(root, "ply") && r.value.pointNumbers == n
    ensures r.Some? ==> |r.value.files| == |Filter(listDir(Bucket(root, n)).value, IsIndexed)|
  {
    match listDir(Bucket(root, n))
    case None => None
    case Some(entries) =>
      var index := Scan(Bucket(root, n), entries);
      var d := Dataset(Join(root, "ply"), n, index.0, index.1);
      assert Valid(d) by {
        ScanAt(Bucket(root, n), entries);
        forall k | 0 <= k < |d.files|
          ensures IsIndexed(Entry(Name(d.files[k]), true))
        {
          FilterMembers(entries, IsIndexed);
          assert IsIndexed(Filter(entries, IsIndexed)[k]);
        }
      }
      Some(d)
  }

  /**
   * Files and labels follow listing order: the k-th file of a constructed
   * dataset is the bucket path of the k-th indexed entry, and its label is
   * that entry's stem.
   */
  lemma {:induction false} DatasetFollowsListing(root: Path, n: int, listDir: Lister)
    requires listDir(Bucket(root, n)).Some?
    ensures var d := NewDataset(root, n, listDir).value;
            var src := Filter(listDir(Bucket(root, n)).value, IsIndexed);
      forall k :: 0 <= k < |d.files| ==> d.files[k] == Join(Bucket(root, n), src[k].name) && d.labels[k] == Stem(src[k].name)
  {
    ScanAt(Bucket(root, n), listDir(Bucket(root, n)).value);
  }

  /** `__len__`. */
  function Length(d: Dataset): nat
  {
    |d.files|
  }

  /**
   * `__len__` counts the ".ply" files of the bucket, and an entry of the
   * listing is indexed exactly when it is a regular file with suffix ".ply".
   */
  lemma {:induction false} IndexedIff(root: Path, n: int, listDir: Lister, e: Entry)
    requires listDir(Bucket(root, n)).Some?
    requires DistinctNames(listDir(Bucket(root, n)).value)
    requires e in listDir(Bucket(root, n)).value
    ensures Length(NewDataset(root, n, listDir).value) == |Filter(listDir(Bucket(root, n)).value, IsIndexed)|
    ensures Join(Bucket(root, n), e.name) in NewDataset(root, n, listDir).value.files <==> IsIndexed(e)
  {
    ScanIff(Bucket(root, n), listDir(Bucket(root, n)).value, e);
  }

  /** In a listing with distinct names, an entry's path is scanned exactly when the entry is indexed. */
  lemma {:induction false} ScanIff(folder: Path, entries: seq<Entry>, e: Entry)
    requires DistinctNames(entries)
    requires e in entries
    ensures Join(folder, e.name) in Scan(folder, entries).0 <==> IsIndexed(e)
  {
    var src := Filter(entries, IsIndexed);
    var files := Scan(folder, entries).0;
    ScanAt(folder, entries);
    FilterMembers(entries, IsIndexed);
    var i :| 0 <= i < |entries| && entries[i] == e;
    if IsIndexed(e) {
      var k :| 0 <= k < |src| && src[k] == e;
      assert files[k] == Join(folder, e.name);
    }
    if Join(folder, e.name) in files {
      var k :| 0 <= k < |files| && files[k] == Join(folder, e.name);
      assert Name(files[k]) == src[k].name == e.name;
      var j :| 0 <= j < |entries| && entries[j] == src[k];
      assert i == j;
    }
  }

  /**
   * The index test stated without pathlib: a file is indexed exactly when its
   * name ends, in exactly this letter case, with ".ply" after at least one
   * other character.
   */
  lemma {:induction false} IndexedEndingIff(e: Entry)
    ensures IsIndexed(e) <==> e.isFile && |e.name| >= 5 && e.name[|e.name| - 4..] == IndexedSuffix
  {
    var n := e.name;
    if |n| >= 5 && n[|n| - 4..] == IndexedSuffix {
      var stem := n[..|n| - 4];
      assert n == stem + IndexedSuffix;
      assert IsSuffix(IndexedSuffix);
      SplitJoined(stem, IndexedSuffix);
    }
  }

  /** The index is case-sensitive and has no resource-fork exclusion. */
  lemma IndexedExamples()
    ensures IsIndexed(Entry("part_a.ply", true))
    ensures IsIndexed(Entry("._part_a.ply", true))
    ensures !IsIndexed(Entry("part_a.PLY", true))
    ensures !IsIndexed(Entry("part_a.ply", false))
    ensures !IsIndexed(Entry(".ply", true))
  {
    IndexedAccepts();
    IndexedRejects();
  }

  lemma IndexedAccepts()
    ensures IsIndexed(Entry("part_a.ply", true))
    ensures IsIndexed(Entry("._part_a.ply", true))
  {
    SplitJoined("part_a", ".ply");
    assert "part_a" + ".ply" == "part_a.ply";
    SplitJoined("._part_a", ".ply");
    assert "._part_a" + ".ply" == "._part_a.ply";
  }

  lemma IndexedRejects()
    ensures !IsIndexed(Entry("part_a.PLY", true))
    ensures !IsIndexed(Entry(".ply", true))
  {
    SplitJoined("part_a", ".PLY");
    assert "part_a" + ".PLY" == "part_a.PLY";
    LeadingDotOnly(".ply");
  }

  /** What `__getitem__` returns: `(points, label)`, the label being a file stem, or the sentinel `(None, None)`. */
  datatype Item = Item(points: Option<PointCloud>, stem: Option<string>)

  const Sentinel: Item := Item(None, None)

  /** Reading a PLY file into a tensor: `Some(cloud)`, or `None` where reading raised. */
  type Reader = Path -> Option<PointCloud>

  /** The `IndexError` of a list index outside `-len .. len - 1`. */
  datatype IndexError = IndexError(index: int)

  /** Points and label are both present or both absent. */
  predicate Aligned(it: Item)
  {
    it.points.Some? <==> it.stem.Some?
  }

  /**
   * `__getitem__(idx)`, with Python's negative indexing. A valid index reads
   * the file afresh and gives its points with its label, or the sentinel
   * when the read fails; no read failure escapes, and the result is always
   * aligned.
   */
  function GetItem(d: Dataset, idx: int, reader: Reader): (r: Result<Item, IndexError>)
    requires |d.files| == |d.labels|
    ensures r.Success? <==> -|d.files| <= idx < |d.files|
    ensures r.Success? ==> Aligned(r.value)
    ensures r.Success? ==>
      var j := if idx < 0 then |d.files| + idx else idx;
      (r.value == Sentinel <==> reader(d.files[j]).None?) &&
      (r.value != Sentinel ==> r.value.points == reader(d.files[j]) && r.value.stem == Some(d.labels[j]))
  {
    if idx < -|d.files| || idx >= |d.files| then Failure(IndexError(idx))
    else
      var j := if idx < 0 then |d.files| + idx else idx;
      match reader(d.files[j])
      case Some(points) => Success(Item(Some(points), Some(d.labels[j])))
      case None => Success(Sentinel)
  }

  /**
   * `points is not None` and `label is not None`, the two tests of the
   * comprehensions in `collate_fn`, as first-class predicates handed to
   * `Filter`; keeping them apart is what lets the model show that the two
   * comprehensions can disagree.
   */
  predicate HasPoints(it: Item)
  {
    it.points.Some?
  }

  predicate HasLabel(it: Item)
  {
    it.stem.Some?
  }

  /** `[p for p in points if p is not None]`. */
  function PointsOf(batch: seq<Item>): seq<PointCloud>
  {
    if |batch| == 0 then []
    else if batch[0].points.Some? then [batch[0].points.value] + PointsOf(batch[1..])
    else PointsOf(batch[1..])
  }

  /** `[l for l in labels if l is not None]`. */
  function LabelsOf(batch: seq<Item>): seq<string>
  {
    if |batch| == 0 then []
    else if batch[0].stem.Some? then [batch[0].stem.value] + LabelsOf(batch[1..])
    else LabelsOf(batch[1..])
  }

  /** The surviving points are those of the items that have points, in batch order. */
  lemma {:induction false} PointsOfFilter(batch: seq<Item>)
    ensures |PointsOf(batch)| == |Filter(batch, HasPoints)|
    ensures forall k :: 0 <= k < |PointsOf(batch)| ==> Filter(batch, HasPoints)[k].points == Some(PointsOf(batch)[k])
  {
    if |batch| > 0 {
      PointsOfFilter(batch[1..]);
    }
  }

  /** The surviving labels are those of the items that have labels, in batch order. */
  lemma {:induction false} LabelsOfFilter(batch: seq<Item>)
    ensures |LabelsOf(batch)| == |Filter(batch, HasLabel)|
    ensures forall k :: 0 <= k < |LabelsOf(batch)| ==> Filter(batch, HasLabel)[k].stem == Some(LabelsOf(batch)[k])
  {
    if |batch| > 0 {
      LabelsOfFilter(batch[1..]);
    }
  }

  /**
   * Because every item is aligned, filtering points and labels separately
   * removes the same items: the survivors are the non-sentinel items in
   * their original order, and the k-th points belong with the k-th label.
   */
  lemma {:induction false} SurvivorsAligned(batch: seq<Item>)
    requires forall k :: 0 <= k < |batch| ==> Aligned(batch[k])
    ensures |PointsOf(batch)| == |LabelsOf(batch)| == |Filter(batch, it => it != Sentinel)|
    ensures forall k :: 0 <= k < |PointsOf(batch)| ==>
      Item(Some(PointsOf(batch)[k]), Some(LabelsOf(batch)[k])) == Filter(batch, it => it != Sentinel)[k]
  {
    PointsOfFilter(batch);
    LabelsOfFilter(batch);
    FilterCongruent(batch, HasPoints, HasLabel);
    FilterCongruent(batch, HasPoints, it => it != Sentinel);
  }

  /** Without the `(None, None)` sentinel the separate filters can pair a cloud with another item's label. */
  lemma {:induction false} MisalignedItemsMispair(c: PointCloud)
    ensures var batch := [Item(Some(c), None), Item(None, Some("part_b"))];
      PointsOf(batch) == [c] && LabelsOf(batch) == ["part_b"]
  {
    var batch := [Item(Some(c), None), Item(None, Some("part_b"))];
    var tail := batch[1..];
    assert tail == [Item(None, Some("part_b"))] && tail[1..] == [];
    assert PointsOf(tail) == PointsOf(tail[1..]) == [];
    assert LabelsOf(tail) == [tail[0].stem.value] + LabelsOf(tail[1..]) == ["part_b"];
  }

  /** A stacked batch: the clouds in order, their common point count, and the encoded labels. */
  datatype Batch = Batch(points: seq<PointCloud>, pointCount: nat, labels: seq<int>)

  /** How `collate_fn` can fail: unpacking an empty batch, stacking nothing, stacking unequal shapes, encoding labels. */
  datatype CollateError = EmptyBatch | NothingToStack | ShapeMismatch | LabelEncodingFailed

  /** `torch.tensor(labels, dtype=torch.long)`: `None` where the conversion raises. */
  type Encoder = seq<string> -> Option<seq<int>>

  predicate SameCount(clouds: seq<PointCloud>)
  {
    forall k :: 0 <= k < |clouds| ==> clouds[k].count == clouds[0].count
  }

  /**
   * `collate_fn(batch)`: drop the absent points and labels, stack the clouds
   * (all of one point count) and encode the labels. It succeeds exactly when
   * the batch is non-empty, some cloud survives, all survivors have the same
   * count and the labels encode; the stacked clouds are the survivors in
   * order.
   */
  function Collate(batch: seq<Item>, encode: Encoder): (r: Result<Batch, CollateError>)
    ensures r.Success? <==>
      |batch| > 0 && |PointsOf(batch)| > 0 && SameCount(PointsOf(batch)) && encode(LabelsOf(batch)).Some?
    ensures r.Success? ==>
      r.value.points == PointsOf(batch) && r.value.labels == encode(LabelsOf(batch)).value &&
      forall k :: 0 <= k < |r.value.points| ==> r.value.points[k].count == r.value.pointCount
    ensures r == Failure(ShapeMismatch) <==>
      |batch| > 0 && |PointsOf(batch)| > 0 && !SameCount(PointsOf(batch))
  {
    if |batch| == 0 then Failure(EmptyBatch)
    else
      var points := PointsOf(batch);
      var labels := LabelsOf(batch);
      if |points| == 0 then Failure(NothingToStack)
      else if !SameCount(points) then Failure(ShapeMismatch)
      else match encode(labels)
        case None => Failure(LabelEncodingFailed)
        case Some(encoded) => Success(Batch(points, points[0].count, encoded))
  }

  /** One sentinel and three loaded items give a batch of three, in order. */
  lemma {:induction false} OneSentinelThreeItems(a: PointCloud, b: PointCloud, c: PointCloud, encode: Encoder)
    requires a.count == b.count == c.count
    requires encode(["a", "b", "c"]).Some?
    ensures var r := Collate([Item(Some(a), Some("a")), Sentinel, Item(Some(b), Some("b")), Item(Some(c), Some("c"))], encode);
      r.Success? && r.value.points == [a, b, c] && r.value.pointCount == a.count
  {
    SentinelDropped(a, b, c);
  }

  lemma {:induction false} SentinelDropped(a: PointCloud, b: PointCloud, c: PointCloud)
    ensures var batch := [Item(Some(a), Some("a")), Sentinel, Item(Some(b), Some("b")), Item(Some(c), Some("c"))];
      PointsOf(batch) == [a, b, c] && LabelsOf(batch) == ["a", "b", "c"]
  {
    var batch := [Item(Some(a), Some("a")), Sentinel, Item(Some(b), Some("b")), Item(Some(c), Some("c"))];
    var t1 := batch[1..];
    var t2 := t1[1..];
    var t3 := t2[1..];
    assert t2 == [Item(Some(b), Some("b")), Item(Some(c), Some("c"))];
    assert t3 == [Item(Some(c), Some("c"))] && t3[1..] == [];
    assert PointsOf(t3) == [c] && LabelsOf(t3) == ["c"];
    assert PointsOf(t2) == [b, c] && LabelsOf(t2) == ["b", "c"];
  }

  /** Clouds of 1000, 1000 and 5000 points cannot be stacked. */
  lemma {:induction false} MixedDensitiesFail(encode: Encoder)
    ensures Collate([Item(Some(PointCloud(1000)), Some("a")), Item(Some(PointCloud(1000)), Some("b")),
                     Item(Some(PointCloud(5000)), Some("c"))], encode) == Failure(ShapeMismatch)
  {
    var batch := [Item(Some(PointCloud(1000)), Some("a")), Item(Some(PointCloud(1000)), Some("b")),
                  Item(Some(PointCloud(5000)), Some("c"))];
    assert batch[1..][1..] == [Item(Some(PointCloud(5000)), Some("c"))];
    assert PointsOf(batch)[2] == PointCloud(5000);
  }

  /**
   * Items fetched from a dataset collate into aligned survivors: each
   * surviving cloud is the one read from some indexed file, paired with
   * that file's own label.
   */
  lemma {:induction false} DatasetItemsAligned(d: Dataset, indices: seq<int>, reader: Reader)
    requires |d.files| == |d.labels|
    requires forall k :: 0 <= k < |indices| ==> -|d.files| <= indices[k] < |d.files|
    ensures var batch := seq(|indices|, k requires 0 <= k < |indices| => GetItem(d, indices[k], reader).value);
      |PointsOf(batch)| == |LabelsOf(batch)| &&
      forall k :: 0 <= k < |PointsOf(batch)| ==>
        exists j :: 0 <= j < |d.files| && reader(d.files[j]) == Some(PointsOf(batch)[k]) && LabelsOf(batch)[k] == d.labels[j]
  {
    var batch := seq(|indices|, k requires 0 <= k < |indices| => GetItem(d, indices[k], reader).value);
    SurvivorsAligned(batch);
    var survivors := Filter(batch, it => it != Sentinel);
    FilterMembers(batch, it => it != Sentinel);
    forall k | 0 <= k < |PointsOf(batch)|
      ensures exists j :: 0 <= j < |d.files| && reader(d.files[j]) == Some(PointsOf(batch)[k]) && LabelsOf(batch)[k] == d.labels[j]
    {
      assert survivors[k] in batch;
      var m :| 0 <= m < |batch| && batch[m] == survivors[k];
      var j := if indices[m] < 0 then |d.files| + indices[m] else indices[m];
      assert reader(d.files[j]) == Some(PointsOf(batch)[k]) && LabelsOf(batch)[k] == d.labels[j];
    }
  }
}

/**
 * `generate_ply_folders` and `generate_dataset_from_step` (dataset.py): the
 * on-disk layout `out/stl`, `out/ply/<N>/<stem>.ply`, and the loop that
 * samples every qualifying STL file at every requested density.
 */
module PlyFolders {
  import opened Wrappers
  import opened Seqs
  import opened PurePaths
  import opened Decimal
  import opened FileTree
  import opened StepToStl

  const PlySuffix: string := ".ply"

  /** The densities `generate_dataset_from_step` uses when none are given. */
  const DefaultDensities: seq<int> := [1000, 5000, 10000]

  function StlFolder(out: Path): Path
  {
    Join(out, "stl")
  }

  function PlyFolder(out: Path): Path
  {
    Join(out, "ply")
  }

  /** The bucket of density `n`: `out/ply/str(n)`. */
  function DensityFolder(out: Path, n: int): Path
  {
    Join(PlyFolder(out), IntToStr(n))
  }

  /** The name of the PLY file sampled from an STL file. */
  function PlyName(name: string): string
  {
    Stem(name) + PlySuffix
  }

  /** The entry test of the sampling loop: a regular file, suffix ".stl" in any case, not a resource fork. */
  predicate IsStlSource(e: Entry)
  {
    e.isFile && Lower(Suffix(e.name)) == StlSuffix && !StartsWith(e.name, HiddenPrefix)
  }

  /**
   * The STL test stated without pathlib: a file qualifies exactly when its
   * name ends, in any letter case, with ".stl" after at least one other
   * character, and it is not a resource fork.
   */
  lemma {:induction false} StlSourceIff(e: Entry)
    ensures IsStlSource(e) <==> e.isFile && !StartsWith(e.name, HiddenPrefix) && EndsWithExtension(e.name, "stl")
  {
    if Lower(Suffix(e.name)) == StlSuffix {
      assert StlSuffix == "." + "stl";
      EndingOfExtension(e.name, "stl");
    }
    if EndsWithExtension(e.name, "stl") {
      ExtensionOfEnding(e.name, "stl");
    }
  }

  /** The STL test ignores letter case and skips resource forks, directories and a bare ".stl". */
  lemma StlSourceExamples()
    ensures IsStlSource(Entry("part_a.stl", true))
    ensures IsStlSource(Entry("PART_A.STL", true))
    ensures !IsStlSource(Entry("._part_a.stl", true))
    ensures !IsStlSource(Entry("part_a.stl", false))
    ensures !IsStlSource(Entry(".stl", true))
  {
    StlSourceLowerCase();
    StlSourceUpperCase();
    StlSourceRejects();
  }

  lemma StlSourceLowerCase()
    ensures IsStlSource(Entry("part_a.stl", true))
  {
    SplitJoined("part_a", ".stl");
    assert "part_a" + ".stl" == "part_a.stl";
    LowerOfLowerCase(".stl");
    NotHiddenWithSuffix("part_a", ".stl");
  }

  lemma StlSourceUpperCase()
    ensures IsStlSource(Entry("PART_A.STL", true))
  {
    SplitJoined("PART_A", ".STL");
    assert "PART_A" + ".STL" == "PART_A.STL";
    assert Lower(".STL") == ".stl";
    NotHiddenWithSuffix("PART_A", ".STL");
  }

  lemma StlSourceRejects()
    ensures !IsStlSource(Entry("._part_a.stl", true))
    ensures !IsStlSource(Entry(".stl", true))
  {
    assert "._part_a.stl"[..2] == HiddenPrefix;
    LeadingDotOnly(".stl");
  }

  /**
   * Reading an STL file, Poisson-disk sampling it at a requested count and
   * writing the cloud: `Some(cloud)` for the cloud written, `None` where any
   * of these raised.
   */
  type Sampler = (Path, int) -> Option<PointCloud>

  /** What happened to one (STL file, density) pair. */
  datatype SampleOutcome =
    | Sampled(source: Path, density: int, target: Path, cloud: PointCloud)
    | SampleFailed(source: Path, density: int)

  /** The body of the `try` for one qualifying STL entry at density `n`. */
  function SampleOne(out: Path, n: int, e: Entry, sampler: Sampler): SampleOutcome
  {
    var source := Join(StlFolder(out), e.name);
    match sampler(source, n)
    case Some(c) => Sampled(source, n, Join(DensityFolder(out, n), PlyName(e.name)), c)
    case None => SampleFailed(source, n)
  }

  /** The inner loop for density `n`: one outcome per qualifying STL entry. */
  function SampleDensity(out: Path, n: int, listing: seq<Entry>, sampler: Sampler): (r: seq<SampleOutcome>)
    ensures |r| == |Filter(listing, IsStlSource)|
  {
    MapFilter(listing, IsStlSource, e => SampleOne(out, n, e, sampler))
  }

  /** The outcomes for density `n` follow listing order: the k-th is the attempt on the k-th qualifying entry. */
  lemma {:induction false} SampleDensityAt(out: Path, n: int, listing: seq<Entry>, sampler: Sampler)
    ensures var r := SampleDensity(out, n, listing, sampler);
      forall k :: 0 <= k < |r| ==> r[k] == SampleOne(out, n, Filter(listing, IsStlSource)[k], sampler)
  {
    MapFilterAt(listing, IsStlSource, e => SampleOne(out, n, e, sampler));
  }

  /** The outer loop: every density in turn, so one outcome per (density, qualifying entry) pair. */
  function SampleAll(out: Path, densities: seq<int>, listing: seq<Entry>, sampler: Sampler): seq<SampleOutcome>
  {
    if |densities| == 0 then []
    else SampleDensity(out, densities[0], listing, sampler) + SampleAll(out, densities[1..], listing, sampler)
  }

  /** Every (density, qualifying entry) pair is attempted once: the run has |densities| * K outcomes. */
  lemma {:induction false} SampleAllCount(out: Path, densities: seq<int>, listing: seq<Entry>, sampler: Sampler)
    ensures |SampleAll(out, densities, listing, sampler)| == |densities| * |Filter(listing, IsStlSource)|
  {
    if |densities| > 0 {
      SampleAllCount(out, densities[1..], listing, sampler);
      MultiplySuccessor(|densities| - 1, |Filter(listing, IsStlSource)|);
    }
  }

  lemma {:induction false} MultiplySuccessor(a: nat, k: nat)
    ensures (a + 1) * k == k + a * k
  {
  }

  /** The folders created, in order: `stl`, `ply`, then one bucket per density. */
  function LayoutFolders(out: Path, densities: seq<int>): (r: seq<Path>)
    ensures |r| == 2 + |densities|
    ensures forall k :: 0 <= k < |r| ==> IsUnder(r[k], out) && r[k] != out
  {
    [StlFolder(out), PlyFolder(out)] + seq(|densities|, k requires 0 <= k < |densities| => DensityFolder(out, densities[k]))
  }

  /**
   * The observable effects of one run: the folders created (in order), the
   * outcome of each conversion and of each sampling attempt.
   * `InputUnlistable` is the run in which listing the input folder raised,
   * after `stl` and `ply` were created.
   */
  datatype Run =
    | Completed(madeDirs: seq<Path>, conversions: seq<ConvertOutcome>, samples: seq<SampleOutcome>)
    | InputUnlistable(madeDirs: seq<Path>)

  /**
   * What listing `out/stl` can yield once the conversions are done: every STL
   * file a conversion exported appears as a regular file, and every other
   * entry was already in the folder (`preexisting`). No name is listed twice.
   */
  predicate StlListingAfter(conversions: seq<ConvertOutcome>, preexisting: seq<Entry>, stlListing: seq<Entry>)
  {
    && DistinctNames(stlListing)
    && (forall c :: c in conversions && c.Converted? ==> Entry(Name(c.target), true) in stlListing)
    && (forall e :: e in stlListing ==>
          e in preexisting || exists c :: c in conversions && c.Converted? && e == Entry(Name(c.target), true))
  }

  /**
   * `generate_ply_folders(input_folder, output_folder, number_of_points)`.
   * `inputListing` is what listing the input folder yields (`None` when that
   * raises), `stlListing` what listing `out/stl` yields once conversion is done.
   */
  function GeneratePlyFolders(inputDir: Path, out: Path, densities: seq<int>,
                              inputListing: Option<seq<Entry>>, stlListing: seq<Entry>,
                              mesher: Mesher, sampler: Sampler): (r: Run)
    ensures r.Completed? <==> inputListing.Some?
    ensures |r.madeDirs| >= 2 && r.madeDirs[..2] == [StlFolder(out), PlyFolder(out)]
    ensures r.Completed? ==> r.madeDirs == LayoutFolders(out, densities)
    ensures r.Completed? ==> |r.conversions| == |Filter(inputListing.value, IsStepSource)|
    ensures r.Completed? ==> |r.samples| == |densities| * |Filter(stlListing, IsStlSource)|
  {
    SampleAllCount(out, densities, stlListing, sampler);
    match ConvertToStl(inputDir, StlFolder(out), inputListing, mesher)
    case None => InputUnlistable([StlFolder(out), PlyFolder(out)])
    case Some(conversions) =>
      Completed(LayoutFolders(out, densities), conversions, SampleAll(out, densities, stlListing, sampler))
  }

  /**
   * `generate_dataset_from_step(dataset_path, number_of_points)`: the input
   * folder is `dataset_path` and the output tree is built under its parent.
   */
  function GenerateDatasetFromStep(datasetPath: Path, inputListing: Option<seq<Entry>>, stlListing: seq<Entry>,
                                   mesher: Mesher, sampler: Sampler, densities: seq<int> := DefaultDensities): (r: Run)
    ensures r.Completed? <==> inputListing.Some?
    ensures r.Completed? ==> r.madeDirs == LayoutFolders(Parent(datasetPath), densities)
    ensures r.Completed? ==> forall o :: o in r.conversions ==> Parent(o.source) == datasetPath
    ensures r.Completed? ==> forall o :: o in r.conversions && o.Converted? ==> Parent(o.target) == StlFolder(Parent(datasetPath))
  {
    match inputListing
    case None => GeneratePlyFolders(datasetPath, Parent(datasetPath), densities, inputListing, stlListing, mesher, sampler)
    case Some(entries) =>
      ConvertedNames(datasetPath, StlFolder(Parent(datasetPath)), entries, mesher);
      GeneratePlyFolders(datasetPath, Parent(datasetPath), densities, inputListing, stlListing, mesher, sampler)
  }

  /** With the default densities the buckets are `ply/1000`, `ply/5000` and `ply/10000` under the parent of the input. */
  lemma {:induction false} DefaultLayout(datasetPath: Path, inputListing: seq<Entry>, stlListing: seq<Entry>, mesher: Mesher, sampler: Sampler)
    ensures var q := Parent(datasetPath);
      GenerateDatasetFromStep(datasetPath, Some(inputListing), stlListing, mesher, sampler).madeDirs ==
      [Join(q, "stl"), Join(q, "ply"), Join(Join(q, "ply"), "1000"), Join(Join(q, "ply"), "5000"), Join(Join(q, "ply"), "10000")]
  {
    DefaultBucketNames();
    var q := Parent(datasetPath);
    var dirs := GenerateDatasetFromStep(datasetPath, Some(inputListing), stlListing, mesher, sampler).madeDirs;
    assert dirs == LayoutFolders(q, DefaultDensities);
  }

  /** `str` of the default densities. */
  lemma DefaultBucketNames()
    ensures IntToStr(1000) == "1000" && IntToStr(5000) == "5000" && IntToStr(10000) == "10000"
  {
    Thousands(1);
    Thousands(5);
    Thousands(10);
  }

  /** `str(1000 * m)` is `str(m)` followed by three zeros. */
  lemma {:induction false} Thousands(m: nat)
    requires m > 0
    ensures IntToStr(1000 * m) == NatToStr(m) + "000"
  {
    var n := 1000 * m;
    assert n / 10 == 100 * m && n % 10 == 0;
    assert (100 * m) / 10 == 10 * m && (100 * m) % 10 == 0;
    assert (10 * m) / 10 == m && (10 * m) % 10 == 0;
    assert NatToStr(n) == NatToStr(100 * m) + [DigitChar(0)];
    assert NatToStr(100 * m) == NatToStr(10 * m) + [DigitChar(0)];
    assert NatToStr(10 * m) == NatToStr(m) + [DigitChar(0)];
  }

  /** Two densities share a bucket only when they are equal. */
  lemma {:induction false} DensityFolderInjective(out: Path, a: int, b: int)
    ensures DensityFolder(out, a) == DensityFolder(out, b) <==> a == b
  {
    IntToStrInjective(a, b);
    if DensityFolder(out, a) == DensityFolder(out, b) {
      assert Name(DensityFolder(out, a)) == IntToStr(a);
    }
  }

  /**
   * Re-running on the same output root creates no new folder and fails on
   * none that exists (`exist_ok=True`); every folder of the layout exists
   * after a run.
   */
  lemma {:induction false} RerunCreatesNothing(dirs: set<Path>, r: Run)
    ensures MakeAll(MakeAll(dirs, r.madeDirs), r.madeDirs) == MakeAll(dirs, r.madeDirs)
    ensures forall k :: 0 <= k < |r.madeDirs| && |r.madeDirs[k].parts| > 0 ==> r.madeDirs[k] in MakeAll(dirs, r.madeDirs)
  {
    MakeAllIdempotent(dirs, r.madeDirs);
    MakeAllCreates(dirs, r.madeDirs);
  }

  /** The sampling loops try every (density, qualifying STL entry) pair and nothing else. */
  lemma {:induction false} SampleAllMembers(out: Path, densities: seq<int>, listing: seq<Entry>, sampler: Sampler, o: SampleOutcome)
    ensures o in SampleAll(out, densities, listing, sampler) <==>
      exists i, k :: 0 <= i < |densities| && 0 <= k < |Filter(listing, IsStlSource)| &&
        o == SampleOne(out, densities[i], Filter(listing, IsStlSource)[k], sampler)
  {
    var src := Filter(listing, IsStlSource);
    if o in SampleAll(out, densities, listing, sampler) {
      var i, k := SampleAllSound(out, densities, listing, sampler, o);
    }
    if i, k :| 0 <= i < |densities| && 0 <= k < |src| && o == SampleOne(out, densities[i], src[k], sampler) {
      SampleAllComplete(out, densities, listing, sampler, i, k);
    }
  }

  /** Every outcome of the sampling loops is the attempt for a requested density and a qualifying entry. */
  lemma {:induction false} SampleAllSound(out: Path, densities: seq<int>, listing: seq<Entry>, sampler: Sampler, o: SampleOutcome)
    returns (i: nat, k: nat)
    requires o in SampleAll(out, densities, listing, sampler)
    ensures i < |densities| && k < |Filter(listing, IsStlSource)|
    ensures o == SampleOne(out, densities[i], Filter(listing, IsStlSource)[k], sampler)
  {
    var head := SampleDensity(out, densities[0], listing, sampler);
    var tail := SampleAll(out, densities[1..], listing, sampler);
    assert SampleAll(out, densities, listing, sampler) == head + tail;
    if o in head {
      SampleDensityAt(out, densities[0], listing, sampler);
      k :| 0 <= k < |head| && head[k] == o;
      i := 0;
    } else {
      var j;
      j, k := SampleAllSound(out, densities[1..], listing, sampler, o);
      i := j + 1;
      assert densities[1..][j] == densities[i];
    }
  }

  /** The attempt for every requested density and qualifying entry is among the outcomes. */
  lemma {:induction false} SampleAllComplete(out: Path, densities: seq<int>, listing: seq<Entry>, sampler: Sampler, i: nat, k: nat)
    requires i < |densities| && k < |Filter(listing, IsStlSource)|
    ensures SampleOne(out, densities[i], Filter(listing, IsStlSource)[k], sampler) in SampleAll(out, densities, listing, sampler)
  {
    var head := SampleDensity(out, densities[0], listing, sampler);
    var tail := SampleAll(out, densities[1..], listing, sampler);
    assert SampleAll(out, densities, listing, sampler) == head + tail;
    if i == 0 {
      SampleDensityAt(out, densities[0], listing, sampler);
      assert head[k] == SampleOne(out, densities[0], Filter(listing, IsStlSource)[k], sampler);
    } else {
      SampleAllComplete(out, densities[1..], listing, sampler, i - 1, k);
      assert densities[1..][i - 1] == densities[i];
    }
  }

  /** A qualifying STL name has a non-empty stem, so its PLY name splits back into that stem and ".ply". */
  lemma {:induction false} StemOfPlyName(name: string)
    requires Lower(Suffix(name)) == StlSuffix
    ensures Stem(PlyName(name)) == Stem(name) && Suffix(PlyName(name)) == PlySuffix
  {
    assert name != "";
    SplitJoined(Stem(name), PlySuffix);
  }

  /**
   * Naming of the sampling outputs: every attempt reads a qualifying file of
   * `out/stl` at a requested density, and every cloud written is
   * `out/ply/<density>/<stem>.ply` for the stem of the STL file it came from.
   */
  lemma {:induction false} SampledNames(out: Path, densities: seq<int>, listing: seq<Entry>, sampler: Sampler)
    ensures forall o :: o in SampleAll(out, densities, listing, sampler) ==>
      Parent(o.source) == StlFolder(out) && IsStlSource(Entry(Name(o.source), true)) && o.density in densities &&
      (o.Sampled? ==> Parent(o.target) == DensityFolder(out, o.density) && Suffix(Name(o.target)) == PlySuffix &&
                      Stem(Name(o.target)) == Stem(Name(o.source)))
  {
    var src := Filter(listing, IsStlSource);
    FilterMembers(listing, IsStlSource);
    forall o | o in SampleAll(out, densities, listing, sampler)
      ensures Parent(o.source) == StlFolder(out) && IsStlSource(Entry(Name(o.source), true)) && o.density in densities
      ensures o.Sampled? ==> Parent(o.target) == DensityFolder(out, o.density) && Suffix(Name(o.target)) == PlySuffix &&
                             Stem(Name(o.target)) == Stem(Name(o.source))
    {
      SampleAllMembers(out, densities, listing, sampler, o);
      var i, k :| 0 <= i < |densities| && 0 <= k < |src| && o == SampleOne(out, densities[i], src[k], sampler);
      SampleOneNames(out, densities[i], src[k], sampler);
    }
  }

  lemma {:induction false} SampleOneNames(out: Path, n: int, e: Entry, sampler: Sampler)
    requires IsStlSource(e)
    ensures var o := SampleOne(out, n, e, sampler);
      Parent(o.source) == StlFolder(out) && IsStlSource(Entry(Name(o.source), true)) && o.density == n &&
      (o.Sampled? ==> Parent(o.target) == DensityFolder(out, n) && Suffix(Name(o.target)) == PlySuffix &&
                      Stem(Name(o.target)) == Stem(Name(o.source)))
  {
    StemOfPlyName(e.name);
  }

  /** The paths of the clouds a sampling run writes. */
  function PlyWritten(samples: seq<SampleOutcome>): set<Path>
  {
    set o | o in samples && o.Sampled? :: o.target
  }

  /**
   * Failure isolation for sampling: `out/ply/<N>/<stem>.ply` is written
   * exactly for the pairs of a requested N and a qualifying STL entry whose
   * sampling succeeded; a failed pair takes no other pair with it.
   */
  lemma {:induction false} PlyWrittenIff(out: Path, densities: seq<int>, listing: seq<Entry>, sampler: Sampler, p: Path)
    ensures var src := Filter(listing, IsStlSource);
      p in PlyWritten(SampleAll(out, densities, listing, sampler)) <==>
      exists i, k :: 0 <= i < |densities| && 0 <= k < |src| && WritesPair(out, densities[i], src[k], sampler, p)
  {
    var src := Filter(listing, IsStlSource);
    if p in PlyWritten(SampleAll(out, densities, listing, sampler)) {
      PlyWrittenSound(out, densities, listing, sampler, p);
    }
    if i, k :| 0 <= i < |densities| && 0 <= k < |src| && WritesPair(out, densities[i], src[k], sampler, p) {
      PlyWrittenComplete(out, densities, listing, sampler, i, k);
    }
  }

  /** Sampling entry `e` at density `n` succeeds and writes `p`. */
  predicate WritesPair(out: Path, n: int, e: Entry, sampler: Sampler, p: Path)
  {
    sampler(Join(StlFolder(out), e.name), n).Some? && p == Join(DensityFolder(out, n), PlyName(e.name))
  }

  lemma {:induction false} PlyWrittenSound(out: Path, densities: seq<int>, listing: seq<Entry>, sampler: Sampler, p: Path)
    requires p in PlyWritten(SampleAll(out, densities, listing, sampler))
    ensures var src := Filter(listing, IsStlSource);
      exists i, k :: 0 <= i < |densities| && 0 <= k < |src| && WritesPair(out, densities[i], src[k], sampler, p)
  {
    var src := Filter(listing, IsStlSource);
    var all := SampleAll(out, densities, listing, sampler);
    var o :| o in all && o.Sampled? && o.target == p;
    SampleAllMembers(out, densities, listing, sampler, o);
    var i, k :| 0 <= i < |densities| && 0 <= k < |src| && o == SampleOne(out, densities[i], src[k], sampler);
    SampleOneWrites(out, densities[i], src[k], sampler);
  }

  lemma {:induction false} SampleOneWrites(out: Path, n: int, e: Entry, sampler: Sampler)
    ensures SampleOne(out, n, e, sampler).Sampled? ==> WritesPair(out, n, e, sampler, SampleOne(out, n, e, sampler).target)
  {
  }

  lemma {:induction false} PlyWrittenComplete(out: Path, densities: seq<int>, listing: seq<Entry>, sampler: Sampler, i: nat, k: nat)
    requires i < |densities| && k < |Filter(listing, IsStlSource)|
    requires sampler(Join(StlFolder(out), Filter(listing, IsStlSource)[k].name), densities[i]).Some?
    ensures Join(DensityFolder(out, densities[i]), PlyName(Filter(listing, IsStlSource)[k].name))
            in PlyWritten(SampleAll(out, densities, listing, sampler))
  {
    var src := Filter(listing, IsStlSource);
    var o := SampleOne(out, densities[i], src[k], sampler);
    SampleAllMembers(out, densities, listing, sampler, o);
    assert o in SampleAll(out, densities, listing, sampler) && o.Sampled?;
  }

  /**
   * Completeness of sampling: a qualifying entry of the STL listing yields
   * `out/ply/<N>/<stem>.ply` for every requested N at which sampling it
   * succeeds, wherever it sits in the listing.
   */
  lemma {:induction false} ListedStlIsSampled(out: Path, densities: seq<int>, listing: seq<Entry>, sampler: Sampler, e: Entry, i: nat)
    requires IsStlSource(e) && e in listing
    requires i < |densities| && sampler(Join(StlFolder(out), e.name), densities[i]).Some?
    ensures Join(DensityFolder(out, densities[i]), PlyName(e.name)) in PlyWritten(SampleAll(out, densities, listing, sampler))
  {
    FilterMembers(listing, IsStlSource);
    var k :| 0 <= k < |Filter(listing, IsStlSource)| && Filter(listing, IsStlSource)[k] == e;
    PlyWrittenComplete(out, densities, listing, sampler, i, k);
  }
}

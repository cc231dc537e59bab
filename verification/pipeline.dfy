/**
 * How the two source files fit together: the organizer's output tree is
 * what the dataset reads, and a file stem survives from the STEP file to the
 * dataset label.
 */
module Pipeline {
  import opened Wrappers
  import opened Seqs
  import opened PurePaths
  import opened FileTree
  import opened StepToStl
  import opened PlyFolders
  import PcdDataset

  /**
   * A converted STEP file's STL name passes the sampling filter, the PLY
   * name sampled from it passes the index filter, and the label the dataset
   * gives that PLY file is the STEP file's stem.
   */
  lemma {:induction false} StemSurvivesPipeline(stepName: string)
    requires IsStepSource(Entry(stepName, true))
    ensures IsStlSource(Entry(StlName(stepName), true))
    ensures PcdDataset.IsIndexed(Entry(PlyName(StlName(stepName)), true))
    ensures Stem(PlyName(StlName(stepName))) == Stem(stepName)
  {
    StlNameQualifies(stepName);
    StemOfPlyName(StlName(stepName));
  }

  /** The STL name written for a qualifying STEP file passes the sampling filter and keeps its stem. */
  lemma {:induction false} StlNameQualifies(stepName: string)
    requires IsStepSource(Entry(stepName, true))
    ensures IsStlSource(Entry(StlName(stepName), true)) && Stem(StlName(stepName)) == Stem(stepName)
  {
    StemOfStlName(stepName);
    StlSuffixIsSuffix();
    StemNotHidden(stepName);
    NotHiddenWithSuffix(Stem(stepName), StlSuffix);
  }

  /** The bucket the organizer fills for density `n` under `out` is the folder the dataset for (`out`, `n`) scans. */
  lemma {:induction false} SameBucket(out: Path, n: int)
    ensures DensityFolder(out, n) == PcdDataset.Bucket(out, n)
    ensures Parent(Parent(PcdDataset.Bucket(out, n))) == out
  {
  }

  /**
   * When the STL folder holds only what this run converted, every PLY file
   * the run writes lies in the bucket the dataset for its density scans, is
   * indexed there, and is labelled with the stem of a STEP file that was
   * converted; a STEP file that failed never shows up as a label unless a
   * converted file shares its stem.
   */
  lemma {:induction false} LabelsTraceToConvertedSources(inputDir: Path, out: Path, densities: seq<int>, inputListing: seq<Entry>,
                                      stlListing: seq<Entry>, mesher: Mesher, sampler: Sampler)
    requires var run := GeneratePlyFolders(inputDir, out, densities, Some(inputListing), stlListing, mesher, sampler);
      forall e :: e in stlListing && IsStlSource(e) ==>
        exists c :: c in run.conversions && c.Converted? && Name(c.target) == e.name
    ensures var run := GeneratePlyFolders(inputDir, out, densities, Some(inputListing), stlListing, mesher, sampler);
      forall o :: o in run.samples && o.Sampled? ==>
        Parent(o.target) == PcdDataset.Bucket(out, o.density) &&
        PcdDataset.IsIndexed(Entry(Name(o.target), true)) &&
        exists c :: c in run.conversions && c.Converted? && Stem(Name(o.target)) == Stem(Name(c.source))
  {
    var run := GeneratePlyFolders(inputDir, out, densities, Some(inputListing), stlListing, mesher, sampler);
    var conversions := ConvertEntries(inputDir, StlFolder(out), inputListing, mesher);
    var samples := SampleAll(out, densities, stlListing, sampler);
    assert run.conversions == conversions && run.samples == samples;
    forall o | o in samples && o.Sampled?
      ensures Parent(o.target) == PcdDataset.Bucket(out, o.density)
      ensures PcdDataset.IsIndexed(Entry(Name(o.target), true))
      ensures exists c :: c in conversions && c.Converted? && Stem(Name(o.target)) == Stem(Name(c.source))
    {
      OutcomeTraces(inputDir, out, densities, inputListing, stlListing, mesher, sampler, o);
    }
  }

  /** The tracing argument for one sampling outcome. */
  lemma {:induction false} OutcomeTraces(inputDir: Path, out: Path, densities: seq<int>, inputListing: seq<Entry>,
                                         stlListing: seq<Entry>, mesher: Mesher, sampler: Sampler, o: SampleOutcome)
    requires forall e :: e in stlListing && IsStlSource(e) ==>
      exists c :: c in ConvertEntries(inputDir, StlFolder(out), inputListing, mesher) && c.Converted? && Name(c.target) == e.name
    requires o in SampleAll(out, densities, stlListing, sampler) && o.Sampled?
    ensures Parent(o.target) == PcdDataset.Bucket(out, o.density)
    ensures PcdDataset.IsIndexed(Entry(Name(o.target), true))
    ensures exists c :: c in ConvertEntries(inputDir, StlFolder(out), inputListing, mesher) &&
                         c.Converted? && Stem(Name(o.target)) == Stem(Name(c.source))
  {
    var conversions := ConvertEntries(inputDir, StlFolder(out), inputListing, mesher);
    var i, k := SampleAllSound(out, densities, stlListing, sampler, o);
    var e := Filter(stlListing, IsStlSource)[k];
    FilterAt(stlListing, IsStlSource, k);
    var c :| c in conversions && c.Converted? && Name(c.target) == e.name;
    ConvertedNames(inputDir, StlFolder(out), inputListing, mesher);
    var stepName := Name(c.source);
    assert e.name == StlName(stepName) by {
      assert Stem(e.name) + Suffix(e.name) == e.name;
    }
    SampleTraces(out, densities[i], e, sampler, stepName);
  }

  /** One sampling attempt on the STL file converted from `stepName`: what it writes is indexed with that STEP stem. */
  lemma {:induction false} SampleTraces(out: Path, n: int, e: Entry, sampler: Sampler, stepName: string)
    requires IsStlSource(e) && IsStepSource(Entry(stepName, true)) && e.name == StlName(stepName)
    ensures var o := SampleOne(out, n, e, sampler);
      o.Sampled? ==>
        Parent(o.target) == PcdDataset.Bucket(out, n) &&
        PcdDataset.IsIndexed(Entry(Name(o.target), true)) &&
        Stem(Name(o.target)) == Stem(stepName)
  {
    var o := SampleOne(out, n, e, sampler);
    if o.Sampled? {
      assert o.target == Join(DensityFolder(out, n), PlyName(e.name));
      SameBucket(out, n);
      StemSurvivesPipeline(stepName);
    }
  }

  /** A file stem the conversion filter accepts: non-empty and not a resource fork. */
  predicate PlainStem(stem: string)
  {
    stem != "" && !StartsWith(stem, HiddenPrefix)
  }

  /**
   * Completeness of the pipeline: when the STL folder lists what the run
   * exported, every converted STEP file `<stem>.step` yields
   * `out/ply/<N>/<stem>.ply` for every requested N at which sampling its
   * STL file succeeds.
   */
  lemma {:induction false} ConvertedSourcesAreSampled(inputDir: Path, out: Path, densities: seq<int>, inputListing: seq<Entry>,
                                                      preexisting: seq<Entry>, stlListing: seq<Entry>, mesher: Mesher, sampler: Sampler,
                                                      c: ConvertOutcome, i: nat)
    requires StlListingAfter(ConvertEntries(inputDir, StlFolder(out), inputListing, mesher), preexisting, stlListing)
    requires c in ConvertEntries(inputDir, StlFolder(out), inputListing, mesher) && c.Converted?
    requires i < |densities| && sampler(c.target, densities[i]).Some?
    ensures var run := GeneratePlyFolders(inputDir, out, densities, Some(inputListing), stlListing, mesher, sampler);
      Join(DensityFolder(out, densities[i]), Stem(Name(c.source)) + PlySuffix) in PlyWritten(run.samples)
  {
    var stepName := Name(c.source);
    var e := ConvertedStlEntry(inputDir, out, inputListing, mesher, c);
    ListedStlIsSampled(out, densities, stlListing, sampler, e, i);
  }

  /** The STL entry a conversion exports: an STL source named after the STEP stem, read back from `c.target`. */
  lemma {:induction false} ConvertedStlEntry(inputDir: Path, out: Path, inputListing: seq<Entry>, mesher: Mesher, c: ConvertOutcome)
    returns (e: Entry)
    requires c in ConvertEntries(inputDir, StlFolder(out), inputListing, mesher) && c.Converted?
    ensures e == Entry(Name(c.target), true) && IsStlSource(e)
    ensures Join(StlFolder(out), e.name) == c.target
    ensures PlyName(e.name) == Stem(Name(c.source)) + PlySuffix
  {
    var stepName := Name(c.source);
    ConvertedNames(inputDir, StlFolder(out), inputListing, mesher);
    e := Entry(Name(c.target), true);
    assert e.name == StlName(stepName) by {
      assert Stem(e.name) + Suffix(e.name) == e.name;
    }
    StlNameQualifies(stepName);
  }

  /**
   * The run of the end-to-end scenario: one valid asset `<a>.step`, one
   * malformed asset `<b>.step` (for "part_a" and "part_b", say), densities
   * 1000 and 5000, and an STL folder, empty before the run, listed after the
   * conversions. One conversion fails, and the only clouds written are
   * `ply/1000/<a>.ply` and `ply/5000/<a>.ply`: nothing for `<b>`.
   */
  lemma {:induction false} ValidAndMalformedAsset(out: Path, inputDir: Path, a: string, b: string,
                                                  stlListing: seq<Entry>, mesher: Mesher, sampler: Sampler)
    requires PlainStem(a) && PlainStem(b)
    requires mesher(Join(inputDir, a + ".step"), GmshArgs).Some?
    requires mesher(Join(inputDir, b + ".step"), GmshArgs).None?
    requires sampler(Join(StlFolder(out), a + ".stl"), 1000).Some? && sampler(Join(StlFolder(out), a + ".stl"), 5000).Some?
    requires StlListingAfter(ConvertEntries(inputDir, StlFolder(out), [Entry(a + ".step", true), Entry(b + ".step", true)], mesher),
                             [], stlListing)
    ensures var run := GeneratePlyFolders(inputDir, out, [1000, 5000],
                                          Some([Entry(a + ".step", true), Entry(b + ".step", true)]),
                                          stlListing, mesher, sampler);
      && run.Completed?
      && |run.conversions| == 2
      && run.conversions[0] == Converted(Join(inputDir, a + ".step"), Join(StlFolder(out), a + ".stl"),
                                         mesher(Join(inputDir, a + ".step"), GmshArgs).value)
      && run.conversions[1] == ConvertFailed(Join(inputDir, b + ".step"))
      && PlyWritten(run.samples) == {Join(DensityFolder(out, 1000), a + ".ply"), Join(DensityFolder(out, 5000), a + ".ply")}
      && |run.samples| == 2 && (forall o :: o in run.samples ==> o.Sampled?)
  {
    var conversions := ConvertEntries(inputDir, StlFolder(out), [Entry(a + ".step", true), Entry(b + ".step", true)], mesher);
    TwoConversions(out, inputDir, a, b, mesher);
    var stl := Entry(a + ".stl", true);
    assert Name(conversions[0].target) == stl.name;
    ListingOfOneExport(conversions[0], conversions[1], stlListing);
    StlNames(stl.name, a);
    SamplingOfOneStl(out, [1000, 5000], stl, sampler);
  }

  /** Sampling a listing of one qualifying STL file at two densities where both succeed. */
  lemma {:induction false} SamplingOfOneStl(out: Path, densities: seq<int>, e: Entry, sampler: Sampler)
    requires IsStlSource(e) && |densities| == 2
    requires sampler(Join(StlFolder(out), e.name), densities[0]).Some? && sampler(Join(StlFolder(out), e.name), densities[1]).Some?
    ensures var samples := SampleAll(out, densities, [e], sampler);
      && PlyWritten(samples) == {Join(DensityFolder(out, densities[0]), PlyName(e.name)), Join(DensityFolder(out, densities[1]), PlyName(e.name))}
      && |samples| == 2 && (forall o :: o in samples ==> o.Sampled?)
  {
    assert forall x :: x in [e] ==> x == e;
    OneStlSampledTwice(out, densities, [e], e, sampler);
    SamplesOfOne(out, densities, e, sampler);
  }

  /** After one export and one failure into an empty folder, the STL listing is the exported file alone. */
  lemma {:induction false} ListingOfOneExport(c0: ConvertOutcome, c1: ConvertOutcome, stlListing: seq<Entry>)
    requires StlListingAfter([c0, c1], [], stlListing)
    requires c0.Converted? && c1.ConvertFailed?
    ensures stlListing == [Entry(Name(c0.target), true)]
  {
    var e := Entry(Name(c0.target), true);
    assert c0 in [c0, c1];
    assert e in stlListing;
    assert forall k :: 0 <= k < |stlListing| ==> stlListing[k] in stlListing;
    FirstTwoNamesDiffer(stlListing);
  }

  /** One qualifying entry sampled successfully at two densities: two attempts, and neither fails. */
  lemma {:induction false} SamplesOfOne(out: Path, densities: seq<int>, e: Entry, sampler: Sampler)
    requires IsStlSource(e) && |densities| == 2
    requires sampler(Join(StlFolder(out), e.name), densities[0]).Some? && sampler(Join(StlFolder(out), e.name), densities[1]).Some?
    ensures |SampleAll(out, densities, [e], sampler)| == 2
    ensures forall o :: o in SampleAll(out, densities, [e], sampler) ==> o.Sampled?
  {
    FilterSingleton(e, IsStlSource);
    SampleAllCount(out, densities, [e], sampler);
    forall o | o in SampleAll(out, densities, [e], sampler)
      ensures o.Sampled?
    {
      var i, k := SampleAllSound(out, densities, [e], sampler, o);
      assert Filter([e], IsStlSource)[k] == e;
      assert i == 0 || i == 1;
    }
  }

  lemma {:induction false} TwoConversions(out: Path, inputDir: Path, a: string, b: string, mesher: Mesher)
    requires PlainStem(a) && PlainStem(b)
    requires mesher(Join(inputDir, a + ".step"), GmshArgs).Some?
    requires mesher(Join(inputDir, b + ".step"), GmshArgs).None?
    ensures ConvertEntries(inputDir, StlFolder(out), [Entry(a + ".step", true), Entry(b + ".step", true)], mesher)
      == [Converted(Join(inputDir, a + ".step"), Join(StlFolder(out), a + ".stl"), mesher(Join(inputDir, a + ".step"), GmshArgs).value),
          ConvertFailed(Join(inputDir, b + ".step"))]
  {
    StepNames(a + ".step", a);
    StepNames(b + ".step", b);
    ConvertPair(inputDir, StlFolder(out), Entry(a + ".step", true), Entry(b + ".step", true), mesher);
  }

  /** Two qualifying entries are attempted in listing order. */
  lemma {:induction false} ConvertPair(inputDir: Path, outputDir: Path, ea: Entry, eb: Entry, mesher: Mesher)
    requires IsStepSource(ea) && IsStepSource(eb)
    ensures ConvertEntries(inputDir, outputDir, [ea, eb], mesher)
      == [ConvertOne(inputDir, outputDir, ea, mesher), ConvertOne(inputDir, outputDir, eb, mesher)]
  {
    MapFilterPair(ea, eb, IsStepSource, e => ConvertOne(inputDir, outputDir, e, mesher));
  }

  /** `<stem>.step` is a STEP source whose STL file is `<stem>.stl`. */
  lemma {:induction false} StepNames(name: string, stem: string)
    requires PlainStem(stem) && name == stem + ".step"
    ensures IsStepSource(Entry(name, true)) && StlName(name) == stem + ".stl"
  {
    SplitJoined(stem, ".step");
    LowerOfLowerCase(".step");
    assert StepSuffixes[1] == ".step";
    NotHiddenWithSuffix(stem, ".step");
  }

  /**
   * A listing whose only qualifying STL entry is `e`, sampled successfully
   * at two densities, writes exactly the two clouds of `e`; entries the
   * sampling filter skips change nothing.
   */
  lemma {:induction false} OneStlSampledTwice(out: Path, densities: seq<int>, stlListing: seq<Entry>, e: Entry, sampler: Sampler)
    requires IsStlSource(e) && e in stlListing && forall x :: x in stlListing && IsStlSource(x) ==> x == e
    requires |densities| == 2
    requires sampler(Join(StlFolder(out), e.name), densities[0]).Some? && sampler(Join(StlFolder(out), e.name), densities[1]).Some?
    ensures PlyWritten(SampleAll(out, densities, stlListing, sampler))
      == {Join(DensityFolder(out, densities[0]), PlyName(e.name)), Join(DensityFolder(out, densities[1]), PlyName(e.name))}
  {
    var written := PlyWritten(SampleAll(out, densities, stlListing, sampler));
    var p1 := Join(DensityFolder(out, densities[0]), PlyName(e.name));
    var p2 := Join(DensityFolder(out, densities[1]), PlyName(e.name));
    ListedStlIsSampled(out, densities, stlListing, sampler, e, 0);
    ListedStlIsSampled(out, densities, stlListing, sampler, e, 1);
    forall p | p in written
      ensures p == p1 || p == p2
    {
      OnlyStlWrites(out, densities, stlListing, e, sampler, p);
    }
    PairSet(written, p1, p2);
  }

  /** When `e` is the only qualifying entry of the listing, each cloud written is `e`'s cloud at one of the two densities. */
  lemma {:induction false} OnlyStlWrites(out: Path, densities: seq<int>, stlListing: seq<Entry>, e: Entry, sampler: Sampler, p: Path)
    requires forall x :: x in stlListing && IsStlSource(x) ==> x == e
    requires |densities| == 2
    requires p in PlyWritten(SampleAll(out, densities, stlListing, sampler))
    ensures p == Join(DensityFolder(out, densities[0]), PlyName(e.name)) || p == Join(DensityFolder(out, densities[1]), PlyName(e.name))
  {
    PlyWrittenSound(out, densities, stlListing, sampler, p);
    var src := Filter(stlListing, IsStlSource);
    var i, k :| 0 <= i < |densities| && 0 <= k < |src| && WritesPair(out, densities[i], src[k], sampler, p);
    FilterAt(stlListing, IsStlSource, k);
    assert i == 0 || i == 1;
  }

  /** `<stem>.stl` is an STL source whose PLY file is `<stem>.ply`. */
  lemma {:induction false} StlNames(name: string, stem: string)
    requires PlainStem(stem) && name == stem + ".stl"
    ensures IsStlSource(Entry(name, true)) && PlyName(name) == stem + ".ply"
  {
    SplitJoined(stem, ".stl");
    LowerOfLowerCase(".stl");
    NotHiddenWithSuffix(stem, ".stl");
  }
}

/**
 * `convert_to_stl` (dataset.py): every STEP file of a folder is meshed by
 * gmsh and exported as `<stem>.stl`; a file that fails is reported and
 * skipped.
 */
module StepToStl {
  import opened Wrappers
  import opened Seqs
  import opened PurePaths
  import opened FileTree

  /** The accepted source suffixes, compared after lower-casing. */
  const StepSuffixes: seq<string> := [".stp", ".step"]

  /** Names with this prefix are macOS resource forks, not geometry. */
  const HiddenPrefix: string := "._"

  const StlSuffix: string := ".stl"

  /** One gmsh option passed to the loader. */
  datatype GmshOption = GmshOption(key: string, value: int)

  /** The fixed meshing strategy: gmsh's algorithm 5 (Delaunay). */
  const GmshArgs: seq<GmshOption> := [GmshOption("Mesh.Algorithm", 5)]

  /**
   * Loading a STEP file through gmsh, building the trimesh and exporting it:
   * `Some(mesh)` for the mesh written, `None` where any of these raised.
   */
  type Mesher = (Path, seq<GmshOption>) -> Option<Mesh>

  /** The entry test of the conversion loop: a regular file, a STEP suffix in any case, not a resource fork. */
  predicate IsStepSource(e: Entry)
  {
    e.isFile && Lower(Suffix(e.name)) in StepSuffixes && !StartsWith(e.name, HiddenPrefix)
  }

  /** A stem that is not a resource fork stays one when a suffix is appended. */
  lemma {:induction false} NotHiddenWithSuffix(stem: string, ext: string)
    requires stem != "" && !StartsWith(stem, HiddenPrefix)
    requires |ext| >= 1 && ext[0] == '.'
    ensures !StartsWith(stem + ext, HiddenPrefix)
  {
    var name := stem + ext;
    if |stem| == 1 {
      assert name[1] == '.';
    } else {
      assert name[..2] == stem[..2];
    }
  }

  /** The stem of a name that is not a resource fork is not one either. */
  lemma {:induction false} StemNotHidden(name: string)
    requires !StartsWith(name, HiddenPrefix)
    ensures !StartsWith(Stem(name), HiddenPrefix)
  {
    var stem := Stem(name);
    if |stem| >= 2 {
      assert stem + Suffix(name) == name;
      assert stem[..2] == name[..2];
    }
  }

  /** The name of the STL file written for a source file. */
  function StlName(name: string): string
  {
    Stem(name) + StlSuffix
  }

  /** What happened to one qualifying entry: its mesh was exported to `target`, or the attempt raised. */
  datatype ConvertOutcome =
    | Converted(source: Path, target: Path, mesh: Mesh)
    | ConvertFailed(source: Path)

  /** `Converted?` as a first-class predicate, so that it can be handed to `Filter`. */
  predicate IsConverted(o: ConvertOutcome)
  {
    o.Converted?
  }

  /** The body of the `try` for one qualifying entry. */
  function ConvertOne(inputDir: Path, outputDir: Path, e: Entry, mesher: Mesher): ConvertOutcome
  {
    var source := Join(inputDir, e.name);
    match mesher(source, GmshArgs)
    case Some(m) => Converted(source, Join(outputDir, StlName(e.name)), m)
    case None => ConvertFailed(source)
  }

  /** The conversion loop over a listing: one outcome per qualifying entry. */
  function ConvertEntries(inputDir: Path, outputDir: Path, listing: seq<Entry>, mesher: Mesher): (r: seq<ConvertOutcome>)
    ensures |r| == |Filter(listing, IsStepSource)|
  {
    MapFilter(listing, IsStepSource, e => ConvertOne(inputDir, outputDir, e, mesher))
  }

  /**
   * The outcomes follow listing order: the k-th is the attempt on the k-th
   * qualifying entry, and entries that do not qualify leave no trace.
   */
  lemma {:induction false} ConvertEntriesAt(inputDir: Path, outputDir: Path, listing: seq<Entry>, mesher: Mesher)
    ensures var r := ConvertEntries(inputDir, outputDir, listing, mesher);
      forall k :: 0 <= k < |r| ==> r[k] == ConvertOne(inputDir, outputDir, Filter(listing, IsStepSource)[k], mesher)
  {
    MapFilterAt(listing, IsStepSource, e => ConvertOne(inputDir, outputDir, e, mesher));
  }

  /**
   * `convert_to_stl(input_folder, output_folder)`. `listing` is what
   * `input_folder.iterdir()` yields, `None` when the folder cannot be listed;
   * that exception is the only one that escapes.
   */
  function ConvertToStl(inputDir: Path, outputDir: Path, listing: Option<seq<Entry>>, mesher: Mesher): (r: Option<seq<ConvertOutcome>>)
    ensures r.Some? <==> listing.Some?
    ensures r.Some? ==> |r.value| == |Filter(listing.value, IsStepSource)|
  {
    match listing
    case None => None
    case Some(entries) => Some(ConvertEntries(inputDir, outputDir, entries, mesher))
  }

  /**
   * The suffix test stated without pathlib: a file qualifies exactly when its
   * name ends, in any letter case, with ".stp" or ".step" after at least one
   * other character, and it is not a resource fork.
   */
  lemma {:induction false} StepSourceIff(e: Entry)
    ensures IsStepSource(e) <==>
      e.isFile && !StartsWith(e.name, HiddenPrefix) && (EndsWithExtension(e.name, "stp") || EndsWithExtension(e.name, "step"))
  {
    if Lower(Suffix(e.name)) in StepSuffixes {
      StepSuffixEndsWith(e.name);
    }
    if EndsWithExtension(e.name, "stp") {
      EndsWithStepSuffix(e.name, "stp");
    }
    if EndsWithExtension(e.name, "step") {
      EndsWithStepSuffix(e.name, "step");
    }
  }

  lemma {:induction false} StepSuffixEndsWith(n: string)
    requires Lower(Suffix(n)) in StepSuffixes
    ensures EndsWithExtension(n, "stp") || EndsWithExtension(n, "step")
  {
    var low := Lower(Suffix(n));
    assert low == "." + "stp" || low == "." + "step";
    if low == "." + "stp" {
      EndingOfExtension(n, "stp");
    } else {
      EndingOfExtension(n, "step");
    }
  }

  lemma {:induction false} EndsWithStepSuffix(n: string, w: string)
    requires w == "stp" || w == "step"
    requires EndsWithExtension(n, w)
    ensures Lower(Suffix(n)) in StepSuffixes
  {
    if w == "stp" {
      StpEnding(n);
    } else {
      StepEnding(n);
    }
  }

  lemma {:induction false} StpEnding(n: string)
    requires EndsWithExtension(n, "stp")
    ensures Lower(Suffix(n)) == StepSuffixes[0]
  {
    ExtensionOfEnding(n, "stp");
  }

  lemma {:induction false} StepEnding(n: string)
    requires EndsWithExtension(n, "step")
    ensures Lower(Suffix(n)) == StepSuffixes[1]
  {
    ExtensionOfEnding(n, "step");
  }

  /** Upper- and mixed-case suffixes qualify. */
  lemma StepSourceAccepts()
    ensures IsStepSource(Entry("A.STEP", true))
    ensures IsStepSource(Entry("b.Stp", true))
  {
    UpperCaseStepAccepted();
    MixedCaseStpAccepted();
  }

  lemma UpperCaseStepAccepted()
    ensures IsStepSource(Entry("A.STEP", true))
  {
    SplitJoined("A", ".STEP");
    assert "A" + ".STEP" == "A.STEP";
    assert Lower(".STEP") == StepSuffixes[1];
    NotHiddenWithSuffix("A", ".STEP");
  }

  lemma MixedCaseStpAccepted()
    ensures IsStepSource(Entry("b.Stp", true))
  {
    SplitJoined("b", ".Stp");
    assert "b" + ".Stp" == "b.Stp";
    assert Lower(".Stp") == StepSuffixes[0];
    NotHiddenWithSuffix("b", ".Stp");
  }

  /** Resource forks, directories, a bare ".stp" and other suffixes do not qualify. */
  lemma StepSourceRejects()
    ensures !IsStepSource(Entry("._a.step", true))
    ensures !IsStepSource(Entry("part.step", false))
    ensures !IsStepSource(Entry(".stp", true))
    ensures !IsStepSource(Entry("part.stl", true))
  {
    assert "._a.step"[..2] == HiddenPrefix;
    LeadingDotOnly(".stp");
    SplitJoined("part", ".stl");
    assert "part" + ".stl" == "part.stl";
    LowerOfLowerCase(".stl");
  }

  /** Whether meshing the file behind entry `e` raises. */
  predicate MesherFails(inputDir: Path, mesher: Mesher, e: Entry)
  {
    mesher(Join(inputDir, e.name), GmshArgs).None?
  }

  /**
   * Failure isolation: with K qualifying files of which M fail to mesh,
   * exactly K - M STL files are written and M failures reported.
   */
  lemma {:induction false} ConvertCounts(inputDir: Path, outputDir: Path, listing: seq<Entry>, mesher: Mesher)
    ensures var r := ConvertEntries(inputDir, outputDir, listing, mesher);
            var src := Filter(listing, IsStepSource);
            var failing := Filter(src, e => MesherFails(inputDir, mesher, e));
            |Filter(r, IsConverted)| == |src| - |failing| &&
            |Filter(r, o => !IsConverted(o))| == |failing|
  {
    var r := ConvertEntries(inputDir, outputDir, listing, mesher);
    if |listing| > 0 {
      ConvertCounts(inputDir, outputDir, listing[1..], mesher);
      if IsStepSource(listing[0]) {
        assert r[1..] == ConvertEntries(inputDir, outputDir, listing[1..], mesher);
      }
    }
  }

  /**
   * Every STL written sits in the output folder and is named after its
   * source: suffix ".stl", and the same stem as the STEP file it came from.
   */
  lemma {:induction false} ConvertedNames(inputDir: Path, outputDir: Path, listing: seq<Entry>, mesher: Mesher)
    ensures forall o :: o in ConvertEntries(inputDir, outputDir, listing, mesher) ==>
      Parent(o.source) == inputDir && IsStepSource(Entry(Name(o.source), true)) &&
      (o.Converted? ==> Parent(o.target) == outputDir && Suffix(Name(o.target)) == StlSuffix && Stem(Name(o.target)) == Stem(Name(o.source)))
  {
    var r := ConvertEntries(inputDir, outputDir, listing, mesher);
    var src := Filter(listing, IsStepSource);
    ConvertEntriesAt(inputDir, outputDir, listing, mesher);
    FilterMembers(listing, IsStepSource);
    forall o | o in r
      ensures Parent(o.source) == inputDir && IsStepSource(Entry(Name(o.source), true))
      ensures o.Converted? ==> Parent(o.target) == outputDir && Suffix(Name(o.target)) == StlSuffix && Stem(Name(o.target)) == Stem(Name(o.source))
    {
      var k :| 0 <= k < |r| && r[k] == o;
      ConvertOneNames(inputDir, outputDir, src[k], mesher);
    }
  }

  /** One attempt reads the qualifying entry from the input folder and writes `<stem>.stl` into the output folder. */
  lemma {:induction false} ConvertOneNames(inputDir: Path, outputDir: Path, e: Entry, mesher: Mesher)
    requires IsStepSource(e)
    ensures var o := ConvertOne(inputDir, outputDir, e, mesher);
      Parent(o.source) == inputDir && IsStepSource(Entry(Name(o.source), true)) &&
      (o.Converted? ==> Parent(o.target) == outputDir && Suffix(Name(o.target)) == StlSuffix && Stem(Name(o.target)) == Stem(Name(o.source)))
  {
    var o := ConvertOne(inputDir, outputDir, e, mesher);
    assert Name(o.source) == e.name;
    if o.Converted? {
      assert o.target == Join(outputDir, StlName(e.name));
      StemOfStlName(e.name);
    }
  }

  /** A qualifying name has a non-empty stem, so its STL name splits back into that stem and ".stl". */
  lemma {:induction false} StemOfStlName(name: string)
    requires Lower(Suffix(name)) in StepSuffixes
    ensures Stem(name) != ""
    ensures Stem(StlName(name)) == Stem(name) && Suffix(StlName(name)) == StlSuffix
  {
    StepNameNotEmpty(name);
    StlSuffixIsSuffix();
    SplitJoined(Stem(name), StlSuffix);
  }

  lemma {:induction false} StepNameNotEmpty(name: string)
    requires Lower(Suffix(name)) in StepSuffixes
    ensures name != "" && Stem(name) != ""
  {
    var low := Lower(Suffix(name));
    assert low == StepSuffixes[0] || low == StepSuffixes[1];
    assert |low| >= 4;
  }

  lemma StlSuffixIsSuffix()
    ensures IsSuffix(StlSuffix) && Lower(StlSuffix) == StlSuffix
  {
    LowerOfLowerCase(StlSuffix);
  }

  /**
   * Two sources write the same STL file only when their stems agree; case
   * variants of one name do, so the later one overwrites the earlier.
   */
  lemma {:induction false} StlTargetCollision(a: string, b: string)
    ensures StlName(a) == StlName(b) <==> Stem(a) == Stem(b)
    ensures StlName("a.stp") == StlName("a.STEP")
  {
    if StlName(a) == StlName(b) {
      assert Stem(a) == StlName(a)[..|StlName(a)| - 4];
    }
    CaseVariantsCollide();
  }

  lemma CaseVariantsCollide()
    ensures Stem("a.stp") == Stem("a.STEP") == "a"
  {
    SplitJoined("a", ".stp");
    assert "a" + ".stp" == "a.stp";
    SplitJoined("a", ".STEP");
    assert "a" + ".STEP" == "a.STEP";
  }
}

/**
 * What the pipeline sees of the file system: directory listings, the assets
 * it writes, and `mkdir(parents=True, exist_ok=True)`.
 */
module FileTree {
  import opened PurePaths

  /** One entry yielded by `Path.iterdir()`: its name and whether `is_file()` holds for it. */
  datatype Entry = Entry(name: string, isFile: bool)

  /** A surface mesh, known only by its size; the geometry belongs to the meshing library. */
  datatype Mesh = Mesh(vertices: nat, faces: nat)

  /** A point cloud, known only by its number of points. */
  datatype PointCloud = PointCloud(count: nat)

  /** No two entries of a listing share a name, as in any real directory. */
  predicate DistinctNames(listing: seq<Entry>)
  {
    forall i, j :: 0 <= i < |listing| && 0 <= j < |listing| && listing[i].name == listing[j].name ==> i == j
  }

  /** In a listing without repeated names the first two entries differ in name. */
  lemma {:induction false} FirstTwoNamesDiffer(listing: seq<Entry>)
    requires DistinctNames(listing)
    ensures |listing| >= 2 ==> listing[0].name != listing[1].name
  {
  }

  /** `p` and every ancestor of `p` below its anchor: what `p.mkdir(parents=True)` leaves in place. */
  function Ancestors(p: Path): set<Path>
  {
    set k | 1 <= k <= |p.parts| :: Path(p.anchor, p.parts[..k])
  }

  /**
   * The directories that exist after `p.mkdir(parents=True, exist_ok=True)`
   * when `dirs` existed before: `p` itself and its ancestors are added, an
   * existing one is not an error, and nothing else appears.
   */
  function MakeDirs(dirs: set<Path>, p: Path): (r: set<Path>)
    ensures dirs <= r
    ensures |p.parts| > 0 ==> p in r
    ensures forall q :: q in r && q !in dirs ==> IsUnder(p, q) && |q.parts| > 0
    ensures forall q :: IsUnder(p, q) && |q.parts| > 0 ==> q in r
  {
    assert |p.parts| > 0 ==> p.parts[..|p.parts|] == p.parts;
    dirs + Ancestors(p)
  }

  /** The directories that exist after creating each of `ps` in turn. */
  function MakeAll(dirs: set<Path>, ps: seq<Path>): set<Path>
    decreases |ps|
  {
    if |ps| == 0 then dirs else MakeAll(MakeDirs(dirs, ps[0]), ps[1..])
  }

  /** Creating a sequence of directories adds exactly their ancestors, whatever existed before. */
  lemma {:induction false} MakeAllAdds(dirs: set<Path>, ps: seq<Path>)
    ensures MakeAll(dirs, ps) == dirs + AllAncestors(ps)
    decreases |ps|
  {
    if |ps| > 0 {
      MakeAllAdds(MakeDirs(dirs, ps[0]), ps[1..]);
    }
  }

  function AllAncestors(ps: seq<Path>): set<Path>
  {
    if |ps| == 0 then {} else Ancestors(ps[0]) + AllAncestors(ps[1..])
  }

  /**
   * `exist_ok=True` makes directory creation idempotent: creating the same
   * directories a second time succeeds and changes nothing.
   */
  lemma {:induction false} MakeAllIdempotent(dirs: set<Path>, ps: seq<Path>)
    ensures MakeAll(MakeAll(dirs, ps), ps) == MakeAll(dirs, ps)
  {
    MakeAllAdds(dirs, ps);
    MakeAllAdds(MakeAll(dirs, ps), ps);
  }

  /** Every directory asked for exists afterwards. */
  lemma {:induction false} MakeAllCreates(dirs: set<Path>, ps: seq<Path>)
    ensures forall k :: 0 <= k < |ps| && |ps[k].parts| > 0 ==> ps[k] in MakeAll(dirs, ps)
  {
    MakeAllAdds(dirs, ps);
    forall k | 0 <= k < |ps| && |ps[k].parts| > 0
      ensures ps[k] in AllAncestors(ps)
    {
      AncestorsHold(ps, k);
    }
  }

  lemma {:induction false} AncestorsHold(ps: seq<Path>, k: nat)
    requires k < |ps| && |ps[k].parts| > 0
    ensures ps[k] in AllAncestors(ps)
  {
    if k == 0 {
      assert ps[0].parts[..|ps[0].parts|] == ps[0].parts;
    } else {
      AncestorsHold(ps[1..], k - 1);
    }
  }
}

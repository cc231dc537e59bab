# dataset_step, modelled in Dafny

This project models the bookkeeping core of `dataset_step`, a small Python tool.
The tool turns a folder of STEP (CAD exchange) files into point-cloud datasets
and serves those datasets to a training loop. Two source files form the core:

- `dataset.py`
  - `convert_to_stl` meshes every STEP file of a folder into `<stem>.stl`.
  - `generate_ply_folders` builds the output tree `out/stl`, `out/ply/<N>/<stem>.ply`.
    It samples every STL file at every requested density `N`.
  - `generate_dataset_from_step` places that tree under the parent of the input folder.
- `pcd_dataset.py`
  - `PointCloudDataset` indexes the `.ply` files of one density bucket.
    Its item access loads a file lazily and returns the sentinel `(None, None)` when the read fails.
  - `collate_fn` drops sentinels and stacks the surviving clouds into one batch.

The meshing, sampling, reading and tensor libraries are oracles: functions
passed in as parameters that return `Option` (`None` where the library call
raises). A directory listing is a sequence of `Entry(name, isFile)` in the
order the operating system yields it. Each per-file `try/except` loop returns
one outcome per file it attempted: success with what was written, or failure,
which stands for the diagnostic the code prints.

Modules, one per concept:

| file | module | models |
|---|---|---|
| `wrappers.dfy` | `Wrappers` | `Option`, `Result` |
| `seqs.dfy` | `Seqs` | order-preserving `Filter`, and filter-then-map for the per-entry loops |
| `pure_paths.dfy` | `PurePaths` | pathlib's `/`, `parent`, `name`, `suffix`, `stem`; `str.lower`, `str.startswith` |
| `decimal.dfy` | `Decimal` | `str(int)` for bucket names, with a parser as its inverse |
| `file_tree.dfy` | `FileTree` | directory entries, meshes and clouds (by size only), `mkdir(parents=True, exist_ok=True)` |
| `step_to_stl.dfy` | `StepToStl` | `convert_to_stl` |
| `ply_folders.dfy` | `PlyFolders` | `generate_ply_folders`, `generate_dataset_from_step` |
| `pcd_dataset.dfy` | `PcdDataset` | `PointCloudDataset`, `collate_fn` |
| `pipeline.dfy` | `Pipeline` | how the writer's tree and the reader's index fit together |

Three points about the code that are easy to misread:
- Only `<stem>.ply` is written and read.
- Labels are the raw file stems. Nothing validates or encodes them when the dataset is built.
- The index test is case-sensitive and keeps names starting with `._`, unlike the two file tests in `dataset.py`.

## Model

| member | source | states |
|---|---|---|
| PurePaths.Suffix | dataset.py:20 | A suffix is empty or a dot followed by one or more non-dot characters. A non-empty suffix is a proper tail of the name, so a name like `.stp` has no suffix. |
| PurePaths.Stem | pcd_dataset.py:23 | The stem followed by the suffix gives back the whole name. The stem is empty only for the empty name. |
| PurePaths.SplitJoined | dataset.py:30 | A non-empty stem followed by a suffix splits back into exactly that stem and that suffix. This is the round trip behind stem preservation. |
| Decimal.IntToStr | dataset.py:62 | `str(n)` is a non-empty string that is not a bare minus sign. It starts with `-` exactly when `n` is negative. Its digits come from `NatToStr`. |
| Decimal.NatToStr | dataset.py:62 | The digits of a natural number are a non-empty run of decimal digits without leading zeros. The first digit is `0` only for zero itself. |
| Decimal.IntToStrRoundTrip | dataset.py:62 | Parsing `str(n)` gives back `n`, for negative numbers too. |
| Decimal.IntToStrInjective | pcd_dataset.py:19 | Two densities produce the same folder name exactly when they are equal. |
| FileTree.MakeDirs | dataset.py:53-54 | `mkdir(parents=True, exist_ok=True)` keeps every folder that existed before. Afterwards the folder and every missing ancestor below the anchor exist. Nothing else is added. |
| FileTree.MakeAllIdempotent | dataset.py:53-54 | Creating the same folders again with `exist_ok=True` leaves the set of existing folders unchanged. |
| FileTree.MakeAllCreates | dataset.py:63 | Every folder asked for exists after creation, whatever existed before. |
| StepToStl.ConvertEntriesAt | dataset.py:17-32 | The conversion loop makes one attempt per qualifying entry, in listing order. Outcome k is the attempt on the k-th qualifying entry. Other entries leave no trace. |
| StepToStl.ConvertToStl | dataset.py:14-17 | The conversion raises only when the input folder cannot be listed. Otherwise there is one outcome per qualifying entry. |
| StepToStl.StepSourceIff | dataset.py:18-22 | An entry qualifies exactly when it is a regular file, does not start with `._`, and its name ends with `.stp` or `.step` in any letter case, with at least one character before the dot. |
| StepToStl.StepSourceAccepts | dataset.py:20 | `A.STEP` and `b.Stp` qualify. |
| StepToStl.StepSourceRejects | dataset.py:18-22 | `._a.step`, a directory named `part.step`, a bare `.stp` and `part.stl` do not qualify. |
| StepToStl.ConvertCounts | dataset.py:23-32 | K qualifying files of which M fail to mesh give exactly K - M written meshes and M failures. |
| StepToStl.ConvertedNames | dataset.py:30 | Every attempt reads a qualifying file of the input folder. Every STL written sits in the output folder with suffix `.stl` and the stem of its STEP file. |
| StepToStl.StemOfStlName | dataset.py:30 | A qualifying STEP name's STL name has that name's stem and suffix `.stl`. |
| StepToStl.StlTargetCollision | dataset.py:30 | Two sources write the same STL name exactly when their stems agree. `a.stp` and `a.STEP` do, so the later write replaces the earlier. |
| PlyFolders.StlSourceExamples | dataset.py:67-71 | The STL test ignores letter case (`PART_A.STL` qualifies). It rejects `._` names, directories and a bare `.stl`. |
| PlyFolders.StlSourceIff | dataset.py:67-71 | An STL entry qualifies exactly when it is a regular file, does not start with `._`, and its name ends with `.stl` in any letter case, with at least one character before the dot. |
| PlyFolders.SampleDensityAt | dataset.py:66-81 | For one density: one attempt per qualifying STL entry, in listing order. Outcome k is the attempt on the k-th qualifying entry. |
| PlyFolders.SampleAllCount | dataset.py:60-81 | The sampling loops make exactly (number of densities) × (number of qualifying STL entries) attempts. |
| PlyFolders.SampleAllMembers | dataset.py:60-81 | An outcome appears exactly when it is the attempt for some requested density and some qualifying STL entry. |
| PlyFolders.SampledNames | dataset.py:74-79 | Every attempt reads a qualifying file of `out/stl` at a requested density. Every cloud is written to `out/ply/<N>/` with suffix `.ply` and the stem of its STL file. |
| PlyFolders.StemOfPlyName | dataset.py:78 | A qualifying STL name's PLY name has that name's stem and suffix `.ply`. |
| PlyFolders.PlyWrittenIff | dataset.py:60-81 | `out/ply/<N>/<stem>.ply` is written exactly for pairs of a requested N and a qualifying STL entry whose sampling succeeded. A failed pair affects no other pair. |
| PlyFolders.ListedStlIsSampled | dataset.py:66-79 | Every qualifying entry of the STL listing yields `out/ply/<N>/<stem>.ply` for every requested N at which sampling it succeeds, wherever it sits in the listing. |
| PlyFolders.LayoutFolders | dataset.py:51-63 | The folders created are `stl`, `ply` and then one bucket per density. All lie strictly below the output root. |
| PlyFolders.GeneratePlyFolders | dataset.py:35-81 | The run completes exactly when the input folder can be listed. `stl` and `ply` are created even when it cannot. A completed run creates the fixed layout and makes one conversion per qualifying STEP entry. It makes one sampling attempt per (density, STL entry) pair. |
| PlyFolders.GenerateDatasetFromStep | dataset.py:84-100 | The input folder is the given path, and the layout is built under its parent. Every STL written lands in `<parent>/stl`. |
| PlyFolders.DefaultLayout | dataset.py:85 | With the default densities the buckets are `ply/1000`, `ply/5000` and `ply/10000` under the input's parent. |
| PlyFolders.DensityFolderInjective | dataset.py:62 | Two densities share a bucket folder only when they are equal. |
| PlyFolders.RerunCreatesNothing | dataset.py:51-63 | Re-running on the same output root creates no new folder. Every layout folder exists after a run. |
| PcdDataset.Scan | pcd_dataset.py:20-23 | The scan produces one path and one label per indexed entry of the listing. |
| PcdDataset.DatasetFollowsListing | pcd_dataset.py:19-23 | Files and labels follow listing order. The k-th file is the bucket path of the k-th indexed entry, and the k-th label is that entry's stem. |
| PcdDataset.ScanIff | pcd_dataset.py:20-23 | In a listing without repeated names, an entry's path is indexed exactly when the entry is a regular file with suffix `.ply`. |
| PcdDataset.NewDataset | pcd_dataset.py:14-26 | Construction fails exactly when `<root>/ply/str(n)` cannot be listed. The index keeps the invariant (one label per file, each the stem of a `.ply` file in the bucket) and holds one entry per `.ply` file of the listing. `DatasetFollowsListing` states the order. |
| PcdDataset.IndexedIff | pcd_dataset.py:20-29 | `__len__` is the number of regular `.ply` files in the listing. An entry is indexed exactly when it is a regular file with suffix `.ply`. |
| PcdDataset.IndexedEndingIff | pcd_dataset.py:21 | A file is indexed exactly when its name ends with `.ply`, in exactly this letter case, after at least one other character. |
| PcdDataset.IndexedExamples | pcd_dataset.py:21 | `part_a.ply` and `._part_a.ply` are indexed. `part_a.PLY`, a directory and a bare `.ply` are not. |
| PcdDataset.GetItem | pcd_dataset.py:31-42 | An index outside `-len .. len-1` raises, and negative indices count from the end. A valid index returns the sentinel exactly when the read fails, and otherwise that file's points with its label. Points and label are always both present or both absent. |
| PcdDataset.PointsOfFilter | pcd_dataset.py:49 | The surviving points are those of the items that have points, in batch order. |
| PcdDataset.LabelsOfFilter | pcd_dataset.py:50 | The surviving labels are those of the items that have labels, in batch order. |
| PcdDataset.SurvivorsAligned | pcd_dataset.py:47-50 | When every item is aligned, the separate filters both keep exactly the non-sentinel items in order. The k-th points and the k-th label come from the same item. |
| PcdDataset.MisalignedItemsMispair | pcd_dataset.py:42-50 | If a failed item had only one of its two fields missing, the separate filters would pair one item's cloud with another item's label. |
| PcdDataset.Collate | pcd_dataset.py:45-53 | Collation succeeds exactly when all four hold: the batch is non-empty, a cloud survives, all survivors have one point count, and the labels encode. The stack is the survivors in order. A shape mismatch is reported exactly when survivors differ in count. |
| PcdDataset.OneSentinelThreeItems | pcd_dataset.py:47-51 | One sentinel and three loaded items of equal count collate into a batch of those three, in order. |
| PcdDataset.MixedDensitiesFail | pcd_dataset.py:51 | Clouds of 1000, 1000 and 5000 points fail with a shape mismatch. |
| PcdDataset.DatasetItemsAligned | pcd_dataset.py:31-50 | For items fetched from a dataset, each surviving cloud is the one read from some indexed file, paired with that file's own label. |
| Pipeline.StemSurvivesPipeline | pcd_dataset.py:21-23 | A qualifying STEP file's STL name passes the STL test. The PLY name made from it passes the index test. The dataset's label for it is the STEP file's stem. |
| Pipeline.SameBucket | pcd_dataset.py:14-19 | The dataset for (root, N) scans exactly the bucket the writer fills for N under root. The root passed to the dataset is the output root. |
| Pipeline.LabelsTraceToConvertedSources | dataset.py:60-81 | Assume the STL folder holds only what the run converted. Then every PLY written is in the bucket the dataset for its density scans, and it is indexed there. Its label is the stem of a STEP file that was converted. |
| Pipeline.ConvertedSourcesAreSampled | dataset.py:57-79 | Suppose the STL listing holds every file the conversion exported. Then every converted STEP file `<stem>.step` yields `out/ply/<N>/<stem>.ply` for every requested N at which sampling its STL file succeeds. |
| Pipeline.OneStlSampledTwice | dataset.py:60-79 | The STL listing may hold other entries the STL test skips (`._` names, folders, other suffixes). If its only qualifying entry is sampled successfully at two densities, exactly that entry's two clouds are written. |
| Pipeline.ValidAndMalformedAsset | dataset.py:17-81 | Take one valid `<a>.step`, one malformed `<b>.step`, densities 1000 and 5000, and an STL folder that was empty before the run. Its listing is any one consistent with the conversions. Exactly one conversion fails. Both sampling attempts succeed, so that failure is the only one the run reports. The only clouds written are `ply/1000/<a>.ply` and `ply/5000/<a>.ply`. |

## Left out

- Meshing (gmsh, trimesh, `Mesh.Algorithm` 5) and exporting the STL (dataset.py:25-30) form the `Mesher` oracle. A mesh is known only by its vertex and face counts.
- Reading an STL, Poisson-disk sampling and writing the PLY (dataset.py:74-79) form the `Sampler` oracle.
  - `open3d.io.write_point_cloud` reports failure by return value rather than by raising. The model does not separate that case.
- Reading a PLY into a float32 tensor (pcd_dataset.py:37-38) is the `Reader` oracle. A cloud is known only by its point count, so coordinates are not modelled.
- `torch.tensor(labels, dtype=torch.long)` (pcd_dataset.py:52) is the `Encoder` oracle. Whether torch accepts string stems is torch's behaviour, which is not modelled.
- `create_dataloader`, `DataLoader` batching and shuffling (pcd_dataset.py:56-63) are library code.
- `print` diagnostics are left out. A failed attempt is an outcome value. The index scan's messages for skipped entries are dropped.
- The `__main__` blocks with hard-coded paths are left out.
- Turning a path string into a `Path` is left out. Paths are given already split into components, and listed names are single components.
- `mkdir` errors are not modelled. These include a regular file standing where a folder is wanted and permission errors. The model's folder creation always succeeds.
- Listing `out/stl` is assumed to succeed because the folder was just created. The run takes that listing as a parameter, because the order of a directory listing is up to the operating system. Each density's pass sees the same listing, since nothing writes to `out/stl` during sampling. `PlyFolders.StlListingAfter` states which listings are consistent with the conversions, with no name listed twice. The pipeline lemmas assume it.
- The input folder being `out/stl` itself is not modelled. That happens when the input folder is named `stl` under its parent.
- `str.lower` is modelled on ASCII letters only. As far as known, no other character lowers into the letters these suffix tests compare against.
- `suffix` and `stem` follow pathlib's long-standing rule: split at the last dot unless it is the first or last character.
- Densities are Python `int`s. Non-integer list entries are not modelled.
- PcdDataset.GetItem: "no caching" is only implicit. Each call consults the `Reader` afresh, and a reader whose answer changes over time is not modelled.
- PlyFolders.GeneratePlyFolders: records folders created, conversions and sampling attempts as three separate sequences. It does not state how creating a bucket interleaves with the sampling attempts of the previous density.

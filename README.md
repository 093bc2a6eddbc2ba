# Left atrial appendage surfaces and shape descriptors, in Dafny

The pipeline has two stages, and this project models the logic the two scripts carry out themselves.

**Surface extraction** (`scripts/stacom2025_extract_surfaces.py`):
- each labelled CT volume is read with SimpleITK;
- its metadata is brought to the 3-D form VTK expects;
- discrete marching cubes extracts the boundary of the appendage label (8);
- the largest connected region is kept;
- the mesh is written to `<surfaces>/<id>_laa_surface.vtk`.

**Shape descriptors** (`scripts/stacom2025_compute_shape_descriptors.py`):
- for each surface file, VTK mass properties (volume, surface area, normalized shape index, surface-to-volume ratio) are computed;
- principal-axis statistics of the mesh points (major, minor and least axis length, elongation, flatness) are computed;
- the nine values go into one record, saved as `<descriptors>/<id>_shape_descriptors.json`;
- all records are finally combined into `combined_shape_descriptors.csv`.

Every geometric and numeric computation is delegated to SimpleITK, VTK, numpy or scikit-learn. Those calls are fields of a `Toolkit` value passed to the model, so every proved property holds whatever those libraries return. Descriptor numbers are values of an abstract type `Value`: the model moves them around and never computes with them.

Modules:
- `Wrappers`: `Option`, `Result`, and the Python exceptions that can escape (`IndexError`, `ZeroDivisionError`, `ValueError`, `TypeError`).
- `PyStr`: the Python string and path operations the scripts rely on, with CPython's semantics:
  - `str.endswith`;
  - `str.replace`, which scans left to right, does not overlap matches and replaces every occurrence;
  - `str.strip()`, which strips the full `str.isspace` set;
  - `PurePath.stem`.
- `PyDict`: an insertion-ordered `dict` as a value. An assignment appends a new key and keeps the position of an existing one.
- `Meshes`: points and poly data.
- `ExtractSurfaces`: `stacom2025_extract_surfaces.py`.
- `ShapeDescriptors`: `stacom2025_compute_shape_descriptors.py`.

Code that updates state step by step is modelled as methods, each proved equal to a specification function whose properties are proved separately:
- `sitk2vtk`;
- the batch loop;
- the data-matrix fill on an `array2`;
- `result_dict`, a class whose `Set` method assigns in place;
- the id queue;
- the CSV row loop.

How the scripts treat failures and edge cases:
- The scripts have no Skipped or Failed scan states and record no reasons. An unreadable label volume or an empty isosurface is reported on the console and the scan produces no file. Any other exception escapes. In the extraction batch it ends the loop, with the files of the earlier scans already written (`RunBatch`, `BatchStopsAtFirstRaise`). In the descriptor stage it ends `analyze_one_scan` with no JSON file (`AnalyzeOneScan`); `analyzer_process` does not catch it either, so the worker's loop and process end there too.
- A zero volume raises Python's `ZeroDivisionError` from `surface_area / volume`, before any entry is written. The numpy quotients for elongation and flatness raise nothing.
- Combining performs no schema check and no sorting. Rows follow the directory listing order. A record with a key outside the header makes `csv.DictWriter` raise `ValueError`, with the rows before it already written. A record that lacks a header key gets an empty cell. A folder without JSON files raises `IndexError` before the CSV is opened.
- `sitk2vtk` hands the padded lists to VTK's setters, which take exactly three values (nine for the direction). A size, spacing or origin of any other length raises `TypeError` in the setter, so `SetExtent` on line 47 is never reached with a short size.

## Model

| member | source | states |
|---|---|---|
| ExtractSurfaces.PaddedSize | scripts/stacom2025_extract_surfaces.py:22-23 | a 2-entry size gets 1 appended, any other size is unchanged, and the original entries always lead |
| ExtractSurfaces.PaddedOrigin | scripts/stacom2025_extract_surfaces.py:25-26 | a 2-entry origin gets 0.0 appended; others are unchanged; the original entries lead |
| ExtractSurfaces.PaddedSpacing | scripts/stacom2025_extract_surfaces.py:28-29 | a 2-entry spacing gets its x spacing repeated as the z spacing; others are unchanged |
| ExtractSurfaces.PaddedDirection | scripts/stacom2025_extract_surfaces.py:31-42 | a 4-entry direction becomes the row-major 3x3 with the 2x2 block upper left, 1.0 at (2,2) and 0.0 elsewhere; other directions are unchanged |
| ExtractSurfaces.ExtentOf | scripts/stacom2025_extract_surfaces.py:47 | six bounds whose lows are 0 and each axis spans exactly size[i] grid points |
| ExtractSurfaces.ToVtk | scripts/stacom2025_extract_surfaces.py:9-56 | TypeError exactly when the padded size, spacing or origin does not hold three values or the padded direction nine; otherwise exactly the image with the padded dimensions, spacing, origin and direction, the extent 0 .. size - 1 on each axis, the image's components per pixel and its voxels in order |
| ExtractSurfaces.ToVtkPlanarOrVolume | scripts/stacom2025_extract_surfaces.py:22-47 | a 2-D or 3-D image always converts, to three dimensions that start with the original size |
| ExtractSurfaces.ToVtkOtherDimensions | scripts/stacom2025_extract_surfaces.py:44 | an image that is neither 2-D nor 3-D is refused with TypeError by `SetDimensions` |
| ExtractSurfaces.Sitk2Vtk | scripts/stacom2025_extract_surfaces.py:9-56 | the in-place padding and the setter calls, each refusing a wrong-length list, produce exactly the image (or TypeError) of `ToVtk` |
| ExtractSurfaces.ConvertLabelMapToSurface | scripts/stacom2025_extract_surfaces.py:59-80 | raises exactly the conversion's exception when conversion fails; otherwise None exactly when marching cubes gives fewer than 10 points, else the largest region when only_largest_component holds and the raw output when it does not |
| ExtractSurfaces.ExtractOrganSurfaceMesh | scripts/stacom2025_extract_surfaces.py:83-103 | ReadFailed exactly when reading raises RuntimeError; after a read, it raises exactly the exception of `convert_label_map_to_surface`, reports no surface exactly when that returns None, and otherwise saves that surface at `surf_out`; only a Saved outcome names a file, and it is `surf_out` |
| ExtractSurfaces.PathsInjective | scripts/stacom2025_extract_surfaces.py:118-120 | distinct ids give distinct input volume paths and distinct surface paths |
| ExtractSurfaces.SegmentationPath | scripts/stacom2025_extract_surfaces.py:119 | the label volume path is the label folder, then the id, then ".nii.gz", and the id can be read back from between them |
| ExtractSurfaces.SurfacePath | scripts/stacom2025_extract_surfaces.py:120 | the surface path is the folder, then the id, then "_laa_surface.vtk", and the id can be read back from between them |
| ExtractSurfaces.ExtractScan | scripts/stacom2025_extract_surfaces.py:118-122 | a saved surface of id f is at `surface_folder + f + "_laa_surface.vtk"` |
| ExtractSurfaces.ExtractScanInputs | scripts/stacom2025_extract_surfaces.py:118-122 | a scan runs `extract_organ_surface_mesh` on its own label volume and surface path with label 8; it fails to read exactly when that volume cannot be read, and a saved mesh is the surface converted from that volume |
| ExtractSurfaces.RunBatchRaises | scripts/stacom2025_extract_surfaces.py:118-122 | the batch ends normally exactly when no scan raises; a reported exception is one that some listed scan raises |
| ExtractSurfaces.BatchStopsAtFirstRaise | scripts/stacom2025_extract_surfaces.py:118-122 | when scan k is the first to raise, the batch reports that exception and the folder is exactly what the scans before k left; no later scan runs |
| ExtractSurfaces.BatchLeavesOtherFiles | scripts/stacom2025_extract_surfaces.py:118-122 | files that are no listed scan's output are untouched by the batch |
| ExtractSurfaces.BatchOutputs | scripts/stacom2025_extract_surfaces.py:118-122 | after a batch without exception, each listed scan's output path holds the mesh it saved, or what it held before when the scan saved nothing |
| ExtractSurfaces.ExtractAllCompleteLaaSurfaces | scripts/stacom2025_extract_surfaces.py:105-122 | the for loop over the ids in list order leaves the folder and exception that `RunBatch` describes |
| PyStr.Replace | scripts/stacom2025_compute_shape_descriptors.py:139 | replacing a pattern that does not occur changes nothing; deleting occurrences never lengthens the string |
| PyStr.EndsWithMeansSuffix | scripts/stacom2025_compute_shape_descriptors.py:108 | `s.endswith(suffix)` holds exactly when `s` is some string followed by `suffix` |
| PyStr.RemoveAppendedMarker | scripts/stacom2025_compute_shape_descriptors.py:139 | deleting a border-free marker from `id + marker` gives back `id` when `id` does not contain the marker |
| PyStr.ReplaceRemovesOccurrence | scripts/stacom2025_compute_shape_descriptors.py:139 | `s.replace(pat, "")` on a string that contains `pat` is at least `len(pat)` shorter |
| PyStr.MarkerInsideIsLost | scripts/stacom2025_compute_shape_descriptors.py:139 | when `id` contains the marker, deleting it from `id + marker` removes at least two copies, so `id` does not come back |
| PyStr.AppendedMarkerRoundTrip | scripts/stacom2025_compute_shape_descriptors.py:139 | deleting a border-free marker from `id + marker` gives back `id` exactly when `id` does not contain the marker |
| PyStr.Strip | scripts/stacom2025_compute_shape_descriptors.py:144 | the result is a slice of the input with only whitespace outside it, it has no whitespace at either end, and a string already without it is unchanged |
| PyStr.StemOfExtension | scripts/stacom2025_compute_shape_descriptors.py:139 | the stem of `base + ".ext"` is `base` |
| PyStr.Stem | scripts/stacom2025_compute_shape_descriptors.py:139 | the stem is a prefix of the name; when it is shorter, it is non-empty and followed by a '.' that starts a non-empty extension without further dots |
| PyDict.Dict.Put | scripts/stacom2025_compute_shape_descriptors.py:71-74 | assignment keeps a dictionary well formed, binds the key, appends a new key to the order and keeps an existing key in place |
| PyDict.PutAllFreshKeys | scripts/stacom2025_compute_shape_descriptors.py:49-53 | assigning distinct new keys appends them in assignment order |
| PyDict.PutAllEntries | scripts/stacom2025_compute_shape_descriptors.py:71-74 | after distinct assignments every key maps to its assigned value and every other key keeps its value |
| ShapeDescriptors.FillDataMatrix | scripts/stacom2025_compute_shape_descriptors.py:21-30 | the matrix has one row per mesh point and three columns, and row i holds point i's x, y and z |
| ShapeDescriptors.MassProperties | scripts/stacom2025_compute_shape_descriptors.py:56-75 | the four mass keys in order, with VTK's volume, area and normalized shape index, then area / volume; ZeroDivisionError exactly when the volume is zero |
| ShapeDescriptors.ComputeMassProperties | scripts/stacom2025_compute_shape_descriptors.py:56-75 | returns True after adding exactly the four mass entries, or raises with the dictionary untouched |
| ShapeDescriptors.PcaDescriptors | scripts/stacom2025_compute_shape_descriptors.py:35-53 | the five PCA keys in order: the axis lengths of the first three explained variances, elongation = minor / major and flatness = least / major; a PCA exception passes through unchanged, and IndexError exactly when fewer than three variances come back |
| ShapeDescriptors.ShapePcaAnalysis | scripts/stacom2025_compute_shape_descriptors.py:15-53 | after filling the matrix from the mesh, adds exactly the five PCA entries, or raises with the dictionary untouched |
| ShapeDescriptors.ScanRecord | scripts/stacom2025_compute_shape_descriptors.py:79-91 | a record exists exactly when neither analysis step raises; otherwise the exception is the mass-property one when that step raises, and the PCA one only when it does not |
| ShapeDescriptors.DescriptorKeysDistinct | scripts/stacom2025_compute_shape_descriptors.py:49-74 | the nine descriptor keys are pairwise different |
| ShapeDescriptors.RecordOfEntries | scripts/stacom2025_compute_shape_descriptors.py:80-91 | mass entries then PCA entries written into `{}` give the nine keys once each, in that order, each with its written value |
| ShapeDescriptors.ScanRecordKeys | scripts/stacom2025_compute_shape_descriptors.py:79-91 | a saved record holds exactly volume, surface_area, normalized_shape_index, surface_to_volume_ratio, major_axis_length, minor_axis_length, least_axis_length, elongation, flatness in that order |
| ShapeDescriptors.ResultDict.constructor | scripts/stacom2025_compute_shape_descriptors.py:80 | a new record starts as the empty dictionary |
| ShapeDescriptors.ResultDict.Set | scripts/stacom2025_compute_shape_descriptors.py:71-74 | `result_dict[key] = value` is one insertion-ordered assignment on the record, in place |
| ShapeDescriptors.DescriptorPathInjective | scripts/stacom2025_compute_shape_descriptors.py:83 | distinct scans never share a record file |
| ShapeDescriptors.DescriptorPath | scripts/stacom2025_compute_shape_descriptors.py:83 | the record path is the folder, then the scan id, then "_shape_descriptors.json", and the id can be read back from between them |
| ShapeDescriptors.AnalyzeOneScan | scripts/stacom2025_compute_shape_descriptors.py:79-94 | reads `surface_folder + id + "_laa_surface.vtk"` and saves the scan record at `descriptor_folder + id + "_shape_descriptors.json"`, or ends with the exception raised; a saved record has the nine keys in order |
| ShapeDescriptors.FilterEndsWithKeeps | scripts/stacom2025_compute_shape_descriptors.py:108 | keeps exactly the names with the suffix, and a listing where all names match is kept whole and in order |
| ShapeDescriptors.FilterEndsWithConcat | scripts/stacom2025_compute_shape_descriptors.py:108 | filtering a concatenated listing is the concatenation of the filtered pieces, so the order of the listing is kept |
| ShapeDescriptors.ScanIdOf | scripts/stacom2025_compute_shape_descriptors.py:139 | the id is never longer than the stem, and is the stem itself when the stem does not contain "_laa_surface" |
| ShapeDescriptors.ScanIds | scripts/stacom2025_compute_shape_descriptors.py:137-139 | one id per listed `_laa_surface.vtk` file, never more ids than listed names |
| ShapeDescriptors.ScanIdsFromListing | scripts/stacom2025_compute_shape_descriptors.py:137-139 | each id is the id of some listed `_laa_surface.vtk` file |
| ShapeDescriptors.ScanIdsConcat | scripts/stacom2025_compute_shape_descriptors.py:137-139 | the ids of a listing made of two parts are the first part's ids followed by the second's, so ids follow listing order |
| ShapeDescriptors.ScanIdsOne | scripts/stacom2025_compute_shape_descriptors.py:137-139 | a single listed name gives its own id when it ends with `_laa_surface.vtk` and no id otherwise |
| ShapeDescriptors.EnqueueScanIds | scripts/stacom2025_compute_shape_descriptors.py:142-145 | one queue entry per id, in order, each the stripped id |
| ShapeDescriptors.ScanIdRoundTrip | scripts/stacom2025_compute_shape_descriptors.py:137-139 | the id recovered from `id + "_laa_surface.vtk"` is `id` exactly when `id` does not contain "_laa_surface" |
| ShapeDescriptors.ScanIdWithMarkerIsLost | scripts/stacom2025_compute_shape_descriptors.py:139 | the side condition is needed: the id "_laa_surface" is recovered as "" |
| ShapeDescriptors.QueuedIdsRoundTrip | scripts/stacom2025_compute_shape_descriptors.py:137-145 | for a surface folder holding exactly the files of some ids, the queue gets back those ids in listing order, when no id contains the marker or has surrounding whitespace |
| ShapeDescriptors.RecordNameRoundTrip | scripts/stacom2025_compute_shape_descriptors.py:126 | the row name of `id + "_shape_descriptors.json"` is `id` exactly when `id` does not contain that suffix |
| ShapeDescriptors.RecordNameKeeps | scripts/stacom2025_compute_shape_descriptors.py:126 | the row name is never longer than the file name, and is the file name itself when it does not contain "_shape_descriptors.json" |
| ShapeDescriptors.JoinPath | scripts/stacom2025_compute_shape_descriptors.py:123 | the joined path starts with the folder and ends with the name, with exactly one '/' between them when the folder is non-empty |
| ShapeDescriptors.CsvRow | scripts/stacom2025_compute_shape_descriptors.py:119-127 | ValueError exactly when the row has a key outside the header; otherwise one cell per header field in header order, empty where the row lacks the field |
| ShapeDescriptors.RowDataEntries | scripts/stacom2025_compute_shape_descriptors.py:125-126 | the loaded record with `filename` set to the row name: every other key keeps its presence and value, a well-formed record stays well formed, and `filename` keeps its place or goes last |
| ShapeDescriptors.WriteRows | scripts/stacom2025_compute_shape_descriptors.py:122-127 | all files give a row unless a ValueError stops the loop early |
| ShapeDescriptors.WriteRowsContents | scripts/stacom2025_compute_shape_descriptors.py:122-127 | row i is the row of the i-th JSON file, and the loop stops exactly at the first file that does not fit the header |
| ShapeDescriptors.Combine | scripts/stacom2025_compute_shape_descriptors.py:103-127 | no table and IndexError exactly when there is no `.json` file; otherwise the table is at `descriptor_folder + "combined_shape_descriptors.csv"` with header `filename` followed by the first JSON file's keys, and its rows and exception are those of the row loop over the `.json` files in listing order |
| ShapeDescriptors.CombineAllShapeDescriptors | scripts/stacom2025_compute_shape_descriptors.py:103-127 | reading the header from the first JSON file and then running the row loop produces exactly the table and exception of `Combine` |
| ShapeDescriptors.WriteAllRows | scripts/stacom2025_compute_shape_descriptors.py:122-127 | the for loop that loads each JSON file, sets its `filename` entry and writes it leaves exactly the rows and exception of `WriteRows` |
| ShapeDescriptors.FirstRowFits | scripts/stacom2025_compute_shape_descriptors.py:111-127 | the first JSON file always yields a row |
| ShapeDescriptors.CombineSavedRecords | scripts/stacom2025_compute_shape_descriptors.py:103-127 | when every JSON file is a saved scan record, the header is `filename` plus the nine keys, and there is one complete row per JSON file in listing order: the scan name, then its nine values |

## Left out

- SimpleITK and VTK internals: image reading, `GetArrayFromImage`/`numpy_to_vtk`, discrete marching cubes, the connectivity filter and its largest-region tie-break, the mass-property algorithms and the poly-data reader and writer. They are abstract fields of `Toolkit`.
- Mesh topology: `PolyData` keeps its point list, which the model uses, and carries polygons only as data.
- scikit-learn PCA and the floating-point arithmetic on its output (`4 * sqrt`, the ratios, `surface_area / volume`). These are abstract functions over the opaque `Value`. The only property used is that a Python float division by zero raises.
- A PCA error is passed through as whatever exception `explainedVariance` returns. Which inputs make scikit-learn raise is not modelled.
- ExtractSurfaces.ToVtk: the model relies on VTK's Python binding raising `TypeError` for a list of the wrong length; the binding's other argument checks (element types, ranges) are not modelled.
- The multiprocessing queue and worker pool (`analyzer_process`, process start and join). The queue is modelled as the sequence of ids it is filled with, and the concurrent draining is not modelled. `analyzer_process` (lines 97-101) has no `try`, so an exception from `analyze_one_scan` ends that worker's loop and its process, and the ids it would still have taken stay for the other workers; this is not modelled.
- File I/O and formats. The surface folder is a map from path to mesh. `json.load` is `loadJson`, a field of `Toolkit` left unconstrained: it is not tied to the record `AnalyzeOneScan` returns, and `CombineSavedRecords` takes the nine-key shape of every loaded record as its precondition. `json.dump` is modelled by `AnalyzeOneScan` returning the record with its path. The CSV is its header and rows, and the bytes `csv.DictWriter` writes are not modelled. `mkdir` is not modelled.
- `np.loadtxt` of the id list: the batch takes the loaded ids as a sequence.
- Directory listing: `os.listdir` and `glob` are the listing passed in, filtered by suffix. Matching is case-sensitive, so the case-insensitive matching of `glob` on Windows is not modelled.
- `os.path.join` is modelled with '/' as its only separator.
- Console messages (`print`).
- `scripts/stacom2025_explore_shape_descriptors.py` (statistics and plotting) is not part of this model.

/**
 * Surface extraction for the left atrial appendage: a label volume is read,
 * its metadata is brought to the 3-D form VTK expects, discrete marching cubes
 * extracts the boundary of one label, the largest connected region is kept and
 * the mesh is written to a per-scan file.
 *
 * SimpleITK and VTK are foreign libraries here. Their calls are the fields of
 * a `Toolkit` value handed to the model, so every claim below holds whatever
 * those libraries compute.
 */
module ExtractSurfaces {
  import opened Wrappers
  import opened PyStr
  import opened Meshes

  /** What the model needs from a SimpleITK image: its metadata and its voxel labels in memory order. */
  datatype SitkImage = SitkImage(
    size: seq<nat>,
    origin: seq<real>,
    spacing: seq<real>,
    direction: seq<real>,   // the direction cosines, row-major
    componentsPerPixel: nat,
    voxels: seq<int>)

  /** The state of the `vtkImageData` that `sitk2vtk` fills in. */
  datatype VtkImage = VtkImage(
    dimensions: seq<nat>,
    spacing: seq<real>,
    origin: seq<real>,
    extent: seq<int>,       // (x0, x1, y0, y1, z0, z1), inclusive bounds
    direction: seq<real>,
    componentsPerPixel: nat,
    scalars: seq<int>)

  /** The foreign calls the extraction makes. */
  datatype Toolkit = Toolkit(
    readImage: string -> Option<SitkImage>,      // sitk.ReadImage; None when it raises RuntimeError
    marchingCubes: (VtkImage, int) -> PolyData,  // vtkDiscreteMarchingCubes, one contour at the label
    largestRegion: PolyData -> PolyData)         // vtkConnectivityFilter in largest-region mode

  // ---------------------------------------------------------------------------
  // sitk2vtk: metadata normalisation
  // ---------------------------------------------------------------------------

  /** The size after padding: a planar size gets a third axis of one voxel. */
  function PaddedSize(size: seq<nat>): (r: seq<nat>)
    ensures |size| <= |r| && r[..|size|] == size
    ensures |size| == 2 ==> |r| == 3 && r[2] == 1
    ensures |size| != 2 ==> r == size
  {
    if |size| == 2 then size + [1] else size
  }

  /** The origin after padding: a planar origin sits at z = 0. */
  function PaddedOrigin(origin: seq<real>): (r: seq<real>)
    ensures |origin| <= |r| && r[..|origin|] == origin
    ensures |origin| == 2 ==> |r| == 3 && r[2] == 0.0
    ensures |origin| != 2 ==> r == origin
  {
    if |origin| == 2 then origin + [0.0] else origin
  }

  /** The spacing after padding: a planar spacing repeats its x spacing along z. */
  function PaddedSpacing(spacing: seq<real>): (r: seq<real>)
    ensures |spacing| <= |r| && r[..|spacing|] == spacing
    ensures |spacing| == 2 ==> |r| == 3 && r[2] == r[0]
    ensures |spacing| != 2 ==> r == spacing
  {
    if |spacing| == 2 then spacing + [spacing[0]] else spacing
  }

  /** Entry (row, col) of a row-major n-by-n matrix. */
  function Entry(m: seq<real>, n: nat, row: nat, col: nat): real
    requires |m| == n * n && row < n && col < n
  {
    assert n * row + col < n * n by {
      assert n * row <= n * (n - 1);
    }
    m[n * row + col]
  }

  /**
   * The direction after padding: a 2-by-2 matrix becomes the 3-by-3 matrix with
   * that block in the upper left, 1 at (2, 2) and 0 elsewhere.
   */
  function PaddedDirection(direction: seq<real>): (r: seq<real>)
    ensures |direction| == 4 ==> |r| == 9
    ensures |direction| == 4 ==> forall row, col :: 0 <= row < 3 && 0 <= col < 3 ==>
      Entry(r, 3, row, col) ==
        if row < 2 && col < 2 then Entry(direction, 2, row, col)
        else if row == col then 1.0
        else 0.0
    ensures |direction| != 4 ==> r == direction
  {
    if |direction| == 4 then
      [direction[0], direction[1], 0.0,
       direction[2], direction[3], 0.0,
       0.0, 0.0, 1.0]
    else
      direction
  }

  /** The extent set from the padded size: along each axis, the indices 0 .. size - 1. */
  function ExtentOf(size: seq<nat>): (e: seq<int>)
    requires |size| >= 3
    ensures |e| == 6
    ensures e[0] == 0 && e[1] - e[0] + 1 == size[0]
    ensures e[2] == 0 && e[3] - e[2] + 1 == size[1]
    ensures e[4] == 0 && e[5] - e[4] + 1 == size[2]
  {
    var e: seq<int> := [0, size[0] as int - 1, 0, size[1] as int - 1, 0, size[2] as int - 1];
    e
  }

  /**
   * The image `sitk2vtk` builds from the padded metadata, or the TypeError that
   * VTK's setters raise when the padded size, spacing or origin does not hold
   * exactly three values or the direction does not hold exactly nine.
   */
  function ToVtk(img: SitkImage): (r: Result<VtkImage, Exception>)
    ensures r.Err? <==>
      |PaddedSize(img.size)| != 3 || |PaddedSpacing(img.spacing)| != 3
      || |PaddedOrigin(img.origin)| != 3 || |PaddedDirection(img.direction)| != 9
    ensures r.Err? ==> r.error == TypeError
    ensures r.Ok? ==> r.value == VtkImage(PaddedSize(img.size), PaddedSpacing(img.spacing),
      PaddedOrigin(img.origin), ExtentOf(PaddedSize(img.size)), PaddedDirection(img.direction),
      img.componentsPerPixel, img.voxels)
    ensures r.Ok? ==> |r.value.dimensions| == 3 && r.value.extent == ExtentOf(r.value.dimensions)
  {
    var size := PaddedSize(img.size);
    var spacing := PaddedSpacing(img.spacing);
    var origin := PaddedOrigin(img.origin);
    var direction := PaddedDirection(img.direction);
    if |size| != 3 || |spacing| != 3 || |origin| != 3 || |direction| != 9 then
      Err(TypeError)
    else
      Ok(VtkImage(size, spacing, origin, ExtentOf(size), direction, img.componentsPerPixel, img.voxels))
  }

  /** The metadata of an image as SimpleITK holds it: one origin and spacing entry per axis, an n-by-n direction. */
  predicate FromSimpleItk(img: SitkImage)
  {
    && |img.origin| == |img.size|
    && |img.spacing| == |img.size|
    && |img.direction| == |img.size| * |img.size|
  }

  /**
   * A 2-D or 3-D SimpleITK image always converts, to a 3-D grid whose leading
   * dimensions, spacings and origin are the image's own.
   */
  lemma ToVtkPlanarOrVolume(img: SitkImage)
    requires FromSimpleItk(img)
    requires |img.size| == 2 || |img.size| == 3
    ensures ToVtk(img).Ok?
    ensures ToVtk(img).value.dimensions[..|img.size|] == img.size
    ensures ToVtk(img).value.spacing[..|img.size|] == img.spacing
    ensures ToVtk(img).value.origin[..|img.size|] == img.origin
  {
  }

  /** Any other dimension is refused by VTK's SetDimensions. */
  lemma ToVtkOtherDimensions(img: SitkImage)
    requires |img.size| != 2 && |img.size| != 3
    ensures ToVtk(img) == Err(TypeError)
  {
  }

  /** `sitk2vtk`: pads the metadata lists in place, then sets the image fields one by one. */
  method Sitk2Vtk(img: SitkImage) returns (r: Result<VtkImage, Exception>)
    ensures r == ToVtk(img)
  {
    var size := img.size;
    var origin := img.origin;
    var spacing := img.spacing;
    var direction := img.direction;
    if |size| == 2 {
      size := size + [1];
    }
    if |origin| == 2 {
      origin := origin + [0.0];
    }
    if |spacing| == 2 {
      spacing := spacing + [spacing[0]];
    }
    if |direction| == 4 {
      direction := [direction[0], direction[1], 0.0,
                    direction[2], direction[3], 0.0,
                    0.0, 0.0, 1.0];
    }
    // SetDimensions, SetSpacing and SetOrigin take exactly three values
    if |size| != 3 {
      return Err(TypeError);
    }
    if |spacing| != 3 {
      return Err(TypeError);
    }
    if |origin| != 3 {
      return Err(TypeError);
    }
    var extent: seq<int> := [0, size[0] as int - 1, 0, size[1] as int - 1, 0, size[2] as int - 1];
    // SetDirectionMatrix takes exactly nine
    if |direction| != 9 {
      return Err(TypeError);
    }
    r := Ok(VtkImage(size, spacing, origin, extent, direction, img.componentsPerPixel, img.voxels));
  }

  // ---------------------------------------------------------------------------
  // convert_label_map_to_surface and extract_organ_surface_mesh
  // ---------------------------------------------------------------------------

  /** A marching-cubes result with fewer points than this counts as "no isosurface". */
  const MinSurfacePoints := 10

  /**
   * `convert_label_map_to_surface`: None when marching cubes yields fewer than
   * ten points; otherwise the largest region of its output, or the raw output
   * when only_largest_component is false.
   */
  function ConvertLabelMapToSurface(tk: Toolkit, img: SitkImage, segmentId: int, onlyLargest: bool)
    : (r: Result<Option<PolyData>, Exception>)
    ensures r.Err? <==> ToVtk(img).Err?
    ensures r.Err? ==> r.error == ToVtk(img).error
    ensures r.Ok? ==>
      var mc := tk.marchingCubes(ToVtk(img).value, segmentId);
      && (r.value.None? <==> mc.NumberOfPoints() < MinSurfacePoints)
      && (r.value.Some? && onlyLargest ==> r.value.value == tk.largestRegion(mc))
      && (r.value.Some? && !onlyLargest ==> r.value.value == mc)
  {
    match ToVtk(img)
    case Err(e) => Err(e)
    case Ok(vtkImg) =>
      var mc := tk.marchingCubes(vtkImg, segmentId);
      if mc.NumberOfPoints() < MinSurfacePoints then Ok(None)
      else if onlyLargest then Ok(Some(tk.largestRegion(mc)))
      else Ok(Some(mc))
  }

  /** How one call of `extract_organ_surface_mesh` ends. */
  datatype Outcome =
    | ReadFailed                                 // ReadImage raised RuntimeError: reported, nothing written
    | NoSurface                                  // no isosurface: reported, nothing written
    | Saved(path: string, surface: PolyData)     // the one file written
    | Raised(error: Exception)                   // an exception escaped to the caller

  /**
   * `extract_organ_surface_mesh`: nothing is written when reading fails or no
   * surface comes back; otherwise exactly one file, at `surfOut`, holding the
   * largest region of the label's isosurface.
   */
  function ExtractOrganSurfaceMesh(tk: Toolkit, segIn: string, surfOut: string, organId: int)
    : (o: Outcome)
    ensures o.ReadFailed? <==> tk.readImage(segIn).None?
    ensures tk.readImage(segIn).Some? ==>
      var c := ConvertLabelMapToSurface(tk, tk.readImage(segIn).value, organId, true);
      && (o.Raised? <==> c.Err?)
      && (o.Raised? ==> o.error == c.error)
      && (o.NoSurface? <==> c == Ok(None))
      && (o.Saved? <==> c.Ok? && c.value.Some?)
      && (o.Saved? ==> o.path == surfOut && o.surface == c.value.value)
  {
    match tk.readImage(segIn)
    case None => ReadFailed
    case Some(labelImg) =>
      match ConvertLabelMapToSurface(tk, labelImg, organId, true)
      case Err(e) => Raised(e)
      case Ok(None) => NoSurface
      case Ok(Some(surface)) => Saved(surfOut, surface)
  }

  // ---------------------------------------------------------------------------
  // extract_all_complete_laa_surfaces
  // ---------------------------------------------------------------------------

  const LabelFolder := "C:/data/ImageCAS-STACOM2025-02-10-2025/segmentations/"
  const SurfaceFolder := "C:/data/ImageCAS-STACOM2025-02-10-2025/surfaces/"
  const SegmentationSuffix := ".nii.gz"
  const SurfaceSuffix := "_laa_surface.vtk"
  /** The label of the left atrial appendage in the segmentations. */
  const LaaSegmentId := 8

  /** The label volume of a scan: the id between the label folder and ".nii.gz". */
  function SegmentationPath(id: string): (p: string)
    ensures |p| == |LabelFolder| + |id| + |SegmentationSuffix|
    ensures StartsWith(p, LabelFolder) && EndsWith(p, SegmentationSuffix)
    ensures p[|LabelFolder|..|p| - |SegmentationSuffix|] == id
  {
    LabelFolder + id + SegmentationSuffix
  }

  /**
   * The surface file of a scan, the id between the folder and
   * "_laa_surface.vtk"; the shape-descriptor stage reads the same name.
   */
  function SurfacePath(folder: string, id: string): (p: string)
    ensures |p| == |folder| + |id| + |SurfaceSuffix|
    ensures StartsWith(p, folder) && EndsWith(p, SurfaceSuffix)
    ensures p[|folder|..|p| - |SurfaceSuffix|] == id
  {
    folder + id + SurfaceSuffix
  }

  /** Different scans never share an input or an output file. */
  lemma PathsInjective(a: string, b: string)
    ensures SegmentationPath(a) == SegmentationPath(b) ==> a == b
    ensures forall folder :: SurfacePath(folder, a) == SurfacePath(folder, b) ==> a == b
  {
    if SegmentationPath(a) == SegmentationPath(b) {
      AffixCancel(LabelFolder, a, b, SegmentationSuffix);
    }
    forall folder | SurfacePath(folder, a) == SurfacePath(folder, b) ensures a == b {
      AffixCancel(folder, a, b, SurfaceSuffix);
    }
  }

  /** The body of the batch loop for one scan id. */
  function ExtractScan(tk: Toolkit, id: string): (o: Outcome)
    ensures o.Saved? ==> o.path == SurfacePath(SurfaceFolder, id)
  {
    ExtractOrganSurfaceMesh(tk, SegmentationPath(id), SurfacePath(SurfaceFolder, id), LaaSegmentId)
  }

  /**
   * A scan reads its own label volume and extracts the appendage label (8)
   * from it: it fails to read exactly when that volume cannot be read, and a
   * saved mesh is the largest region of that label's isosurface.
   */
  lemma ExtractScanInputs(tk: Toolkit, id: string)
    ensures ExtractScan(tk, id) ==
      ExtractOrganSurfaceMesh(tk, SegmentationPath(id), SurfacePath(SurfaceFolder, id), LaaSegmentId)
    ensures ExtractScan(tk, id).ReadFailed? <==> tk.readImage(SegmentationPath(id)).None?
    ensures ExtractScan(tk, id).Saved? ==>
      ExtractScan(tk, id).surface ==
        ConvertLabelMapToSurface(tk, tk.readImage(SegmentationPath(id)).value, LaaSegmentId, true).value.value
  {
  }

  /** The surface folder after a batch, and the exception that stopped it, if any. */
  datatype BatchResult = BatchResult(surfaces: map<string, PolyData>, raised: Option<Exception>)

  /**
   * The batch loop over `ids` in list order, starting from the folder contents
   * `files`: each saved mesh is written at its path, and the first exception
   * ends the loop.
   */
  function RunBatch(tk: Toolkit, ids: seq<string>, files: map<string, PolyData>): BatchResult
    decreases |ids|
  {
    if ids == [] then
      BatchResult(files, None)
    else
      match ExtractScan(tk, ids[0])
      case Raised(e) => BatchResult(files, Some(e))
      case Saved(p, m) => RunBatch(tk, ids[1..], files[p := m])
      case _ => RunBatch(tk, ids[1..], files)
  }

  /**
   * The batch ends normally exactly when no listed scan raises, and an
   * exception it reports is one that some listed scan raises.
   */
  lemma {:induction false} RunBatchRaises(tk: Toolkit, ids: seq<string>, files: map<string, PolyData>)
    ensures RunBatch(tk, ids, files).raised.None? <==> forall i :: 0 <= i < |ids| ==> !ExtractScan(tk, ids[i]).Raised?
    ensures RunBatch(tk, ids, files).raised.Some? ==>
      exists i :: 0 <= i < |ids| && ExtractScan(tk, ids[i]) == Raised(RunBatch(tk, ids, files).raised.value)
    decreases |ids|
  {
    if ids == [] {
    } else if ExtractScan(tk, ids[0]).Raised? {
      assert RunBatch(tk, ids, files).raised == Some(ExtractScan(tk, ids[0]).error);
    } else {
      var rest := ids[1..];
      var files' := AfterScan(tk, ids[0], files);
      RunBatchStep(tk, ids, files);
      RunBatchRaises(tk, rest, files');
      if RunBatch(tk, rest, files').raised.Some? {
        var i :| 0 <= i < |rest| && ExtractScan(tk, rest[i]) == Raised(RunBatch(tk, rest, files').raised.value);
        assert ids[i + 1] == rest[i];
      } else {
        forall i | 0 < i < |ids| ensures !ExtractScan(tk, ids[i]).Raised? {
          assert ids[i] == rest[i - 1];
        }
      }
    }
  }

  /**
   * The loop stops at the first scan that raises: the folder is what the scans
   * before it left, and the scans after it never run.
   */
  lemma {:induction false} BatchStopsAtFirstRaise(tk: Toolkit, ids: seq<string>, files: map<string, PolyData>, k: nat)
    requires k < |ids| && ExtractScan(tk, ids[k]).Raised?
    requires forall j :: 0 <= j < k ==> !ExtractScan(tk, ids[j]).Raised?
    ensures RunBatch(tk, ids, files) ==
      BatchResult(RunBatch(tk, ids[..k], files).surfaces, Some(ExtractScan(tk, ids[k]).error))
    decreases k
  {
    if k == 0 {
      assert ids[..0] == [];
      assert RunBatch(tk, ids, files) == BatchResult(files, Some(ExtractScan(tk, ids[0]).error));
    } else {
      var files' := AfterScan(tk, ids[0], files);
      var rest := ids[1..];
      var prefix := ids[..k];
      RunBatchStep(tk, ids, files);
      assert prefix[0] == ids[0] && prefix[1..] == rest[..k - 1];
      RunBatchStep(tk, prefix, files);
      assert rest[k - 1] == ids[k];
      forall j | 0 <= j < k - 1 ensures !ExtractScan(tk, rest[j]).Raised? {
        assert rest[j] == ids[j + 1];
      }
      BatchStopsAtFirstRaise(tk, rest, files', k - 1);
    }
  }

  /** The folder after one scan that did not raise. */
  function AfterScan(tk: Toolkit, id: string, files: map<string, PolyData>): map<string, PolyData>
  {
    var o := ExtractScan(tk, id);
    if o.Saved? then files[o.path := o.surface] else files
  }

  /** One scan that does not raise, then the rest of the batch. */
  lemma RunBatchStep(tk: Toolkit, ids: seq<string>, files: map<string, PolyData>)
    requires ids != [] && !ExtractScan(tk, ids[0]).Raised?
    ensures RunBatch(tk, ids, files) == RunBatch(tk, ids[1..], AfterScan(tk, ids[0], files))
  {
  }

  /** Paths that are no scan's output path keep what the folder held before the batch. */
  lemma {:induction false} BatchLeavesOtherFiles(tk: Toolkit, ids: seq<string>, files: map<string, PolyData>, p: string)
    requires forall i :: 0 <= i < |ids| ==> p != SurfacePath(SurfaceFolder, ids[i])
    ensures var out := RunBatch(tk, ids, files).surfaces;
      (p in out <==> p in files) && (p in files ==> out[p] == files[p])
    decreases |ids|
  {
    if ids != [] {
      assert forall i :: 0 <= i < |ids| - 1 ==> ids[1..][i] == ids[i + 1];
      match ExtractScan(tk, ids[0])
      case Saved(q, m) => BatchLeavesOtherFiles(tk, ids[1..], files[q := m], p);
      case Raised(_) =>
      case _ => BatchLeavesOtherFiles(tk, ids[1..], files, p);
    }
  }

  /**
   * After a batch that raised nothing, the output path of every listed scan
   * holds the mesh that scan saved; for a scan that saved nothing (unreadable
   * volume, no isosurface) the path holds what it held before.
   */
  lemma {:induction false} BatchOutputs(tk: Toolkit, ids: seq<string>, files: map<string, PolyData>, id: string)
    requires id in ids
    requires RunBatch(tk, ids, files).raised.None?
    ensures var out := RunBatch(tk, ids, files).surfaces;
      var path := SurfacePath(SurfaceFolder, id);
      match ExtractScan(tk, id)
      case Saved(_, m) => path in out && out[path] == m
      case _ => (path in out <==> path in files) && (path in files ==> out[path] == files[path])
    decreases |ids|
  {
    var path := SurfacePath(SurfaceFolder, id);
    var h, t := ids[0], ids[1..];
    assert forall i :: 0 <= i < |t| ==> t[i] == ids[i + 1];
    var o := ExtractScan(tk, h);
    RunBatchRaises(tk, ids, files);
    assert !o.Raised?;
    var files' := AfterScan(tk, h, files);
    RunBatchStep(tk, ids, files);
    if id in t {
      if o.Saved? && o.path == path {
        PathsInjective(h, id);
      }
      BatchOutputs(tk, t, files', id);
    } else {
      assert id == h;
      forall i | 0 <= i < |t| ensures path != SurfacePath(SurfaceFolder, t[i]) {
        PathsInjective(id, t[i]);
      }
      BatchLeavesOtherFiles(tk, t, files', path);
    }
  }

  /**
   * `extract_all_complete_laa_surfaces` over an already loaded id list: for
   * each id in order, extract its surface from the labelled volume into the
   * surface folder; an exception other than a read error ends the loop.
   */
  method ExtractAllCompleteLaaSurfaces(tk: Toolkit, fileList: seq<string>, files: map<string, PolyData>)
    returns (surfaces: map<string, PolyData>, raised: Option<Exception>)
    ensures BatchResult(surfaces, raised) == RunBatch(tk, fileList, files)
  {
    surfaces := files;
    var i := 0;
    while i < |fileList|
      invariant 0 <= i <= |fileList|
      invariant RunBatch(tk, fileList[i..], surfaces) == RunBatch(tk, fileList, files)
    {
      var f := fileList[i];
      var segIn := SegmentationPath(f);
      var surfOut := SurfacePath(SurfaceFolder, f);
      var outcome := ExtractOrganSurfaceMesh(tk, segIn, surfOut, LaaSegmentId);
      assert fileList[i..][1..] == fileList[i + 1..];
      match outcome {
        case Raised(e) => return surfaces, Some(e);
        case Saved(p, m) => surfaces := surfaces[p := m];
        case _ =>
      }
      i := i + 1;
    }
    raised := None;
  }
}

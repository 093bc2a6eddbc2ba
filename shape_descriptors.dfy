/**
 * Shape descriptors of the extracted surfaces: for each scan, mass properties
 * (volume, surface area, normalized shape index, surface-to-volume ratio) and
 * principal-axis statistics of the mesh points go into one record that is saved
 * as JSON; the records are finally combined into one CSV table.
 *
 * VTK, numpy and scikit-learn compute every number. Their calls are the fields
 * of a `Toolkit` value, and their results are values of the abstract type
 * `Value`, which the model only moves around.
 */
module ShapeDescriptors {
  import opened Wrappers
  import opened PyStr
  import opened PyDict
  import opened Meshes
  import ExtractSurfaces

  /** A double produced by VTK, numpy or scikit-learn; its bits are never inspected here. */
  type Value

  /** What `json.load` gives back for one entry of a saved record. */
  datatype Field = Number(value: Value) | Text(text: string)

  /** The foreign calls the analysis makes. */
  datatype Toolkit = Toolkit(
    readPolyData: string -> PolyData,                               // vtkPolyDataReader
    volume: PolyData -> Value,                                      // vtkMassProperties.GetVolume
    surfaceArea: PolyData -> Value,                                 // vtkMassProperties.GetSurfaceArea
    normalizedShapeIndex: PolyData -> Value,                        // vtkMassProperties.GetNormalizedShapeIndex
    isZero: Value -> bool,                                          // the double is +0.0 or -0.0
    divide: (Value, Value) -> Value,                                // floating-point quotient
    explainedVariance: seq<Point> -> Result<seq<Value>, Exception>, // PCA().fit(rows).explained_variance_
    axisLength: Value -> Value,                                     // 4 * np.sqrt(eigenvalue)
    loadJson: string -> Dict<Field>)                                // json.load of a file

  // ---------------------------------------------------------------------------
  // shape_pca_analysis: the data matrix
  // ---------------------------------------------------------------------------

  /** The rows of an N-by-3 matrix, read back as points. */
  function MatrixRows(m: array2<real>): seq<Point>
    requires m.Length1 == 3
    reads m
  {
    seq(m.Length0, i requires 0 <= i < m.Length0 reads m => Point(m[i, 0], m[i, 1], m[i, 2]))
  }

  /**
   * The fill loop: a zero N-by-3 matrix, N the number of points, whose row i
   * becomes the coordinates of point i, one row per iteration.
   */
  method FillDataMatrix(pd: PolyData) returns (m: array2<real>)
    ensures fresh(m)
    ensures m.Length0 == pd.NumberOfPoints() && m.Length1 == 3
    ensures forall i :: 0 <= i < m.Length0 ==>
      m[i, 0] == pd.points[i].x && m[i, 1] == pd.points[i].y && m[i, 2] == pd.points[i].z
    ensures MatrixRows(m) == pd.points
  {
    var nSamples := pd.NumberOfPoints();
    m := new real[nSamples, 3]((i, j) => 0.0);
    for i := 0 to nSamples
      invariant forall k :: 0 <= k < i ==>
        m[k, 0] == pd.points[k].x && m[k, 1] == pd.points[k].y && m[k, 2] == pd.points[k].z
      invariant forall k, j :: i <= k < nSamples && 0 <= j < 3 ==> m[k, j] == 0.0
    {
      var p := pd.points[i];
      m[i, 0] := p.x;
      m[i, 1] := p.y;
      m[i, 2] := p.z;
    }
  }

  // ---------------------------------------------------------------------------
  // The per-scan record
  // ---------------------------------------------------------------------------

  const MassKeys := ["volume", "surface_area", "normalized_shape_index", "surface_to_volume_ratio"]
  const PcaKeys := ["major_axis_length", "minor_axis_length", "least_axis_length", "elongation", "flatness"]
  /** The keys of a saved record, in the order they are written. */
  const DescriptorKeys := MassKeys + PcaKeys

  /**
   * The entries `compute_mass_properties` writes, in order, or the
   * ZeroDivisionError that `surface_area / volume` raises, before any write,
   * when the volume is zero.
   */
  function MassProperties(tk: Toolkit, pd: PolyData): (r: Result<seq<(string, Value)>, Exception>)
    ensures r.Err? <==> tk.isZero(tk.volume(pd))
    ensures r.Err? ==> r.error == ZeroDivisionError
    ensures r.Ok? ==> |r.value| == 4 && forall i :: 0 <= i < 4 ==> r.value[i].0 == MassKeys[i]
    ensures r.Ok? ==> r.value[0].1 == tk.volume(pd) && r.value[1].1 == tk.surfaceArea(pd)
    ensures r.Ok? ==> r.value[2].1 == tk.normalizedShapeIndex(pd)
    ensures r.Ok? ==> r.value[3].1 == tk.divide(tk.surfaceArea(pd), tk.volume(pd))
  {
    var volume := tk.volume(pd);
    var surfaceArea := tk.surfaceArea(pd);
    var nsi := tk.normalizedShapeIndex(pd);
    if tk.isZero(volume) then
      Err(ZeroDivisionError)
    else
      var entries := [("volume", volume), ("surface_area", surfaceArea),
                      ("normalized_shape_index", nsi),
                      ("surface_to_volume_ratio", tk.divide(surfaceArea, volume))];
      Ok(entries)
  }

  /**
   * The entries `shape_pca_analysis` writes, in order, or the exception raised
   * before any write: by the PCA itself, or an IndexError when it reports
   * fewer than three explained variances.
   */
  function PcaDescriptors(tk: Toolkit, points: seq<Point>): (r: Result<seq<(string, Value)>, Exception>)
    ensures r.Err? <==>
      tk.explainedVariance(points).Err? || |tk.explainedVariance(points).value| < 3
    ensures tk.explainedVariance(points).Err? ==> r == Err(tk.explainedVariance(points).error)
    ensures tk.explainedVariance(points).Ok? && r.Err? ==> r.error == IndexError
    ensures r.Ok? ==> |r.value| == 5 && forall i :: 0 <= i < 5 ==> r.value[i].0 == PcaKeys[i]
    ensures r.Ok? ==> forall k :: 0 <= k < 3 ==>
      r.value[k].1 == tk.axisLength(tk.explainedVariance(points).value[k])
    ensures r.Ok? ==>
      r.value[3].1 == tk.divide(r.value[1].1, r.value[0].1)
      && r.value[4].1 == tk.divide(r.value[2].1, r.value[0].1)
  {
    match tk.explainedVariance(points)
    case Err(e) => Err(e)
    case Ok(eigenvalues) =>
      if |eigenvalues| < 3 then
        Err(IndexError)
      else
        var major := tk.axisLength(eigenvalues[0]);
        var minor := tk.axisLength(eigenvalues[1]);
        var least := tk.axisLength(eigenvalues[2]);
        var entries := [("major_axis_length", major), ("minor_axis_length", minor),
                        ("least_axis_length", least),
                        ("elongation", tk.divide(minor, major)),
                        ("flatness", tk.divide(least, major))];
        Ok(entries)
  }

  /** The record `analyze_one_scan` saves for a mesh, or the exception that stops it. */
  function ScanRecord(tk: Toolkit, pd: PolyData): (r: Result<Dict<Value>, Exception>)
    ensures r.Err? <==> MassProperties(tk, pd).Err? || PcaDescriptors(tk, pd.points).Err?
    ensures MassProperties(tk, pd).Err? ==> r == Err(MassProperties(tk, pd).error)
    ensures MassProperties(tk, pd).Ok? && PcaDescriptors(tk, pd.points).Err? ==>
      r == Err(PcaDescriptors(tk, pd.points).error)
  {
    match MassProperties(tk, pd)
    case Err(e) => Err(e)
    case Ok(mass) =>
      match PcaDescriptors(tk, pd.points)
      case Err(e) => Err(e)
      case Ok(shape) => Ok(PutAll(PutAll(Empty(), mass), shape))
  }

  /** The nine descriptor keys are pairwise different. */
  lemma DescriptorKeysDistinct()
    ensures forall i, j :: 0 <= i < j < |DescriptorKeys| ==> DescriptorKeys[i] != DescriptorKeys[j]
  {
  }

  /**
   * Writing the mass entries and then the PCA entries into an empty dictionary
   * lists the nine descriptor keys once each, in writing order, each bound to
   * the value written for it.
   */
  lemma RecordOfEntries(mass: seq<(string, Value)>, shape: seq<(string, Value)>)
    requires |mass| == 4 && forall i :: 0 <= i < 4 ==> mass[i].0 == MassKeys[i]
    requires |shape| == 5 && forall i :: 0 <= i < 5 ==> shape[i].0 == PcaKeys[i]
    ensures var r := PutAll(PutAll(Empty(), mass), shape);
      && r.Valid() && r.keys == DescriptorKeys
      && (forall i :: 0 <= i < 4 ==> MassKeys[i] in r.entries && r.entries[MassKeys[i]] == mass[i].1)
      && (forall i :: 0 <= i < 5 ==> PcaKeys[i] in r.entries && r.entries[PcaKeys[i]] == shape[i].1)
  {
    DescriptorKeysDistinct();
    FromTwoRuns(mass, shape, DescriptorKeys);
  }

  /**
   * A saved record holds exactly the nine descriptor keys, each once, in the
   * order the two analysis functions write them, each with the value written.
   */
  lemma ScanRecordKeys(tk: Toolkit, pd: PolyData)
    requires ScanRecord(tk, pd).Ok?
    ensures ScanRecord(tk, pd).value.Valid()
    ensures ScanRecord(tk, pd).value.keys == DescriptorKeys
    ensures forall i :: 0 <= i < 4 ==>
      ScanRecord(tk, pd).value.entries[MassKeys[i]] == MassProperties(tk, pd).value[i].1
    ensures forall i :: 0 <= i < 5 ==>
      ScanRecord(tk, pd).value.entries[PcaKeys[i]] == PcaDescriptors(tk, pd.points).value[i].1
  {
    RecordOfEntries(MassProperties(tk, pd).value, PcaDescriptors(tk, pd.points).value);
  }

  /** `result_dict`: the dictionary the two analysis functions fill in place. */
  class ResultDict {
    var items: Dict<Value>

    constructor ()
      ensures items == Empty()
    {
      items := Empty();
    }

    /** `result_dict[key] = value` */
    method Set(key: string, value: Value)
      modifies this
      ensures items == old(items).Put(key, value)
    {
      items := items.Put(key, value);
    }
  }

  /**
   * `compute_mass_properties`: writes the four mass-property entries and
   * returns True, or raises ZeroDivisionError and leaves the dictionary as it was.
   */
  method ComputeMassProperties(tk: Toolkit, laaPd: PolyData, resultDict: ResultDict)
    returns (r: Result<bool, Exception>)
    modifies resultDict
    ensures r.Ok? ==> r.value
    ensures MassProperties(tk, laaPd).Ok? ==>
      r.Ok? && resultDict.items == PutAll(old(resultDict.items), MassProperties(tk, laaPd).value)
    ensures MassProperties(tk, laaPd).Err? ==>
      r == Err(MassProperties(tk, laaPd).error) && resultDict.items == old(resultDict.items)
  {
    var volume := tk.volume(laaPd);
    var surfaceArea := tk.surfaceArea(laaPd);
    var nsi := tk.normalizedShapeIndex(laaPd);
    if tk.isZero(volume) {
      return Err(ZeroDivisionError);
    }
    var surfaceToVolumeRatio := tk.divide(surfaceArea, volume);
    ghost var d0 := resultDict.items;
    ghost var written: seq<(string, Value)> := [];
    resultDict.Set("volume", volume);
    PutAllSnoc(d0, written, "volume", volume);
    written := written + [("volume", volume)];
    resultDict.Set("surface_area", surfaceArea);
    PutAllSnoc(d0, written, "surface_area", surfaceArea);
    written := written + [("surface_area", surfaceArea)];
    resultDict.Set("normalized_shape_index", nsi);
    PutAllSnoc(d0, written, "normalized_shape_index", nsi);
    written := written + [("normalized_shape_index", nsi)];
    resultDict.Set("surface_to_volume_ratio", surfaceToVolumeRatio);
    PutAllSnoc(d0, written, "surface_to_volume_ratio", surfaceToVolumeRatio);
    written := written + [("surface_to_volume_ratio", surfaceToVolumeRatio)];
    assert written == MassProperties(tk, laaPd).value;
    r := Ok(true);
  }

  /**
   * `shape_pca_analysis`: fills the data matrix from the mesh points, runs the
   * PCA on it and writes the five axis entries, or raises before writing
   * anything.
   */
  method ShapePcaAnalysis(tk: Toolkit, laaPd: PolyData, resultDict: ResultDict)
    returns (raised: Option<Exception>)
    modifies resultDict
    ensures PcaDescriptors(tk, laaPd.points).Ok? ==>
      raised.None? && resultDict.items == PutAll(old(resultDict.items), PcaDescriptors(tk, laaPd.points).value)
    ensures PcaDescriptors(tk, laaPd.points).Err? ==>
      raised == Some(PcaDescriptors(tk, laaPd.points).error) && resultDict.items == old(resultDict.items)
  {
    var dataMatrix := FillDataMatrix(laaPd);
    var fitted := tk.explainedVariance(MatrixRows(dataMatrix));
    if fitted.Err? {
      return Some(fitted.error);
    }
    var eigenvalues := fitted.value;
    if |eigenvalues| < 3 {
      return Some(IndexError);
    }
    var majorAxisLength := tk.axisLength(eigenvalues[0]);
    var minorAxisLength := tk.axisLength(eigenvalues[1]);
    var leastAxisLength := tk.axisLength(eigenvalues[2]);
    var elongation := tk.divide(minorAxisLength, majorAxisLength);
    var flatness := tk.divide(leastAxisLength, majorAxisLength);
    ghost var d0 := resultDict.items;
    ghost var written: seq<(string, Value)> := [];
    resultDict.Set("major_axis_length", majorAxisLength);
    PutAllSnoc(d0, written, "major_axis_length", majorAxisLength);
    written := written + [("major_axis_length", majorAxisLength)];
    resultDict.Set("minor_axis_length", minorAxisLength);
    PutAllSnoc(d0, written, "minor_axis_length", minorAxisLength);
    written := written + [("minor_axis_length", minorAxisLength)];
    resultDict.Set("least_axis_length", leastAxisLength);
    PutAllSnoc(d0, written, "least_axis_length", leastAxisLength);
    written := written + [("least_axis_length", leastAxisLength)];
    resultDict.Set("elongation", elongation);
    PutAllSnoc(d0, written, "elongation", elongation);
    written := written + [("elongation", elongation)];
    resultDict.Set("flatness", flatness);
    PutAllSnoc(d0, written, "flatness", flatness);
    written := written + [("flatness", flatness)];
    assert written == PcaDescriptors(tk, laaPd.points).value;
    raised := None;
  }

  // ---------------------------------------------------------------------------
  // File names and scan ids
  // ---------------------------------------------------------------------------

  const DescriptorSuffix := "_shape_descriptors.json"

  /** The record file of a scan. */
  function DescriptorPath(folder: string, scanId: string): (p: string)
    ensures |p| == |folder| + |scanId| + |DescriptorSuffix|
    ensures StartsWith(p, folder) && EndsWith(p, DescriptorSuffix)
    ensures p[|folder|..|p| - |DescriptorSuffix|] == scanId
  {
    folder + scanId + DescriptorSuffix
  }

  /** Different scans never share a record file. */
  lemma DescriptorPathInjective(folder: string, a: string, b: string)
    ensures DescriptorPath(folder, a) == DescriptorPath(folder, b) ==> a == b
  {
    if DescriptorPath(folder, a) == DescriptorPath(folder, b) {
      AffixCancel(folder, a, b, DescriptorSuffix);
    }
  }

  /**
   * `analyze_one_scan`: reads the scan's surface, fills a fresh record with
   * the mass properties and then the PCA descriptors, and returns the record
   * file it saves together with its contents; an exception from either
   * analysis step ends it with nothing saved.
   */
  method AnalyzeOneScan(tk: Toolkit, surfaceFolder: string, descriptorFolder: string, scanId: string)
    returns (r: Result<(string, Dict<Value>), Exception>)
    ensures var pd := tk.readPolyData(ExtractSurfaces.SurfacePath(surfaceFolder, scanId));
      match ScanRecord(tk, pd)
      case Ok(record) => r == Ok((DescriptorPath(descriptorFolder, scanId), record))
      case Err(e) => r == Err(e)
    ensures r.Ok? ==> r.value.1.Valid() && r.value.1.keys == DescriptorKeys
  {
    var resultDict := new ResultDict();
    var laaSurface := ExtractSurfaces.SurfacePath(surfaceFolder, scanId);
    var descriptorsOut := DescriptorPath(descriptorFolder, scanId);
    var laaPd := tk.readPolyData(laaSurface);
    var massOk := ComputeMassProperties(tk, laaPd, resultDict);
    if massOk.Err? {
      return Err(massOk.error);
    }
    var raised := ShapePcaAnalysis(tk, laaPd, resultDict);
    if raised.Some? {
      return Err(raised.value);
    }
    r := Ok((descriptorsOut, resultDict.items));
    ScanRecordKeys(tk, laaPd);
  }

  /** The part of a surface file name that `compute_all_shape_descriptors` removes from its stem. */
  const SurfaceMarker := "_laa_surface"

  /** `f.stem.replace("_laa_surface", "")` for one globbed surface file name. */
  function ScanIdOf(name: string): (id: string)
    ensures |id| <= |Stem(name)| <= |name|
    ensures !Contains(Stem(name), SurfaceMarker) ==> id == Stem(name)
  {
    Replace(Stem(name), SurfaceMarker, "")
  }

  /** The names in a folder listing that end with `suffix`, in listing order. */
  function FilterEndsWith(names: seq<string>, suffix: string): (r: seq<string>)
    ensures |r| <= |names|
  {
    if names == [] then []
    else if EndsWith(names[0], suffix) then [names[0]] + FilterEndsWith(names[1..], suffix)
    else FilterEndsWith(names[1..], suffix)
  }

  /**
   * The filter keeps exactly the names with the suffix, and a listing whose
   * names all have it is kept whole.
   */
  lemma {:induction false} FilterEndsWithKeeps(names: seq<string>, suffix: string)
    ensures forall n :: n in FilterEndsWith(names, suffix) <==> n in names && EndsWith(n, suffix)
    ensures (forall i :: 0 <= i < |names| ==> EndsWith(names[i], suffix)) ==> FilterEndsWith(names, suffix) == names
    decreases |names|
  {
    if names != [] {
      FilterEndsWithKeeps(names[1..], suffix);
      assert names == [names[0]] + names[1..];
      assert forall i :: 1 <= i < |names| ==> names[i] == names[1..][i - 1];
    }
  }

  /** Filtering a listing piece by piece gives the filtered listing. */
  lemma {:induction false} FilterEndsWithConcat(a: seq<string>, b: seq<string>, suffix: string)
    ensures FilterEndsWith(a + b, suffix) == FilterEndsWith(a, suffix) + FilterEndsWith(b, suffix)
    decreases |a|
  {
    if a == [] {
      assert a + b == b;
    } else {
      assert (a + b)[0] == a[0] && (a + b)[1..] == a[1..] + b;
      FilterEndsWithConcat(a[1..], b, suffix);
    }
  }

  /** The ids of `[f.stem.replace("_laa_surface", "") for f in Path(surface_folder).glob("*_laa_surface.vtk")]`. */
  function ScanIds(listing: seq<string>): (ids: seq<string>)
    ensures |ids| == |FilterEndsWith(listing, ExtractSurfaces.SurfaceSuffix)| <= |listing|
  {
    IdsOf(FilterEndsWith(listing, ExtractSurfaces.SurfaceSuffix))
  }

  /** The ids of the given surface file names, in order. */
  function IdsOf(names: seq<string>): seq<string>
  {
    seq(|names|, i requires 0 <= i < |names| => ScanIdOf(names[i]))
  }

  lemma IdsOfConcat(x: seq<string>, y: seq<string>)
    ensures IdsOf(x + y) == IdsOf(x) + IdsOf(y)
  {
    forall i | 0 <= i < |x| + |y| ensures IdsOf(x + y)[i] == (IdsOf(x) + IdsOf(y))[i] {
      if i < |x| {
        assert (x + y)[i] == x[i];
      } else {
        assert (x + y)[i] == y[i - |x|];
      }
    }
  }

  /** Every queued id is the id of some listed surface file. */
  lemma ScanIdsFromListing(listing: seq<string>)
    ensures forall i :: 0 <= i < |ScanIds(listing)| ==>
      exists n :: n in listing && EndsWith(n, ExtractSurfaces.SurfaceSuffix) && ScanIds(listing)[i] == ScanIdOf(n)
  {
    var names := FilterEndsWith(listing, ExtractSurfaces.SurfaceSuffix);
    FilterEndsWithKeeps(listing, ExtractSurfaces.SurfaceSuffix);
    forall i | 0 <= i < |ScanIds(listing)|
      ensures exists n :: n in listing && EndsWith(n, ExtractSurfaces.SurfaceSuffix) && ScanIds(listing)[i] == ScanIdOf(n)
    {
      assert names[i] in names;
      assert ScanIds(listing)[i] == ScanIdOf(names[i]);
    }
  }

  /** Listing two runs of files one after the other lists their ids one after the other. */
  lemma ScanIdsConcat(a: seq<string>, b: seq<string>)
    ensures ScanIds(a + b) == ScanIds(a) + ScanIds(b)
  {
    FilterEndsWithConcat(a, b, ExtractSurfaces.SurfaceSuffix);
    IdsOfConcat(FilterEndsWith(a, ExtractSurfaces.SurfaceSuffix), FilterEndsWith(b, ExtractSurfaces.SurfaceSuffix));
  }

  /** A single listed file gives its id when it is a surface file and nothing otherwise. */
  lemma ScanIdsOne(name: string)
    ensures ScanIds([name]) == if EndsWith(name, ExtractSurfaces.SurfaceSuffix) then [ScanIdOf(name)] else []
  {
    assert [name][1..] == [];
  }

  /** The queue filling loop: each id, stripped of surrounding whitespace, in order. */
  method EnqueueScanIds(fileList: seq<string>) returns (queue: seq<string>)
    ensures |queue| == |fileList|
    ensures forall i :: 0 <= i < |fileList| ==> queue[i] == Strip(fileList[i])
  {
    queue := [];
    for i := 0 to |fileList|
      invariant |queue| == i
      invariant forall k :: 0 <= k < i ==> queue[k] == Strip(fileList[k])
    {
      var scanId := Strip(fileList[i]);
      queue := queue + [scanId];
    }
  }

  lemma SurfaceMarkerBorderFree()
    ensures BorderFree(SurfaceMarker)
  {
    BorderFreeByFirstTwo(SurfaceMarker);
  }

  lemma DescriptorSuffixBorderFree()
    ensures BorderFree(DescriptorSuffix)
  {
    BorderFreeByFirstTwo(DescriptorSuffix);
  }


  /**
   * The id recovered from the surface file of scan `id` is `id` exactly when
   * `id` does not itself contain "_laa_surface".
   */
  lemma ScanIdRoundTrip(id: string)
    ensures ScanIdOf(id + ExtractSurfaces.SurfaceSuffix) == id <==> !Contains(id, SurfaceMarker)
  {
    assert id + ExtractSurfaces.SurfaceSuffix == (id + SurfaceMarker) + ".vtk";
    StemOfExtension(id + SurfaceMarker, ".vtk");
    SurfaceMarkerBorderFree();
    AppendedMarkerRoundTrip(id, SurfaceMarker);
  }

  /** Without the side condition the round trip fails: the marker inside the id goes too. */
  lemma ScanIdWithMarkerIsLost()
    ensures ScanIdOf(SurfaceMarker + ExtractSurfaces.SurfaceSuffix) == ""
  {
    var stem := SurfaceMarker + SurfaceMarker;
    assert SurfaceMarker + ExtractSurfaces.SurfaceSuffix == stem + ".vtk";
    StemOfExtension(stem, ".vtk");
    assert SurfaceMarker[..|SurfaceMarker|] == SurfaceMarker;
    assert Replace(SurfaceMarker, SurfaceMarker, "") == "" + Replace(SurfaceMarker[|SurfaceMarker|..], SurfaceMarker, "");
    assert Replace(SurfaceMarker, SurfaceMarker, "") == "";
    assert stem[..|SurfaceMarker|] == SurfaceMarker;
    assert stem[|SurfaceMarker|..] == SurfaceMarker;
    assert Replace(stem, SurfaceMarker, "") == "" + Replace(SurfaceMarker, SurfaceMarker, "");
  }

  /**
   * The ids queued for a surface folder whose files are exactly those the
   * extraction stage writes for `ids` are `ids` again, in listing order, when
   * no id contains the marker or has surrounding whitespace.
   */
  lemma {:induction false} QueuedIdsRoundTrip(ids: seq<string>)
    requires forall i :: 0 <= i < |ids| ==> !Contains(ids[i], SurfaceMarker) && Trimmed(ids[i])
    ensures var listing := seq(|ids|, i requires 0 <= i < |ids| => ids[i] + ExtractSurfaces.SurfaceSuffix);
      |ScanIds(listing)| == |ids|
      && forall i :: 0 <= i < |ids| ==> Strip(ScanIds(listing)[i]) == ids[i]
  {
    var listing := seq(|ids|, i requires 0 <= i < |ids| => ids[i] + ExtractSurfaces.SurfaceSuffix);
    forall i | 0 <= i < |listing| ensures EndsWith(listing[i], ExtractSurfaces.SurfaceSuffix) {
      var n := listing[i];
      assert n[|n| - |ExtractSurfaces.SurfaceSuffix|..] == ExtractSurfaces.SurfaceSuffix;
    }
    FilterEndsWithKeeps(listing, ExtractSurfaces.SurfaceSuffix);
    forall i | 0 <= i < |ids| ensures Strip(ScanIds(listing)[i]) == ids[i] {
      ScanIdRoundTrip(ids[i]);
    }
  }

  // ---------------------------------------------------------------------------
  // combine_all_shape_descriptors
  // ---------------------------------------------------------------------------

  const CombinedCsvName := "combined_shape_descriptors.csv"
  const FilenameField := "filename"

  /** The name a row gives its scan: the JSON file name without "_shape_descriptors.json". */
  function RecordName(jsonName: string): string
  {
    Replace(jsonName, DescriptorSuffix, "")
  }

  /**
   * A row name is never longer than its file name, and is the file name itself
   * when that does not contain "_shape_descriptors.json".
   */
  lemma RecordNameKeeps(jsonName: string)
    ensures |RecordName(jsonName)| <= |jsonName|
    ensures !Contains(jsonName, DescriptorSuffix) ==> RecordName(jsonName) == jsonName
  {
  }

  /** A row names the scan whose record file it read exactly when the id does not contain the suffix. */
  lemma RecordNameRoundTrip(id: string)
    ensures RecordName(id + DescriptorSuffix) == id <==> !Contains(id, DescriptorSuffix)
  {
    DescriptorSuffixBorderFree();
    AppendedMarkerRoundTrip(id, DescriptorSuffix);
  }

  /** `os.path.join(folder, name)` for a relative name, with '/' as the separator. */
  function Join(folder: string, name: string): string
  {
    if folder == [] || folder[|folder| - 1] == '/' then folder + name else folder + "/" + name
  }

  /**
   * A joined path starts with the folder and ends with the name, with exactly
   * one '/' between them when the folder is non-empty.
   */
  lemma JoinPath(folder: string, name: string)
    ensures var path := Join(folder, name);
      && StartsWith(path, folder) && EndsWith(path, name)
      && |folder| + |name| <= |path| <= |folder| + 1 + |name|
      && (folder != [] ==> path[|path| - |name| - 1] == '/')
      && (|path| == |folder| + 1 + |name| ==> path[|folder|] == '/')
  {
  }

  /** The set of entries of a header. */
  function FieldSet(fieldnames: seq<string>): set<string>
  {
    set f | f in fieldnames
  }

  /**
   * `csv.DictWriter.writerow`: a ValueError when the row has a key outside the
   * header; otherwise one cell per header field, in header order, None (the
   * empty restval) where the row lacks the field.
   */
  function CsvRow(fieldnames: seq<string>, data: Dict<Field>): (r: Result<seq<Option<Field>>, Exception>)
    ensures r.Err? <==> !(data.entries.Keys <= FieldSet(fieldnames))
    ensures r.Err? ==> r.error == ValueError
    ensures r.Ok? ==> |r.value| == |fieldnames|
    ensures r.Ok? ==> forall j :: 0 <= j < |fieldnames| ==>
      (fieldnames[j] in data.entries ==> r.value[j] == Some(data.entries[fieldnames[j]]))
      && (fieldnames[j] !in data.entries ==> r.value[j] == None)
  {
    if !(data.entries.Keys <= FieldSet(fieldnames)) then
      Err(ValueError)
    else
      Ok(seq(|fieldnames|, j requires 0 <= j < |fieldnames| =>
        if fieldnames[j] in data.entries then Some(data.entries[fieldnames[j]]) else None))
  }

  /** The record of a JSON file with its `filename` entry set, as the loop writes it. */
  function RowData(tk: Toolkit, folder: string, filename: string): Dict<Field>
  {
    tk.loadJson(Join(folder, filename)).Put(FilenameField, Text(RecordName(filename)))
  }

  /**
   * A row's record is the loaded one with `filename` set to the row name: every
   * other key keeps its presence and its value, a well-formed record stays well
   * formed, and `filename` keeps its place or goes last.
   */
  lemma RowDataEntries(tk: Toolkit, folder: string, filename: string)
    ensures var loaded := tk.loadJson(Join(folder, filename));
      var data := RowData(tk, folder, filename);
      && FilenameField in data.entries && data.entries[FilenameField] == Text(RecordName(filename))
      && (forall k :: k != FilenameField ==> (k in data.entries <==> k in loaded.entries))
      && (forall k :: k != FilenameField && k in loaded.entries ==> data.entries[k] == loaded.entries[k])
      && (loaded.Valid() ==> data.Valid())
      && (FilenameField in loaded.keys ==> data.keys == loaded.keys)
      && (FilenameField !in loaded.keys ==> data.keys == loaded.keys + [FilenameField])
  {
  }

  /** The rows written so far and the exception that stopped the writing, if any. */
  datatype Rows = Rows(rows: seq<seq<Option<Field>>>, raised: Option<Exception>)

  /**
   * The row loop over `files` in order; a row with a key outside the header
   * raises ValueError and ends it, the rows before it already written.
   */
  function WriteRows(tk: Toolkit, folder: string, fieldnames: seq<string>, files: seq<string>): (r: Rows)
    ensures r.raised.None? ==> |r.rows| == |files|
    ensures r.raised.Some? ==> |r.rows| < |files| && r.raised.value == ValueError
    decreases |files|
  {
    if files == [] then
      Rows([], None)
    else
      match CsvRow(fieldnames, RowData(tk, folder, files[0]))
      case Err(e) => Rows([], Some(e))
      case Ok(row) =>
        var rest := WriteRows(tk, folder, fieldnames, files[1..]);
        Rows([row] + rest.rows, rest.raised)
  }

  /** One step of the row loop, at position `i` of `files`. */
  lemma WriteRowsUnfold(tk: Toolkit, folder: string, fieldnames: seq<string>, files: seq<string>, i: nat)
    requires i < |files|
    ensures WriteRows(tk, folder, fieldnames, files[i..]) ==
      match CsvRow(fieldnames, RowData(tk, folder, files[i]))
      case Err(e) => Rows([], Some(e))
      case Ok(row) =>
        var rest := WriteRows(tk, folder, fieldnames, files[i + 1..]);
        Rows([row] + rest.rows, rest.raised)
  {
  }

  /**
   * Row i of the output is the row of the i-th file; writing stops exactly at
   * the first file whose record does not fit the header.
   */
  lemma {:induction false} WriteRowsContents(tk: Toolkit, folder: string, fieldnames: seq<string>, files: seq<string>)
    ensures var r := WriteRows(tk, folder, fieldnames, files);
      && (forall i :: 0 <= i < |r.rows| ==> CsvRow(fieldnames, RowData(tk, folder, files[i])) == Ok(r.rows[i]))
      && (r.raised.Some? ==> CsvRow(fieldnames, RowData(tk, folder, files[|r.rows|])).Err?)
    decreases |files|
  {
    if files != [] && CsvRow(fieldnames, RowData(tk, folder, files[0])).Ok? {
      var rest := files[1..];
      WriteRowsContents(tk, folder, fieldnames, rest);
      assert forall i :: 0 < i < |files| ==> files[i] == rest[i - 1];
    }
  }

  /** What `combine_all_shape_descriptors` leaves behind. */
  datatype Csv = Csv(path: string, header: seq<string>, rows: seq<seq<Option<Field>>>)

  datatype Combined = Combined(csv: Option<Csv>, raised: Option<Exception>)

  /**
   * The combined table: no file and an IndexError when the folder holds no
   * JSON file; otherwise the header `filename` followed by the first record's
   * keys, and one row per JSON file in listing order up to the first row that
   * does not fit the header.
   */
  function Combine(tk: Toolkit, descriptorFolder: string, listing: seq<string>): (c: Combined)
    ensures c.csv.None? <==> FilterEndsWith(listing, ".json") == []
    ensures c.csv.None? ==> c.raised == Some(IndexError)
    ensures c.csv.Some? ==>
      var jsonFiles := FilterEndsWith(listing, ".json");
      && c.csv.value.path == descriptorFolder + CombinedCsvName
      && c.csv.value.header == [FilenameField] + tk.loadJson(Join(descriptorFolder, jsonFiles[0])).keys
      && var w := WriteRows(tk, descriptorFolder, c.csv.value.header, jsonFiles);
        c.csv.value.rows == w.rows && c.raised == w.raised
  {
    var jsonFiles := FilterEndsWith(listing, ".json");
    if jsonFiles == [] then
      Combined(None, Some(IndexError))
    else
      var firstData := tk.loadJson(Join(descriptorFolder, jsonFiles[0]));
      var fieldnames := [FilenameField] + firstData.keys;
      var written := WriteRows(tk, descriptorFolder, fieldnames, jsonFiles);
      Combined(Some(Csv(descriptorFolder + CombinedCsvName, fieldnames, written.rows)), written.raised)
  }

  /**
   * `combine_all_shape_descriptors` over a folder listing: the first JSON file
   * fixes the header, then each JSON file is loaded, given its `filename`
   * entry and written as a row.
   */
  method CombineAllShapeDescriptors(tk: Toolkit, descriptorFolder: string, listing: seq<string>)
    returns (csv: Option<Csv>, raised: Option<Exception>)
    ensures Combined(csv, raised) == Combine(tk, descriptorFolder, listing)
  {
    var outputCsv := descriptorFolder + CombinedCsvName;
    var jsonFiles := FilterEndsWith(listing, ".json");
    if |jsonFiles| == 0 {
      return None, Some(IndexError);
    }
    var firstData := tk.loadJson(Join(descriptorFolder, jsonFiles[0]));
    var fieldnames := [FilenameField] + firstData.keys;
    var rows;
    rows, raised := WriteAllRows(tk, descriptorFolder, fieldnames, jsonFiles);
    csv := Some(Csv(outputCsv, fieldnames, rows));
  }

  /**
   * The row loop of `combine_all_shape_descriptors`: each file is loaded, given
   * its `filename` entry and written; a `ValueError` from the writer ends it.
   */
  method WriteAllRows(tk: Toolkit, descriptorFolder: string, fieldnames: seq<string>, jsonFiles: seq<string>)
    returns (rows: seq<seq<Option<Field>>>, raised: Option<Exception>)
    ensures Rows(rows, raised) == WriteRows(tk, descriptorFolder, fieldnames, jsonFiles)
  {
    rows := [];
    for i := 0 to |jsonFiles|
      invariant var rest := WriteRows(tk, descriptorFolder, fieldnames, jsonFiles[i..]);
        WriteRows(tk, descriptorFolder, fieldnames, jsonFiles) == Rows(rows + rest.rows, rest.raised)
    {
      var filename := jsonFiles[i];
      var data := tk.loadJson(Join(descriptorFolder, filename));
      data := data.Put(FilenameField, Text(RecordName(filename)));
      var row := CsvRow(fieldnames, data);
      assert data == RowData(tk, descriptorFolder, filename);
      WriteRowsUnfold(tk, descriptorFolder, fieldnames, jsonFiles, i);
      if row.Err? {
        assert rows + [] == rows;
        return rows, Some(row.error);
      }
      ghost var rest := WriteRows(tk, descriptorFolder, fieldnames, jsonFiles[i + 1..]);
      assert rows + ([row.value] + rest.rows) == (rows + [row.value]) + rest.rows;
      rows := rows + [row.value];
    }
    assert jsonFiles[|jsonFiles|..] == [];
    assert rows + [] == rows;
    raised := None;
  }

  /** The first JSON file always fits the header it defines. */
  lemma FirstRowFits(tk: Toolkit, descriptorFolder: string, listing: seq<string>)
    requires FilterEndsWith(listing, ".json") != []
    requires tk.loadJson(Join(descriptorFolder, FilterEndsWith(listing, ".json")[0])).Valid()
    ensures |Combine(tk, descriptorFolder, listing).csv.value.rows| >= 1
  {
  }

  /**
   * When every JSON file in the folder is a saved scan record, the table has
   * the header `filename` plus the nine descriptor keys, and one complete row
   * per JSON file, in listing order: the scan name, then each descriptor value.
   */
  lemma {:induction false} CombineSavedRecords(tk: Toolkit, descriptorFolder: string, listing: seq<string>)
    requires FilterEndsWith(listing, ".json") != []
    requires forall i :: 0 <= i < |FilterEndsWith(listing, ".json")| ==>
      var record := tk.loadJson(Join(descriptorFolder, FilterEndsWith(listing, ".json")[i]));
      record.Valid() && record.keys == DescriptorKeys
    ensures var c := Combine(tk, descriptorFolder, listing);
      var jsonFiles := FilterEndsWith(listing, ".json");
      && c.raised.None? && c.csv.Some?
      && c.csv.value.header == [FilenameField] + DescriptorKeys
      && |c.csv.value.rows| == |jsonFiles|
      && forall i :: 0 <= i < |jsonFiles| ==>
        var record := tk.loadJson(Join(descriptorFolder, jsonFiles[i]));
        && |c.csv.value.rows[i]| == 10
        && c.csv.value.rows[i][0] == Some(Text(RecordName(jsonFiles[i])))
        && forall j :: 0 <= j < 9 ==>
          DescriptorKeys[j] in record.entries && c.csv.value.rows[i][j + 1] == Some(record.entries[DescriptorKeys[j]])
  {
    var jsonFiles := FilterEndsWith(listing, ".json");
    var fieldnames := [FilenameField] + DescriptorKeys;
    var c := Combine(tk, descriptorFolder, listing);
    assert c.csv.value.header == fieldnames;
    forall i | 0 <= i < |jsonFiles|
      ensures CsvRow(fieldnames, RowData(tk, descriptorFolder, jsonFiles[i])).Ok?
    {
      SavedRecordRow(tk, descriptorFolder, jsonFiles[i]);
    }
    WriteRowsContents(tk, descriptorFolder, fieldnames, jsonFiles);
    forall i | 0 <= i < |jsonFiles|
      ensures var record := tk.loadJson(Join(descriptorFolder, jsonFiles[i]));
        && |c.csv.value.rows[i]| == 10
        && c.csv.value.rows[i][0] == Some(Text(RecordName(jsonFiles[i])))
        && forall j :: 0 <= j < 9 ==>
          DescriptorKeys[j] in record.entries && c.csv.value.rows[i][j + 1] == Some(record.entries[DescriptorKeys[j]])
    {
      SavedRecordRow(tk, descriptorFolder, jsonFiles[i]);
    }
  }

  /** The row of a saved scan record: its name, then its nine values in key order. */
  lemma SavedRecordRow(tk: Toolkit, descriptorFolder: string, filename: string)
    requires var record := tk.loadJson(Join(descriptorFolder, filename));
      record.Valid() && record.keys == DescriptorKeys
    ensures var record := tk.loadJson(Join(descriptorFolder, filename));
      var row := CsvRow([FilenameField] + DescriptorKeys, RowData(tk, descriptorFolder, filename));
      && row.Ok? && |row.value| == 10
      && row.value[0] == Some(Text(RecordName(filename)))
      && forall j :: 0 <= j < 9 ==>
        DescriptorKeys[j] in record.entries && row.value[j + 1] == Some(record.entries[DescriptorKeys[j]])
  {
    var fieldnames := [FilenameField] + DescriptorKeys;
    var record := tk.loadJson(Join(descriptorFolder, filename));
    var data := RowData(tk, descriptorFolder, filename);
    RowDataEntries(tk, descriptorFolder, filename);
    assert FilenameField !in DescriptorKeys;
    assert data.entries.Keys <= FieldSet(fieldnames);
    forall j | 0 <= j < 9 ensures DescriptorKeys[j] in record.entries && fieldnames[j + 1] == DescriptorKeys[j] {
      assert DescriptorKeys[j] in record.keys;
    }
  }
}

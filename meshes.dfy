/** The VTK poly data that flows from surface extraction to shape analysis. */
module Meshes {

  /** A mesh vertex as `vtkPolyData.GetPoint(i)` returns it. */
  datatype Point = Point(x: real, y: real, z: real)

  /**
   * A surface mesh: its points in VTK's order and its polygons as lists of
   * point ids. Nothing in the model looks inside the polygons.
   */
  datatype PolyData = PolyData(points: seq<Point>, polys: seq<seq<nat>>)
  {
    /** `GetNumberOfPoints()` */
    function NumberOfPoints(): nat
    {
      |points|
    }
  }
}

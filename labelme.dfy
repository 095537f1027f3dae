/** The LabelMe output schema: shapes, per-image records and their template fields. */
module Labelme {
  import opened Wrappers

  /**
   * One element of a shape's point list. A contour of two or more vertices
   * contributes one coordinate pair per vertex; a one-vertex contour is
   * flattened by the array squeeze into its two bare coordinates.
   */
  datatype Item = Pair(x: int, y: int) | Scalar(value: int)

  datatype ShapeType = Point | Line | Polygon

  /** An RGBA colour as a list of four channel values. */
  type Color = seq<int>

  datatype Shape = Shape(
    flags: map<string, bool>,
    lineColor: Option<Color>,
    fillColor: Option<Color>,
    points: seq<Item>,
    shapeType: ShapeType,
    labelName: Option<string>)

  /** One output file's content; the relative image path is not part of this model. */
  datatype Record = Record(
    flags: map<string, bool>,
    fillColor: Color,
    lineColor: Color,
    version: string,
    imageData: Option<string>,
    imageHeight: int,
    imageWidth: int,
    shapes: seq<Shape>)

  const DefaultFillColor: Color := [255, 0, 0, 128]
  const DefaultLineColor: Color := [0, 255, 0, 128]
  const LabelmeVersion: string := "3.16.7"

  /** The record-level template fields hold their default values. */
  predicate HasRecordDefaults(rec: Record)
  {
    rec.flags == map[] && rec.fillColor == DefaultFillColor && rec.lineColor == DefaultLineColor &&
    rec.version == LabelmeVersion && rec.imageData == None
  }

  /** The shape-level template fields hold their default values. */
  predicate HasShapeDefaults(s: Shape)
  {
    s.flags == map[] && s.lineColor == None && s.fillColor == None
  }

  /** A shape built from a fresh copy of the shape template. */
  function NewShape(points: seq<Item>, shapeType: ShapeType, labelName: Option<string>): Shape
  {
    Shape(map[], None, None, points, shapeType, labelName)
  }

  /** A record built from a fresh copy of the record template. */
  function NewRecord(height: int, width: int, shapes: seq<Shape>): Record
  {
    Record(map[], DefaultFillColor, DefaultLineColor, LabelmeVersion, None, height, width, shapes)
  }
}

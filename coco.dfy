/** The parsed COCO document, as far as the converter reads it. */
module Coco {

  /** One vertex of a traced contour, in pixel coordinates. */
  datatype Vertex = Vertex(x: int, y: int)

  /** A contour as the contour tracer hands it over: its vertices in traversal order. */
  type Contour = seq<Vertex>

  /** An entry of the document's `images` table. */
  datatype ImageInfo = ImageInfo(id: int, width: int, height: int, fileName: string)

  /**
   * An entry of the document's `annotations` table. The run-length-encoded
   * segmentation is represented by the external contours that decoding it and
   * tracing the mask yield, in the order the tracer reports them.
   */
  datatype Annotation = Annotation(imageId: int, categoryId: int, contours: seq<Contour>)

  /** An entry of the document's `categories` table. */
  datatype Category = Category(id: int, name: string)

  datatype Dataset = Dataset(images: seq<ImageInfo>, annotations: seq<Annotation>, categories: seq<Category>)

  /** The id column of the images table, position by position. */
  function Ids(images: seq<ImageInfo>): seq<int>
  {
    seq(|images|, i requires 0 <= i < |images| => images[i].id)
  }
}

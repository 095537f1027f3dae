# COCO to LabelMe converter, modelled in Dafny

This project models the conversion core of a small COCO-to-LabelMe converter
(`convert.py`). The converter does two things:

- **Annotation indexer** (`find_all_img_anns`). It builds the list of image
  ids and one empty bucket per image. Then it appends every annotation to the
  bucket at the first position whose id equals the annotation's `image_id`.
  If no image has that id, `list.index` raises.
- **Shape converter** (the body of `coco2labelme`). For every image and its
  bucket it does four things:
  - It flattens each annotation's traced contours into one point list.
  - It resolves the label by a first-match scan of the categories.
  - It classifies the shape by point count: 0 points skips the annotation, 1 point would give `point` (a count the flattening never produces), 2 points give `line`, more give `polygon`.
  - It builds the image's record from the LabelMe templates, with the image's height and width.

Modules, one per component:

- `wrappers.dfy` (`Wrappers`, `Seqs`): `Option` and `Result`, and two generic facts about sequence concatenation.
- `coco.dfy` (`Coco`): the input tables. An annotation carries its contours, which stand in for the decoded and traced segmentation.
- `indexer.dfy` (`Indexer`): `FindAllImgAnns`, the `list.index` scan `IndexOf`, and the specification `Bucket` with its lemmas.
- `labelme.dfy` (`Labelme`): shapes, records and the template constants (`3.16.7`, the fill and line colours).
- `converter.dfy` (`Converter`): flattening, label lookup, classification, `ConvertImage` and `Coco2Labelme`, and the specification `Shapes` with its lemmas.
- `pipeline.dfy` (`Pipeline`): the run as the module-level code performs it, indexing first and converting afterwards.

The loops of the source are `while`/`for` loops in methods. Each method is
proved against a specification function (`FirstIndex`, `Bucket`, `Flatten`,
`LabelOf`, `Shapes`), and the properties are proved as lemmas about those
functions.

Three behaviours of the code that the model keeps:

- A one-vertex contour does not give a `point`. `contour.squeeze().tolist()`
  turns it into the bare list `[x, y]`, and the loop appends its two coordinates
  as two items. `Squeezed` gives two `Scalar` items for such a contour, and
  `LoneVertexContour` shows that a lone one-vertex contour becomes a `line`.
  More generally, each contour adds no item, two items, or one item per vertex
  when it has two or more. So a point list never has exactly one item
  (`FlattenNotOne`), and no annotation ever yields a `point` shape
  (`NoPointShapes`): the `point` branch of the classification is never taken.
- Categories are a list scanned for the first match, so a repeated id resolves
  to its first entry. `LabelIgnoresLaterCategories` states this rule.
- An annotation whose image id names no image makes `list.index` raise. The
  model returns `Err(ImageIdNotFound(id))` for the first such annotation, and
  no record is produced in that case.

## Model

| member | source | states |
|---|---|---|
| `Indexer.FirstIndex` | convert.py:23 | None exactly when the id does not occur; otherwise a position holding the id with no earlier occurrence |
| `Indexer.IndexOf` | convert.py:23 | the linear scan for the image id returns exactly the first occurrence, or the miss |
| `Indexer.FindAllImgAnns` | convert.py:16-25 | fails exactly when some annotation's image id names no image, reporting the first such annotation. Otherwise it returns the images unchanged and one bucket per image, each equal to the ordered selection of annotations whose id occurs first at that position |
| `Indexer.BucketsSnoc` | convert.py:23-24 | appending an annotation extends only the bucket of its id's first occurrence, by that annotation at the end |
| `Indexer.BucketMembers` | convert.py:23-24 | everything in bucket i is an input annotation, and position i is the first one holding its image id |
| `Indexer.BucketComplete` | convert.py:22-24 | every annotation whose image id exists lands in the bucket of the first image with that id |
| `Indexer.DuplicateBucketEmpty` | convert.py:19-23 | the bucket of a later duplicate image id stays empty |
| `Indexer.UnreferencedBucketEmpty` | convert.py:19-24 | an image that no annotation references gets an empty bucket |
| `Indexer.BucketAppend` | convert.py:22-24 | buckets preserve input order: the bucket of a concatenation is the first part's bucket followed by the second part's |
| `Indexer.BucketsPartition` | convert.py:22-24 | when every annotation is indexed, the bucket sizes sum to the number of annotations |
| `Converter.FlattenContours` | convert.py:57-61 | the nested append loop yields exactly the contour-by-contour flattening of the squeezed contours |
| `Converter.FlattenAppend` | convert.py:58-61 | flattening distributes over concatenation of contour lists, so the order is contour by contour |
| `Converter.FlattenIsConcatenation` | convert.py:57-61 | when no contour has exactly one vertex, the point list is every vertex of every contour in order, as coordinate pairs |
| `Converter.FlattenEmpty` | convert.py:57-61 | the point list is empty exactly when every contour is empty |
| `Converter.FlattenNotOne` | convert.py:57-61 | a flattened point list never has exactly one item, because each squeezed contour adds none or at least two |
| `Converter.NoPointShapes` | convert.py:57-78 | no emitted shape has type `point`: the branch at convert.py:67-68 is never taken |
| `Converter.LoneVertexContour` | convert.py:59-78 | an annotation traced to a single one-vertex contour yields its two bare coordinates as two items, so it becomes a `line` shape |
| `Converter.LabelOfFirstMatch` | convert.py:62-66 | the label is None exactly when no category has the id; otherwise it is the name of the first category with the id |
| `Converter.LookupLabel` | convert.py:62-66 | the scan with `break` returns the first-match label |
| `Converter.LabelIgnoresLaterCategories` | convert.py:63-66 | once a prefix of the categories matches, the categories after it never change the label |
| `Converter.Classify` | convert.py:67-74 | a count of 0 skips the annotation, 1 gives point, 2 gives line, 3 or more gives polygon, each as an if-and-only-if |
| `Converter.ConvertImage` | convert.py:46-80 | the record's height and width are the image's, the template fields hold their defaults, and the shapes are the specification's shapes of the image's annotations |
| `Converter.Coco2Labelme` | convert.py:45-80 | one record per position of the shorter of the image and bucket lists, each describing its image and bucket |
| `Converter.ShapesWellFormed` | convert.py:52-78 | every emitted shape has at least one point, its type is the classification of its point count, and its template fields hold their defaults |
| `Converter.ShapesAppend` | convert.py:50-78 | shapes follow annotation order: the shapes of a concatenation are concatenated |
| `Converter.ShapesEmpty` | convert.py:50-80 | an image has no shapes exactly when each of its annotations has an empty point list, in particular when it has no annotations |
| `Converter.ShapesOneToOne` | convert.py:51-78 | when no annotation is skipped, shape k carries annotation k's point list and label |
| `Pipeline.ConvertDataset` | convert.py:43-87 | the run fails exactly on an unindexed annotation, at the first one. Otherwise it gives one record per image, describing the image's bucket; an image that no annotation references gets no shapes |

## Left out

- Reading the input JSON, the hard-coded paths and `os.makedirs` (convert.py:37-42): file-system input, not part of the conversion logic.
- `mask.decode` and `cv2.findContours` (convert.py:55-56): library calls over rasters whose behaviour is not visible here. Each annotation instead carries the external contours those calls would return.
- `imagePath` and the output file name (convert.py:81-83): they depend on `os.path` semantics. The record has no `imagePath` field.
- JSON serialisation with sorted keys and indentation, and the file write (convert.py:83-84): output I/O. `Coco2Labelme` returns the records that would be written, in image order.
- `tqdm` progress reporting (convert.py:22): no effect on the result.
- `copy.deepcopy` (convert.py:47, 52): modelled as building fresh template values (`NewRecord`, `NewShape`).
- Missing dictionary keys (`KeyError`) and Python's loose `==` between different JSON value types: the input is modelled as typed records with integer ids.
- Coordinates are unbounded integers. The source's coordinates come from integer numpy arrays converted to Python integers, so width does not matter here.

/**
 * The shape converter: turns each annotation's contours into at most one
 * LabelMe shape and assembles the shapes of an image into its record.
 */
module Converter {
  import opened Wrappers
  import opened Coco
  import opened Labelme
  import opened Seqs

  // ---------------------------------------------------------------------------
  // Flattening the contours into one point list

  /** What iterating over `contour.squeeze().tolist()` yields for one contour. */
  function Squeezed(c: Contour): seq<Item>
  {
    if |c| == 1 then [Scalar(c[0].x), Scalar(c[0].y)] else Pairs(c)
  }

  /** Each vertex as a coordinate pair, in order. */
  function Pairs(vs: seq<Vertex>): seq<Item>
  {
    if vs == [] then [] else [Pair(vs[0].x, vs[0].y)] + Pairs(vs[1..])
  }

  /** The point list of an annotation: each contour's items, contour by contour. */
  function Flatten(cs: seq<Contour>): seq<Item>
  {
    if cs == [] then [] else Flatten(cs[..|cs| - 1]) + Squeezed(cs[|cs| - 1])
  }

  /** The nested loop that appends every item of every squeezed contour. */
  method FlattenContours(contours: seq<Contour>) returns (points: seq<Item>)
    ensures points == Flatten(contours)
  {
    points := [];
    for k := 0 to |contours|
      invariant points == Flatten(contours[..k])
    {
      var contour := Squeezed(contours[k]);
      ghost var done := points;
      for j := 0 to |contour|
        invariant points == done + contour[..j]
      {
        assert contour[..j + 1] == contour[..j] + [contour[j]];
        ConcatAssoc(done, contour[..j], [contour[j]]);
        points := points + [contour[j]];
      }
      assert contour[..|contour|] == contour;
      FlattenPrefix(contours, k);
    }
    assert contours[..|contours|] == contours;
  }

  /** Flattening one more contour appends that contour's items. */
  lemma FlattenPrefix(cs: seq<Contour>, k: nat)
    requires k < |cs|
    ensures Flatten(cs[..k + 1]) == Flatten(cs[..k]) + Squeezed(cs[k])
  {
    assert cs[..k + 1][..k] == cs[..k];
  }

  /** Flattening works contour by contour: it distributes over concatenation. */
  lemma {:induction false} FlattenAppend(a: seq<Contour>, b: seq<Contour>)
    ensures Flatten(a + b) == Flatten(a) + Flatten(b)
  {
    if b == [] {
      assert a + b == a;
    } else {
      var init, last := b[..|b| - 1], b[|b| - 1];
      var ab := a + b;
      DropLastOfConcat(a, b);
      assert Flatten(ab) == Flatten(a + init) + Squeezed(last);
      FlattenAppend(a, init);
      assert Flatten(b) == Flatten(init) + Squeezed(last);
      ConcatAssoc(Flatten(a), Flatten(init), Squeezed(last));
    }
  }

  /** The vertices of all contours, one after the other. */
  function Concat(cs: seq<Contour>): seq<Vertex>
  {
    if cs == [] then [] else Concat(cs[..|cs| - 1]) + cs[|cs| - 1]
  }

  lemma {:induction false} PairsAppend(a: seq<Vertex>, b: seq<Vertex>)
    ensures Pairs(a + b) == Pairs(a) + Pairs(b)
  {
    if a != [] {
      assert (a + b)[1..] == a[1..] + b;
      PairsAppend(a[1..], b);
    } else {
      assert a + b == b;
    }
  }

  /**
   * When no contour has exactly one vertex, the point list is every vertex of
   * every contour, in order, as a coordinate pair.
   */
  lemma {:induction false} FlattenIsConcatenation(cs: seq<Contour>)
    requires forall k :: 0 <= k < |cs| ==> |cs[k]| != 1
    ensures Flatten(cs) == Pairs(Concat(cs))
  {
    if cs != [] {
      var n := |cs|;
      FlattenIsConcatenation(cs[..n - 1]);
      PairsAppend(Concat(cs[..n - 1]), cs[n - 1]);
    }
  }

  /** The point list is empty exactly when every contour is empty. */
  lemma {:induction false} FlattenEmpty(cs: seq<Contour>)
    ensures Flatten(cs) == [] <==> forall k :: 0 <= k < |cs| ==> cs[k] == []
  {
    if cs != [] {
      var n := |cs|;
      FlattenEmpty(cs[..n - 1]);
      assert forall k :: 0 <= k < n - 1 ==> cs[..n - 1][k] == cs[k];
    }
  }

  lemma {:induction false} PairsLength(vs: seq<Vertex>)
    ensures |Pairs(vs)| == |vs|
  {
    if vs != [] {
      PairsLength(vs[1..]);
    }
  }

  /** A squeezed contour contributes no item, or at least two: never exactly one. */
  lemma SqueezedNotOne(c: Contour)
    ensures |Squeezed(c)| != 1
  {
    if |c| != 1 {
      PairsLength(c);
    }
  }

  /**
   * A point list never has exactly one item: each contour adds none or at
   * least two, so the single-point classification can never be reached.
   */
  lemma {:induction false} FlattenNotOne(cs: seq<Contour>)
    ensures |Flatten(cs)| != 1
  {
    if cs != [] {
      var init, last := cs[..|cs| - 1], cs[|cs| - 1];
      FlattenNotOne(init);
      SqueezedNotOne(last);
      assert |Flatten(cs)| == |Flatten(init)| + |Squeezed(last)|;
    }
  }

  // ---------------------------------------------------------------------------
  // Resolving the label

  /** The name of the first category whose id is `id`, or None when none is. */
  function LabelOf(cats: seq<Category>, id: int): Option<string>
  {
    if cats == [] then None
    else if cats[0].id == id then Some(cats[0].name)
    else LabelOf(cats[1..], id)
  }

  /**
   * The label is resolved exactly when some category has the id, and then it
   * is the name of the first such category.
   */
  lemma {:induction false} LabelOfFirstMatch(cats: seq<Category>, id: int)
    ensures LabelOf(cats, id).None? <==> forall k :: 0 <= k < |cats| ==> cats[k].id != id
    ensures LabelOf(cats, id).Some? ==>
      exists k :: 0 <= k < |cats| && cats[k].id == id && cats[k].name == LabelOf(cats, id).value &&
        forall j :: 0 <= j < k ==> cats[j].id != id
  {
    if cats != [] && cats[0].id != id {
      LabelOfFirstMatch(cats[1..], id);
      assert forall k :: 1 <= k < |cats| ==> cats[k] == cats[1..][k - 1];
      if LabelOf(cats, id).Some? {
        var k :| 0 <= k < |cats[1..]| && cats[1..][k].id == id && cats[1..][k].name == LabelOf(cats, id).value &&
          forall j :: 0 <= j < k ==> cats[1..][j].id != id;
        assert cats[k + 1].id == id;
      }
    }
  }

  /** The scan over the categories that stops at the first matching id. */
  method LookupLabel(cats: seq<Category>, id: int) returns (name: Option<string>)
    ensures name == LabelOf(cats, id)
  {
    name := None;
    var k := 0;
    while k < |cats|
      invariant 0 <= k <= |cats|
      invariant LabelOf(cats, id) == LabelOf(cats[k..], id)
    {
      if cats[k].id == id {
        name := Some(cats[k].name);
        break;
      }
      assert cats[k..][1..] == cats[k + 1..];
      k := k + 1;
    }
  }

  /** Only the first match counts: categories after it are never consulted. */
  lemma {:induction false} LabelIgnoresLaterCategories(a: seq<Category>, b: seq<Category>, id: int)
    ensures LabelOf(a + b, id) == if LabelOf(a, id).Some? then LabelOf(a, id) else LabelOf(b, id)
  {
    if a != [] {
      assert (a + b)[1..] == a[1..] + b;
      LabelIgnoresLaterCategories(a[1..], b, id);
    } else {
      assert a + b == b;
    }
  }

  // ---------------------------------------------------------------------------
  // Classifying by point count

  /** The shape type for a point count; None means the annotation is skipped. */
  function Classify(n: nat): (r: Option<ShapeType>)
    ensures r == None <==> n == 0
    ensures r == Some(Point) <==> n == 1
    ensures r == Some(Line) <==> n == 2
    ensures r == Some(Polygon) <==> n >= 3
  {
    if n == 1 then Some(Point)
    else if n == 2 then Some(Line)
    else if n <= 0 then None
    else Some(Polygon)
  }

  // ---------------------------------------------------------------------------
  // Shapes of one image

  /** The shape one annotation contributes, or None when its point list is empty. */
  function ShapeOf(ann: Annotation, cats: seq<Category>): Option<Shape>
  {
    var points := Flatten(ann.contours);
    match Classify(|points|)
    case None => None
    case Some(t) => Some(NewShape(points, t, LabelOf(cats, ann.categoryId)))
  }

  /** What one annotation adds to its image's shapes: its shape, or nothing. */
  function Emitted(ann: Annotation, cats: seq<Category>): seq<Shape>
  {
    match ShapeOf(ann, cats)
    case None => []
    case Some(s) => [s]
  }

  /** The shapes of an image: the emitted shapes of its annotations, in annotation order. */
  function Shapes(anns: seq<Annotation>, cats: seq<Category>): seq<Shape>
  {
    if anns == [] then [] else Shapes(anns[..|anns| - 1], cats) + Emitted(anns[|anns| - 1], cats)
  }

  /** A record describes an image: dimensions copied, template defaults, and its shapes. */
  predicate Describes(rec: Record, img: ImageInfo, anns: seq<Annotation>, cats: seq<Category>)
  {
    rec.imageHeight == img.height && rec.imageWidth == img.width &&
    HasRecordDefaults(rec) && rec.shapes == Shapes(anns, cats)
  }

  /** The conversion of one image and its annotations into its record. */
  method ConvertImage(img: ImageInfo, anns: seq<Annotation>, cats: seq<Category>) returns (rec: Record)
    ensures Describes(rec, img, anns, cats)
  {
    var shapes: seq<Shape> := [];
    for k := 0 to |anns|
      invariant shapes == Shapes(anns[..k], cats)
    {
      var ann := anns[k];
      assert anns[..k + 1][..k] == anns[..k];
      var points := FlattenContours(ann.contours);
      var name := LookupLabel(cats, ann.categoryId);
      var shapeType := Classify(|points|);
      if shapeType.None? {
        continue;
      }
      shapes := shapes + [NewShape(points, shapeType.value, name)];
    }
    assert anns[..|anns|] == anns;
    rec := NewRecord(img.height, img.width, shapes);
  }

  /**
   * coco2labelme: one record per image, pairing images and buckets position
   * by position and stopping at the shorter of the two lists.
   */
  method Coco2Labelme(images: seq<ImageInfo>, buckets: seq<seq<Annotation>>, cats: seq<Category>)
    returns (records: seq<Record>)
    ensures |records| == if |images| <= |buckets| then |images| else |buckets|
    ensures forall i :: 0 <= i < |records| ==> Describes(records[i], images[i], buckets[i], cats)
  {
    var n := if |images| <= |buckets| then |images| else |buckets|;
    records := [];
    for i := 0 to n
      invariant |records| == i
      invariant forall j :: 0 <= j < i ==> Describes(records[j], images[j], buckets[j], cats)
    {
      var rec := ConvertImage(images[i], buckets[i], cats);
      records := records + [rec];
    }
  }

  /**
   * Every emitted shape is well formed: it has at least one point, its type is
   * the classification of its point count, and its template fields are defaults.
   */
  lemma {:induction false} ShapesWellFormed(anns: seq<Annotation>, cats: seq<Category>)
    ensures forall k :: 0 <= k < |Shapes(anns, cats)| ==>
      |Shapes(anns, cats)[k].points| >= 1 &&
      Classify(|Shapes(anns, cats)[k].points|) == Some(Shapes(anns, cats)[k].shapeType) &&
      HasShapeDefaults(Shapes(anns, cats)[k])
  {
    if anns != [] {
      ShapesWellFormed(anns[..|anns| - 1], cats);
    }
  }

  /** Shapes keep annotation order: the shapes of a concatenation are concatenated. */
  lemma {:induction false} ShapesAppend(a: seq<Annotation>, b: seq<Annotation>, cats: seq<Category>)
    ensures Shapes(a + b, cats) == Shapes(a, cats) + Shapes(b, cats)
  {
    if b == [] {
      assert a + b == a;
    } else {
      var init, last := b[..|b| - 1], b[|b| - 1];
      var ab := a + b;
      DropLastOfConcat(a, b);
      assert Shapes(ab, cats) == Shapes(a + init, cats) + Emitted(last, cats);
      ShapesAppend(a, init, cats);
      assert Shapes(b, cats) == Shapes(init, cats) + Emitted(last, cats);
      ConcatAssoc(Shapes(a, cats), Shapes(init, cats), Emitted(last, cats));
    }
  }

  /**
   * A single one-vertex contour yields two bare coordinates, hence two items,
   * so an annotation traced to just that contour becomes a line, not a point.
   */
  lemma LoneVertexContour(ann: Annotation, v: Vertex, cats: seq<Category>)
    requires ann.contours == [[v]]
    ensures Flatten(ann.contours) == [Scalar(v.x), Scalar(v.y)]
    ensures Emitted(ann, cats) == [NewShape([Scalar(v.x), Scalar(v.y)], Line, LabelOf(cats, ann.categoryId))]
  {
  }

  /** An annotation adds nothing exactly when its point list is empty. */
  lemma EmittedEmpty(ann: Annotation, cats: seq<Category>)
    ensures Emitted(ann, cats) == [] <==> Flatten(ann.contours) == []
  {
  }

  /** An image gets no shapes exactly when every one of its annotations has an empty point list. */
  lemma ShapesEmpty(anns: seq<Annotation>, cats: seq<Category>)
    ensures Shapes(anns, cats) == [] <==> forall k :: 0 <= k < |anns| ==> Flatten(anns[k].contours) == []
  {
    if Shapes(anns, cats) == [] {
      forall k | 0 <= k < |anns| ensures Flatten(anns[k].contours) == [] {
        NoShapesMeansSkipped(anns, cats, k);
      }
    }
    if forall k :: 0 <= k < |anns| ==> Flatten(anns[k].contours) == [] {
      AllSkippedMeansNoShapes(anns, cats);
    }
  }

  lemma {:induction false} NoShapesMeansSkipped(anns: seq<Annotation>, cats: seq<Category>, k: nat)
    requires k < |anns| && Shapes(anns, cats) == []
    ensures Flatten(anns[k].contours) == []
  {
    var init, last := anns[..|anns| - 1], anns[|anns| - 1];
    var before, added := Shapes(init, cats), Emitted(last, cats);
    assert Shapes(anns, cats) == before + added;
    assert |before| + |added| == 0;
    if k < |init| {
      assert anns[k] == init[k];
      NoShapesMeansSkipped(init, cats, k);
    } else {
      assert anns[k] == last;
      EmittedEmpty(last, cats);
    }
  }

  lemma {:induction false} AllSkippedMeansNoShapes(anns: seq<Annotation>, cats: seq<Category>)
    requires forall k :: 0 <= k < |anns| ==> Flatten(anns[k].contours) == []
    ensures Shapes(anns, cats) == []
  {
    if anns != [] {
      var init, last := anns[..|anns| - 1], anns[|anns| - 1];
      assert forall k :: 0 <= k < |init| ==> init[k] == anns[k];
      AllSkippedMeansNoShapes(init, cats);
      EmittedEmpty(last, cats);
    }
  }

  /** No emitted shape is a point: the point branch of the classification is never taken. */
  lemma {:induction false} NoPointShapes(anns: seq<Annotation>, cats: seq<Category>)
    ensures forall k :: 0 <= k < |Shapes(anns, cats)| ==> Shapes(anns, cats)[k].shapeType != Point
  {
    if anns != [] {
      var init, last := anns[..|anns| - 1], anns[|anns| - 1];
      NoPointShapes(init, cats);
      FlattenNotOne(last.contours);
      assert Shapes(anns, cats) == Shapes(init, cats) + Emitted(last, cats);
    }
  }

  /**
   * When no annotation is skipped, shape `k` comes from annotation `k`: its
   * points are that annotation's point list and its label that category's name.
   */
  lemma {:induction false} ShapesOneToOne(anns: seq<Annotation>, cats: seq<Category>)
    requires forall k :: 0 <= k < |anns| ==> Flatten(anns[k].contours) != []
    ensures |Shapes(anns, cats)| == |anns|
    ensures forall k :: 0 <= k < |anns| ==>
      Shapes(anns, cats)[k].points == Flatten(anns[k].contours) &&
      Shapes(anns, cats)[k].labelName == LabelOf(cats, anns[k].categoryId)
  {
    if anns != [] {
      var n := |anns|;
      var init, last := anns[..n - 1], anns[n - 1];
      assert forall k :: 0 <= k < n - 1 ==> init[k] == anns[k];
      ShapesOneToOne(init, cats);
      var points := Flatten(last.contours);
      var before, added := Shapes(init, cats), Emitted(last, cats);
      assert added == [NewShape(points, Classify(|points|).value, LabelOf(cats, last.categoryId))];
      var all := Shapes(anns, cats);
      assert all == before + added;
      forall k | 0 <= k < n
        ensures all[k].points == Flatten(anns[k].contours) && all[k].labelName == LabelOf(cats, anns[k].categoryId)
      {
        if k < n - 1 {
          assert anns[k] == init[k] && all[k] == before[k];
        } else {
          assert anns[k] == last && all[k] == added[0];
        }
      }
    }
  }
}

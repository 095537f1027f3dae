/**
 * The whole conversion run: index the annotations by image, then convert
 * every image with its bucket into its LabelMe record.
 */
module Pipeline {
  import opened Wrappers
  import opened Coco
  import opened Labelme
  import opened Indexer
  import opened Converter

  /**
   * The records of a run, one per image in input order, or the lookup miss of
   * the first annotation whose image id names no image (no record is produced then).
   */
  method ConvertDataset(ds: Dataset) returns (r: Result<seq<Record>, IndexError>)
    ensures r.Ok? <==> AllIndexed(Ids(ds.images), ds.annotations)
    ensures r.Err? ==> exists k :: IsFirstOrphan(Ids(ds.images), ds.annotations, k) &&
                                   r.error == ImageIdNotFound(ds.annotations[k].imageId)
    ensures r.Ok? ==> |r.value| == |ds.images|
    ensures r.Ok? ==> forall i :: 0 <= i < |ds.images| ==>
      Describes(r.value[i], ds.images[i], Bucket(Ids(ds.images), ds.annotations, i), ds.categories)
    ensures r.Ok? ==> forall i :: 0 <= i < |ds.images| ==>
      (forall k :: 0 <= k < |ds.annotations| ==> ds.annotations[k].imageId != ds.images[i].id) ==>
        r.value[i].shapes == []
  {
    var indexed := FindAllImgAnns(ds.images, ds.annotations);
    if indexed.Err? {
      return Err(indexed.error);
    }
    var records := Coco2Labelme(indexed.value.images, indexed.value.buckets, ds.categories);
    forall i | 0 <= i < |ds.images| &&
      (forall k :: 0 <= k < |ds.annotations| ==> ds.annotations[k].imageId != ds.images[i].id)
      ensures records[i].shapes == []
    {
      UnreferencedBucketEmpty(Ids(ds.images), ds.annotations, i);
    }
    return Ok(records);
  }
}

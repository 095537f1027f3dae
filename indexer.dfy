/**
 * The annotation indexer: groups the flat annotations table into one bucket
 * per image, aligned position by position with the images table.
 */
module Indexer {
  import opened Wrappers
  import opened Coco
  import opened Seqs

  /** The lookup miss of `list.index`: no image carries the annotation's image id. */
  datatype IndexError = ImageIdNotFound(imageId: int)

  /** The images table together with its buckets of annotations. */
  datatype Indexed = Indexed(images: seq<ImageInfo>, buckets: seq<seq<Annotation>>)

  /** The position of the first occurrence of `x` in `s`, or None when `x` does not occur. */
  function FirstIndex(s: seq<int>, x: int): (r: Option<nat>)
    ensures r.None? <==> x !in s
    ensures r.Some? ==> r.value < |s| && s[r.value] == x && x !in s[..r.value]
  {
    if |s| == 0 then None
    else if s[0] == x then Some(0)
    else match FirstIndex(s[1..], x)
      case None => None
      case Some(k) =>
        assert s[1..][..k] == s[1..k+1];
        Some(k + 1)
  }

  /** `list.index` as a linear scan; a miss is reported as None instead of raising. */
  method IndexOf(s: seq<int>, x: int) returns (r: Option<nat>)
    ensures r == FirstIndex(s, x)
  {
    var i := 0;
    while i < |s|
      invariant 0 <= i <= |s|
      invariant x !in s[..i]
    {
      if s[i] == x {
        FirstIndexUnique(s, x, i);
        return Some(i);
      }
      assert s[..i+1] == s[..i] + [s[i]];
      i := i + 1;
    }
    assert s[..i] == s;
    return None;
  }

  /** Any position holding the first occurrence of `x` is the one FirstIndex finds. */
  lemma FirstIndexUnique(s: seq<int>, x: int, i: nat)
    requires i < |s| && s[i] == x && x !in s[..i]
    ensures FirstIndex(s, x) == Some(i)
  {
  }

  /** Every annotation's image id names some image. */
  predicate AllIndexed(ids: seq<int>, anns: seq<Annotation>)
  {
    forall k :: 0 <= k < |anns| ==> anns[k].imageId in ids
  }

  /** Annotation `k` is the first one whose image id names no image. */
  predicate IsFirstOrphan(ids: seq<int>, anns: seq<Annotation>, k: int)
  {
    0 <= k < |anns| && anns[k].imageId !in ids &&
    forall j :: 0 <= j < k ==> anns[j].imageId in ids
  }

  /**
   * Specification of bucket `i`: the annotations, in input order, whose image
   * id occurs first at position `i` of `ids`.
   */
  function Bucket(ids: seq<int>, anns: seq<Annotation>, i: nat): seq<Annotation>
  {
    if anns == [] then []
    else
      var last := anns[|anns| - 1];
      Bucket(ids, anns[..|anns| - 1], i) + (if FirstIndex(ids, last.imageId) == Some(i) then [last] else [])
  }

  /** All buckets, one per position of `ids`. */
  function Buckets(ids: seq<int>, anns: seq<Annotation>): seq<seq<Annotation>>
  {
    seq(|ids|, i requires 0 <= i < |ids| => Bucket(ids, anns, i))
  }

  /** Appending an indexed annotation extends exactly the bucket of its image id's first occurrence. */
  lemma BucketsSnoc(ids: seq<int>, init: seq<Annotation>, a: Annotation)
    requires a.imageId in ids
    ensures var j := FirstIndex(ids, a.imageId).value;
      Buckets(ids, init + [a]) == Buckets(ids, init)[j := Buckets(ids, init)[j] + [a]]
  {
    var j := FirstIndex(ids, a.imageId).value;
    var s := init + [a];
    assert s[..|s| - 1] == init;
    forall i | 0 <= i < |ids|
      ensures Bucket(ids, s, i) == if i == j then Bucket(ids, init, i) + [a] else Bucket(ids, init, i)
    {
    }
  }

  /**
   * find_all_img_anns: returns the images table unchanged and the buckets, or
   * fails on the first annotation whose image id names no image.
   */
  method FindAllImgAnns(images: seq<ImageInfo>, anns: seq<Annotation>) returns (r: Result<Indexed, IndexError>)
    ensures r.Ok? <==> AllIndexed(Ids(images), anns)
    ensures r.Err? ==> exists k :: IsFirstOrphan(Ids(images), anns, k) && r.error == ImageIdNotFound(anns[k].imageId)
    ensures r.Ok? ==> r.value.images == images && r.value.buckets == Buckets(Ids(images), anns)
  {
    var imgIdList: seq<int> := [];
    var annsList: seq<seq<Annotation>> := [];
    for i := 0 to |images|
      invariant |imgIdList| == |annsList| == i
      invariant forall j :: 0 <= j < i ==> imgIdList[j] == images[j].id && annsList[j] == []
    {
      imgIdList := imgIdList + [images[i].id];
      annsList := annsList + [[]];
    }
    assert imgIdList == Ids(images);
    assert annsList == Buckets(imgIdList, anns[..0]);
    for k := 0 to |anns|
      invariant annsList == Buckets(imgIdList, anns[..k])
      invariant AllIndexed(imgIdList, anns[..k])
    {
      var index := IndexOf(imgIdList, anns[k].imageId);
      if index.None? {
        assert IsFirstOrphan(imgIdList, anns, k) by {
          forall j | 0 <= j < k ensures anns[j].imageId in imgIdList { assert anns[..k][j] == anns[j]; }
        }
        return Err(ImageIdNotFound(anns[k].imageId));
      }
      assert anns[..k+1] == anns[..k] + [anns[k]];
      BucketsSnoc(imgIdList, anns[..k], anns[k]);
      annsList := annsList[index.value := annsList[index.value] + [anns[k]]];
    }
    assert anns[..|anns|] == anns;
    return Ok(Indexed(images, annsList));
  }

  /** Everything in bucket `i` is an input annotation whose image id occurs first at position `i`. */
  lemma {:induction false} BucketMembers(ids: seq<int>, anns: seq<Annotation>, i: nat, a: Annotation)
    requires a in Bucket(ids, anns, i)
    ensures a in anns
    ensures i < |ids| && ids[i] == a.imageId && a.imageId !in ids[..i]
  {
    var n := |anns|;
    if a in Bucket(ids, anns[..n - 1], i) {
      BucketMembers(ids, anns[..n - 1], i, a);
    } else {
      assert a == anns[n - 1];
    }
  }

  /** Every annotation whose image id occurs in `ids` lands in the bucket of its first occurrence. */
  lemma {:induction false} BucketComplete(ids: seq<int>, anns: seq<Annotation>, k: nat)
    requires k < |anns| && anns[k].imageId in ids
    ensures anns[k] in Bucket(ids, anns, FirstIndex(ids, anns[k].imageId).value)
  {
    var n := |anns|;
    if k < n - 1 {
      BucketComplete(ids, anns[..n - 1], k);
    }
  }

  /** A later duplicate of an image id gets an empty bucket: annotations go to the first occurrence. */
  lemma {:induction false} DuplicateBucketEmpty(ids: seq<int>, anns: seq<Annotation>, i: nat)
    requires i < |ids| && ids[i] in ids[..i]
    ensures Bucket(ids, anns, i) == []
  {
    if anns != [] {
      DuplicateBucketEmpty(ids, anns[..|anns| - 1], i);
    }
  }

  /** An image id that no annotation references gets an empty bucket. */
  lemma {:induction false} UnreferencedBucketEmpty(ids: seq<int>, anns: seq<Annotation>, i: nat)
    requires i < |ids|
    requires forall k :: 0 <= k < |anns| ==> anns[k].imageId != ids[i]
    ensures Bucket(ids, anns, i) == []
  {
    if anns != [] {
      UnreferencedBucketEmpty(ids, anns[..|anns| - 1], i);
    }
  }

  /**
   * Buckets keep input order: the bucket of a concatenation is the bucket of
   * the first part followed by the bucket of the second.
   */
  lemma {:induction false} BucketAppend(ids: seq<int>, a: seq<Annotation>, b: seq<Annotation>, i: nat)
    ensures Bucket(ids, a + b, i) == Bucket(ids, a, i) + Bucket(ids, b, i)
  {
    if b == [] {
      assert a + b == a;
    } else {
      var init, last := b[..|b| - 1], b[|b| - 1];
      var ab := a + b;
      DropLastOfConcat(a, b);
      BucketAppend(ids, a, init, i);
    }
  }

  /** The total number of annotations held by a list of buckets. */
  function TotalSize(bs: seq<seq<Annotation>>): nat
  {
    if bs == [] then 0 else |bs[0]| + TotalSize(bs[1..])
  }

  lemma {:induction false} TotalSizeGrow(bs: seq<seq<Annotation>>, j: nat, a: Annotation)
    requires j < |bs|
    ensures TotalSize(bs[j := bs[j] + [a]]) == TotalSize(bs) + 1
  {
    if j > 0 {
      assert bs[j := bs[j] + [a]][1..] == bs[1..][j - 1 := bs[1..][j - 1] + [a]];
      TotalSizeGrow(bs[1..], j - 1, a);
    } else {
      assert bs[j := bs[j] + [a]][1..] == bs[1..];
    }
  }

  /** When every annotation is indexed, the bucket sizes add up to the number of annotations. */
  lemma {:induction false} BucketsPartition(ids: seq<int>, anns: seq<Annotation>)
    requires AllIndexed(ids, anns)
    ensures TotalSize(Buckets(ids, anns)) == |anns|
  {
    if anns == [] {
      var bs := Buckets(ids, anns);
      EmptyBucketsTotal(bs);
    } else {
      var n := |anns|;
      var init := anns[..n - 1];
      var last := anns[n - 1];
      assert AllIndexed(ids, init) by {
        forall k | 0 <= k < |init| ensures init[k].imageId in ids { assert init[k] == anns[k]; }
      }
      BucketsPartition(ids, init);
      var j := FirstIndex(ids, last.imageId).value;
      assert anns == init + [last];
      BucketsSnoc(ids, init, last);
      TotalSizeGrow(Buckets(ids, init), j, last);
    }
  }

  lemma {:induction false} EmptyBucketsTotal(bs: seq<seq<Annotation>>)
    requires forall i :: 0 <= i < |bs| ==> bs[i] == []
    ensures TotalSize(bs) == 0
  {
    if bs != [] {
      EmptyBucketsTotal(bs[1..]);
    }
  }
}

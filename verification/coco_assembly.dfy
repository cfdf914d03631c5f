/**
 * The assembly half of `wider_to_coco_json`: walk the parsed dict in key
 * order, give every image a record with its size and every box an
 * annotation record, and number both with running counters.
 *
 * `Image.open(...).width/.height` is the parameter `imageSize` (`None` when
 * the picture cannot be opened). The COCO lists are built by the method
 * `WiderToCoco`, which is proved to compute the reference `Convert`; the
 * lemmas below say what `Convert` produces.
 */
module CocoAssembly {
  import opened Wrappers
  import opened AnnDicts

  /** What `Image.open` reports about a picture. */
  datatype Dims = Dims(width: nat, height: nat)

  /** `{'id', 'width', 'height', 'file_name'}`. */
  datatype ImageRecord = ImageRecord(id: nat, width: nat, height: nat, fileName: string)

  /** `{'id', 'image_id', 'segmentation', 'category_id', 'iscrowd', 'area', 'boxes', 'bbox'}`. */
  datatype AnnotationRecord = AnnotationRecord(
    id: nat, imageId: nat, segmentation: seq<seq<real>>, categoryId: nat, iscrowd: nat,
    area: real, boxes: Box, bbox: Box)

  /** `{'id', 'name', 'supercategory'}`. */
  datatype Category = Category(id: nat, name: string, supercategory: string)

  /** The dict written out as JSON: `images`, `categories`, `annotations`. */
  datatype CocoDoc = CocoDoc(images: seq<ImageRecord>, categories: seq<Category>, annotations: seq<AnnotationRecord>)

  /** The exceptions the assembly can raise: the picture cannot be opened,
      or a box has fewer than four numbers, so `bbox[2] * bbox[3]` raises
      IndexError. */
  datatype AssembleError =
    | ImageUnreadable(fileName: string)
    | BoxTooShort(fileName: string, box: Box)

  /** The one category WIDER FACE has. */
  const FaceCategoryId: nat := 1
  const Categories: seq<Category> := [Category(FaceCategoryId, "face", "face")]

  /** Every key listed in `order` has an entry (true of every well formed dict). */
  predicate OrderKeyed(d: AnnDict)
  {
    forall i :: 0 <= i < |d.order| ==> d.order[i] in d.entries
  }

  lemma {:induction false} ValidOrderKeyed(d: AnnDict)
    requires Valid(d)
    ensures OrderKeyed(d)
  {
  }

  /** `wider_annot_dict[img_name]` for the `i`-th key. */
  function BoxesAt(d: AnnDict, i: nat): seq<Box>
    requires OrderKeyed(d) && i < |d.order|
  {
    d.entries[d.order[i]]
  }

  /** The number of boxes of the first `n` keys: the annotation id the
      `n`-th image's first box gets. */
  function BoxesBefore(d: AnnDict, n: nat): nat
    requires OrderKeyed(d) && n <= |d.order|
  {
    if n == 0 then 0 else BoxesBefore(d, n - 1) + |BoxesAt(d, n - 1)|
  }

  /** The total number of boxes in the dict. */
  function TotalBoxes(d: AnnDict): nat
    requires OrderKeyed(d)
  {
    BoxesBefore(d, |d.order|)
  }

  /** The record of the `id`-th image: its id, the picture's width and
      height, and its file name. */
  function ImageOf(id: nat, name: string, dims: Dims): (r: ImageRecord)
    ensures r.id == id && r.fileName == name
    ensures r.width == dims.width && r.height == dims.height
  {
    ImageRecord(id, dims.width, dims.height, name)
  }

  /** A face annotation: category 1, not a crowd, no segmentation, and an
      `area` that is the width times the height of its four-number `bbox`. */
  predicate IsFaceAnnotation(a: AnnotationRecord)
  {
    && a.categoryId == FaceCategoryId && a.iscrowd == 0 && a.segmentation == []
    && |a.bbox| == 4 && a.area == a.bbox[2] * a.bbox[3]
  }

  /** The record of one box: a face annotation whose `bbox` is the box's
      first four numbers, with the whole box kept under `boxes`. */
  function AnnotationOf(id: nat, imageId: nat, box: Box): (r: AnnotationRecord)
    requires |box| >= 4
    ensures IsFaceAnnotation(r)
    ensures r.id == id && r.imageId == imageId && r.boxes == box
    ensures r.bbox == box[..4] && r.bbox[2] == box[2] && r.bbox[3] == box[3]
  {
    AnnotationRecord(id, imageId, [], FaceCategoryId, 0, box[2] * box[3], box, box[..4])
  }

  /** Each of the first `k` boxes has the four numbers `area` and `bbox` read. */
  predicate LongPrefix(boxes: seq<Box>, k: nat)
    requires k <= |boxes|
  {
    forall j :: 0 <= j < k ==> |boxes[j]| >= 4
  }

  /** Every box of the list is long enough. */
  predicate LongBoxes(boxes: seq<Box>)
  {
    LongPrefix(boxes, |boxes|)
  }

  /** The first box with fewer than four numbers, if there is one. */
  function ShortBox(boxes: seq<Box>): Option<Box>
  {
    if boxes == [] then None
    else if |boxes[0]| < 4 then Some(boxes[0])
    else ShortBox(boxes[1..])
  }

  /** Each of the first `n` pictures opens. */
  predicate AllOpen(d: AnnDict, imageSize: string -> Option<Dims>, n: nat)
    requires OrderKeyed(d) && n <= |d.order|
  {
    forall i :: 0 <= i < n ==> imageSize(d.order[i]).Some?
  }

  /** Each box of the first `n` keys is long enough. */
  predicate AllLong(d: AnnDict, n: nat)
    requires OrderKeyed(d) && n <= |d.order|
  {
    forall i :: 0 <= i < n ==> LongBoxes(BoxesAt(d, i))
  }

  /** An image converts when its picture opens and all its boxes are long enough. */
  predicate Convertible(d: AnnDict, imageSize: string -> Option<Dims>, i: nat)
    requires OrderKeyed(d) && i < |d.order|
  {
    imageSize(d.order[i]).Some? && LongBoxes(BoxesAt(d, i))
  }

  /** The exception the `i`-th image raises when it does not convert. */
  function ErrorAt(d: AnnDict, imageSize: string -> Option<Dims>, i: nat): AssembleError
    requires OrderKeyed(d) && i < |d.order| && !Convertible(d, imageSize, i)
  {
    var name := d.order[i];
    if imageSize(name).None? then ImageUnreadable(name)
    else
      ShortBoxNone(BoxesAt(d, i));
      BoxTooShort(name, ShortBox(BoxesAt(d, i)).value)
  }

  /** The exception raised while converting the first `n` images, if any:
      a picture that does not open, else a box of that image that is too short. */
  function FirstFailure(d: AnnDict, imageSize: string -> Option<Dims>, n: nat): Option<AssembleError>
    requires OrderKeyed(d) && n <= |d.order|
  {
    if n == 0 then None
    else
      match FirstFailure(d, imageSize, n - 1)
      case Some(e) => Some(e)
      case None =>
        var name := d.order[n - 1];
        if imageSize(name).None? then Some(ImageUnreadable(name))
        else
          match ShortBox(BoxesAt(d, n - 1))
          case Some(b) => Some(BoxTooShort(name, b))
          case None => None
  }

  /** The image records of the first `n` keys. */
  function ImagesUpTo(d: AnnDict, imageSize: string -> Option<Dims>, n: nat): seq<ImageRecord>
    requires OrderKeyed(d) && n <= |d.order| && AllOpen(d, imageSize, n)
  {
    if n == 0 then []
    else ImagesUpTo(d, imageSize, n - 1) + [ImageOf(n - 1, d.order[n - 1], imageSize(d.order[n - 1]).value)]
  }

  /** The annotations of the first `k` boxes of one image, numbered from `first`. */
  function AnnotationsOf(imageId: nat, first: nat, boxes: seq<Box>, k: nat): seq<AnnotationRecord>
    requires k <= |boxes| && LongPrefix(boxes, k)
  {
    if k == 0 then []
    else AnnotationsOf(imageId, first, boxes, k - 1) + [AnnotationOf(first + k - 1, imageId, boxes[k - 1])]
  }

  /** The annotation records of the boxes of the first `n` keys. */
  function AnnotationsUpTo(d: AnnDict, n: nat): seq<AnnotationRecord>
    requires OrderKeyed(d) && n <= |d.order| && AllLong(d, n)
  {
    if n == 0 then []
    else
      var boxes := BoxesAt(d, n - 1);
      AnnotationsUpTo(d, n - 1) + AnnotationsOf(n - 1, BoxesBefore(d, n - 1), boxes, |boxes|)
  }

  /** The document `wider_to_coco_json` writes for the dict `d`, or the
      exception it raises. */
  function Convert(d: AnnDict, imageSize: string -> Option<Dims>): (r: Result<CocoDoc, AssembleError>)
    requires OrderKeyed(d)
    ensures r.Ok? ==> r.value.categories == Categories && |r.value.images| == |d.order|
  {
    match FirstFailure(d, imageSize, |d.order|)
    case Some(e) => Err(e)
    case None =>
      FirstFailureNone(d, imageSize, |d.order|);
      ImagesUpToEach(d, imageSize, |d.order|);
      Ok(CocoDoc(ImagesUpTo(d, imageSize, |d.order|), Categories, AnnotationsUpTo(d, |d.order|)))
  }

  // ----- The first short box -----------------------------------------------

  /** No box is short exactly when every box has at least four numbers. */
  lemma {:induction false} ShortBoxNone(boxes: seq<Box>)
    ensures ShortBox(boxes).None? <==> LongBoxes(boxes)
  {
    if boxes != [] {
      ShortBoxNone(boxes[1..]);
      assert forall j :: 1 <= j < |boxes| ==> boxes[1..][j - 1] == boxes[j];
    }
  }

  /** The short box reported is the first one in list order. */
  lemma {:induction false} ShortBoxFirst(boxes: seq<Box>, k: nat)
    requires k < |boxes| && |boxes[k]| < 4 && LongPrefix(boxes, k)
    ensures ShortBox(boxes) == Some(boxes[k])
  {
    if k > 0 {
      assert boxes[1..][k - 1] == boxes[k];
      assert forall j :: 0 <= j < k - 1 ==> boxes[1..][j] == boxes[j + 1];
      ShortBoxFirst(boxes[1..], k - 1);
    }
  }

  // ----- Which exception -----------------------------------------------------

  /** The first `n` images convert without exception exactly when each
      picture opens and each box is long enough. */
  lemma {:induction false} FirstFailureNone(d: AnnDict, imageSize: string -> Option<Dims>, n: nat)
    requires OrderKeyed(d) && n <= |d.order|
    ensures FirstFailure(d, imageSize, n).None? <==> AllOpen(d, imageSize, n) && AllLong(d, n)
  {
    if n > 0 {
      FirstFailureNone(d, imageSize, n - 1);
      ShortBoxNone(BoxesAt(d, n - 1));
    }
  }

  /** The exception raised is the one of the first image that does not
      convert: the images before it convert, the ones after it are never
      looked at. */
  lemma {:induction false} FirstFailureAt(d: AnnDict, imageSize: string -> Option<Dims>, i: nat, n: nat)
    requires OrderKeyed(d) && i < n <= |d.order|
    requires AllOpen(d, imageSize, i) && AllLong(d, i)
    requires !Convertible(d, imageSize, i)
    ensures FirstFailure(d, imageSize, n) == Some(ErrorAt(d, imageSize, i))
    decreases n
  {
    if n == i + 1 {
      FirstFailureNone(d, imageSize, i);
      ShortBoxNone(BoxesAt(d, i));
    } else {
      FirstFailureAt(d, imageSize, i, n - 1);
    }
  }

  // ----- The records -----------------------------------------------------------

  /** Image ids are dense and follow key order, and each image record holds
      its key and its picture's size. */
  lemma {:induction false} ImagesUpToEach(d: AnnDict, imageSize: string -> Option<Dims>, n: nat)
    requires OrderKeyed(d) && n <= |d.order| && AllOpen(d, imageSize, n)
    ensures |ImagesUpTo(d, imageSize, n)| == n
    ensures forall i :: 0 <= i < n ==>
              ImagesUpTo(d, imageSize, n)[i] == ImageOf(i, d.order[i], imageSize(d.order[i]).value)
  {
    if n > 0 {
      ImagesUpToEach(d, imageSize, n - 1);
    }
  }

  /** One annotation per box, in box order, numbered consecutively from
      `first`, each carrying the image id and its box's numbers. */
  lemma {:induction false} AnnotationsOfEach(imageId: nat, first: nat, boxes: seq<Box>, k: nat)
    requires k <= |boxes| && LongPrefix(boxes, k)
    ensures |AnnotationsOf(imageId, first, boxes, k)| == k
    ensures forall t :: 0 <= t < k ==> AnnotationsOf(imageId, first, boxes, k)[t] == AnnotationOf(first + t, imageId, boxes[t])
  {
    if k > 0 {
      AnnotationsOfEach(imageId, first, boxes, k - 1);
    }
  }

  /** There is one annotation per box: the total is the sum of the list lengths. */
  lemma {:induction false} AnnotationsUpToLength(d: AnnDict, n: nat)
    requires OrderKeyed(d) && n <= |d.order| && AllLong(d, n)
    ensures |AnnotationsUpTo(d, n)| == BoxesBefore(d, n)
  {
    if n > 0 {
      AnnotationsUpToLength(d, n - 1);
      var boxes := BoxesAt(d, n - 1);
      AnnotationsOfEach(n - 1, BoxesBefore(d, n - 1), boxes, |boxes|);
    }
  }

  /** The annotations of the first `m` images are the start of those of
      the first `n`: later images only append. */
  lemma {:induction false} AnnotationsUpToPrefix(d: AnnDict, m: nat, n: nat)
    requires OrderKeyed(d) && m <= n <= |d.order| && AllLong(d, n)
    ensures |AnnotationsUpTo(d, m)| <= |AnnotationsUpTo(d, n)|
    ensures forall j :: 0 <= j < |AnnotationsUpTo(d, m)| ==> AnnotationsUpTo(d, n)[j] == AnnotationsUpTo(d, m)[j]
    decreases n
  {
    if m < n {
      assert LongBoxes(BoxesAt(d, n - 1));
      AnnotationsUpToPrefix(d, m, n - 1);
      AnnotationsUpToStep(d, n - 1);
    }
  }

  /** The annotations of image `i` close the list of the first `i + 1`
      images, in box order. */
  lemma {:induction false} LastImageAnnotations(d: AnnDict, i: nat, k: nat)
    requires OrderKeyed(d) && i < |d.order| && AllLong(d, i + 1) && k < |BoxesAt(d, i)|
    ensures BoxesBefore(d, i) + k < |AnnotationsUpTo(d, i + 1)|
    ensures AnnotationsUpTo(d, i + 1)[BoxesBefore(d, i) + k] == AnnotationOf(BoxesBefore(d, i) + k, i, BoxesAt(d, i)[k])
  {
    var boxes := BoxesAt(d, i);
    var last := AnnotationsOf(i, BoxesBefore(d, i), boxes, |boxes|);
    assert AllLong(d, i) && LongBoxes(boxes);
    AnnotationsUpToStep(d, i);
    AnnotationsUpToLength(d, i);
    AnnotationsOfEach(i, BoxesBefore(d, i), boxes, |boxes|);
    assert last[k] == AnnotationOf(BoxesBefore(d, i) + k, i, boxes[k]);
  }

  /** The `k`-th box of the `i`-th image becomes annotation number
      `BoxesBefore(d, i) + k`, which links to image `i` and holds that
      box's numbers. */
  lemma {:induction false} AnnotationPlacement(d: AnnDict, n: nat, i: nat, k: nat)
    requires OrderKeyed(d) && n <= |d.order| && AllLong(d, n)
    requires i < n && k < |BoxesAt(d, i)|
    ensures BoxesBefore(d, i) + k < |AnnotationsUpTo(d, n)|
    ensures AnnotationsUpTo(d, n)[BoxesBefore(d, i) + k] == AnnotationOf(BoxesBefore(d, i) + k, i, BoxesAt(d, i)[k])
  {
    LastImageAnnotations(d, i, k);
    AnnotationsUpToPrefix(d, i + 1, n);
  }

  /** `BoxesBefore` never decreases along the keys. */
  lemma {:induction false} BoxesBeforeGrows(d: AnnDict, m: nat, n: nat)
    requires OrderKeyed(d) && m <= n <= |d.order|
    ensures BoxesBefore(d, m) <= BoxesBefore(d, n)
    decreases n
  {
    if m < n {
      BoxesBeforeGrows(d, m, n - 1);
    }
  }

  /** Annotation ids are dense (`id` is the position in the list), every
      annotation names an image before the `n`-th, and every annotation is
      a face annotation. */
  lemma {:induction false} AnnotationsUpToEach(d: AnnDict, n: nat)
    requires OrderKeyed(d) && n <= |d.order| && AllLong(d, n)
    ensures forall j :: 0 <= j < |AnnotationsUpTo(d, n)| ==>
              var a := AnnotationsUpTo(d, n)[j];
              a.id == j && a.imageId < n && IsFaceAnnotation(a)
  {
    if n > 0 {
      var boxes := BoxesAt(d, n - 1);
      var prev := AnnotationsUpTo(d, n - 1);
      var last := AnnotationsOf(n - 1, BoxesBefore(d, n - 1), boxes, |boxes|);
      AnnotationsUpToEach(d, n - 1);
      AnnotationsUpToLength(d, n - 1);
      AnnotationsOfEach(n - 1, BoxesBefore(d, n - 1), boxes, |boxes|);
      var all: seq<AnnotationRecord> := AnnotationsUpTo(d, n);
      assert all == prev + last;
      forall j | 0 <= j < |all|
        ensures all[j].id == j && all[j].imageId < n && IsFaceAnnotation(all[j])
      {
        if j < |prev| {
          assert all[j] == prev[j];
        } else {
          assert all[j] == last[j - |prev|];
        }
      }
    }
  }

  /** When no box has more than four numbers (as the parser guarantees),
      the `bbox` of every annotation is its whole box. */
  lemma {:induction false} AnnotationsKeepWholeBoxes(d: AnnDict, n: nat)
    requires OrderKeyed(d) && n <= |d.order| && AllLong(d, n)
    requires forall i, j :: 0 <= i < n && 0 <= j < |BoxesAt(d, i)| ==> |BoxesAt(d, i)[j]| <= 4
    ensures forall j :: 0 <= j < |AnnotationsUpTo(d, n)| ==> AnnotationsUpTo(d, n)[j].bbox == AnnotationsUpTo(d, n)[j].boxes
  {
    if n > 0 {
      var boxes := BoxesAt(d, n - 1);
      var prev := AnnotationsUpTo(d, n - 1);
      var last := AnnotationsOf(n - 1, BoxesBefore(d, n - 1), boxes, |boxes|);
      AnnotationsKeepWholeBoxes(d, n - 1);
      AnnotationsOfEach(n - 1, BoxesBefore(d, n - 1), boxes, |boxes|);
      var all: seq<AnnotationRecord> := AnnotationsUpTo(d, n);
      assert all == prev + last;
      forall j | 0 <= j < |all|
        ensures all[j].bbox == all[j].boxes
      {
        if j < |prev| {
          assert all[j] == prev[j];
        } else {
          var t := j - |prev|;
          assert all[j] == last[t] == AnnotationOf(BoxesBefore(d, n - 1) + t, n - 1, boxes[t]);
          assert |boxes[t]| == 4;
          assert boxes[t][..4] == boxes[t];
        }
      }
    }
  }

  /** The whole document: it is produced exactly when every image converts;
      then the category list is the single face category, there is one
      image per key and one annotation per box. */
  lemma {:induction false} ConvertDocument(d: AnnDict, imageSize: string -> Option<Dims>)
    requires OrderKeyed(d)
    ensures Convert(d, imageSize).Ok? <==> forall i :: 0 <= i < |d.order| ==> Convertible(d, imageSize, i)
    ensures Convert(d, imageSize).Ok? ==>
              var doc := Convert(d, imageSize).value;
              && doc.categories == [Category(1, "face", "face")]
              && |doc.images| == |d.order|
              && |doc.annotations| == TotalBoxes(d)
  {
    FirstFailureNone(d, imageSize, |d.order|);
    if AllOpen(d, imageSize, |d.order|) && AllLong(d, |d.order|) {
      forall i | 0 <= i < |d.order|
        ensures Convertible(d, imageSize, i)
      {
        assert imageSize(d.order[i]).Some? && LongBoxes(BoxesAt(d, i));
      }
    } else if forall i :: 0 <= i < |d.order| ==> Convertible(d, imageSize, i) {
      forall i | 0 <= i < |d.order|
        ensures imageSize(d.order[i]).Some? && LongBoxes(BoxesAt(d, i))
      {
        assert Convertible(d, imageSize, i);
      }
      assert false;
    }
    if Convert(d, imageSize).Ok? {
      ImagesUpToEach(d, imageSize, |d.order|);
      AnnotationsUpToLength(d, |d.order|);
    }
  }

  // ----- One more image, one more box --------------------------------------

  /** Converting one more image adds its record at the end of the images. */
  lemma {:induction false} ImagesUpToStep(d: AnnDict, imageSize: string -> Option<Dims>, i: nat)
    requires OrderKeyed(d) && i < |d.order| && AllOpen(d, imageSize, i) && imageSize(d.order[i]).Some?
    ensures AllOpen(d, imageSize, i + 1)
    ensures ImagesUpTo(d, imageSize, i + 1) == ImagesUpTo(d, imageSize, i) + [ImageOf(i, d.order[i], imageSize(d.order[i]).value)]
  {
  }

  /** Converting one more image adds its boxes' annotations at the end, and
      the next image's first annotation id moves past them. */
  lemma {:induction false} AnnotationsUpToStep(d: AnnDict, i: nat)
    requires OrderKeyed(d) && i < |d.order| && AllLong(d, i) && LongBoxes(BoxesAt(d, i))
    ensures AllLong(d, i + 1)
    ensures BoxesBefore(d, i + 1) == BoxesBefore(d, i) + |BoxesAt(d, i)|
    ensures AnnotationsUpTo(d, i + 1)
         == AnnotationsUpTo(d, i) + AnnotationsOf(i, BoxesBefore(d, i), BoxesAt(d, i), |BoxesAt(d, i)|)
  {
  }

  /** Converting one more box adds its annotation at the end. */
  lemma {:induction false} AnnotationsOfStep(imageId: nat, first: nat, boxes: seq<Box>, k: nat)
    requires k < |boxes| && LongPrefix(boxes, k) && |boxes[k]| >= 4
    ensures LongPrefix(boxes, k + 1)
    ensures AnnotationsOf(imageId, first, boxes, k + 1)
         == AnnotationsOf(imageId, first, boxes, k) + [AnnotationOf(first + k, imageId, boxes[k])]
  {
  }

  // ----- The loop ------------------------------------------------------------

  /** The inner loop of `wider_to_coco_json` ("add annotations"): one
      annotation per box of the image `imageId`, numbered on from `annId`
      and appended to `annotations`. It stops at the first box too short for
      `bbox[2] * bbox[3]`, which it returns. */
  method AddAnnotations(imageId: nat, boxes: seq<Box>, annId: nat, annotations: seq<AnnotationRecord>)
    returns (short: Option<Box>, nextId: nat, result: seq<AnnotationRecord>)
    ensures short == ShortBox(boxes)
    ensures short.None? ==> LongBoxes(boxes)
    ensures short.None? ==> nextId == annId + |boxes|
    ensures short.None? ==> result == annotations + AnnotationsOf(imageId, annId, boxes, |boxes|)
  {
    nextId := annId;
    result := annotations;
    for k := 0 to |boxes|
      invariant LongPrefix(boxes, k)
      invariant nextId == annId + k
      invariant result == annotations + AnnotationsOf(imageId, annId, boxes, k)
    {
      var bbox := boxes[k];
      if |bbox| < 4 {
        ShortBoxFirst(boxes, k);
        return Some(bbox), nextId, result;
      }
      var ann := AnnotationOf(nextId, imageId, bbox);
      AnnotationsOfStep(imageId, annId, boxes, k);
      nextId := nextId + 1;
      result := result + [ann];
    }
    ShortBoxNone(boxes);
    short := None;
  }

  /** The conversion loop of `wider_to_coco_json`: for each key, in order, an
      image record numbered by `img_id`, then for each of its boxes an
      annotation numbered by `ann_id`. */
  method WiderToCoco(d: AnnDict, imageSize: string -> Option<Dims>) returns (r: Result<CocoDoc, AssembleError>)
    requires OrderKeyed(d)
    ensures r == Convert(d, imageSize)
  {
    var imgId := 0;
    var annId := 0;
    var images: seq<ImageRecord> := [];
    var annotations: seq<AnnotationRecord> := [];
    for i := 0 to |d.order|
      invariant AllOpen(d, imageSize, i) && AllLong(d, i)
      invariant imgId == i && annId == BoxesBefore(d, i)
      invariant images == ImagesUpTo(d, imageSize, i)
      invariant annotations == AnnotationsUpTo(d, i)
    {
      var imgName := d.order[i];
      var size := imageSize(imgName);
      if size.None? {
        FirstFailureAt(d, imageSize, i, |d.order|);
        return Err(ImageUnreadable(imgName));
      }
      var image := ImageOf(imgId, imgName, size.value);
      imgId := imgId + 1;
      ImagesUpToStep(d, imageSize, i);
      images := images + [image];

      var short;
      short, annId, annotations := AddAnnotations(image.id, d.entries[imgName], annId, annotations);
      if short.Some? {
        ShortBoxNone(BoxesAt(d, i));
        FirstFailureAt(d, imageSize, i, |d.order|);
        return Err(BoxTooShort(imgName, short.value));
      }
      AnnotationsUpToStep(d, i);
    }
    FirstFailureNone(d, imageSize, |d.order|);
    r := Ok(CocoDoc(images, Categories, annotations));
  }
}

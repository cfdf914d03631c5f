/**
 * One split of `wider_to_coco_json`: parse the ground-truth text, then turn
 * the dict into the COCO document. The first exception raised, by either
 * half, ends the conversion.
 */
module WiderToCocoJson {
  import opened Wrappers
  import opened AnnDicts
  import opened WiderParser
  import opened WiderParserFacts
  import opened CocoAssembly

  /** Which half raised. */
  datatype ConvertError =
    | AnnotationFileError(parse: ParseError)
    | AssemblyError(assemble: AssembleError)

  /** The document written for one split, or the exception raised. A
      parsing exception ends the conversion before any record is built; an
      assembly exception comes only after a successful parse; a document
      has one image per parsed key. */
  function ConvertAnnotations(lines: seq<string>, toFloat: string -> Option<real>, imageSize: string -> Option<Dims>)
    : (r: Result<CocoDoc, ConvertError>)
    ensures Parse(lines, toFloat).Err? <==> r.Err? && r.error.AnnotationFileError?
    ensures r.Err? && r.error.AnnotationFileError? ==> r.error.parse == Parse(lines, toFloat).error
    ensures r.Ok? ==> Parse(lines, toFloat).Ok? && |r.value.images| == |Parse(lines, toFloat).value.order|
  {
    match Parse(lines, toFloat)
    case Err(e) => Err(AnnotationFileError(e))
    case Ok(d) =>
      ParseResultWellFormed(lines, toFloat);
      ValidOrderKeyed(d);
      match Convert(d, imageSize)
      case Err(e) => Err(AssemblyError(e))
      case Ok(doc) => Ok(doc)
  }

  /** The body of the split loop: `parse_wider_annots`, then the loop over
      its keys. */
  method ConvertSplit(lines: seq<string>, toFloat: string -> Option<real>, imageSize: string -> Option<Dims>)
    returns (r: Result<CocoDoc, ConvertError>)
    ensures r == ConvertAnnotations(lines, toFloat, imageSize)
  {
    var parsed := ParseWiderAnnots(lines, toFloat);
    if parsed.Err? {
      return Err(AnnotationFileError(parsed.error));
    }
    var d := parsed.value;
    ParseResultWellFormed(lines, toFloat);
    ValidOrderKeyed(d);
    var converted := WiderToCoco(d, imageSize);
    if converted.Err? {
      return Err(AssemblyError(converted.error));
    }
    r := Ok(converted.value);
  }

  /** What a written document holds: the face category; one image per
      parsed key, in key order, named by a line the scan read as an image
      name and numbered densely; one annotation per box, numbered densely,
      pointing at an existing image, a face annotation whose `bbox` is the
      whole stored box. */
  lemma {:induction false} ConvertedDocument(lines: seq<string>, toFloat: string -> Option<real>, imageSize: string -> Option<Dims>)
    requires ConvertAnnotations(lines, toFloat, imageSize).Ok?
    ensures Parse(lines, toFloat).Ok?
    ensures var doc := ConvertAnnotations(lines, toFloat, imageSize).value;
            var d := Parse(lines, toFloat).value;
            && doc.categories == [Category(1, "face", "face")]
            && |doc.images| == |d.order|
            && (forall i :: 0 <= i < |doc.images| ==>
                  && doc.images[i].id == i
                  && doc.images[i].fileName == d.order[i]
                  && doc.images[i].fileName in ImageNameLines(Start, lines, toFloat))
            && (forall j :: 0 <= j < |doc.annotations| ==>
                  && doc.annotations[j].id == j
                  && doc.annotations[j].imageId < |doc.images|
                  && IsFaceAnnotation(doc.annotations[j])
                  && doc.annotations[j].bbox == doc.annotations[j].boxes)
  {
    var d := Parse(lines, toFloat).value;
    ParseResultWellFormed(lines, toFloat);
    ValidOrderKeyed(d);
    KeysAreImageLines(lines, toFloat);
    FirstFailureNone(d, imageSize, |d.order|);
    ImagesUpToEach(d, imageSize, |d.order|);
    AnnotationsUpToEach(d, |d.order|);
    forall i, j | 0 <= i < |d.order| && 0 <= j < |BoxesAt(d, i)|
      ensures |BoxesAt(d, i)[j]| <= 4
    {
      assert d.order[i] in d.entries;
    }
    AnnotationsKeepWholeBoxes(d, |d.order|);
  }
}

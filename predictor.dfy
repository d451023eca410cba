/**
 * shape_predictor (src/predictor.py): the label decision made after OpenCV
 * has found the outer contours of the thresholded image and approximated
 * each by a polygon. A contour enters the model only as the vertex count of
 * its approximated polygon; the contour sequence keeps OpenCV's order.
 */
module Predictor {
  import opened PyDict

  const ShapeNotFound := "shape not found"
  const Unknown := "unknown"
  const Triangle := "triangle"
  const Rectangle := "rectangle"
  const Pentagon := "pentagon"
  const Hexagon := "hexagon"
  const Circle := "circle"

  /** Every string shape_predictor can return. */
  const Labels: set<string> := {ShapeNotFound, Unknown, Triangle, Rectangle, Pentagon, Hexagon, Circle}

  /** The exception a call can raise: KeyError from the `[True]` lookup. */
  datatype Error = KeyError(key: bool)

  datatype Result<T> = Ok(value: T) | Err(error: Error)

  /** The entries of the dict display, predicate keys in source order. */
  function Entries(numVertices: nat): (es: seq<(bool, string)>)
    ensures |es| == 6
    ensures forall i :: 0 <= i < |es| ==> es[i].1 in Labels && es[i].1 != ShapeNotFound
    ensures forall i, j :: 0 <= i < j < |es| ==> es[i].1 != es[j].1
  {
    [ (numVertices < 3, Unknown),
      (numVertices == 3, Triangle),
      (numVertices == 4, Rectangle),
      (numVertices == 5, Pentagon),
      (numVertices == 6, Hexagon),
      (numVertices > 6, Circle) ]
  }

  /** `{...}[True]` as the source evaluates it. */
  function DictDispatch(numVertices: nat): (r: Result<string>)
    ensures r.Ok? <==> true in Display(Entries(numVertices))
    ensures r.Err? ==> r.error == KeyError(true)
  {
    match GetItem(Display(Entries(numVertices)), true)
    case Some(name) => Ok(name)
    case None => Err(KeyError(true))
  }

  /** The reference classifier: an ordered if/else-if chain over the same partition. */
  function Classify(numVertices: nat): (name: string)
    ensures name in Labels && name != ShapeNotFound
  {
    if numVertices < 3 then Unknown
    else if numVertices == 3 then Triangle
    else if numVertices == 4 then Rectangle
    else if numVertices == 5 then Pentagon
    else if numVertices == 6 then Hexagon
    else Circle
  }

  /**
   * shape_predictor with the OpenCV pipeline abstracted away: `contours`
   * holds the approximated vertex count of each contour findContours returned.
   */
  function ShapePredictor(contours: seq<nat>): (r: Result<string>)
    ensures r.Ok?
    ensures r.value in Labels
    ensures r.value == ShapeNotFound <==> |contours| == 0
    ensures |contours| > 0 ==> r.value == Classify(contours[0])
  {
    if |contours| > 0 then
      DispatchIsClassify(contours[0]);
      DictDispatch(contours[0])
    else
      Ok(ShapeNotFound)
  }

  /** For every vertex count exactly one of the six predicate keys is true. */
  lemma ExactlyOneKeyTrue(numVertices: nat)
    ensures exists i :: 0 <= i < |Entries(numVertices)| && Entries(numVertices)[i].0
    ensures forall i, j :: 0 <= i < j < |Entries(numVertices)| && Entries(numVertices)[i].0 ==> !Entries(numVertices)[j].0
  {
    var i := TrueIndex(numVertices);
    assert Entries(numVertices)[i].0;
  }

  /** The position of the one true key; a proof device for the lemmas below. */
  ghost function TrueIndex(numVertices: nat): (i: nat)
    ensures i < |Entries(numVertices)| && Entries(numVertices)[i].0
    ensures forall j :: 0 <= j < |Entries(numVertices)| && j != i ==> !Entries(numVertices)[j].0
  {
    if numVertices < 3 then 0 else if numVertices <= 6 then numVertices - 2 else 5
  }

  /** The dict built by the display always has the key `True`, so `[True]` never raises. */
  lemma TrueKeyPresent(numVertices: nat)
    ensures true in Display(Entries(numVertices))
    ensures DictDispatch(numVertices).Ok?
  {
    UniqueKeyGetItem(Entries(numVertices), true, TrueIndex(numVertices));
  }

  /** The dict-of-predicates dispatch agrees with the ordered if/else chain on every vertex count. */
  lemma DispatchIsClassify(numVertices: nat)
    ensures DictDispatch(numVertices) == Ok(Classify(numVertices))
  {
    var es := Entries(numVertices);
    var i := TrueIndex(numVertices);
    UniqueKeyGetItem(es, true, i);
    assert es[i].1 == Classify(numVertices);
  }

  /** Each label is produced by exactly the vertex counts of its band. */
  lemma ClassifyBands(numVertices: nat)
    ensures Classify(numVertices) == Unknown <==> numVertices < 3
    ensures Classify(numVertices) == Triangle <==> numVertices == 3
    ensures Classify(numVertices) == Rectangle <==> numVertices == 4
    ensures Classify(numVertices) == Pentagon <==> numVertices == 5
    ensures Classify(numVertices) == Hexagon <==> numVertices == 6
    ensures Classify(numVertices) == Circle <==> numVertices > 6
  {
  }

  /** Only the first contour decides the label; the others are never looked at. */
  lemma FirstContourDecides(contours: seq<nat>, others: seq<nat>)
    requires |contours| > 0
    ensures ShapePredictor(contours + others) == ShapePredictor([contours[0]])
  {
  }

  /** The expectations of the unit test on the rectangle, circle and blank images. */
  lemma UnitTestLabels(rest: seq<nat>)
    ensures ShapePredictor([]) == Ok(ShapeNotFound)
    ensures ShapePredictor([4] + rest) == Ok(Rectangle)
    ensures forall v: nat :: v > 6 ==> ShapePredictor([v] + rest) == Ok(Circle)
  {
  }
}

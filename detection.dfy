/**
 * The detector adapter (detection.py). Decoding the image and running the
 * YOLO model are abstract: their outcome is given as an `InferenceOutcome`.
 * What is modelled is the loop that flattens the per-result box lists into
 * one ordered list of detections, looking each class name up in the model's
 * `names` table.
 */
module Detection {
  import opened Outcomes

  /**
   * One box of an inference result: the class index as the model reports it
   * (a float), its confidence and its corner coordinates. Confidence and
   * coordinates are carried through unchanged and never inspected.
   */
  datatype Box = Box(cls: real, conf: real, xyxy: seq<seq<real>>)

  /** One element of the model's output: the boxes it found, in order. */
  datatype InferenceResult = InferenceResult(boxes: seq<Box>)

  /**
   * What decoding the image, loading the model and running inference give:
   * the model's class-name table and its results, or the text of the
   * exception one of those steps raised.
   */
  datatype InferenceOutcome =
    | Inferred(names: map<int, string>, results: seq<InferenceResult>)
    | InferenceFailed(message: string)

  /** One entry of the returned list: `{"class", "confidence", "bbox"}`. */
  datatype Detection = Detection(cls: string, confidence: real, bbox: seq<seq<real>>)

  /** Why `detect_objects` raised: inference failed, or a class index is not a key of `names`. */
  datatype DetectError = InferenceError(message: string) | UnknownClass(index: int)

  /** Python's `int(x)` on a float: truncation toward zero. */
  function Truncate(x: real): (n: int)
    ensures 0.0 <= x ==> 0 <= n && n as real <= x < n as real + 1.0
    ensures x < 0.0 ==> n <= 0 && n as real - 1.0 < x <= n as real
  {
    if 0.0 <= x then x.Floor else -((-x).Floor)
  }

  /** The key used for the class-name lookup of a box. */
  function ClassIndex(box: Box): int {
    Truncate(box.cls)
  }

  /** The entry appended for one box, or the KeyError of `names[int(box.cls)]`. */
  function Entry(names: map<int, string>, box: Box): Result<Detection, DetectError> {
    var k := ClassIndex(box);
    if k in names then Success(Detection(names[k], box.conf, box.xyxy))
    else Failure(UnknownClass(k))
  }

  /** All boxes of all results, results in order and the boxes of each result in order. */
  function Flatten(results: seq<InferenceResult>): seq<Box> {
    if results == [] then []
    else Flatten(results[..|results| - 1]) + results[|results| - 1].boxes
  }

  /** The number of boxes over all results. */
  function TotalBoxes(results: seq<InferenceResult>): nat {
    if results == [] then 0 else |results[0].boxes| + TotalBoxes(results[1..])
  }

  /** The entries for a list of boxes, or the error of the first box whose lookup fails. */
  function Entries(names: map<int, string>, boxes: seq<Box>): Result<seq<Detection>, DetectError> {
    if boxes == [] then Success([])
    else
      match Entries(names, boxes[..|boxes| - 1])
      case Failure(e) => Failure(e)
      case Success(ds) =>
        match Entry(names, boxes[|boxes| - 1])
        case Failure(e) => Failure(e)
        case Success(d) => Success(ds + [d])
  }

  /** What `detect_objects` returns or raises, given the outcome of inference. */
  function Detections(inference: InferenceOutcome): Result<seq<Detection>, DetectError> {
    match inference
    case InferenceFailed(m) => Failure(InferenceError(m))
    case Inferred(names, results) => Entries(names, Flatten(results))
  }

  /** The nested loop of detect_objects, appending to `detections` in place. */
  method DetectObjects(inference: InferenceOutcome) returns (r: Result<seq<Detection>, DetectError>)
    ensures r == Detections(inference)
  {
    if inference.InferenceFailed? {
      return Failure(InferenceError(inference.message));
    }
    var names, results := inference.names, inference.results;
    var detections: seq<Detection> := [];
    for i := 0 to |results|
      invariant Entries(names, Flatten(results[..i])) == Success(detections)
    {
      var boxes := results[i].boxes;
      ghost var before := Flatten(results[..i]);
      assert before + boxes[..0] == before;
      for j := 0 to |boxes|
        invariant Entries(names, before + boxes[..j]) == Success(detections)
      {
        var box := boxes[j];
        var k := ClassIndex(box);
        assert before + boxes[..j + 1] == (before + boxes[..j]) + [box];
        EntriesExtend(names, before + boxes[..j], box);
        if k !in names {
          FlattenSplit(results, i, j);
          EntriesFailureSticks(names, before + boxes[..j + 1], boxes[j + 1..] + Flatten(results[i + 1..]));
          return Failure(UnknownClass(k));
        }
        detections := detections + [Detection(names[k], box.conf, box.xyxy)];
      }
      assert boxes[..|boxes|] == boxes;
      FlattenStep(results, i);
    }
    assert results[..|results|] == results;
    r := Success(detections);
  }

  /** One more box: its entry is appended, or its lookup error becomes the result. */
  lemma EntriesExtend(names: map<int, string>, xs: seq<Box>, box: Box)
    requires Entries(names, xs).Success?
    ensures ClassIndex(box) in names ==>
      Entries(names, xs + [box]) == Success(Entries(names, xs).value + [Detection(names[ClassIndex(box)], box.conf, box.xyxy)])
    ensures ClassIndex(box) !in names ==> Entries(names, xs + [box]) == Failure(UnknownClass(ClassIndex(box)))
  {
    assert (xs + [box])[..|xs|] == xs;
  }

  /** One more result: its boxes follow those of the earlier results. */
  lemma FlattenStep(results: seq<InferenceResult>, i: nat)
    requires i < |results|
    ensures Flatten(results[..i + 1]) == Flatten(results[..i]) + results[i].boxes
  {
    assert results[..i + 1][..i] == results[..i];
  }

  /** Flattening distributes over concatenation of result lists. */
  lemma {:induction false} FlattenAppend(a: seq<InferenceResult>, b: seq<InferenceResult>)
    ensures Flatten(a + b) == Flatten(a) + Flatten(b)
    decreases |b|
  {
    if b == [] {
      assert a + b == a;
    } else {
      var b', last := b[..|b| - 1], b[|b| - 1].boxes;
      assert (a + b)[..|a + b| - 1] == a + b';
      assert (a + b)[|a + b| - 1].boxes == last;
      assert Flatten(a + b) == Flatten(a + b') + last;
      FlattenAppend(a, b');
      assert Flatten(b) == Flatten(b') + last;
      assert Flatten(a) + Flatten(b') + last == Flatten(a) + (Flatten(b') + last);
    }
  }

  /** The flattened list around box `j` of result `i`. */
  lemma FlattenSplit(results: seq<InferenceResult>, i: nat, j: nat)
    requires i < |results| && j < |results[i].boxes|
    ensures Flatten(results)
         == (Flatten(results[..i]) + results[i].boxes[..j + 1]) + (results[i].boxes[j + 1..] + Flatten(results[i + 1..]))
  {
    var boxes := results[i].boxes;
    assert results == results[..i + 1] + results[i + 1..];
    FlattenAppend(results[..i + 1], results[i + 1..]);
    assert results[..i + 1][..i] == results[..i];
    assert boxes == boxes[..j + 1] + boxes[j + 1..];
  }

  /** Once the lookup of some box has failed, later boxes do not matter. */
  lemma {:induction false} EntriesFailureSticks(names: map<int, string>, xs: seq<Box>, ys: seq<Box>)
    requires Entries(names, xs).Failure?
    ensures Entries(names, xs + ys) == Entries(names, xs)
    decreases |ys|
  {
    if ys == [] {
      assert xs + ys == xs;
    } else {
      var ys' := ys[..|ys| - 1];
      assert (xs + ys)[..|xs + ys| - 1] == xs + ys';
      EntriesFailureSticks(names, xs, ys');
    }
  }

  /** The output has one entry per box over all results. */
  lemma {:induction false} FlattenLength(results: seq<InferenceResult>)
    ensures |Flatten(results)| == TotalBoxes(results)
    decreases |results|
  {
    if results != [] {
      assert results == [results[0]] + results[1..];
      FlattenAppend([results[0]], results[1..]);
      assert [results[0]][..0] == [];
      FlattenLength(results[1..]);
    }
  }

  /** Box `j` of result `i` sits after every box of the earlier results: order is preserved. */
  lemma FlattenIndex(results: seq<InferenceResult>, i: nat, j: nat)
    requires i < |results| && j < |results[i].boxes|
    ensures TotalBoxes(results[..i]) + j < |Flatten(results)|
    ensures Flatten(results)[TotalBoxes(results[..i]) + j] == results[i].boxes[j]
  {
    FlattenSplit(results, i, j);
    FlattenLength(results[..i]);
  }

  /** The lookups succeed exactly when every box's class index is a key of `names`, and then entry `k` comes from box `k`. */
  lemma {:induction false} EntriesSuccess(names: map<int, string>, boxes: seq<Box>)
    ensures Entries(names, boxes).Success? <==> forall k :: 0 <= k < |boxes| ==> ClassIndex(boxes[k]) in names
    ensures Entries(names, boxes).Success? ==>
      var ds := Entries(names, boxes).value;
      |ds| == |boxes| &&
      forall k :: 0 <= k < |boxes| ==> ds[k] == Detection(names[ClassIndex(boxes[k])], boxes[k].conf, boxes[k].xyxy)
    decreases |boxes|
  {
    if boxes != [] {
      var init := boxes[..|boxes| - 1];
      EntriesSuccess(names, init);
      assert forall k :: 0 <= k < |init| ==> init[k] == boxes[k];
    }
  }

  /** On failure the error names the class index of the first box whose lookup fails. */
  lemma {:induction false} EntriesFailure(names: map<int, string>, boxes: seq<Box>)
    requires Entries(names, boxes).Failure?
    ensures exists k :: (0 <= k < |boxes| && ClassIndex(boxes[k]) !in names
      && Entries(names, boxes).error == UnknownClass(ClassIndex(boxes[k]))
      && forall j :: 0 <= j < k ==> ClassIndex(boxes[j]) in names)
    decreases |boxes|
  {
    var init := boxes[..|boxes| - 1];
    var last := |boxes| - 1;
    assert forall k :: 0 <= k < |init| ==> init[k] == boxes[k];
    if Entries(names, init).Failure? {
      EntriesFailure(names, init);
    } else {
      EntriesSuccess(names, init);
      assert ClassIndex(boxes[last]) !in names;
    }
  }

  /** When inference and every lookup succeed, the output has one entry per box over all results. */
  lemma DetectionsLength(names: map<int, string>, results: seq<InferenceResult>)
    requires Detections(Inferred(names, results)).Success?
    ensures |Detections(Inferred(names, results)).value| == TotalBoxes(results)
  {
    EntriesSuccess(names, Flatten(results));
    FlattenLength(results);
  }

  /**
   * When inference succeeds and every lookup succeeds, the output has one
   * entry per box, and box `j` of result `i` becomes the entry at position
   * `TotalBoxes(results[..i]) + j`, with the class name `names[int(cls)]`.
   */
  lemma DetectionsCorrect(names: map<int, string>, results: seq<InferenceResult>, i: nat, j: nat)
    requires Detections(Inferred(names, results)).Success?
    requires i < |results| && j < |results[i].boxes|
    ensures |Detections(Inferred(names, results)).value| == TotalBoxes(results)
    ensures TotalBoxes(results[..i]) + j < TotalBoxes(results)
    ensures ClassIndex(results[i].boxes[j]) in names
    ensures
      var box := results[i].boxes[j];
      Detections(Inferred(names, results)).value[TotalBoxes(results[..i]) + j]
        == Detection(names[ClassIndex(box)], box.conf, box.xyxy)
  {
    EntriesSuccess(names, Flatten(results));
    FlattenLength(results);
    FlattenIndex(results, i, j);
  }

  /** No results, or only results without boxes, give an empty list. */
  lemma {:induction false} NoBoxesNoDetections(names: map<int, string>, results: seq<InferenceResult>)
    requires forall i :: 0 <= i < |results| ==> results[i].boxes == []
    ensures Detections(Inferred(names, results)) == Success([])
    decreases |results|
  {
    if results != [] {
      var init := results[..|results| - 1];
      NoBoxesNoDetections(names, init);
    }
  }

  /** The first entry, when there is one, comes from the first box of the first non-empty result. */
  lemma FirstDetection(names: map<int, string>, results: seq<InferenceResult>, i: nat)
    requires Detections(Inferred(names, results)).Success?
    requires i < |results| && results[i].boxes != []
    requires forall k :: 0 <= k < i ==> results[k].boxes == []
    ensures |Detections(Inferred(names, results)).value| > 0
    ensures ClassIndex(results[i].boxes[0]) in names
    ensures
      var box := results[i].boxes[0];
      Detections(Inferred(names, results)).value[0] == Detection(names[ClassIndex(box)], box.conf, box.xyxy)
  {
    NoBoxesNoTotal(results[..i]);
    DetectionsCorrect(names, results, i, 0);
  }

  /** Results without boxes contribute nothing to the count. */
  lemma {:induction false} NoBoxesNoTotal(results: seq<InferenceResult>)
    requires forall k :: 0 <= k < |results| ==> results[k].boxes == []
    ensures TotalBoxes(results) == 0
    decreases |results|
  {
    if results != [] {
      NoBoxesNoTotal(results[1..]);
    }
  }
}

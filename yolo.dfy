/**
 * Post-processing of the object detector (yolo_detector.py).
 *
 * The network's raw output rows are filtered by their best class score,
 * non-maximum suppression (a collaborator) picks the surviving indices, and
 * the survivors become labelled detections. Two classifications are made
 * from a detection list: malpractice objects and multiple persons.
 */
module ObjectDetection {

  const ConfidenceThreshold: real := 0.5
  /** Passed to non-maximum suppression, which is not part of this model. */
  const NmsThreshold: real := 0.4
  const MalpracticeLabels: set<string> := {"cell phone", "book"}
  const PersonLabel: string := "person"

  /** A box in pixels: top-left corner, width and height. */
  datatype Box = Box(x: int, y: int, w: int, h: int)
  /** One raw output row of the network: its box and its per-class scores. */
  datatype Candidate = Candidate(box: Box, scores: seq<real>)
  datatype Detection = Detection(className: string, box: Box, confidence: real)

  /** What non-maximum suppression returns: an empty tuple, or an index array. */
  datatype NmsResult = EmptyTuple | Indices(indices: seq<int>)

  /** `np.argmax`: the first index of a largest score. */
  function ArgMax(s: seq<real>): (k: nat)
    requires |s| > 0
    ensures k < |s|
    ensures forall j :: 0 <= j < |s| ==> s[j] <= s[k]
    ensures forall j :: 0 <= j < k ==> s[j] < s[k]
  {
    if |s| == 1 then 0
    else
      var k := ArgMax(s[..|s| - 1]);
      if s[|s| - 1] > s[k] then |s| - 1 else k
  }

  /** Every row has a score for each class and no more. */
  predicate WellFormed(cs: seq<Candidate>, classes: seq<string>) {
    forall c :: c in cs ==> 0 < |c.scores| <= |classes|
  }

  /** `confidence > self.confidence_threshold`: strict. */
  predicate Passes(c: Candidate)
    requires |c.scores| > 0
  {
    c.scores[ArgMax(c.scores)] > ConfidenceThreshold
  }

  /** A kept row: its box, best score and best class, the three parallel lists of `detect`. */
  datatype Kept = Kept(box: Box, confidence: real, classId: nat)

  function Entry(c: Candidate): Kept
    requires |c.scores| > 0
  {
    Kept(c.box, c.scores[ArgMax(c.scores)], ArgMax(c.scores))
  }

  /** The rows of all output layers, in order. */
  function Flatten(outputs: seq<seq<Candidate>>): seq<Candidate> {
    if outputs == [] then []
    else Flatten(outputs[..|outputs| - 1]) + outputs[|outputs| - 1]
  }

  /** A row is in the flattened list exactly when some layer holds it. */
  lemma {:induction false} FlattenMembers(outputs: seq<seq<Candidate>>)
    ensures forall c :: c in Flatten(outputs) <==> exists o :: o in outputs && c in o
  {
    if outputs != [] {
      var init := outputs[..|outputs| - 1];
      FlattenMembers(init);
      assert outputs == init + [outputs[|outputs| - 1]];
    }
  }

  /** The rows that pass the confidence filter, in order. */
  function Keep(cs: seq<Candidate>, classes: seq<string>): (r: seq<Kept>)
    requires WellFormed(cs, classes)
    ensures |r| <= |cs|
  {
    if cs == [] then []
    else
      var last := cs[|cs| - 1];
      var prefix := Keep(cs[..|cs| - 1], classes);
      if Passes(last) then prefix + [Entry(last)] else prefix
  }

  /** `e` is the entry of some passing row of `cs`. */
  predicate FromPassingRow(cs: seq<Candidate>, e: Kept) {
    exists j :: 0 <= j < |cs| && |cs[j].scores| > 0 && Passes(cs[j]) && e == Entry(cs[j])
  }

  /** Every kept entry comes from a passing row, so its confidence clears the threshold and its class is named. */
  lemma {:induction false} KeepSound(cs: seq<Candidate>, classes: seq<string>)
    requires WellFormed(cs, classes)
    ensures forall k :: 0 <= k < |Keep(cs, classes)| ==>
      Keep(cs, classes)[k].confidence > ConfidenceThreshold && Keep(cs, classes)[k].classId < |classes|
    ensures forall k :: 0 <= k < |Keep(cs, classes)| ==> FromPassingRow(cs, Keep(cs, classes)[k])
  {
    if cs != [] {
      var init := cs[..|cs| - 1];
      KeepSound(init, classes);
      forall k | 0 <= k < |Keep(cs, classes)|
        ensures Keep(cs, classes)[k].confidence > ConfidenceThreshold && Keep(cs, classes)[k].classId < |classes|
        ensures FromPassingRow(cs, Keep(cs, classes)[k])
      {
        var r0 := Keep(init, classes);
        if k < |r0| {
          assert Keep(cs, classes)[k] == r0[k];
          assert FromPassingRow(init, r0[k]);
          var j :| 0 <= j < |init| && |init[j].scores| > 0 && Passes(init[j]) && r0[k] == Entry(init[j]);
          assert cs[j] == init[j];
        } else {
          assert cs[|cs| - 1] in cs;
          assert Keep(cs, classes)[k] == Entry(cs[|cs| - 1]);
          assert Passes(cs[|cs| - 1]);
        }
      }
    }
  }

  /** No passing row is dropped. */
  lemma {:induction false} KeepComplete(cs: seq<Candidate>, classes: seq<string>, j: nat)
    requires WellFormed(cs, classes) && j < |cs| && Passes(cs[j])
    ensures Entry(cs[j]) in Keep(cs, classes)
  {
    if j < |cs| - 1 {
      assert cs[..|cs| - 1][j] == cs[j];
      KeepComplete(cs[..|cs| - 1], classes, j);
    }
  }

  /** Keeping one more row appends its entry exactly when it passes. */
  lemma KeepSnoc(cs: seq<Candidate>, c: Candidate, classes: seq<string>)
    requires WellFormed(cs + [c], classes)
    ensures WellFormed(cs, classes)
    ensures Keep(cs + [c], classes) == Keep(cs, classes) + (if Passes(c) then [Entry(c)] else [])
  {
    assert (cs + [c])[..|cs|] == cs;
    assert forall x :: x in cs ==> x in cs + [c];
  }

  lemma WellFormedPrefix(cs: seq<Candidate>, n: nat, classes: seq<string>)
    requires n <= |cs| && WellFormed(cs, classes)
    ensures WellFormed(cs[..n], classes)
  {
    assert forall x :: x in cs[..n] ==> x in cs;
  }

  /** Rows of the first n output layers are rows of all of them. */
  lemma FlattenPrefixWellFormed(outputs: seq<seq<Candidate>>, n: nat, classes: seq<string>)
    requires n <= |outputs| && WellFormed(Flatten(outputs), classes)
    ensures WellFormed(Flatten(outputs[..n]), classes)
  {
    FlattenMembers(outputs);
    FlattenMembers(outputs[..n]);
    forall c | c in Flatten(outputs[..n])
      ensures 0 < |c.scores| <= |classes|
    {
      var layer :| layer in outputs[..n] && c in layer;
      assert layer in outputs;
    }
  }

  /** The three parallel lists of `detect` hold exactly the kept rows. */
  predicate Parallel(boxes: seq<Box>, confidences: seq<real>, classIds: seq<nat>, kept: seq<Kept>) {
    |boxes| == |kept| && |confidences| == |kept| && |classIds| == |kept| &&
    forall k :: 0 <= k < |kept| ==>
      boxes[k] == kept[k].box && confidences[k] == kept[k].confidence && classIds[k] == kept[k].classId
  }

  /**
   * The loops of `detect` up to non-maximum suppression: one entry in each of
   * `boxes`, `confidences` and `classIds` per passing row, in row order.
   */
  method CollectCandidates(outputs: seq<seq<Candidate>>, classes: seq<string>)
    returns (boxes: seq<Box>, confidences: seq<real>, classIds: seq<nat>)
    requires WellFormed(Flatten(outputs), classes)
    ensures Parallel(boxes, confidences, classIds, Keep(Flatten(outputs), classes))
  {
    boxes, confidences, classIds := [], [], [];
    var o := 0;
    while o < |outputs|
      invariant 0 <= o <= |outputs|
      invariant WellFormed(Flatten(outputs[..o]), classes)
      invariant Parallel(boxes, confidences, classIds, Keep(Flatten(outputs[..o]), classes))
    {
      var output := outputs[o];
      ghost var seen := Flatten(outputs[..o]);
      assert Flatten(outputs[..o + 1]) == seen + output by {
        assert outputs[..o + 1][..o] == outputs[..o];
      }
      FlattenPrefixWellFormed(outputs, o + 1, classes);
      boxes, confidences, classIds := CollectLayer(output, classes, boxes, confidences, classIds, seen);
      o := o + 1;
    }
    assert outputs[..|outputs|] == outputs;
  }

  /** The inner loop of `detect`: the passing rows of one output layer, appended after `seen`'s. */
  method CollectLayer(output: seq<Candidate>, classes: seq<string>,
                      boxes: seq<Box>, confidences: seq<real>, classIds: seq<nat>, ghost seen: seq<Candidate>)
    returns (boxes': seq<Box>, confidences': seq<real>, classIds': seq<nat>)
    requires WellFormed(seen + output, classes)
    requires Parallel(boxes, confidences, classIds, Keep(seen, classes))
    ensures Parallel(boxes', confidences', classIds', Keep(seen + output, classes))
  {
    boxes', confidences', classIds' := boxes, confidences, classIds;
    var j := 0;
    assert seen + output[..j] == seen;
    while j < |output|
      invariant 0 <= j <= |output|
      invariant WellFormed(seen + output[..j], classes)
      invariant Parallel(boxes', confidences', classIds', Keep(seen + output[..j], classes))
    {
      var detection := output[j];
      assert seen + output[..j + 1] == (seen + output[..j]) + [detection];
      assert (seen + output)[..|seen| + j + 1] == seen + output[..j + 1];
      WellFormedPrefix(seen + output, |seen| + j + 1, classes);
      KeepSnoc(seen + output[..j], detection, classes);
      var classId := ArgMax(detection.scores);
      var confidence := detection.scores[classId];
      if confidence > ConfidenceThreshold {
        boxes' := boxes' + [detection.box];
        confidences' := confidences' + [confidence];
        classIds' := classIds' + [classId];
      }
      j := j + 1;
    }
    assert output[..|output|] == output;
  }

  /** Every surviving index names a kept row whose class has a name. */
  predicate IndicesValid(indices: seq<int>, n: nat, classIds: seq<nat>, classes: seq<string>) {
    |classIds| == n &&
    forall k :: 0 <= k < |indices| ==> 0 <= indices[k] < n && classIds[indices[k]] < |classes|
  }

  /** The rest of `detect`: one detection per surviving index, in index order. */
  method AssembleDetections(nms: NmsResult, boxes: seq<Box>, confidences: seq<real>, classIds: seq<nat>,
                            classes: seq<string>) returns (detections: seq<Detection>)
    requires |boxes| == |confidences| == |classIds|
    requires nms.Indices? ==> IndicesValid(nms.indices, |boxes|, classIds, classes)
    ensures nms.EmptyTuple? || nms.indices == [] ==> detections == []
    ensures nms.Indices? ==> |detections| == |nms.indices|
    ensures nms.Indices? ==> forall k :: 0 <= k < |detections| ==>
      var i := nms.indices[k];
      detections[k] == Detection(classes[classIds[i]], boxes[i], confidences[i])
  {
    detections := [];
    if nms.EmptyTuple? || |nms.indices| == 0 {
      return;
    }
    var indices := nms.indices;
    var k := 0;
    while k < |indices|
      invariant 0 <= k <= |indices|
      invariant |detections| == k
      invariant forall m :: 0 <= m < k ==>
        detections[m] == Detection(classes[classIds[indices[m]]], boxes[indices[m]], confidences[indices[m]])
    {
      var i := indices[k];
      var name := classes[classIds[i]];
      detections := detections + [Detection(name, boxes[i], confidences[i])];
      k := k + 1;
    }
  }

  /**
   * `detect`: collect the passing rows, run non-maximum suppression on them
   * and label the survivors. `nms` stands for `cv2.dnn.NMSBoxes` at the
   * thresholds above.
   */
  method Detect(outputs: seq<seq<Candidate>>, classes: seq<string>, nms: (seq<Box>, seq<real>) -> NmsResult)
    returns (detections: seq<Detection>)
    requires WellFormed(Flatten(outputs), classes)
    requires var kept := Keep(Flatten(outputs), classes);
      var r := nms(seq(|kept|, k requires 0 <= k < |kept| => kept[k].box),
                   seq(|kept|, k requires 0 <= k < |kept| => kept[k].confidence));
      r.Indices? ==> forall k :: 0 <= k < |r.indices| ==> 0 <= r.indices[k] < |kept|
    ensures forall d :: d in detections ==> d.className in classes && d.confidence > ConfidenceThreshold
    // One detection per surviving index, in the order `nms` returns them, none when nothing survives.
    ensures var kept := Keep(Flatten(outputs), classes);
      var r := nms(seq(|kept|, k requires 0 <= k < |kept| => kept[k].box),
                   seq(|kept|, k requires 0 <= k < |kept| => kept[k].confidence));
      (r.EmptyTuple? || r.indices == [] ==> detections == []) &&
      (r.Indices? ==>
        |detections| == |r.indices| &&
        forall k :: 0 <= k < |detections| ==>
          kept[r.indices[k]].classId < |classes| &&
          detections[k] == Detection(classes[kept[r.indices[k]].classId], kept[r.indices[k]].box,
                                     kept[r.indices[k]].confidence))
  {
    var boxes, confidences, classIds := CollectCandidates(outputs, classes);
    ghost var kept := Keep(Flatten(outputs), classes);
    KeepSound(Flatten(outputs), classes);
    assert boxes == seq(|kept|, k requires 0 <= k < |kept| => kept[k].box);
    assert confidences == seq(|kept|, k requires 0 <= k < |kept| => kept[k].confidence);
    var indices := nms(boxes, confidences);
    detections := AssembleDetections(indices, boxes, confidences, classIds, classes);
  }

  predicate IsMalpractice(d: Detection) {
    d.className in MalpracticeLabels
  }

  /** `detect_malpractice_objects`: the detections labelled "cell phone" or "book". */
  function MalpracticeObjects(ds: seq<Detection>): (r: seq<Detection>)
    ensures forall d :: d in r ==> IsMalpractice(d)
    ensures forall d :: d in ds && IsMalpractice(d) ==> d in r
    ensures forall d :: multiset(r)[d] == (if IsMalpractice(d) then multiset(ds)[d] else 0)
  {
    if ds == [] then []
    else
      assert ds == [ds[0]] + ds[1..];
      (if IsMalpractice(ds[0]) then [ds[0]] else []) + MalpracticeObjects(ds[1..])
  }

  /** Filtering respects concatenation, so the original order is kept. */
  lemma {:induction false} MalpracticeObjectsAppend(a: seq<Detection>, b: seq<Detection>)
    ensures MalpracticeObjects(a + b) == MalpracticeObjects(a) + MalpracticeObjects(b)
  {
    if a == [] {
      assert a + b == b;
    } else {
      assert (a + b)[1..] == a[1..] + b;
      MalpracticeObjectsAppend(a[1..], b);
    }
  }

  /** `sum(1 for obj in detections if obj["label"] == "person")`. */
  function PersonCount(ds: seq<Detection>): (n: nat)
    ensures n <= |ds|
  {
    if ds == [] then 0 else (if ds[0].className == PersonLabel then 1 else 0) + PersonCount(ds[1..])
  }

  /** `detect_multiple_persons`. */
  predicate MultiplePersons(ds: seq<Detection>) {
    PersonCount(ds) > 1
  }

  lemma {:induction false} PersonCountPositive(ds: seq<Detection>, i: nat)
    requires i < |ds| && ds[i].className == PersonLabel
    ensures PersonCount(ds) >= 1
    ensures PersonCount(ds) == 1 ==> forall j :: 0 <= j < |ds| && j != i ==> ds[j].className != PersonLabel
  {
    if i > 0 {
      PersonCountPositive(ds[1..], i - 1);
    } else if PersonCount(ds) == 1 {
      PersonCountZero(ds[1..]);
    }
  }

  lemma {:induction false} PersonCountZero(ds: seq<Detection>)
    requires PersonCount(ds) == 0
    ensures forall j :: 0 <= j < |ds| ==> ds[j].className != PersonLabel
  {
    if ds != [] {
      PersonCountZero(ds[1..]);
    }
  }

  /** Multiple persons holds exactly when two different detections are labelled "person". */
  lemma {:induction false} MultiplePersonsIffTwo(ds: seq<Detection>)
    ensures MultiplePersons(ds) <==>
      exists i, j :: 0 <= i < j < |ds| && ds[i].className == PersonLabel && ds[j].className == PersonLabel
  {
    if ds != [] {
      MultiplePersonsIffTwo(ds[1..]);
      if ds[0].className == PersonLabel {
        if PersonCount(ds[1..]) >= 1 {
          var j := FindPerson(ds[1..]);
          assert ds[j + 1].className == PersonLabel;
        } else {
          PersonCountZero(ds[1..]);
        }
      }
      if exists i, j :: 0 <= i < j < |ds| && ds[i].className == PersonLabel && ds[j].className == PersonLabel {
        var i, j :| 0 <= i < j < |ds| && ds[i].className == PersonLabel && ds[j].className == PersonLabel;
        if i > 0 {
          assert ds[1..][i - 1].className == PersonLabel && ds[1..][j - 1].className == PersonLabel;
        } else {
          PersonCountPositive(ds[1..], j - 1);
        }
      }
    }
  }

  lemma {:induction false} FindPerson(ds: seq<Detection>) returns (j: nat)
    requires PersonCount(ds) >= 1
    ensures j < |ds| && ds[j].className == PersonLabel
  {
    if ds[0].className == PersonLabel {
      j := 0;
    } else {
      j := FindPerson(ds[1..]);
      j := j + 1;
    }
  }
}

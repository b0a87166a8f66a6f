/**
  The per-frame detection record of the adherence monitor (proto.py): the
  confidence and box of each target class, the jaw distance and whether lip
  landmarks were found.  Everything the protocol does with a confidence or a
  distance is a comparison, so they are `real`s and nothing is computed on them.
 */
module Detections {
  import opened Common

  /** TARGET_CLASSES, proto.py:57. */
  datatype Label = Pill | PillOnTongue | TongueNoPill | Hand

  /** A box as the detector reports it: centre, width and height in whole pixels. */
  datatype BBox = BBox(cx: int, cy: int, w: int, h: int)

  datatype Point = Point(x: int, y: int)

  /** The `(conf, bbox_info)` pair stored per class. */
  datatype Detection = Detection(conf: real, bbox: Option<BBox>)

  /**
    The `detections` dictionary.  `objects` holds the class entries; a key
    missing from the dictionary is a label missing from `objects`.
    `jawDistance` is the 'jaw_distance' entry (absent in some mock records)
    and `lipLandmarks` says whether 'lip_landmarks' is present and not None.
   */
  datatype Detections = Detections(objects: map<Label, Detection>, jawDistance: Option<real>, lipLandmarks: bool)

  const NO_DETECTION: Detection := Detection(0.0, None)

  /** The class name the detector reports for each label. */
  function LabelName(l: Label): string {
    match l
    case Pill => "pill"
    case PillOnTongue => "pill-on-tongue"
    case TongueNoPill => "tongue-no-pill"
    case Hand => "hand"
  }

  /** `label in TARGET_CLASSES`, and which one. */
  function LabelOf(name: string): (r: Option<Label>)
    ensures r.Some? ==> LabelName(r.value) == name
    ensures (exists l :: LabelName(l) == name) ==> r.Some?
  {
    if name == "pill" then Some(Pill)
    else if name == "pill-on-tongue" then Some(PillOnTongue)
    else if name == "tongue-no-pill" then Some(TongueNoPill)
    else if name == "hand" then Some(Hand)
    else None
  }

  /** The confidence of a class; a missing key reads as 0.0 (`detections.get(name, (0.0, None))`). */
  function Conf(d: Detections, l: Label): (r: real)
    ensures l !in d.objects ==> r == 0.0
    ensures l in d.objects ==> r == d.objects[l].conf
  {
    if l in d.objects then d.objects[l].conf else 0.0
  }

  /** The box of a class, or None. */
  function BoxOf(d: Detections, l: Label): (r: Option<BBox>)
    ensures l !in d.objects ==> r == None
  {
    if l in d.objects then d.objects[l].bbox else None
  }

  /** `detections.get('jaw_distance', 0.0)`. */
  function JawDistance(d: Detections): real {
    d.jawDistance.GetOr(0.0)
  }

  /** `_check_detection`: met when the confidence reaches the minimum (inclusive). */
  predicate CheckDetection(d: Detections, l: Label, minConf: real) {
    Conf(d, l) >= minConf
  }

  /** `_check_absence`: met when the confidence stays strictly below the maximum. */
  predicate CheckAbsence(d: Detections, l: Label, maxConf: real) {
    Conf(d, l) < maxConf
  }

  /** `_calculate_centroid`: None for no box, otherwise the box centre. */
  function Centroid(b: Option<BBox>): (r: Option<Point>)
    ensures r.Some? <==> b.Some?
    ensures b.Some? ==> r.value.x == b.value.cx && r.value.y == b.value.cy
  {
    match b
    case None => None
    case Some(BBox(cx, cy, _, _)) => Some(Point(cx, cy))
  }

  /** The dictionary `{cls: (0.0, None) for cls in TARGET_CLASSES}`. */
  function EmptyObjects(): map<Label, Detection> {
    map[Pill := NO_DETECTION, PillOnTongue := NO_DETECTION, TongueNoPill := NO_DETECTION, Hand := NO_DETECTION]
  }

  /** Every label has its default entry in EmptyObjects(). */
  lemma EmptyObjectsHasEveryLabel()
    ensures forall l :: l in EmptyObjects() && EmptyObjects()[l] == NO_DETECTION
  {
    forall l ensures l in EmptyObjects() && EmptyObjects()[l] == NO_DETECTION {
      match l
      case Pill =>
      case PillOnTongue =>
      case TongueNoPill =>
      case Hand =>
    }
  }

  /**
    `_get_mock_detections`, the detector's fallback: a fixed record per phase.
    It has no 'lip_landmarks' entry, and a 'jaw_distance' entry only in
    phases 2 (30) and 4 (5).
   */
  function MockDetections(phase: int): Detections {
    var jaw := if phase == 2 then Some(30.0) else if phase == 4 then Some(5.0) else None;
    var objects :=
      if phase == 1 then EmptyObjects()[Pill := Detection(0.95, Some(BBox(100, 100, 20, 20)))]
      else if phase == 2 || phase == 5 || phase == 6 then EmptyObjects()[TongueNoPill := Detection(0.9, Some(BBox(350, 450, 110, 55)))]
      else if phase == 3 then EmptyObjects()[PillOnTongue := Detection(0.9, Some(BBox(450, 500, 15, 15)))]
      else EmptyObjects();
    Detections(objects, jaw, false)
  }

  /** What the mock record shows in each phase, as the protocol's checks read it. */
  lemma MockDetectionsByPhase(phase: int)
    ensures !MockDetections(phase).lipLandmarks
    ensures forall l :: l in MockDetections(phase).objects
    ensures Conf(MockDetections(phase), Pill) == (if phase == 1 then 0.95 else 0.0)
    ensures Conf(MockDetections(phase), TongueNoPill) == (if phase in {2, 5, 6} then 0.9 else 0.0)
    ensures Conf(MockDetections(phase), PillOnTongue) == (if phase == 3 then 0.9 else 0.0)
    ensures Conf(MockDetections(phase), Hand) == 0.0
    ensures JawDistance(MockDetections(phase)) == (if phase == 2 then 30.0 else if phase == 4 then 5.0 else 0.0)
    ensures phase == 3 ==> BoxOf(MockDetections(phase), PillOnTongue).Some?
  {
    EmptyObjectsHasEveryLabel();
  }

  /** One detector box: its confidence, class index and corner coordinates (already whole pixels). */
  datatype Box = Box(conf: real, cls: nat, x1: int, y1: int, x2: int, y2: int)

  /** `class_names[cls] if cls < len(class_names) else None`, restricted to the target classes. */
  function BoxLabel(b: Box, names: seq<string>): Option<Label> {
    if b.cls < |names| then LabelOf(names[b.cls]) else None
  }

  /**
    A box converted from corners to centre form: `w, h = x2 - x1, y2 - y1`,
    `cx, cy = x1 + w // 2, y1 + h // 2`.  Python's `//` floors; Dafny's `/`
    is Euclidean, which is the same for the divisor 2.
   */
  function BoxInfo(b: Box): (r: BBox)
    ensures r.w == b.x2 - b.x1 && r.h == b.y2 - b.y1
    ensures 2 * (r.cx - b.x1) <= r.w < 2 * (r.cx - b.x1) + 2
    ensures 2 * (r.cy - b.y1) <= r.h < 2 * (r.cy - b.y1) + 2
  {
    var w := b.x2 - b.x1;
    var h := b.y2 - b.y1;
    BBox(b.x1 + w / 2, b.y1 + h / 2, w, h)
  }

  /** Box i is a candidate for label l: it has that label and a confidence above the 0.0 default. */
  predicate Candidate(boxes: seq<Box>, names: seq<string>, l: Label, i: int) {
    0 <= i < |boxes| && BoxLabel(boxes[i], names) == Some(l) && boxes[i].conf > 0.0
  }

  /**
    The entry a label gets from the first k boxes: the default when no box of
    that label beats 0.0; otherwise the first box among them with the highest
    confidence (a later box replaces the entry only when strictly stronger).
   */
  ghost predicate StrongestEntry(boxes: seq<Box>, names: seq<string>, k: int, l: Label, e: Detection)
    requires 0 <= k <= |boxes|
  {
    && (forall j :: 0 <= j < k && BoxLabel(boxes[j], names) == Some(l) ==> boxes[j].conf <= e.conf)
    && (e == NO_DETECTION ||
        exists i :: 0 <= i < k && Candidate(boxes, names, l, i) && e == Detection(boxes[i].conf, Some(BoxInfo(boxes[i])))
          && forall j :: 0 <= j < i && BoxLabel(boxes[j], names) == Some(l) ==> boxes[j].conf < boxes[i].conf)
  }

  /** The entry for label l after box b has been looked at (the body of the loop below). */
  function EntryAfter(e: Detection, b: Box, names: seq<string>, l: Label): Detection {
    if BoxLabel(b, names) == Some(l) && b.conf > e.conf then Detection(b.conf, Some(BoxInfo(b))) else e
  }

  /** An entry is the default or has a confidence above it. */
  predicate Stored(e: Detection) {
    e == NO_DETECTION || e.conf > 0.0
  }

  /** Looking at one more box keeps StrongestEntry. */
  lemma StrongestEntryStep(boxes: seq<Box>, names: seq<string>, k: int, l: Label, e: Detection)
    requires 0 <= k < |boxes|
    requires StrongestEntry(boxes, names, k, l, e) && Stored(e)
    ensures StrongestEntry(boxes, names, k + 1, l, EntryAfter(e, boxes[k], names, l))
    ensures Stored(EntryAfter(e, boxes[k], names, l))
  {
    var e' := EntryAfter(e, boxes[k], names, l);
    if e' != e {
      assert Candidate(boxes, names, l, k);
      assert forall j :: 0 <= j < k && BoxLabel(boxes[j], names) == Some(l) ==> boxes[j].conf < boxes[k].conf;
    } else if e != NO_DETECTION {
      var i :| 0 <= i < k && Candidate(boxes, names, l, i) && e == Detection(boxes[i].conf, Some(BoxInfo(boxes[i])))
        && forall j :: 0 <= j < i && BoxLabel(boxes[j], names) == Some(l) ==> boxes[j].conf < boxes[i].conf;
      assert 0 <= i < k + 1;
    }
  }

  /** With no candidate box, no entry other than the default can be the strongest. */
  lemma NoCandidateKeepsDefault(boxes: seq<Box>, names: seq<string>, l: Label, e: Detection)
    requires StrongestEntry(boxes, names, |boxes|, l, e)
    requires forall i :: !Candidate(boxes, names, l, i)
    ensures e == NO_DETECTION
  {
  }

  /**
    The loop of `_yolo_detect` over the detector's boxes (proto.py:141-146):
    for each box whose class is a target class, keep it when its confidence
    is strictly greater than the one stored so far.
   */
  method StrongestPerLabel(boxes: seq<Box>, names: seq<string>) returns (objects: map<Label, Detection>)
    ensures forall l :: l in objects
    ensures forall l :: StrongestEntry(boxes, names, |boxes|, l, objects[l])
    ensures forall l :: (forall i :: !Candidate(boxes, names, l, i)) ==> objects[l] == NO_DETECTION
  {
    objects := EmptyObjects();
    EmptyObjectsHasEveryLabel();
    var k := 0;
    while k < |boxes|
      invariant 0 <= k <= |boxes|
      invariant forall l :: l in objects
      invariant forall l :: StrongestEntry(boxes, names, k, l, objects[l]) && Stored(objects[l])
    {
      var b := boxes[k];
      ghost var before := objects;
      var found := BoxLabel(b, names);
      if found.Some? && b.conf > objects[found.value].conf {
        objects := objects[found.value := Detection(b.conf, Some(BoxInfo(b)))];
      }
      forall l ensures StrongestEntry(boxes, names, k + 1, l, objects[l]) && Stored(objects[l]) {
        StrongestEntryStep(boxes, names, k, l, before[l]);
        assert objects[l] == EntryAfter(before[l], b, names, l);
      }
      k := k + 1;
    }
    forall l | forall i :: !Candidate(boxes, names, l, i)
      ensures objects[l] == NO_DETECTION
    {
      NoCandidateKeepsDefault(boxes, names, l, objects[l]);
    }
  }
}

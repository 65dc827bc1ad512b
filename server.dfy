/** The `/detect` endpoint of the inference server: request validation, the
    downscale decision, the danger-zone test, traffic-light tracking, scaling
    boxes back to the uploaded resolution and the alert choice. The object
    detector itself is an input: the boxes it reports for the processed frame. */
module Server {
  import opened Wrappers

  // ---------------------------------------------------------------------
  // Constants
  // ---------------------------------------------------------------------

  /** Class ids of the trained model that the server treats specially. */
  const Vehicles: seq<nat> := [1, 3, 4, 9, 16, 17]
  const GreenLight: nat := 8
  const RedLight: nat := 11
  const Crosswalk: nat := 5

  /** No side of the frame handed to the detector exceeds this. */
  const MaxSize: nat := 1280

  const DangerAlert := "Stop! Vehicle ahead."
  const GreenAlert := "Do not cross. Traffic light is green."
  const RedAlert := "Safe to cross. Light is red."

  /** Stands for the text of the exception OpenCV raises when asked to
      resize to an empty destination size. */
  const EmptyResizeDetail := "cv2.resize: destination size is empty"

  // ---------------------------------------------------------------------
  // Data model
  // ---------------------------------------------------------------------

  /** What reading and decoding the uploaded bytes gives. */
  datatype Decoding =
    | Decoded(width: nat, height: nat)   // a colour image of this size
    | Undecodable                         // cv2.imdecode returned None
    | ReadFailed(detail: string)          // reading or decoding raised

  datatype Upload = Upload(filename: string, content: Decoding)

  /** The multipart parts of a request, by field name. */
  datatype Request = Request(files: map<string, Upload>)

  /** One box reported by the detector, in processed-frame pixels, with its
      corners already truncated to integers. */
  datatype ModelBox = ModelBox(x1: int, y1: int, x2: int, y2: int, confidence: real, classId: nat)

  datatype BBox = BBox(x1: int, y1: int, x2: int, y2: int)

  /** One entry of the response's `detections` list. */
  datatype Detection = Detection(className: string, confidence: real, bbox: BBox)

  datatype Traffic = NoLight | Red | Green

  datatype Response =
    | Failure(status: nat, message: string)
    | Success(detections: seq<Detection>, alertMessage: Option<string>)

  /** `Downscaled(m)` is the factor MaxSize / m, where m is the longer side
      of the uploaded frame. */
  datatype Scale = Unscaled | Downscaled(longest: nat)

  /** The frame handed to the detector: its scale against the upload, and its size. */
  datatype Processed = Processed(scale: Scale, width: nat, height: nat)

  datatype Point = Point(x: int, y: int)

  /** The danger zone, a trapezoid listed as bottom-left, top-left,
      top-right, bottom-right (image coordinates, y grows downwards). */
  datatype Zone = Zone(a: Point, b: Point, c: Point, d: Point)

  /** Outcome of validation and resizing, before inference. */
  datatype Checked = Rejected(status: nat, message: string) | Accepted(frame: Processed)

  // ---------------------------------------------------------------------
  // Integer helpers
  // ---------------------------------------------------------------------

  function Max(x: int, y: int): (r: int)
    ensures r >= x && r >= y && (r == x || r == y)
  {
    if x >= y then x else y
  }

  /** Python's `int()` applied to the exact quotient a / b: truncation
      toward zero (Dafny's own `/` floors for a positive divisor). */
  function TruncDiv(a: int, b: int): (q: int)
    requires b > 0
    ensures a >= 0 ==> q >= 0 && q * b <= a < q * b + b
    ensures a < 0 ==> q <= 0 && q * b - b < a <= q * b
  {
    if a >= 0 then a / b else -((-a) / b)
  }

  function Digit(d: nat): (c: char)
    requires d < 10
    ensures '0' <= c <= '9'
    ensures c as int - '0' as int == d
  {
    "0123456789"[d]
  }

  /** Python's `str()` of a non-negative integer. */
  function NatToString(n: nat): (s: string)
    ensures |s| >= 1
    ensures forall i :: 0 <= i < |s| ==> '0' <= s[i] <= '9'
    ensures s[0] == '0' ==> n == 0 && s == "0"
  {
    if n < 10 then [Digit(n)] else NatToString(n / 10) + [Digit(n % 10)]
  }

  /** The number a string of decimal digits denotes, most significant first. */
  function DigitsValue(s: string): int
    requires forall i :: 0 <= i < |s| ==> '0' <= s[i] <= '9'
  {
    if s == [] then 0 else DigitsValue(s[..|s| - 1]) * 10 + (s[|s| - 1] as int - '0' as int)
  }

  /** The decimal string denotes the number it was made from. */
  lemma {:induction false} NatToStringValue(n: nat)
    ensures DigitsValue(NatToString(n)) == n
  {
    if n >= 10 {
      var s := NatToString(n);
      assert s == NatToString(n / 10) + [Digit(n % 10)];
      assert s[..|s| - 1] == NatToString(n / 10);
      NatToStringValue(n / 10);
    }
  }

  // ---------------------------------------------------------------------
  // Request validation and the resize decision
  // ---------------------------------------------------------------------

  /** The size of the frame handed to the detector: unchanged when both
      sides are within MaxSize, otherwise both sides multiplied by the one
      factor MaxSize / max(w, h) and truncated. */
  function Resize(w: nat, h: nat): (p: Processed)
    ensures p.scale.Unscaled? <==> (w <= MaxSize && h <= MaxSize)
    ensures p.scale.Unscaled? ==> p.width == w && p.height == h
    ensures p.scale.Downscaled? ==>
              && p.scale.longest == Max(w, h) > MaxSize
              && p.width == w * MaxSize / p.scale.longest
              && p.height == h * MaxSize / p.scale.longest
    ensures p.scale.Downscaled? ==> p.width <= MaxSize && p.height <= MaxSize
    ensures p.scale.Downscaled? ==> Max(p.width, p.height) == MaxSize
  {
    if w > MaxSize || h > MaxSize then
      var m := Max(w, h);
      ShrinkBound(w, m);
      ShrinkBound(h, m);
      Processed(Downscaled(m), w * MaxSize / m, h * MaxSize / m)
    else
      Processed(Unscaled, w, h)
  }

  lemma MulLe(x: int, y: int, m: int)
    requires x <= y && m >= 0
    ensures x * m <= y * m
  {
    MulNonneg(y - x, m);
  }

  lemma MulNonneg(x: int, y: int)
    requires x >= 0 && y >= 0
    ensures x * y >= 0
  {}

  /** Cancelling a positive factor from both sides of an inequality. */
  lemma MulCancel(q: int, k: int, m: int)
    requires m > 0 && q * m <= k * m
    ensures q <= k
  {
    if q > k {
      MulLe(k + 1, q, m);
    }
  }

  lemma DivSpec(a: int, m: int)
    requires m > 0
    ensures (a / m) * m <= a < (a / m) * m + m
  {}

  lemma DivExact(k: int, m: int)
    requires m > 0
    ensures (k * m) / m == k
  {
    var q := (k * m) / m;
    DivSpec(k * m, m);
    MulCancel(q, k, m);
    if k > q {
      MulLe(q + 1, k, m);
    }
  }

  lemma DivMonotone(a: int, b: int, m: int)
    requires 0 < m && a <= b
    ensures a / m <= b / m
  {
    DivSpec(a, m);
    DivSpec(b, m);
    if a / m > b / m {
      MulLe(b / m + 1, a / m, m);
    }
  }

  /** A side no longer than the longest side shrinks to at most MaxSize. */
  lemma ShrinkBound(d: nat, m: nat)
    requires 0 < m && d <= m
    ensures 0 <= d * MaxSize / m <= MaxSize
    ensures d == m ==> d * MaxSize / m == MaxSize
  {
    MulNonneg(d, MaxSize);
    MulLe(d, m, MaxSize);
    DivMonotone(d * MaxSize, m * MaxSize, m);
    DivExact(MaxSize, m);
  }

  /** Validation of the upload and the resize step, with the HTTP status
      and message of every way they fail. */
  function Validate(req: Request): (c: Checked)
    ensures "file" !in req.files ==> c == Rejected(400, "No file part")
    ensures "file" in req.files && req.files["file"].filename == "" ==>
              c == Rejected(400, "No selected file")
    ensures "file" in req.files && req.files["file"].filename != "" && req.files["file"].content.Undecodable? ==>
              c == Rejected(400, "Failed to decode image")
    ensures "file" in req.files && req.files["file"].filename != "" && req.files["file"].content.ReadFailed? ==>
              c == Rejected(500, "Processing error: " + req.files["file"].content.detail)
    ensures "file" in req.files && req.files["file"].filename != "" && req.files["file"].content.Decoded? ==>
              var p := Resize(req.files["file"].content.width, req.files["file"].content.height);
              p.scale.Downscaled? && (p.width == 0 || p.height == 0) ==>
                c == Rejected(500, "Processing error: " + EmptyResizeDetail)
    ensures c.Rejected? ==> c.status == 400 || c.status == 500
    ensures c.Accepted? <==>
              && "file" in req.files
              && req.files["file"].filename != ""
              && req.files["file"].content.Decoded?
              && var p := Resize(req.files["file"].content.width, req.files["file"].content.height);
                 (p.scale.Unscaled? || (p.width > 0 && p.height > 0))
    ensures c.Accepted? ==>
              c.frame == Resize(req.files["file"].content.width, req.files["file"].content.height)
  {
    if "file" !in req.files then Rejected(400, "No file part")
    else
      var file := req.files["file"];
      if file.filename == "" then Rejected(400, "No selected file")
      else
        match file.content
        case Undecodable => Rejected(400, "Failed to decode image")
        case ReadFailed(detail) => Rejected(500, "Processing error: " + detail)
        case Decoded(w, h) =>
          var p := Resize(w, h);
          // cv2.resize raises on an empty destination size, inside the try
          if p.scale.Downscaled? && (p.width == 0 || p.height == 0) then
            Rejected(500, "Processing error: " + EmptyResizeDetail)
          else
            Accepted(p)
  }

  // ---------------------------------------------------------------------
  // Scaling boxes back to the uploaded resolution
  // ---------------------------------------------------------------------

  /** One coordinate divided by the scale factor and truncated; untouched
      when the frame was not resized. */
  function ScaleBack(v: int, s: Scale): (r: int)
    requires s.Downscaled? ==> s.longest > 0
    ensures s.Unscaled? ==> r == v
    ensures s.Downscaled? && v >= 0 ==> r * MaxSize <= v * s.longest < r * MaxSize + MaxSize
    ensures s.Downscaled? && v < 0 ==> r * MaxSize - MaxSize < v * s.longest <= r * MaxSize
  {
    match s
    case Unscaled => v
    case Downscaled(m) => TruncDiv(v * m, MaxSize)
  }

  /** A coordinate inside the processed frame scales back to a coordinate
      inside the uploaded frame. */
  lemma ScaleBackWithinFrame(w: nat, h: nat, x: int, y: int)
    requires 0 <= x <= Resize(w, h).width && 0 <= y <= Resize(w, h).height
    ensures 0 <= ScaleBack(x, Resize(w, h).scale) <= w
    ensures 0 <= ScaleBack(y, Resize(w, h).scale) <= h
  {
    var p := Resize(w, h);
    if p.scale.Downscaled? {
      ScaleBackBound(w, p.scale.longest, x);
      ScaleBackBound(h, p.scale.longest, y);
    }
  }

  lemma ScaleBackBound(d: nat, m: nat, x: int)
    requires m > MaxSize && 0 <= x <= d * MaxSize / m
    ensures 0 <= ScaleBack(x, Downscaled(m)) <= d
  {
    var e := d * MaxSize / m;
    var r := ScaleBack(x, Downscaled(m));
    DivSpec(d * MaxSize, m);
    MulLe(x, e, m);
    MulNonneg(x, m);
    MulCancel(r, d, MaxSize);
  }

  /** A coordinate of the uploaded frame, shrunk onto the processed frame
      and scaled back, lands at or before where it started and less than
      m / MaxSize + 1 pixels away. */
  lemma ShrinkThenScaleBack(d: nat, m: nat)
    requires m > MaxSize
    ensures var r := ScaleBack(d * MaxSize / m, Downscaled(m));
            r <= d && (d - r) * MaxSize < MaxSize + m
  {
    var e := d * MaxSize / m;
    DivSpec(d * MaxSize, m);
    MulNonneg(d, MaxSize);
    assert e >= 0;
    MulNonneg(e, m);
    var r := ScaleBack(e, Downscaled(m));
    MulCancel(r, d, MaxSize);
  }

  // ---------------------------------------------------------------------
  // The danger zone
  // ---------------------------------------------------------------------

  /** The trapezoid, on the processed frame, in which a vehicle is a
      danger: along the bottom edge from 20% to 80% of the width, up to 65%
      of the height, where it spans 35% to 65% of the width. */
  function DangerZone(width: nat, height: nat): (z: Zone)
    ensures IsTrapezoid(z)
    ensures z.a.y == height && 0 <= z.b.y
    ensures 0 <= z.a.x && z.d.x <= width
  {
    Zone(Point(width * 20 / 100, height),
         Point(width * 35 / 100, height * 65 / 100),
         Point(width * 65 / 100, height * 65 / 100),
         Point(width * 80 / 100, height))
  }

  /** The shape of the zone: a horizontal bottom edge a-d below a
      horizontal top edge b-c, with the corners ordered left to right. */
  predicate IsTrapezoid(z: Zone)
  {
    && z.a.y == z.d.y && z.b.y == z.c.y && z.b.y <= z.a.y
    && z.a.x <= z.b.x <= z.c.x <= z.d.x
  }

  /** p lies inside the trapezoid or on its boundary (the polygon test's
      ">= 0"): between the two horizontal edges, right of the left edge a-b
      and left of the right edge c-d, each side test written as a cross
      product so that it stays in integers. */
  predicate InZone(z: Zone, p: Point)
  {
    var depth := z.a.y - z.b.y;
    && z.b.y <= p.y <= z.a.y
    && z.a.x <= p.x <= z.d.x
    && (p.x - z.a.x) * depth >= (z.b.x - z.a.x) * (z.a.y - p.y)
    && (z.d.x - p.x) * depth >= (z.d.x - z.c.x) * (z.a.y - p.y)
  }

  /** The boundary counts as inside: every corner of a trapezoid is in it. */
  lemma TrapezoidCorners(z: Zone)
    requires IsTrapezoid(z)
    ensures InZone(z, z.a) && InZone(z, z.b) && InZone(z, z.c) && InZone(z, z.d)
  {
    var depth := z.a.y - z.b.y;
    MulLe(0, z.d.x - z.a.x, depth);
    MulLe(z.d.x - z.c.x, z.d.x - z.b.x, depth);
    MulLe(z.b.x - z.a.x, z.c.x - z.a.x, depth);
    MulLe(0, z.d.x - z.a.x, depth);
  }

  lemma CornersInZone(width: nat, height: nat)
    ensures var z := DangerZone(width, height);
            InZone(z, z.a) && InZone(z, z.b) && InZone(z, z.c) && InZone(z, z.d)
  {
    TrapezoidCorners(DangerZone(width, height));
  }

  /** A vehicle straight ahead at the bottom edge of the frame is in the zone. */
  lemma BottomCentreInZone(width: nat, height: nat)
    ensures InZone(DangerZone(width, height), Point(width / 2, height))
  {
    var z := DangerZone(width, height);
    var depth := z.a.y - z.b.y;
    MulNonneg(width / 2 - z.a.x, depth);
    MulNonneg(z.d.x - width / 2, depth);
  }

  // ---------------------------------------------------------------------
  // Per-box rules
  // ---------------------------------------------------------------------

  /** Membership of CLASS_IDS["VEHICLES"], spelt out (see VehicleIsListed). */
  predicate IsVehicle(classId: nat)
  {
    classId == 1 || classId == 3 || classId == 4 || classId == 9 || classId == 16 || classId == 17
  }

  lemma VehicleIsListed(classId: nat)
    ensures IsVehicle(classId) <==> classId in Vehicles
  {
    if classId in Vehicles {
      var k :| 0 <= k < |Vehicles| && Vehicles[k] == classId;
    }
  }

  predicate IsLight(classId: nat)
  {
    classId == RedLight || classId == GreenLight
  }

  /** The point of a box tested against the zone: its bottom centre, with
      Python's floor division. */
  function BottomCentre(b: ModelBox): (p: Point)
    ensures 2 * p.x <= b.x1 + b.x2 < 2 * p.x + 2 && p.y == b.y2
  {
    Point((b.x1 + b.x2) / 2, b.y2)
  }

  predicate Endangers(b: ModelBox, z: Zone)
  {
    IsVehicle(b.classId) && InZone(z, BottomCentre(b))
  }

  /** The traffic status after one box: only a light box changes it. */
  function NextTraffic(t: Traffic, b: ModelBox): (r: Traffic)
    ensures !IsLight(b.classId) ==> r == t
    ensures b.classId == RedLight ==> r == Red
    ensures b.classId == GreenLight ==> r == Green
  {
    if IsVehicle(b.classId) then t
    else if b.classId == RedLight then Red
    else if b.classId == GreenLight then Green
    else t
  }

  /** The traffic status after the boxes, from NONE, in iteration order. */
  function TrafficAfter(bs: seq<ModelBox>): Traffic
  {
    if bs == [] then NoLight else NextTraffic(TrafficAfter(bs[..|bs| - 1]), bs[|bs| - 1])
  }

  function LightColour(classId: nat): Traffic
  {
    if classId == RedLight then Red else if classId == GreenLight then Green else NoLight
  }

  /** With no light box, the traffic status stays NONE. */
  lemma {:induction false} TrafficWithoutLights(bs: seq<ModelBox>)
    requires forall k :: 0 <= k < |bs| ==> !IsLight(bs[k].classId)
    ensures TrafficAfter(bs) == NoLight
  {
    if bs != [] {
      var init := bs[..|bs| - 1];
      forall k | 0 <= k < |init| ensures !IsLight(init[k].classId) {
        assert init[k] == bs[k];
      }
      TrafficWithoutLights(init);
    }
  }

  /** A light box followed by no other light box decides the status. */
  lemma {:induction false} TrafficAfterLightAt(bs: seq<ModelBox>, i: nat)
    requires i < |bs| && IsLight(bs[i].classId)
    requires forall k :: i < k < |bs| ==> !IsLight(bs[k].classId)
    ensures TrafficAfter(bs) == LightColour(bs[i].classId)
  {
    var init, last := bs[..|bs| - 1], bs[|bs| - 1];
    assert TrafficAfter(bs) == NextTraffic(TrafficAfter(init), last);
    if i < |init| {
      assert !IsLight(last.classId);
      forall k | i < k < |init| ensures !IsLight(init[k].classId) {
        assert init[k] == bs[k];
      }
      assert init[i] == bs[i];
      TrafficAfterLightAt(init, i);
    }
  }

  /** The traffic status is that of the last light box, or NONE when there is none. */
  lemma {:induction false} TrafficIsLastLight(bs: seq<ModelBox>)
    ensures (forall k :: 0 <= k < |bs| ==> !IsLight(bs[k].classId)) ==> TrafficAfter(bs) == NoLight
    ensures forall i :: 0 <= i < |bs| && IsLight(bs[i].classId) &&
                        (forall k :: i < k < |bs| ==> !IsLight(bs[k].classId)) ==>
                        TrafficAfter(bs) == LightColour(bs[i].classId)
  {
    if forall k :: 0 <= k < |bs| ==> !IsLight(bs[k].classId) {
      TrafficWithoutLights(bs);
    }
    forall i | 0 <= i < |bs| && IsLight(bs[i].classId) && (forall k :: i < k < |bs| ==> !IsLight(bs[k].classId))
      ensures TrafficAfter(bs) == LightColour(bs[i].classId)
    {
      TrafficAfterLightAt(bs, i);
    }
  }

  /** The detector only reports classes it has a name for, when it has names at all. */
  predicate Named(names: map<nat, string>, b: ModelBox)
  {
    |names| == 0 || b.classId in names
  }

  predicate NamesCover(names: map<nat, string>, bs: seq<ModelBox>)
  {
    forall k :: 0 <= k < |bs| ==> Named(names, bs[k])
  }

  /** `model.names[class_id]`, or the id in decimal when the model has no names. */
  function ClassName(names: map<nat, string>, classId: nat): (r: string)
    requires |names| == 0 || classId in names
    ensures |names| == 0 ==> |r| >= 1 && forall i :: 0 <= i < |r| ==> '0' <= r[i] <= '9'
    ensures |names| == 0 ==> DigitsValue(r) == classId
    ensures |names| == 0 && r[0] == '0' ==> classId == 0 && r == "0"
    ensures |names| > 0 ==> r == names[classId]
  {
    if |names| == 0 then
      NatToStringValue(classId);
      NatToString(classId)
    else names[classId]
  }

  /** The response entry for one box: its name, its confidence, and its
      corners scaled back to the uploaded resolution. */
  function ToDetection(b: ModelBox, s: Scale, names: map<nat, string>): (d: Detection)
    requires s.Downscaled? ==> s.longest > 0
    requires Named(names, b)
    ensures d.confidence == b.confidence
    ensures s.Unscaled? ==> d.bbox == BBox(b.x1, b.y1, b.x2, b.y2)
  {
    Detection(ClassName(names, b.classId), b.confidence,
              BBox(ScaleBack(b.x1, s), ScaleBack(b.y1, s), ScaleBack(b.x2, s), ScaleBack(b.y2, s)))
  }

  /** The detections list the loop builds, as a function of the boxes seen. */
  function DetectionsOf(bs: seq<ModelBox>, s: Scale, names: map<nat, string>): seq<Detection>
    requires s.Downscaled? ==> s.longest > 0
    requires NamesCover(names, bs)
  {
    if bs == [] then [] else DetectionsOf(bs[..|bs| - 1], s, names) + [ToDetection(bs[|bs| - 1], s, names)]
  }

  /** Exactly one detection per box, in iteration order. */
  lemma {:induction false} DetectionsOfAt(bs: seq<ModelBox>, s: Scale, names: map<nat, string>)
    requires s.Downscaled? ==> s.longest > 0
    requires NamesCover(names, bs)
    ensures |DetectionsOf(bs, s, names)| == |bs|
    ensures forall k :: 0 <= k < |bs| ==> DetectionsOf(bs, s, names)[k] == ToDetection(bs[k], s, names)
  {
    if bs != [] {
      var init := bs[..|bs| - 1];
      DetectionsOfAt(init, s, names);
      var ds := DetectionsOf(bs, s, names);
      var prefix := DetectionsOf(init, s, names);
      assert ds == prefix + [ToDetection(bs[|bs| - 1], s, names)];
      forall k | 0 <= k < |bs| ensures ds[k] == ToDetection(bs[k], s, names) {
        if k < |init| {
          assert ds[k] == prefix[k];
          assert init[k] == bs[k];
        }
      }
    }
  }

  /** danger_detected after the boxes, from False, in iteration order. */
  function AnyDanger(bs: seq<ModelBox>, z: Zone): bool
  {
    if bs == [] then false else AnyDanger(bs[..|bs| - 1], z) || Endangers(bs[|bs| - 1], z)
  }

  /** Danger is raised exactly when some vehicle box has its bottom centre in the zone. */
  lemma {:induction false} AnyDangerIff(bs: seq<ModelBox>, z: Zone)
    ensures AnyDanger(bs, z) <==> exists k :: 0 <= k < |bs| && Endangers(bs[k], z)
  {
    if bs != [] {
      var init := bs[..|bs| - 1];
      AnyDangerIff(init, z);
      if AnyDanger(init, z) {
        var k :| 0 <= k < |init| && Endangers(init[k], z);
        assert init[k] == bs[k];
      }
      if exists k :: 0 <= k < |bs| && Endangers(bs[k], z) {
        var k :| 0 <= k < |bs| && Endangers(bs[k], z);
        if k < |init| {
          assert init[k] == bs[k];
        }
      }
    }
  }

  /** One step of the loop, seen through the three specification functions. */
  lemma Snoc(bs: seq<ModelBox>, b: ModelBox, z: Zone, s: Scale, names: map<nat, string>)
    requires s.Downscaled? ==> s.longest > 0
    requires NamesCover(names, bs) && Named(names, b)
    ensures NamesCover(names, bs + [b])
    ensures TrafficAfter(bs + [b]) == NextTraffic(TrafficAfter(bs), b)
    ensures AnyDanger(bs + [b], z) == (AnyDanger(bs, z) || Endangers(b, z))
    ensures DetectionsOf(bs + [b], s, names) == DetectionsOf(bs, s, names) + [ToDetection(b, s, names)]
  {
    assert (bs + [b])[..|bs|] == bs;
    assert forall k :: 0 <= k < |bs| ==> (bs + [b])[k] == bs[k];
  }

  // ---------------------------------------------------------------------
  // The box loop and the alert
  // ---------------------------------------------------------------------

  /** The body of the loop for one box: the zone test for a vehicle, the
      status update for a light, and the scaled-back entry appended. */
  method ProcessBox(box: ModelBox, zone: Zone, s: Scale, names: map<nat, string>,
                    detections: seq<Detection>, danger: bool, traffic: Traffic)
    returns (detections': seq<Detection>, danger': bool, traffic': Traffic)
    requires s.Downscaled? ==> s.longest > 0
    requires Named(names, box)
    ensures detections' == detections + [ToDetection(box, s, names)]
    ensures danger' == (danger || Endangers(box, zone))
    ensures traffic' == NextTraffic(traffic, box)
  {
    danger', traffic' := danger, traffic;
    if IsVehicle(box.classId) {
      if InZone(zone, BottomCentre(box)) {
        danger' := true;
      }
    } else if box.classId == RedLight {
      traffic' := Red;
    } else if box.classId == GreenLight {
      traffic' := Green;
    }
    var scaled := BBox(ScaleBack(box.x1, s), ScaleBack(box.y1, s), ScaleBack(box.x2, s), ScaleBack(box.y2, s));
    detections' := detections + [Detection(ClassName(names, box.classId), box.confidence, scaled)];
  }

  /** The loop over the detector's boxes: one detection per box, in
      order; whether a vehicle stands in the zone; and the traffic status. */
  method ProcessBoxes(boxes: seq<ModelBox>, zone: Zone, s: Scale, names: map<nat, string>)
    returns (detections: seq<Detection>, danger: bool, traffic: Traffic)
    requires s.Downscaled? ==> s.longest > 0
    requires NamesCover(names, boxes)
    ensures detections == DetectionsOf(boxes, s, names)
    ensures danger <==> exists k :: 0 <= k < |boxes| && Endangers(boxes[k], zone)
    ensures traffic == TrafficAfter(boxes)
  {
    detections, danger, traffic := [], false, NoLight;
    var j := 0;
    while j < |boxes|
      invariant 0 <= j <= |boxes|
      invariant NamesCover(names, boxes[..j])
      invariant detections == DetectionsOf(boxes[..j], s, names)
      invariant danger == AnyDanger(boxes[..j], zone)
      invariant traffic == TrafficAfter(boxes[..j])
    {
      assert boxes[..j + 1] == boxes[..j] + [boxes[j]];
      Snoc(boxes[..j], boxes[j], zone, s, names);
      detections, danger, traffic := ProcessBox(boxes[j], zone, s, names, detections, danger, traffic);
      j := j + 1;
    }
    assert boxes[..j] == boxes;
    AnyDangerIff(boxes, zone);
  }

  /** The alert, by fixed priority: danger, then green light, then red
      light, else none. */
  function AlertMessage(danger: bool, traffic: Traffic): (r: Option<string>)
    ensures r == Some(DangerAlert) <==> danger
    ensures r == Some(GreenAlert) <==> !danger && traffic.Green?
    ensures r == Some(RedAlert) <==> !danger && traffic.Red?
    ensures r.None? <==> !danger && traffic.NoLight?
  {
    if danger then Some(DangerAlert)
    else if traffic == Green then Some(GreenAlert)
    else if traffic == Red then Some(RedAlert)
    else None
  }

  // ---------------------------------------------------------------------
  // The endpoint
  // ---------------------------------------------------------------------

  /** POST /detect. `boxes` is what the detector reports for the frame
      that validation hands it (it is not consulted when validation fails),
      `names` the detector's class names. */
  method DetectFrame(req: Request, boxes: seq<ModelBox>, names: map<nat, string>)
    returns (resp: Response)
    requires NamesCover(names, boxes)
    ensures "file" !in req.files ==> resp == Failure(400, "No file part")
    ensures "file" in req.files && req.files["file"].filename == "" ==>
              resp == Failure(400, "No selected file")
    ensures Validate(req).Rejected? ==>
              resp == Failure(Validate(req).status, Validate(req).message)
    ensures Validate(req).Accepted? ==>
              var p := Validate(req).frame;
              && resp.Success?
              && |resp.detections| == |boxes|
              && (forall k :: 0 <= k < |boxes| ==> resp.detections[k] == ToDetection(boxes[k], p.scale, names))
              && resp.alertMessage ==
                   AlertMessage(exists k :: 0 <= k < |boxes| && Endangers(boxes[k], DangerZone(p.width, p.height)),
                                TrafficAfter(boxes))
  {
    var checked := Validate(req);
    if checked.Rejected? {
      return Failure(checked.status, checked.message);
    }
    var frame := checked.frame;
    var zone := DangerZone(frame.width, frame.height);
    var detections, danger, traffic := ProcessBoxes(boxes, zone, frame.scale, names);
    DetectionsOfAt(boxes, frame.scale, names);
    resp := Success(detections, AlertMessage(danger, traffic));
  }
}

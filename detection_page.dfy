/** The detection page of the web client: the in-flight guard around the
    capture-encode-send cycle, the handling of the server's answer, alert
    de-duplication, camera and file sources, tab switching, and the overlay
    that scales boxes onto the displayed element. Browser callbacks (timers,
    toBlob, fetch completion, camera permission, metadata load) are events,
    each one a method of `Page`. */
module DetectionPage {
  import opened Wrappers

  // ---------------------------------------------------------------------
  // Data model
  // ---------------------------------------------------------------------

  datatype Mode = Camera | Upload
  datatype FileKind = Image | Video
  datatype ServerStatus = Offline | Online | Connecting | Idle

  /** The intrinsic size of a media element (videoWidth/videoHeight, or
      naturalWidth/naturalHeight for an image); zero until it has loaded. */
  datatype Size = Size(width: nat, height: nat)

  datatype Box = Box(x1: real, y1: real, x2: real, y2: real)
  datatype Detection = Detection(className: string, confidence: real, bbox: Box)

  /** The JSON body of an ok answer from the server. */
  datatype Reply = Reply(detections: seq<Detection>, alertMessage: Option<string>)

  /** How a request ended: an ok status with its parsed body, a non-ok
      status, or an exception (network failure or unparsable body). */
  datatype Outcome = Answered(reply: Reply) | NotOk | Threw

  /** The values of audioEnabled and lastAlert that a processFrame closure
      captured from the render it was created in. */
  datatype Snapshot = Snapshot(audioEnabled: bool, lastAlert: string)

  /** Which browser callback the in-flight guard is waiting for. */
  datatype Flight = NoRequest | Encoding(seen: Snapshot) | Awaiting(seen: Snapshot)

  /** Every state cell of the page, as one value. */
  datatype PageState = PageState(
    mode: Mode,
    fileType: Option<FileKind>,
    fileUrl: Option<string>,
    isStreaming: bool,
    audioEnabled: bool,
    detections: seq<Detection>,
    serverStatus: ServerStatus,
    lastAlert: string,
    processing: bool,             // processingRef.current
    flight: Flight,
    cameraAttached: bool,         // videoRef.current.srcObject is a stream
    pendingAlertResets: nat,      // 2.5 s timers that will clear lastAlert
    pendingImageScans: seq<Snapshot>, // 500 ms timers that will scan the image
    spoken: seq<string>)          // utterances handed to speak(), oldest first

  const CameraStarted := "Camera started."
  const CameraError := "Error accessing camera."

  // ---------------------------------------------------------------------
  // Pure rules
  // ---------------------------------------------------------------------

  predicate StartsWith(s: string, prefix: string)
  {
    |prefix| <= |s| && s[..|prefix|] == prefix
  }

  /** The branch handleFileUpload takes on the file's MIME type. */
  function KindOf(mime: string): (k: Option<FileKind>)
    ensures k == Some(Image) <==> StartsWith(mime, "image/")
    ensures k == Some(Video) <==> StartsWith(mime, "video/")
    ensures k.None? <==> !StartsWith(mime, "image/") && !StartsWith(mime, "video/")
  {
    if StartsWith(mime, "image/") then
      assert mime[0] == 'i';
      Some(Image)
    else if StartsWith(mime, "video/") then Some(Video)
    else None
  }

  /** processFrame goes past its early returns: there is a source element,
      the canvas is mounted, no request is in flight, and the source has a
      non-zero size. */
  predicate Proceeds(processing: bool, source: Option<Size>, canvasMounted: bool)
  {
    source.Some? && canvasMounted && !processing && source.value.width > 0 && source.value.height > 0
  }

  /** The synchronous part of processFrame, up to the toBlob call: the guard
      is taken, and released at once when there is no 2D context. */
  function StartFrame(st: PageState, source: Option<Size>, canvasMounted: bool, contextAvailable: bool,
                      seen: Snapshot): (r: PageState)
    ensures st.processing ==> r == st
    ensures r != st <==> Proceeds(st.processing, source, canvasMounted) && contextAvailable
    ensures r != st ==> r == st.(processing := true, flight := Encoding(seen))
  {
    if !Proceeds(st.processing, source, canvasMounted) then st
    else if !contextAvailable then st
    else st.(processing := true, flight := Encoding(seen))
  }

  /** An alert is spoken when audio was on, the message is non-empty and
      it differs from the last alert, both as the closure saw them. */
  predicate ShouldAnnounce(seen: Snapshot, alert: Option<string>)
  {
    seen.audioEnabled && alert.Some? && alert.value != "" && alert.value != seen.lastAlert
  }

  /** The completion of the fetch: the answer is applied and the guard is
      released on every path (the `finally`). */
  function Complete(st: PageState, outcome: Outcome): (r: PageState)
    requires st.flight.Awaiting?
    ensures !r.processing && r.flight.NoRequest?
    ensures outcome.Answered? ==> r.detections == outcome.reply.detections && r.serverStatus.Online?
    ensures !outcome.Answered? ==> r.detections == st.detections && r.serverStatus.Offline?
    ensures r.spoken != st.spoken <==> outcome.Answered? && ShouldAnnounce(st.flight.seen, outcome.reply.alertMessage)
    ensures r.spoken != st.spoken ==>
              var m := outcome.reply.alertMessage.value;
              r.spoken == st.spoken + [m] && r.lastAlert == m && r.pendingAlertResets == st.pendingAlertResets + 1
    ensures r.spoken == st.spoken ==> r.lastAlert == st.lastAlert && r.pendingAlertResets == st.pendingAlertResets
    ensures r.mode == st.mode && r.fileType == st.fileType && r.fileUrl == st.fileUrl
    ensures r.isStreaming == st.isStreaming && r.audioEnabled == st.audioEnabled
    ensures r.cameraAttached == st.cameraAttached && r.pendingImageScans == st.pendingImageScans
  {
    var released := st.(processing := false, flight := NoRequest);
    match outcome
    case Answered(reply) =>
      var online := released.(detections := reply.detections, serverStatus := Online);
      if ShouldAnnounce(st.flight.seen, reply.alertMessage) then
        var m := reply.alertMessage.value;
        online.(spoken := st.spoken + [m], lastAlert := m, pendingAlertResets := st.pendingAlertResets + 1)
      else
        online
    case NotOk => released.(serverStatus := Offline)
    case Threw => released.(serverStatus := Offline)
  }

  // ---------------------------------------------------------------------
  // The overlay
  // ---------------------------------------------------------------------

  datatype Rect = Rect(left: real, top: real, width: real, height: real)

  /** A rendered media element: its displayed size and its intrinsic size. */
  datatype Element = Element(clientWidth: real, clientHeight: real, natural: Size)

  function Place(b: Box, scaleX: real, scaleY: real): Rect
  {
    Rect(b.x1 * scaleX, b.y1 * scaleY, (b.x2 - b.x1) * scaleX, (b.y2 - b.y1) * scaleY)
  }

  /** The rectangle covers exactly the box scaled by cw/sw across and ch/sh down. */
  predicate Covers(r: Rect, b: Box, cw: real, ch: real, sw: real, sh: real)
  {
    && r.left * sw == b.x1 * cw && r.top * sh == b.y1 * ch
    && (r.left + r.width) * sw == b.x2 * cw && (r.top + r.height) * sh == b.y2 * ch
  }

  lemma PlaceCovers(b: Box, cw: real, ch: real, sw: real, sh: real)
    requires sw != 0.0 && sh != 0.0
    ensures Covers(Place(b, cw / sw, ch / sh), b, cw, ch, sw, sh)
  {
    var r := Place(b, cw / sw, ch / sh);
    assert r.left + r.width == b.x2 * (cw / sw);
    assert r.top + r.height == b.y2 * (ch / sh);
    assert (cw / sw) * sw == cw;
    assert (ch / sh) * sh == ch;
  }

  /** renderBoxes: nothing for a zero source size, otherwise one rectangle
      per detection, in order, scaled from source to container pixels. */
  function RenderBoxes(dets: seq<Detection>, cw: real, ch: real, sw: real, sh: real): (r: Option<seq<Rect>>)
    ensures r.None? <==> sw == 0.0 || sh == 0.0
    ensures r.Some? ==> |r.value| == |dets|
    ensures r.Some? ==> forall i :: 0 <= i < |dets| ==> Covers(r.value[i], dets[i].bbox, cw, ch, sw, sh)
  {
    if sw == 0.0 || sh == 0.0 then None
    else
      var rects := seq(|dets|, i requires 0 <= i < |dets| => Place(dets[i].bbox, cw / sw, ch / sh));
      forall i | 0 <= i < |dets| ensures Covers(rects[i], dets[i].bbox, cw, ch, sw, sh) {
        PlaceCovers(dets[i].bbox, cw, ch, sw, sh);
      }
      Some(rects)
  }

  /** Mapping a rectangle back from container to source pixels. */
  function Unplace(r: Rect, scaleX: real, scaleY: real): Box
  {
    Box(r.left * scaleX, r.top * scaleY, (r.left + r.width) * scaleX, (r.top + r.height) * scaleY)
  }

  /** For a container of non-zero size the overlay loses nothing: each
      rectangle maps back onto its detection's box. */
  lemma RenderBoxesInvertible(dets: seq<Detection>, cw: real, ch: real, sw: real, sh: real, i: nat)
    requires sw != 0.0 && sh != 0.0 && cw != 0.0 && ch != 0.0 && i < |dets|
    ensures Unplace(RenderBoxes(dets, cw, ch, sw, sh).value[i], sw / cw, sh / ch) == dets[i].bbox
  {
    var r := RenderBoxes(dets, cw, ch, sw, sh).value[i];
    var b := dets[i].bbox;
    assert Covers(r, b, cw, ch, sw, sh);
    CancelScale(r.left, b.x1, cw, sw);
    CancelScale(r.top, b.y1, ch, sh);
    CancelScale(r.left + r.width, b.x2, cw, sw);
    CancelScale(r.top + r.height, b.y2, ch, sh);
  }

  lemma CancelScale(v: real, x: real, c: real, s: real)
    requires c != 0.0 && s != 0.0 && v * s == x * c
    ensures v * (s / c) == x
  {
    calc {
      v * (s / c);
      == (v * s) / c;
      == (x * c) / c;
      == x;
    }
  }

  /** The worked example: source 640x480 shown at 320x240, box
      [100,100,200,200] appears at (50,50) with size 50x50. */
  lemma RenderExample(d: Detection)
    requires d.bbox == Box(100.0, 100.0, 200.0, 200.0)
    ensures RenderBoxes([d], 320.0, 240.0, 640.0, 480.0) == Some([Rect(50.0, 50.0, 50.0, 50.0)])
  {
    var r := RenderBoxes([d], 320.0, 240.0, 640.0, 480.0);
    assert r.value[0] == Place(d.bbox, 320.0 / 640.0, 240.0 / 480.0);
    assert r.value[0] == Rect(50.0, 50.0, 50.0, 50.0);
    assert r.value == [Rect(50.0, 50.0, 50.0, 50.0)];
  }

  /** The element the Overlay measures: the camera video in camera mode, else
      the uploaded video or image when one is shown. */
  function OverlaySource(mode: Mode, fileType: Option<FileKind>, fileShown: bool,
                         camera: Element, fileVideo: Element, image: Element): (r: Option<Element>)
    ensures mode.Camera? ==> r == Some(camera)
    ensures mode.Upload? && fileShown && fileType == Some(Video) ==> r == Some(fileVideo)
    ensures mode.Upload? && fileShown && fileType == Some(Image) ==> r == Some(image)
    ensures r.None? <==> mode.Upload? && (!fileShown || fileType.None?)
  {
    if mode.Camera? then Some(camera)
    else if !fileShown then None
    else match fileType
      case None => None
      case Some(Video) => Some(fileVideo)
      case Some(Image) => Some(image)
  }

  /** Overlay: no boxes without a measured element of non-zero size;
      otherwise the element's boxes, scaled from its intrinsic size to its
      displayed size. */
  function Overlay(mode: Mode, fileType: Option<FileKind>, fileShown: bool, dets: seq<Detection>,
                   camera: Element, fileVideo: Element, image: Element): (r: Option<seq<Rect>>)
    ensures r.Some? <==>
              var el := OverlaySource(mode, fileType, fileShown, camera, fileVideo, image);
              el.Some? && el.value.natural.width > 0 && el.value.natural.height > 0
    ensures r.Some? ==>
              var el := OverlaySource(mode, fileType, fileShown, camera, fileVideo, image).value;
              |r.value| == |dets| &&
              forall i :: 0 <= i < |dets| ==>
                Covers(r.value[i], dets[i].bbox, el.clientWidth, el.clientHeight,
                       el.natural.width as real, el.natural.height as real)
  {
    match OverlaySource(mode, fileType, fileShown, camera, fileVideo, image)
    case None => None
    case Some(el) =>
      if el.natural.width == 0 then None
      else RenderBoxes(dets, el.clientWidth, el.clientHeight, el.natural.width as real, el.natural.height as real)
  }

  // ---------------------------------------------------------------------
  // The page, its state cells and its event handlers
  // ---------------------------------------------------------------------

  class Page {
    var mode: Mode
    var fileType: Option<FileKind>
    var fileUrl: Option<string>
    var isStreaming: bool
    var audioEnabled: bool
    var detections: seq<Detection>
    var serverStatus: ServerStatus
    var lastAlert: string
    var processing: bool
    var flight: Flight
    var cameraAttached: bool
    var pendingAlertResets: nat
    var pendingImageScans: seq<Snapshot>
    var spoken: seq<string>

    /** Requests that took the guard, and requests that released it. */
    ghost var started: nat
    ghost var finished: nat

    function State(): PageState
      reads this
    {
      PageState(mode, fileType, fileUrl, isStreaming, audioEnabled, detections, serverStatus, lastAlert,
            processing, flight, cameraAttached, pendingAlertResets, pendingImageScans, spoken)
    }

    predicate FileVideoShown()
      reads this
    {
      mode.Upload? && fileType == Some(Video) && fileUrl.Some?
    }

    predicate ImageShown()
      reads this
    {
      mode.Upload? && fileType == Some(Image) && fileUrl.Some?
    }

    /** The guard is held exactly while a callback is pending, so at most
        one request is ever in flight; streaming always has a live source. */
    ghost predicate Valid()
      reads this
    {
      && (processing <==> !flight.NoRequest?)
      && started == finished + (if processing then 1 else 0)
      && (cameraAttached ==> mode.Camera?)
      && (isStreaming && mode.Camera? ==> cameraAttached)
      && (isStreaming && mode.Upload? ==> FileVideoShown())
    }

    constructor ()
      ensures Valid()
      ensures State() == PageState(Camera, None, None, false, true, [], Idle, "", false, NoRequest, false, 0, [], [])
    {
      mode, fileType, fileUrl := Camera, None, None;
      isStreaming, audioEnabled := false, true;
      detections, serverStatus, lastAlert := [], Idle, "";
      processing, flight, cameraAttached := false, NoRequest, false;
      pendingAlertResets, pendingImageScans, spoken := 0, [], [];
      started, finished := 0, 0;
    }

    /** The synchronous part of processFrame(source). */
    method ProcessFrame(source: Option<Size>, canvasMounted: bool, contextAvailable: bool, seen: Snapshot)
      requires Valid()
      modifies this
      ensures Valid()
      ensures State() == StartFrame(old(State()), source, canvasMounted, contextAvailable, seen)
      ensures var took := Proceeds(old(processing), source, canvasMounted);
              started == old(started) + (if took then 1 else 0) &&
              finished == old(finished) + (if took && !contextAvailable then 1 else 0)
    {
      if source.None? || !canvasMounted || processing {
        return;
      }
      var size := source.value;
      if size.width == 0 || size.height == 0 {
        return;
      }
      Acquire(contextAvailable, seen);
    }

    /** The guard is taken; without a 2D context it is released again at
        once, and with one the toBlob callback is awaited. */
    method Acquire(contextAvailable: bool, seen: Snapshot)
      requires Valid() && !processing
      modifies this
      ensures Valid()
      ensures contextAvailable ==> State() == old(State()).(processing := true, flight := Encoding(seen))
      ensures !contextAvailable ==> State() == old(State())
      ensures started == old(started) + 1 && finished == old(finished) + (if contextAvailable then 0 else 1)
    {
      processing := true;
      started := started + 1;
      if contextAvailable {
        flight := Encoding(seen);
      } else {
        processing := false;
        finished := finished + 1;
      }
    }

    /** A tick of the 100 ms interval, which exists only while streaming and
        samples the camera video in camera mode, the uploaded video otherwise. */
    method Tick(cameraFrame: Size, fileFrame: Size, canvasMounted: bool, contextAvailable: bool)
      requires Valid()
      modifies this
      ensures Valid()
      ensures !old(isStreaming) ==> State() == old(State()) && started == old(started) && finished == old(finished)
      ensures old(isStreaming) ==>
                var frame := if old(mode).Camera? then cameraFrame else fileFrame;
                State() == StartFrame(old(State()), Some(frame), canvasMounted, contextAvailable,
                                      Snapshot(old(audioEnabled), old(lastAlert)))
      ensures old(isStreaming) ==>
                var frame := if old(mode).Camera? then cameraFrame else fileFrame;
                var took := Proceeds(old(processing), Some(frame), canvasMounted);
                started == old(started) + (if took then 1 else 0) &&
                finished == old(finished) + (if took && !contextAvailable then 1 else 0)
    {
      if isStreaming {
        var source := if mode.Camera? then Some(cameraFrame) else if FileVideoShown() then Some(fileFrame) else None;
        ProcessFrame(source, canvasMounted, contextAvailable, Snapshot(audioEnabled, lastAlert));
      }
    }

    /** The Re-scan button under an uploaded image. */
    method Rescan(image: Size, canvasMounted: bool, contextAvailable: bool)
      requires Valid()
      modifies this
      ensures Valid()
      ensures State() == StartFrame(old(State()), if old(ImageShown()) then Some(image) else None,
                                    canvasMounted, contextAvailable, Snapshot(old(audioEnabled), old(lastAlert)))
      ensures var took := Proceeds(old(processing), if old(ImageShown()) then Some(image) else None, canvasMounted);
              started == old(started) + (if took then 1 else 0) &&
              finished == old(finished) + (if took && !contextAvailable then 1 else 0)
    {
      ProcessFrame(if ImageShown() then Some(image) else None, canvasMounted, contextAvailable,
                   Snapshot(audioEnabled, lastAlert));
    }

    /** The 500 ms timer set by an image upload fires: it runs the
        processFrame of the render that handled the upload. */
    method ImageScanDue(image: Size, canvasMounted: bool, contextAvailable: bool)
      requires Valid() && |pendingImageScans| > 0
      modifies this
      ensures Valid()
      ensures State() == StartFrame(old(State()).(pendingImageScans := old(pendingImageScans[1..])),
                                    if old(ImageShown()) then Some(image) else None,
                                    canvasMounted, contextAvailable, old(pendingImageScans[0]))
      ensures var took := Proceeds(old(processing), if old(ImageShown()) then Some(image) else None, canvasMounted);
              started == old(started) + (if took then 1 else 0) &&
              finished == old(finished) + (if took && !contextAvailable then 1 else 0)
    {
      var seen := pendingImageScans[0];
      pendingImageScans := pendingImageScans[1..];
      ProcessFrame(if ImageShown() then Some(image) else None, canvasMounted, contextAvailable, seen);
    }

    /** The toBlob callback: without a blob the guard is released, otherwise
        the frame is posted. */
    method BlobReady(blobCreated: bool)
      requires Valid() && flight.Encoding?
      modifies this
      ensures Valid()
      ensures blobCreated ==> State() == old(State()).(flight := Awaiting(old(flight.seen)))
      ensures !blobCreated ==> State() == old(State()).(processing := false, flight := NoRequest)
      ensures finished == old(finished) + (if blobCreated then 0 else 1) && started == old(started)
    {
      if blobCreated {
        flight := Awaiting(flight.seen);
      } else {
        processing := false;
        flight := NoRequest;
        finished := finished + 1;
      }
    }

    /** The fetch resolved with a status: ok with a parsable body, ok with a
        body that fails to parse (the catch), or not ok. */
    method Respond(ok: bool, body: Option<Reply>)
      requires Valid() && flight.Awaiting?
      modifies this
      ensures Valid()
      ensures State() == Complete(old(State()), if !ok then NotOk else if body.None? then Threw else Answered(body.value))
      ensures finished == old(finished) + 1 && started == old(started)
    {
      var outcome := if !ok then NotOk else if body.None? then Threw else Answered(body.value);
      Finish(outcome);
    }

    /** The fetch rejected (network failure). */
    method Fail()
      requires Valid() && flight.Awaiting?
      modifies this
      ensures Valid()
      ensures State() == Complete(old(State()), Threw)
      ensures finished == old(finished) + 1 && started == old(started)
    {
      Finish(Threw);
    }

    method Finish(outcome: Outcome)
      requires Valid() && flight.Awaiting?
      modifies this
      ensures Valid()
      ensures State() == Complete(old(State()), outcome)
      ensures finished == old(finished) + 1 && started == old(started)
    {
      var seen := flight.seen;
      Release();
      match outcome {
        case Answered(reply) =>
          Show(reply.detections);
          if ShouldAnnounce(seen, reply.alertMessage) {
            Announce(reply.alertMessage.value);
          }
        case NotOk =>
          serverStatus := Offline;
        case Threw =>
          serverStatus := Offline;
      }
    }

    /** The `finally`: the guard is released. */
    method Release()
      requires Valid() && processing
      modifies this
      ensures Valid()
      ensures State() == old(State()).(processing := false, flight := NoRequest)
      ensures finished == old(finished) + 1 && started == old(started)
    {
      processing := false;
      flight := NoRequest;
      finished := finished + 1;
    }

    /** The server's detections are shown and it is marked online. */
    method Show(dets: seq<Detection>)
      requires Valid()
      modifies this
      ensures Valid()
      ensures State() == old(State()).(detections := dets, serverStatus := Online)
      ensures started == old(started) && finished == old(finished)
    {
      detections := dets;
      serverStatus := Online;
    }

    /** The alert is spoken, shown, and a 2.5 s timer to clear it is set. */
    method Announce(m: string)
      requires Valid()
      modifies this
      ensures Valid()
      ensures State() == old(State()).(spoken := old(spoken) + [m], lastAlert := m,
                                       pendingAlertResets := old(pendingAlertResets) + 1)
      ensures started == old(started) && finished == old(finished)
    {
      spoken := spoken + [m];
      lastAlert := m;
      pendingAlertResets := pendingAlertResets + 1;
    }

    /** A 2.5 s timer set after an announcement fires. */
    method AlertExpire()
      requires Valid() && pendingAlertResets > 0
      modifies this
      ensures Valid()
      ensures State() == old(State()).(lastAlert := "", pendingAlertResets := old(pendingAlertResets) - 1)
      ensures started == old(started) && finished == old(finished)
    {
      lastAlert := "";
      pendingAlertResets := pendingAlertResets - 1;
    }

    /** stopCamera: the stream, if any, is released; streaming stops and
        the status indicator returns to idle. */
    method StopCamera()
      requires Valid()
      modifies this
      ensures Valid()
      ensures State() == old(State()).(cameraAttached := false, isStreaming := false, serverStatus := Idle)
      ensures started == old(started) && finished == old(finished)
    {
      cameraAttached := false;
      isStreaming := false;
      serverStatus := Idle;
    }

    /** The Live Camera and Upload File tabs. */
    method SelectTab(m: Mode)
      requires Valid()
      modifies this
      ensures Valid()
      ensures State() == old(State()).(mode := m, cameraAttached := false, isStreaming := false,
                                       serverStatus := Idle, detections := [])
      ensures started == old(started) && finished == old(finished)
    {
      StopCamera();
      mode := m;
      detections := [];
    }

    /** handleFileUpload: `file` is the chosen file's MIME type, None when
        the picker returned no file; `url` the object URL made for it. */
    method HandleFileUpload(file: Option<string>, url: string)
      requires Valid()
      modifies this
      ensures Valid()
      ensures file.None? ==> State() == old(State())
      ensures file.Some? ==>
                var cleared := old(State()).(detections := [], lastAlert := "", fileUrl := Some(url));
                match KindOf(file.value)
                case Some(Image) =>
                  State() == cleared.(fileType := Some(Image), isStreaming := false,
                                      pendingImageScans := old(pendingImageScans) + [Snapshot(old(audioEnabled), old(lastAlert))])
                case Some(Video) => State() == cleared.(fileType := Some(Video), isStreaming := false)
                case None => State() == cleared
      ensures started == old(started) && finished == old(finished)
    {
      if file.None? {
        return;
      }
      var seen := Snapshot(audioEnabled, lastAlert);
      OpenFile(url);
      match KindOf(file.value) {
        case Some(Image) => ShowImage(seen);
        case Some(Video) => ShowVideo();
        case None =>
      }
    }

    /** A new file replaces the old one: detections and the alert are cleared. */
    method OpenFile(url: string)
      requires Valid()
      modifies this
      ensures Valid()
      ensures State() == old(State()).(detections := [], lastAlert := "", fileUrl := Some(url))
      ensures started == old(started) && finished == old(finished)
    {
      detections := [];
      lastAlert := "";
      fileUrl := Some(url);
    }

    /** An image is shown and scanned once, 500 ms later. */
    method ShowImage(seen: Snapshot)
      requires Valid() && fileUrl.Some?
      modifies this
      ensures Valid()
      ensures State() == old(State()).(fileType := Some(Image), isStreaming := false,
                                       pendingImageScans := old(pendingImageScans) + [seen])
      ensures started == old(started) && finished == old(finished)
    {
      fileType := Some(Image);
      isStreaming := false;
      pendingImageScans := pendingImageScans + [seen];
    }

    /** A video is shown, paused until the user presses play. */
    method ShowVideo()
      requires Valid() && fileUrl.Some?
      modifies this
      ensures Valid()
      ensures State() == old(State()).(fileType := Some(Video), isStreaming := false)
      ensures started == old(started) && finished == old(finished)
    {
      fileType := Some(Video);
      isStreaming := false;
    }

    /** The Play & Detect / Pause button: flips streaming when an uploaded
        video is shown, and does nothing otherwise. */
    method ToggleVideoPlayback()
      requires Valid()
      modifies this
      ensures Valid()
      ensures old(FileVideoShown()) ==> State() == old(State()).(isStreaming := !old(isStreaming))
      ensures !old(FileVideoShown()) ==> State() == old(State())
      ensures started == old(started) && finished == old(finished)
    {
      if FileVideoShown() {
        isStreaming := !isStreaming;
      }
    }

    method ToggleAudio()
      requires Valid()
      modifies this
      ensures Valid()
      ensures State() == old(State()).(audioEnabled := !old(audioEnabled))
      ensures started == old(started) && finished == old(finished)
    {
      audioEnabled := !audioEnabled;
    }

    /** startCamera once the permission request settles: a granted stream is
        attached to the camera video when it is shown; a refusal is spoken. */
    method StartCamera(granted: bool)
      requires Valid()
      modifies this
      ensures Valid()
      ensures !granted ==> State() == old(State()).(spoken := old(spoken) + [CameraError])
      ensures granted && old(mode).Camera? ==> State() == old(State()).(cameraAttached := true)
      ensures granted && old(mode).Upload? ==> State() == old(State())
      ensures started == old(started) && finished == old(finished)
    {
      if !granted {
        spoken := spoken + [CameraError];
      } else if mode.Camera? {
        cameraAttached := true;
      }
    }

    /** The camera video's metadata loaded: streaming starts. */
    method CameraMetadataLoaded()
      requires Valid() && cameraAttached
      modifies this
      ensures Valid()
      ensures State() == old(State()).(isStreaming := true, serverStatus := Connecting,
                                       spoken := old(spoken) + [CameraStarted])
      ensures started == old(started) && finished == old(finished)
    {
      isStreaming := true;
      serverStatus := Connecting;
      spoken := spoken + [CameraStarted];
    }
  }
}

# Traffic-safety assistant: verified model of its decision logic

The system helps a pedestrian cross a road. A web client samples frames from the camera or from an uploaded file and posts each one to a Flask endpoint, `/detect`. The endpoint runs an object detector and returns the detections, plus at most one alert message. The message is null when there is neither danger nor a traffic light, and the client may speak it. Otherwise it is one of:

- a vehicle is inside the danger zone in front of the user;
- the traffic light is green;
- the traffic light is red.

The client draws the boxes over the picture and speaks new alerts. A history page lists past sessions, and the user can delete them there.

The model has four modules.

- `Server` (`server.dfy`) models everything `detect_frame` does around the detector call:
  - the validation errors with their HTTP status;
  - the downscale decision, which caps the longer side at 1280;
  - the danger-zone trapezoid and the point-in-zone test, with the boundary counted as inside;
  - traffic-light tracking over the boxes in order;
  - scaling boxes back to the uploaded resolution, with truncation toward zero;
  - the fixed alert priority: danger, then green, then red, then none.

  The box loop is a method with loop invariants. It is proved against three left-fold specification functions (`DetectionsOf`, `AnyDanger`, `TrafficAfter`). Separate lemmas prove what those functions mean: one entry per box in order, danger if and only if some vehicle's bottom centre is in the zone, and the status given by the last light seen.
- `DetectionPage` (`detection_page.dfy`) models the detection page as a class `Page` whose fields are the page's state cells and the in-flight guard `processingRef`. Each browser callback is one method:
  - `Tick` is one 100 ms tick of the interval;
  - `ImageScanDue` is the 500 ms timer set by an image upload;
  - `BlobReady` is the `toBlob` callback;
  - `Respond` and `Fail` are the completion of the fetch;
  - `AlertExpire` is the 2.5 s timer that clears the alert;
  - `StartCamera` and `CameraMetadataLoaded` are the camera permission and the metadata load.

  `Valid()` holds in every state. It says that the guard is held exactly while a `toBlob` or fetch callback is pending, so at most one request is ever in flight. It also says that streaming always has a live source. The synchronous half of `processFrame` is the pure function `StartFrame`, and the completion is the pure function `Complete`. The methods are proved to compute exactly those functions on the state.

  The alert de-duplication compares against the `audioEnabled` and `lastAlert` that the `processFrame` closure captured when it was created. An image upload schedules the scan with the closure that was current before the upload cleared `lastAlert`. The model keeps both snapshots (`Flight.seen`, `pendingImageScans`).

  `RenderBoxes` and `Overlay` are the pure scaling of boxes from source pixels to container pixels, over `real`.
- `HistoryPage` (`history_page.dfy`) models the history page:
  - the delete-by-id filter `Without`, with lemmas for order, counts, absent ids and idempotence;
  - the source label;
  - a class `Page` whose `history`, `loading` and `error` cells are updated by the load and delete outcomes.

  A delete filters the list held by the render in which it was clicked, not the list current when it settles. So two deletes clicked before either settles each write back their own filtered copy of the same list. The one that settles last brings back the item the other removed. `OverlappingDeletes` shows this.
- `Wrappers` (`wrappers.dfy`) provides `Option`, which stands for `None` and `null`.

## Model

| member | source | states |
|---|---|---|
| Server.Validate | Backend/server.py:36-67 | Each rejection has its own result. No `file` part gives 400 "No file part". An empty filename gives 400 "No selected file". An image that does not decode gives 400 "Failed to decode image". An exception while reading gives 500 "Processing error: " plus its text, and so does a resize to an empty side. Every rejection is 400 or 500. A request is accepted exactly when a named file decodes and resizing does not produce an empty side. The accepted frame is `Resize` of the decoded size. |
| Server.Resize | Backend/server.py:52-64 | The frame is left as is exactly when both sides are at most 1280. Otherwise the scale is 1280 over the longer side, and both sides are multiplied by that one factor and truncated. Both results are at most 1280, and the longer side becomes exactly 1280. |
| Server.TruncDiv | Backend/server.py:104-107 | `int()` of an exact quotient by a positive divisor truncates toward zero, for a numerator of either sign. |
| Server.ScaleBack | Backend/server.py:101-107 | A coordinate is unchanged when the frame was not resized. Otherwise it is divided by the scale factor and truncated toward zero, for either sign. |
| Server.ScaleBackWithinFrame | Backend/server.py:103-107 | A coordinate inside the processed frame scales back to a coordinate inside the uploaded frame. |
| Server.ShrinkThenScaleBack | Backend/server.py:103-107 | Shrinking an uploaded coordinate and scaling it back never overshoots. It falls short by less than longest/1280 + 1 pixels. |
| Server.DangerZone | Backend/server.py:70-75 | The zone is a trapezoid on the processed frame. Its bottom edge lies on the bottom of the frame, and it stays within the frame's width. |
| Server.InZone | Backend/server.py:94 | `cv2.pointPolygonTest(pts, (cx, cy), False) >= 0` on the danger trapezoid: the point lies between the two horizontal edges and on the inner side of both slanted edges, each side test as an integer cross product, with the boundary counted as inside. |
| Server.TrapezoidCorners | Backend/server.py:94 | Boundary points count as inside (the `>= 0` of the polygon test): every corner of such a trapezoid is in it. |
| Server.CornersInZone | Backend/server.py:70-75 | The four vertices of the danger zone are in the zone. |
| Server.BottomCentreInZone | Backend/server.py:70-75 | A vehicle straight ahead at the bottom centre of the frame is in the zone. |
| Server.VehicleIsListed | Backend/server.py:29-32 | The vehicle test holds exactly for the ids in `CLASS_IDS["VEHICLES"]`. |
| Server.BottomCentre | Backend/server.py:93 | The tested point is the box's bottom centre, with `//` (floor) on the x sum. |
| Server.NextTraffic | Backend/server.py:92-99 | Only a light box changes the status. A red light sets RED and a green light sets GREEN. |
| Server.TrafficWithoutLights | Backend/server.py:82-99 | With no red or green light box among the boxes, the status stays NONE. |
| Server.TrafficAfterLightAt | Backend/server.py:82-99 | A light box with no later light box decides the status: RED for a red light and GREEN for a green one. |
| Server.TrafficIsLastLight | Backend/server.py:82-99 | The status after all boxes is NONE when there is no light box. Otherwise it is the colour of the last light box in iteration order. |
| Server.NatToString | Backend/server.py:89 | `str(class_id)` is a non-empty string of decimal digits with no leading zero: it starts with `0` only when it is `"0"` for zero. |
| Server.NatToStringValue | Backend/server.py:89 | The digits of `str(n)` denote n. |
| Server.ClassName | Backend/server.py:89 | With model names, the class name is `names[class_id]`. Without them, it is `str(class_id)`: a non-empty digit string with no leading zero (zero is exactly `"0"`) that denotes the id. |
| Server.ToDetection | Backend/server.py:101-113 | An entry keeps the box's confidence. With no resize, its bbox is the detector's integer box. |
| Server.DetectionsOfAt | Backend/server.py:84-113 | There is exactly one detection per box, in iteration order, and entry k is box k, converted. |
| Server.AnyDangerIff | Backend/server.py:81-95 | `danger_detected` holds exactly when some vehicle box has its bottom centre in the zone. |
| Server.Snoc | Backend/server.py:84-113 | Handling one more box extends each of the three accumulators by that box alone. |
| Server.ProcessBox | Backend/server.py:86-113 | The loop body appends this box's entry. It raises danger exactly when this box endangers, and it updates the status by this box. |
| Server.ProcessBoxes | Backend/server.py:80-113 | The loop returns the detections of all boxes in order, danger if and only if some vehicle box is in the zone, and the status after all boxes. |
| Server.AlertMessage | Backend/server.py:115-122 | Each message corresponds to exactly one condition. "Stop! Vehicle ahead." if and only if there is danger. The green message if and only if there is no danger and the status is GREEN. The red message if and only if there is no danger and the status is RED. No message if and only if there is no danger and no light. |
| Server.DetectFrame | Backend/server.py:35-127 | A rejected request gets its status and message. An accepted one gets one entry per box in order, plus the alert chosen from danger in the zone of the processed frame and from the last light. |
| DetectionPage.KindOf | Frontend/src/pages/DetectionPage.tsx:79-87 | The upload handler picks image exactly for an `image/` prefix, video exactly for a `video/` prefix, and neither otherwise. |
| DetectionPage.StartFrame | Frontend/src/pages/DetectionPage.tsx:103-150 | processFrame starts a request only when all of these hold: a source exists, the canvas is mounted, no request is in flight, both source sides are non-zero, and a 2D context exists. A new request starts only with the guard free. Otherwise nothing changes. |
| DetectionPage.ShouldAnnounce | Frontend/src/pages/DetectionPage.tsx:134 | An alert is spoken only when audio was on, the message is present and non-empty, and it differs from the last alert, with audio and the last alert as the processFrame closure captured them. |
| DetectionPage.Complete | Frontend/src/pages/DetectionPage.tsx:127-146 | The guard is released on every outcome. An ok body replaces the detections and sets online. A non-ok status or an exception sets offline and keeps the detections. An alert is spoken and stored, with an expiry pending, exactly when audio was on, the message is non-empty and it differs from the captured `lastAlert`. |
| DetectionPage.PlaceCovers | Frontend/src/pages/DetectionPage.tsx:168-178 | A placed box spans exactly x1·cw/sw to x2·cw/sw across and y1·ch/sh to y2·ch/sh down. |
| DetectionPage.RenderBoxes | Frontend/src/pages/DetectionPage.tsx:166-186 | Nothing is drawn when a source side is 0. Otherwise there is one rectangle per detection, in order, each covering its scaled box. |
| DetectionPage.RenderBoxesInvertible | Frontend/src/pages/DetectionPage.tsx:171-178 | For a container of non-zero size, each rectangle maps back exactly to its detection's bbox. |
| DetectionPage.RenderExample | Frontend/src/pages/DetectionPage.tsx:166-178 | Source 640×480 shown at 320×240 puts bbox [100,100,200,200] at (50,50) with size 50×50. |
| DetectionPage.OverlaySource | Frontend/src/pages/DetectionPage.tsx:189-207 | The measured element is the camera in camera mode. In upload mode it is the shown video or image, and there is none when no file is shown. |
| DetectionPage.Overlay | Frontend/src/pages/DetectionPage.tsx:189-211 | Boxes are drawn exactly when there is a measured element with both intrinsic sides non-zero. They are then scaled from the intrinsic size to the displayed size. |
| DetectionPage.Page.constructor | Frontend/src/pages/DetectionPage.tsx:25-35 | The page starts in camera mode, not streaming, with audio on, no detections, status idle, no alert and the guard free. |
| DetectionPage.Page.ProcessFrame | Frontend/src/pages/DetectionPage.tsx:103-150 | The state becomes `StartFrame` of the old state. A request is counted as started exactly when the guard was taken, and as finished at once when there was no context. |
| DetectionPage.Page.Acquire | Frontend/src/pages/DetectionPage.tsx:112-150 | The guard is taken and one request is counted as started. With a 2D context the toBlob callback is awaited with the closure's snapshot. Without one the guard is released at once and the request is counted as finished. |
| DetectionPage.Page.Tick | Frontend/src/pages/DetectionPage.tsx:154-162 | A frame is sampled only while streaming. Otherwise nothing changes. The sample is the camera video's size in camera mode and the uploaded video's size otherwise. A request is counted as started exactly when the guard was taken. |
| DetectionPage.Page.Rescan | Frontend/src/pages/DetectionPage.tsx:320-324 | Re-scan runs processFrame on the shown image. |
| DetectionPage.Page.ImageScanDue | Frontend/src/pages/DetectionPage.tsx:83 | The upload's 500 ms timer runs processFrame with the snapshot captured at upload time. |
| DetectionPage.Page.BlobReady | Frontend/src/pages/DetectionPage.tsx:121-128 | A null blob releases the guard. Otherwise the request is awaited. |
| DetectionPage.Page.Respond | Frontend/src/pages/DetectionPage.tsx:128-146 | An ok parsed body, an unparsable body and a non-ok status each give `Complete` of the matching outcome, and the request is counted as finished. |
| DetectionPage.Page.Fail | Frontend/src/pages/DetectionPage.tsx:142-146 | A rejected fetch leaves the page offline with the guard released. |
| DetectionPage.Page.Finish | Frontend/src/pages/DetectionPage.tsx:129-146 | The handler's try/catch/finally computes `Complete`. |
| DetectionPage.Page.Release | Frontend/src/pages/DetectionPage.tsx:144-146 | The `finally` frees the guard and changes nothing else. |
| DetectionPage.Page.Show | Frontend/src/pages/DetectionPage.tsx:131-132 | The response's detections replace the old ones and the status becomes online. |
| DetectionPage.Page.Announce | Frontend/src/pages/DetectionPage.tsx:134-138 | The alert is spoken and stored, and one more expiry is pending. |
| DetectionPage.Page.AlertExpire | Frontend/src/pages/DetectionPage.tsx:137 | An expiry resets `lastAlert` to "". |
| DetectionPage.Page.StopCamera | Frontend/src/pages/DetectionPage.tsx:57-64 | Afterwards streaming is off, the status is idle and no stream is attached. Nothing else changes. |
| DetectionPage.Page.SelectTab | Frontend/src/pages/DetectionPage.tsx:228-236 | A tab switch sets the mode, stops the camera and clears the detections. |
| DetectionPage.Page.HandleFileUpload | Frontend/src/pages/DetectionPage.tsx:67-88 | With no file, nothing changes. Otherwise the detections and alert are cleared and the URL is set. An image sets the type, stops streaming and schedules one scan. A video sets the type and stops streaming. Any other type keeps the old file type. |
| DetectionPage.Page.OpenFile | Frontend/src/pages/DetectionPage.tsx:71-77 | A new file clears the detections and the alert and takes the new URL. |
| DetectionPage.Page.ShowImage | Frontend/src/pages/DetectionPage.tsx:79-83 | An image upload sets the image type, stops streaming and queues one scan. |
| DetectionPage.Page.ShowVideo | Frontend/src/pages/DetectionPage.tsx:84-87 | A video upload sets the video type and stops streaming. |
| DetectionPage.Page.ToggleVideoPlayback | Frontend/src/pages/DetectionPage.tsx:90-100 | Streaming flips when an uploaded video is shown. Otherwise nothing changes. |
| DetectionPage.Page.ToggleAudio | Frontend/src/pages/DetectionPage.tsx:328 | The audio switch flips, and nothing else changes. |
| DetectionPage.Page.StartCamera | Frontend/src/pages/DetectionPage.tsx:38-55 | A refusal speaks the camera error. A granted stream is attached only while the camera video is shown. |
| DetectionPage.Page.CameraMetadataLoaded | Frontend/src/pages/DetectionPage.tsx:45-49 | Streaming starts, the status becomes connecting, and "Camera started." is spoken. |
| HistoryPage.SourceLabel | Frontend/src/pages/HistoryPage.tsx:159 | The label is "Live Camera" if and only if the URL is "camera-stream", and "Uploaded Video" if and only if it is not. |
| HistoryPage.Without | Frontend/src/pages/HistoryPage.tsx:65 | After deleting `id`, no remaining item has that id, and the list does not grow. |
| HistoryPage.WithoutAppend | Frontend/src/pages/HistoryPage.tsx:65 | The filter distributes over concatenation, so kept items stay in their original relative order. |
| HistoryPage.WithoutCounts | Frontend/src/pages/HistoryPage.tsx:65 | Every item with a different id is kept as often as it occurred. Items with the deleted id are gone. |
| HistoryPage.WithoutAbsent | Frontend/src/pages/HistoryPage.tsx:65 | Deleting an id that no item has leaves the list unchanged. |
| HistoryPage.WithoutIdempotent | Frontend/src/pages/HistoryPage.tsx:65 | Deleting twice is the same as deleting once. |
| HistoryPage.Page.constructor | Frontend/src/pages/HistoryPage.tsx:25-27 | The page starts with an empty list, loading, no error and no delete in flight. |
| HistoryPage.Page.FetchHistory | Frontend/src/pages/HistoryPage.tsx:36-38 | Loading starts and nothing else changes. |
| HistoryPage.Page.FetchSettled | Frontend/src/pages/HistoryPage.tsx:39-53 | The returned rows, or [] for no data, replace the list. A store error keeps the list and sets "Failed to load detection history". Either way loading is false afterwards. |
| HistoryPage.Page.DeleteHistory | Frontend/src/pages/HistoryPage.tsx:56-61 | A click starts a delete of that id that holds the list of the current render. Nothing visible changes yet. |
| HistoryPage.Page.DeleteSettled | Frontend/src/pages/HistoryPage.tsx:63-70 | A successful delete replaces the history by the held list with the id filtered out, and speaks "History item deleted". A failed one keeps the list and sets "Failed to delete history item". Either way that delete is no longer in flight. |
| HistoryPage.OverlappingDeletes | Frontend/src/pages/HistoryPage.tsx:56-71 | Deleting a and then b from [a, b] on the same render, with both successful, leaves [a]: the first deleted item is back. |

## Left out

- The detector (`model(...)`), `cv2.imdecode` and the torch `load` patch are inputs. The boxes come in as a list. The decoded size, or the decoding failure, comes in as `Decoding`.
- `results` is modelled as one result. For a single image the detector returns one `results` entry, so the nested loop equals one loop over that entry's boxes.
- `cv2.resize` itself is out. Only the size it produces is modelled, plus the exception it raises for an empty destination size. That exception's text is represented by a placeholder constant.
- Server.Resize: the float factor `1280 / max(w,h)` and `int(d * factor)` are modelled as exact rational arithmetic, `d*1280/m` with floor. It is not claimed that floating-point truncation always gives the same integer.
- Server.ScaleBack: `int(x / scale_factor)` is modelled as exact truncation of `x*m/1280`. It is not claimed that the float computation agrees.
- Server.DangerZone: `int(width * 0.20)` and the similar terms are modelled as `width*20/100`, with the same non-claim about floats.
- `cv2.pointPolygonTest` is replaced by the integer predicate `InZone`, which counts the boundary as inside.
- Server.ToDetection: confidence values are opaque and only copied. So are the client's `Math.round(confidence*100)` labels.
- Server.DetectFrame: the detector's class names are a precondition (`NamesCover`). Python would raise `KeyError`, and with it an HTTP 500, for an unnamed class when names exist; that error path is not modelled.
- Network and browser plumbing are only events: `fetch`, JPEG encoding in `toBlob`, `getUserMedia`, stopping tracks, `URL.createObjectURL` and `revokeObjectURL`, and `play()`/`pause()`.
- Timers are events rather than wall-clock time: the 100 ms interval, the 500 ms image scan and the 2.5 s alert expiry.
- `speak` (useVoiceFeedback.ts) is modelled as appending to `spoken`, and the speech API itself is out. So is the hover speech of the page markup.
- DetectionPage.Page.StartCamera: an attached stream stands for `srcObject`. The requested camera constraints are not modelled.
- The Supabase queries are out; their outcome is a parameter. So are the hosted auth, the `user` effect that triggers the fetch, and `formatDate`.
- The UI-only files are out: HomePage.tsx, AboutPage.tsx, LoginPage.tsx, ThemeToggle.tsx, and the markup and styling of the two modelled pages.

# Capture node camera and websocket router, modelled in Dafny

The capture node of the AVA capture system drives a set of cameras.

Each camera receives frames from its driver. It keeps two live preview
buffers (a small rendered preview and a full-resolution one) and estimates
its effective framerate. On request it records a take: every accepted frame
goes to a list of recorder sinks, and a summary is kept when the take ends.

A take has three phases:
1. It can wait for an external trigger, read as a gap of more than 0.2 s
   between frames, within a 3 s budget.
2. It accepts frames once the wait is over.
3. It stops by itself when a frame limit is set and reached.

The node also runs a websocket server. Its `on_message` handler answers
`capture/<camera id>/large_preview` and `capture/<camera id>/preview` with
base64 JPEG text.

The model has these files:
- `camera.dfy` (module `Cameras`): the `Camera` class. Its fields are the
  camera's member variables and its methods are the C++ methods, each with a
  contract. The class invariant `Valid()` states the recorder-list shape:
  - a recording camera has exactly two distinct open sinks, primary first and
    metadata second, and is not closing;
  - an idle camera has none;
  - a take with a frame limit has not reached it yet.

  The invariant is what makes `m_recorders[0]` in the frame-limit check safe.
- `recorder.dfy` (module `Recorder`): the recorder sinks, as a `Sink` class
  with a kind, the appended entries, a closed flag and the queue depths it
  reports. It also holds the "last strictly positive report" rule for the
  camera's buffer counters.
- `trigger_wait.dfy` (module `TriggerWait`): the trigger-wait step as a pure
  function, with lemmas about runs of frames.
- `moving_average.dfy` (module `MovingAverage`): a bounded window of
  instantaneous rates whose mean is the effective framerate.
- `preview.dfy` (module `Preview`): how the display mode is chosen, which
  picture each preview buffer receives, and the histogram bar shading.
- `ws_router.dfy` (module `WsRouter`): `boost::split` with `token_compress_on`
  and `on_message`, as pure functions. It includes the router as written and
  the router as evidently intended (see Findings).
- `wrappers.dfy`: an `Option` type.

## Model

| member | source | states |
|---|---|---|
| Cameras.Camera.constructor | capture-node/source/cameras.cpp:20-47 | A new camera has model "unknown", an empty version, framerate 24, 320x200, 8 bits, frame limit -1, image counter 0 and fps 0. Hardware sync and all display flags are off, and both buffer counters are 0. It is idle with no sinks, previews or summary. The wait budget, run start, last timestamp and black levels are 0, and the timeout and closing flags are off. It satisfies the class invariant. |
| Cameras.Camera.GotFrameTimeout | capture-node/source/cameras.cpp:62-65 | The effective framerate becomes 0; nothing else changes. |
| Cameras.Camera.GotImage | capture-node/source/cameras.cpp:67-331 | A frame with a channel count other than 1 leaves the camera and its sinks untouched, image counter included. Any other frame adds exactly 1 to the image counter. Its timing follows NextTiming. The framerate window and fps change only for a positive gap. An idle camera refreshes both previews and stays idle with no sinks. Its trigger fields, first frame and its black level, summary, closing and hold flags and both buffer counters are unchanged. A recording camera leaves the previews alone and advances the trigger wait by TriggerWait.Step. While the wait goes on, the sinks, first frame, black level, summary, hold and counters are unchanged. Once the wait is over, it appends the frame with its relative timestamp to every sink, and the first frame and its black level are set if none was kept. When that append brings the primary sink to a positive frame limit, the same call ends the take. The camera is then idle with no sinks, the hold off, the closing flag raised and both counters 0, and both old sinks are closed. Its summary carries the camera id, the camera section and ThumbnailFor of the first frame and the small preview. Its sections are [image sequence with exactly the limit, metadata with its old count plus one]. Otherwise the take goes on with the same sinks, summary and hold, and each counter is unchanged or strictly positive. The class invariant is preserved, including across the automatic stop. |
| Cameras.RawTimestamp | capture-node/source/cameras.cpp:82 | A positive driver timestamp is used as is; otherwise the wall-clock reading is used. |
| Cameras.NextTiming | capture-node/source/cameras.cpp:83-93 | The first frame (counter 0) starts the run clock: relative time 0 and gap 0. Any later frame keeps the start, is measured from it, and its relative time is the previous relative time plus its gap. |
| Cameras.Camera.StampFrame | capture-node/source/cameras.cpp:82-93 | The returned timing is NextTiming of the old counter, start, last timestamp and raw timestamp. The run start becomes its start and the last timestamp becomes its relative time. |
| Cameras.Camera.UpdateFramerate | capture-node/source/cameras.cpp:91-98 | For a positive gap, 1/dt is pushed into the bounded window and fps becomes the window mean; otherwise both are unchanged. |
| Cameras.Camera.Ingest | capture-node/source/cameras.cpp:82-98 | Stamping, the framerate update and the counter increment of one single-channel frame together: counter +1, the timing of NextTiming, and the window and fps rule of UpdateFramerate. The window stays within its capacity. |
| Cameras.Camera.Route | capture-node/source/cameras.cpp:101-325 | An idle camera refreshes both previews and keeps its trigger fields, first frame and black level, summary, closing and hold flags and buffer counters. A recording camera keeps its previews and steps the trigger wait. While still waiting it keeps its sinks (same objects, same contents), first frame, black level, summary, hold and counters. Once the wait is over it appends the frame to every sink and keeps the first frame if there was none. It stops the take exactly when that append reaches a positive frame limit. The camera is then idle with no sinks, the hold off, the closing flag raised and both counters 0, and both old sinks are closed. Its summary carries the camera id, the camera section and ThumbnailFor of the first frame and the small preview. Its sections are [image sequence with exactly the limit, metadata with its old count plus one]. Otherwise the sinks, summary and hold are kept and each counter is unchanged or strictly positive. The invariant is preserved. |
| Cameras.Camera.RefreshPreviews | capture-node/source/cameras.cpp:101-273 | The small preview becomes the frame rendered in the mode selected by precedence. The large preview becomes LargePreviewOf that mode: the overlay in focus-peak and overexposed modes, the raw frame otherwise. The large preview's black point is the frame's black level. The rendered picture records the black level in every mode, though only the normal rendering uses it, for debayering. |
| Cameras.Camera.Record | capture-node/source/cameras.cpp:279-325 | The trigger fields become TriggerWait.Step of their old values, the hold and the gap. While still waiting, the sinks (objects and contents), first frame, black level, summary, hold and counters are unchanged. Once not waiting, both sinks get the entry appended, and the first frame and its black level are kept if there was none. The take ends when the primary sink reaches the frame limit. The camera is then idle with no sinks, the hold off, the closing flag raised and both counters 0, and both old sinks are closed. Its summary carries the camera id, the camera section and ThumbnailFor of the first frame and the small preview. Its sections are [image sequence with exactly the limit, metadata with its old count plus one]. Otherwise the take goes on with the same sinks, summary and hold, and each counter is unchanged or strictly positive. |
| Cameras.Camera.WaitForTrigger | capture-node/source/cameras.cpp:283-299 | The trigger fields as a value become TriggerWait.Step of their old value, the hold and the gap. |
| Cameras.Camera.Accept | capture-node/source/cameras.cpp:301-320 | The entry is appended to both sinks and the recording shape is kept. The first frame and its black level are set only when none was kept yet. Each buffer counter is unchanged or strictly positive. |
| Cameras.Camera.KeepFirstFrame | capture-node/source/cameras.cpp:304-308 | The first frame and its black level are set only when empty; otherwise both are unchanged. |
| Cameras.Camera.Accumulate | capture-node/source/cameras.cpp:311-319 | Each sink receives exactly one append of the entry, in list order, and stays open. Each buffer counter ends as LastPositive of its old value and the reports read from the sinks in list order, one per sink. So each counter is either unchanged or strictly positive. Each report stands for one read of the depth used for both the test and the assignment (see "## Left out"). |
| Cameras.Camera.CheckFrameLimit | capture-node/source/cameras.cpp:323-324 | When a frame limit is set and the primary sink holds that many frames, the camera stops through StopRecording. It ends idle, not waiting, hold off, closing flag raised, no sinks and both counters 0. Both old sinks are closed with their entries kept. The summary carries the camera id, the camera section and ThumbnailFor of the first frame and the small preview. Its sections are [image sequence with exactly the limit, metadata with its count]. Otherwise nothing changes. |
| Cameras.Camera.RemoveRecordingHold | capture-node/source/cameras.cpp:333-336 | The trigger hold is released; nothing else changes. |
| Cameras.Camera.StartRecording | capture-node/source/cameras.cpp:338-364 | While recording it changes nothing. Otherwise it creates exactly two fresh, empty sinks, [image sequence if nb_frames > 0 else movie, metadata], for the camera and the folders. It clears the first frame and the summary and sets the frame limit to nb_frames and both buffer counters to 0. The timeout and closing flags are cleared, recording is set, the wait budget is 3.0, the hold is on, and waiting is set to the requested value. |
| Cameras.PrimarySinkKind | capture-node/source/cameras.cpp:349-352 | The primary sink is an image sequence exactly when a positive frame limit is given, a movie otherwise. |
| Cameras.Camera.ArmTake | capture-node/source/cameras.cpp:343-361 | The take fields are set to the values listed for StartRecording: the frame limit, first frame, summary and buffer counters of lines 343-347, and the timeout, closing, recording, wait budget, hold and wait fields of lines 356-361. |
| Cameras.Camera.StopRecording | capture-node/source/cameras.cpp:366-446 | The last summary is cleared even on an idle camera, whose other fields stay as they were. A recording camera ends idle with no sinks. Its flags and buffer counters are cleared and each old sink is closed with its entries kept. The new summary carries the camera id, the camera section with the current timeout flag, and the thumbnail chosen by ThumbnailFor. Its sections are [kind and frame count of the primary sink, kind and frame count of the metadata sink]. |
| Cameras.Camera.CloseTake | capture-node/source/cameras.cpp:373-444 | The recording branch of StopRecording, with the same results. |
| Cameras.CloseAll | capture-node/source/cameras.cpp:378-379 | Every sink of the list ends closed, and every sink keeps its entries. |
| Cameras.SummarizeAll | capture-node/source/cameras.cpp:387-388 | One section per sink, in list order: the sink's kind and number of accepted frames. |
| Cameras.Camera.KeepSummary | capture-node/source/cameras.cpp:382-438 | The kept summary is exactly the camera id, the given sections, the camera section and ThumbnailFor of the first frame and the small preview. |
| Cameras.Camera.Info | capture-node/source/cameras.cpp:392-403 | The camera section carries the camera's id, effective fps and trigger-timeout flag. |
| Cameras.ThumbnailFor | capture-node/source/cameras.cpp:406-436 | The first frame of the take wins, the small preview is the fallback, and the thumbnail is absent exactly when both are empty. |
| Cameras.Camera.TakeThumbnail | capture-node/source/cameras.cpp:406-436 | The thumbnail built step by step, through the preview getter, equals ThumbnailFor. |
| Cameras.Camera.EndTake | capture-node/source/cameras.cpp:389 | The sink list is empty, the recording, waiting and hold flags are off, the buffer counters are 0, and the invariant holds. These are lines 389 and 439-443 of the source. |
| Cameras.Camera.GetPreviewImage | capture-node/source/cameras.cpp:448-456 | A JPEG is produced exactly when the small preview is not empty, and it is that picture's. |
| Cameras.Camera.GetLargePreviewImage | capture-node/source/cameras.cpp:457-492 | A JPEG is produced exactly when the large preview is not empty, and it is that picture processed with the stored black point. |
| Preview.SelectMode | capture-node/source/cameras.cpp:103-234 | Mode precedence, in both directions: focus peak exactly when its flag is on; overexposed exactly when it is on and focus peak is off; histogram exactly when only it is on; normal exactly when all are off. |
| Preview.LargePreviewOf | capture-node/source/cameras.cpp:135-272 | The large preview is from the same frame. It is the colour overlay exactly in focus-peak and overexposed modes, because the overlay is written back over the frame before it is cloned, and the raw frame otherwise. |
| Preview.BarShade | capture-node/source/cameras.cpp:222-228 | A bar is highlighted if and only if its bin is one of 0-4 or 251-255. The `<=`/`>=` comparisons with the extreme width 4 take in five bins at each end. |
| Preview.ShadeIntensity | capture-node/source/cameras.cpp:223-224 | A highlighted bar is drawn at intensity 255 and a grey bar at 200, each in both directions. |
| Preview.InteriorBarsGrey | capture-node/source/cameras.cpp:222-228 | Among the first n bins, for n between 5 and 251, exactly 5 are highlighted. |
| Preview.HighlightedBarCount | capture-node/source/cameras.cpp:222-228 | Exactly 10 of the 256 histogram bars are highlighted (bins 0-4 and 251-255). |
| Preview.BarShadeMirrored | capture-node/source/cameras.cpp:222-228 | Bin i and bin 255 - i are shaded alike. |
| Preview.BarIntensity | capture-node/source/cameras.cpp:222-228 | A bar is drawn at intensity 255 if and only if its bin is one of 0-4 or 251-255, and at 200 if and only if it lies in 5-250. |
| TriggerWait.Step | capture-node/source/cameras.cpp:283-299 | With the hold on, or no wait in progress, nothing changes. Otherwise the budget shrinks by exactly dt. Waiting continues if and only if the gap is at most 0.2 s and the budget is not overdrawn. The timeout flag is raised if and only if it was raised already or the budget is overdrawn. |
| TriggerWait.RunAfterWait | capture-node/source/cameras.cpp:283 | Once the wait is over, any further frames leave the trigger fields unchanged. |
| TriggerWait.RunWithoutGap | capture-node/source/cameras.cpp:283-299 | With no gap above 0.2 s, the wait is still on after a run of frames if and only if every cumulative elapsed time stays within the budget. The wait then ends only through the timeout. |
| TriggerWait.TriggerScenario | capture-node/source/cameras.cpp:283-299 | With a 3.0 s budget and gaps 0.05, 0.05, 0.25, 0.05 s, the wait survives two frames, ends at the 0.25 s gap, and never times out. |
| MovingAverage.Push | capture-node/source/cameras.cpp:94-97 | The window keeps at most its capacity of samples with the new one last. It is the last `cap` samples of the old window followed by the new one. |
| MovingAverage.Mean | capture-node/source/cameras.cpp:97 | The mean of an empty window is 0. For a non-empty window, the mean times the number of samples is the sum of the samples. |
| MovingAverage.SumBetween | capture-node/source/cameras.cpp:94-97 | When every sample lies between lo and hi, the sum lies between n times lo and n times hi. |
| MovingAverage.MeanBetween | capture-node/source/cameras.cpp:94-97 | The reported fps lies between the smallest and the largest rate in the window. |
| MovingAverage.PushManyIsTail | capture-node/source/cameras.cpp:94-97 | After n pushes the window is the last `cap` samples of the old window followed by the n new ones. |
| MovingAverage.MeanOfConstant | capture-node/source/cameras.cpp:94-97 | A window holding one repeated rate has that rate as its mean. |
| MovingAverage.ConstantRateConverges | capture-node/source/cameras.cpp:94-97 | At a constant frame interval, after at least `cap` frames the window is full and the reported fps is exactly that rate, whatever the window held before. |
| Recorder.Sink.constructor | capture-node/source/cameras.cpp:349-353 | A new sink has the given kind, camera id and folders; it is open, empty and reports no pending buffers. |
| Recorder.Sink.FrameCount | capture-node/source/cameras.cpp:323 | The count the frame limit compares against is the number of entries appended to the sink. |
| Recorder.Sink.Append | capture-node/source/cameras.cpp:313 | The entry is appended exactly once, so the frame count grows by exactly one, and the sink stays open. |
| Recorder.Sink.BuffersUsed | capture-node/source/cameras.cpp:315-318 | The depth a sink reports for the encoding stage is its pending encoding count, and for the writing stage its pending writing count. |
| Recorder.Sink.Close | capture-node/source/cameras.cpp:379 | The sink is closed with its entries kept and no pending buffers. |
| Recorder.Sink.Summarize | capture-node/source/cameras.cpp:388 | A closed sink's section is its kind and its number of accepted frames. |
| Recorder.LastPositive | capture-node/source/cameras.cpp:311-319 | A buffer counter read through a series of reports is either its starting value, or a strictly positive value among the reports. |
| Recorder.LastPositiveSnoc | capture-node/source/cameras.cpp:315-318 | Reading one more report overwrites the counter if and only if the report is strictly positive. |
| Recorder.LastPositiveIsLast | capture-node/source/cameras.cpp:311-319 | The counter ends as the last strictly positive report. It keeps its old value when no report is positive, and it is never set to a non-positive report. Each report stands for one read of the depth used for both the test and the assignment (see "## Left out"). |
| WsRouter.Split | capture-node/source/node_ws_server.cpp:125-126 | The tokens hold no separator and only the first and last may be empty. A leading separator gives an empty first token. A non-empty payload without a leading separator has a non-empty first token. |
| WsRouter.Compress | capture-node/source/node_ws_server.cpp:126 | Collapsing separator runs never lengthens the payload. |
| WsRouter.JoinSplit | capture-node/source/node_ws_server.cpp:126 | Joining the tokens gives back the payload with its separator runs collapsed, so the split loses nothing else. |
| WsRouter.SplitJoin | capture-node/source/node_ws_server.cpp:126 | Every well-formed token list is exactly the split of its join. |
| WsRouter.SplitCompress | capture-node/source/node_ws_server.cpp:126 | Splitting the compressed payload gives the same tokens as splitting the payload. |
| WsRouter.SplitCollapse | capture-node/source/node_ws_server.cpp:126 | Token compression: doubling a separator anywhere leaves the tokens unchanged. |
| WsRouter.SplitExtend | capture-node/source/node_ws_server.cpp:126 | Appending a separator and more text to a payload that does not end in one keeps its tokens as a prefix and adds at least one. |
| WsRouter.PreviewBytes | capture-node/source/node_ws_server.cpp:150-153 | The reply buffer is the preview's bytes, or empty when the getter fails. |
| WsRouter.CString | capture-node/source/node_ws_server.cpp:136 | The C form of the id is the longest NUL-free prefix of the token: it ends at the first NUL or at the token's end. |
| WsRouter.CStringPrefix | capture-node/source/node_ws_server.cpp:136 | A NUL-free part followed by a NUL has that part as its C form. |
| WsRouter.OnMessage | capture-node/source/node_ws_server.cpp:121-158 | There is a reply if and only if all of these hold: the opcode is text; the split payload has at least three tokens; the first token is `capture`; the C form of the id token names a known camera; and the action is `preview`, or `large_preview` with a large preview present. `large_preview` replies with the base64 of the large preview. `preview` replies with the whole id token, `;`, then the base64 of the preview bytes. |
| WsRouter.RouteIgnoresRepeatedSeparators | capture-node/source/node_ws_server.cpp:126 | Doubling a separator anywhere in a message leaves the reply unchanged. |
| WsRouter.RouteIgnoresExtraTokens | capture-node/source/node_ws_server.cpp:133-134 | Tokens after the third do not change the reply. |
| WsRouter.CommandTokens | capture-node/source/node_ws_server.cpp:131-134 | `capture/<id>/<action>` splits into exactly its three parts when the id is non-empty and neither part holds a separator. |
| WsRouter.LookupStopsAtNul | capture-node/source/node_ws_server.cpp:133-154 | A `preview` for the token `<id>` NUL `<rest>` finds the camera `<id>`, and the reply still starts with the whole token. |
| WsRouter.PreviewRepliesWithoutImage | capture-node/source/node_ws_server.cpp:152 | For a known camera with no preview, the router as written replies `<id>;` plus the base64 of nothing, while the intended router stays silent. |
| WsRouter.OnMessageIntended | capture-node/source/node_ws_server.cpp:148-155 | Like OnMessage, except that `preview` replies only when the preview getter succeeds; stated as an if-and-only-if. |
| WsRouter.IntendedAgreesOtherwise | capture-node/source/node_ws_server.cpp:148-155 | The two routers differ if and only if the message is a capture `preview` for a known camera whose preview getter fails. |

## Left out

- Pixel processing is not modelled: OpenCV resizing, filtering, thresholding, dilation, debayering, histograms, merging and JPEG encoding. `color_correction` and base64 encoding are also out; they are foreign library code. Images are opaque `Frame` values. A preview records the frame and the mode it was made from, and a JPEG records the picture it encodes. JPEG encoding is assumed to succeed, so each preview getter models only its emptiness check.
- The framerate window class (`ts_d`) is not part of this model. It is modelled as the mean of the last `fpsWindowSize` rates, with the window size a constructor parameter. Floating point is modelled by real arithmetic.
- The wall clock used when a frame has no timestamp is the `clock` parameter of GotImage.
- The recorders' real classes (image sequence, movie and metadata writers) are not part of this model. A sink records its appended entries and its closed flag. The queue depths it reports after an append are chosen freely, because they depend on its worker threads.
- The per-take summary is a plain record, not a JSON document. The metadata sink's reference back to its camera is not modelled.
- UUID generation and the random camera id are out; the id is a constructor parameter. `toString` is also left out.
- `WebcamCamera`, capture threads, device I/O and start/stop of capture are out. Mutexes are out too: the model is sequential.
- The websocket server setup, TLS, `send` and connection handling are out. `on_message` returns the reply it would send. The node's camera lookup is a map from id to the camera's preview getter results, and base64 encoding is a function parameter. `cameraById` is not part of this model. It is taken as an exact match of the id's C form against the known ids.
- Cameras.Camera.GotImage: C++ `int` overflow of the image counter is not modelled (unbounded `nat`). The depth check at cameras.cpp:78-80 is a precondition, because the source asserts it.
- Cameras.Camera.Accumulate: the source calls `buffers_used` twice per stage and sink, once in the test and once in the assignment (cameras.cpp:315-318). The model reads it once and uses that value for both. The worker threads can drain a queue between the two calls, so the source may store a depth of 0. The rule that a counter is never set to a non-positive report holds only while the depth does not change between the calls.
- Cameras.Camera.Accept: states each buffer counter only as unchanged or strictly positive. The exact value depends on the queue depths the sinks report, which are free values here; Cameras.Camera.Accumulate states it as LastPositive of the old counter and the reports in list order. The rule holds only while a sink's queue depth does not change between the test and the assignment of cameras.cpp:315-318 (see Cameras.Camera.Accumulate).
- Cameras.Camera.Record: states each buffer counter only as unchanged or strictly positive. The exact value depends on the queue depths the sinks report, which are free values here; Cameras.Camera.Accumulate states it as LastPositive of the old counter and the reports in list order. The rule holds only while a sink's queue depth does not change between the test and the assignment of cameras.cpp:315-318 (see Cameras.Camera.Accumulate).
- Cameras.Camera.Route: states each buffer counter only as unchanged or strictly positive. The exact value depends on the queue depths the sinks report, which are free values here; Cameras.Camera.Accumulate states it as LastPositive of the old counter and the reports in list order. The rule holds only while a sink's queue depth does not change between the test and the assignment of cameras.cpp:315-318 (see Cameras.Camera.Accumulate).
- Cameras.Camera.GotImage: states each buffer counter only as unchanged or strictly positive. The exact value depends on the queue depths the sinks report, which are free values here; Cameras.Camera.Accumulate states it as LastPositive of the old counter and the reports in list order. The rule holds only while a sink's queue depth does not change between the test and the assignment of cameras.cpp:315-318 (see Cameras.Camera.Accumulate).
- Cameras.Camera.Ingest: increments the image counter right after stamping rather than at the end of the frame. Nothing in between reads the counter.
- Cameras.Camera.CloseTake: raises the closing flag after closing the sinks rather than before. Nothing in between reads the flag in a sequential model.
- Three behaviours of the code that are easy to misread:
  - `extreme_width = 4` reads as four bins, but the `<=`/`>=` tests highlight five at each end (0-4 and 251-255);
  - the histogram preview is stored at histogram size, without the resize the other modes apply;
  - `large_preview` replies with base64 text.
- The closing flag, wait budget, timeout flag, run start, last timestamp, first-frame black level and large-preview black point are not set by the constructor at cameras.cpp:20-47. The model initialises them to false or 0.
- The database migrations of the web backend are not part of this model.

## Findings

| source | as written | input that shows it | evidently intended | confidence | as-written member | corrected member |
|---|---|---|---|---|---|---|
| capture-node/source/node_ws_server.cpp:152 | The condition `if (cam->get_preview_image(buf), &is_histogram)` is a comma expression. Its value is the address of a local, which is never null, so the reply is sent even when the getter fails. | Text message `capture/<id>/preview` for a known camera whose small preview is empty: the reply is `<id>;` followed by the base64 of an empty buffer. | Reply only when the getter succeeds, as the `large_preview` branch does. | not executed | WsRouter.OnMessage, WsRouter.PreviewRepliesWithoutImage | WsRouter.OnMessageIntended, WsRouter.IntendedAgreesOtherwise |

# Potato leaf disease predictor: the upload-and-predict workflow

The page lets a user pick or drop a leaf photograph. It shows a local preview, sends the image
to a classification service, and shows the predicted disease with its confidence. This project
models the page component's workflow and its two display lookups.

- `wrappers.dfy` (module `Wrappers`) holds `Option`, which stands for the source's `null`.
- `presentation.dfy` (module `Presentation`) holds the confidence tier behind `setConfidenceStyle`,
  the `confidenceStyles` record and the `diseaseStyles` table.
- `workflow.dfy` (module `Workflow`) is the workflow as a pure state machine. `State` holds the
  five state fields, `Event` lists the handlers' events, and `Step` gives the transition each
  event makes. `World` adds the requests that were sent and not yet answered. `Replay` runs a
  sequence of events. A reply can only arrive while its request is in flight.
- `app.dfy` (module `UploadApp`) holds the component as a class `App`. It has the five fields and
  one method per handler. Each method states the new value of every field. Each method also
  states that its fields moved exactly as `Workflow.Step` does for its event.
  `App.CompletePredict` requires `loading`: the code reaches the line after the await only
  once line 160 has raised it. So what is proved in `Workflow` about possible runs holds for
  every sequence of calls the class accepts that answers each sent request once.

The predict handler awaits a network call, so it is split in two:
- `StartPredict` is the guard and raising `loading`. It returns the file it sends.
- `CompletePredict` takes the outcome, `Ok(data)` or `Err`, and does the work after the await,
  including the `finally`.

Each handler runs as one atomic step.

Main results:
- At most one request is ever in flight, and `loading` is true exactly while one is
  (`RunsFromStartAreSingleFlight`).
- A selected image is always shown by its own object URL. A request or a result never exists
  before some preview has been shown.
- A click on the enabled button always sends the selected image. A disabled click changes nothing.
- A failed request returns the page to its state before the click.
- The confidence tier is total, exact at both boundaries and monotone.

One behaviour of the code as written is proved, not corrected
(`Workflow.StaleReplyShownWithNewImage`). The file input stays active while a request is in
flight. If the user picks file b while the request for file a is pending, the reply for a
becomes the result shown next to b's preview.

Two further behaviours of the code as written:
- `handleFile` (frontend/src/App.jsx:141) never releases the previous object URL. The model
  treats the preview as a token made from the file.
- A file-input change event with no file is not a no-op. The handler at
  frontend/src/App.jsx:210 calls `handleFile(undefined)`. Line 140 clears the image, and then
  `URL.createObjectURL(undefined)` throws at line 141, so lines 141-142 never run. The page is
  left with no image but with the old preview and the old result. A request in flight stays
  in flight (`App.HandleNoFile`, `Workflow.EmptyPickDuringRequest`). The drop handler does skip
  an absent or empty file list (line 148).

## Model

| member | source | states |
|---|---|---|
| `Presentation.ConfidenceTier` | frontend/src/App.jsx:133-137 | every confidence maps to exactly one tier: High iff c >= 0.90, Medium iff 0.75 <= c < 0.90, Low iff c < 0.75 |
| `Presentation.TierMonotone` | frontend/src/App.jsx:133-137 | c1 <= c2 implies the tier of c1 is at most that of c2 under Low < Medium < High |
| `Presentation.TierBoundaries` | frontend/src/App.jsx:133-137 | 0.90 is High, 0.8999 is Medium, 0.75 is Medium, 0.7499 is Low |
| `Presentation.ConfidenceClassByRange` | frontend/src/App.jsx:127-137 | the green, yellow and red classes are each returned for exactly the High, Medium and Low ranges |
| `Presentation.DiseaseClass` | frontend/src/App.jsx:121-125 | the style lookup read by the render at line 258 is defined exactly for "Healthy", "Early Blight" and "Late Blight", with their three classes; any other label gives no style rather than a failure |
| `Presentation.DiseaseClassesDistinct` | frontend/src/App.jsx:121-125 | the three known labels get pairwise different styles |
| `Workflow.EnabledIffGuardPasses` | frontend/src/App.jsx:227 | the button is enabled iff the handler's guard passes; an enabled click sends the selected image and only raises loading, a disabled click sends nothing and changes nothing |
| `Workflow.FailureRestoresState` | frontend/src/App.jsx:153-168 | a click that passes the guard followed by a failed request gives back exactly the state before the click |
| `Workflow.SuccessOnlySetsResult` | frontend/src/App.jsx:159-168 | a click that passes the guard followed by a reply changes only the result, which becomes the reply |
| `Workflow.SecondClickIsNoOp` | frontend/src/App.jsx:154-160 | after a click, another click sends nothing and changes nothing |
| `Workflow.SelectFileOverrides` | frontend/src/App.jsx:139-143 | choosing g and then f is the same as choosing f alone |
| `Workflow.SelectNothingKeepsPreviewAndResult` | frontend/src/App.jsx:139-141 | handleFile with no file clears the image and leaves the preview, the result, loading and the highlight as they were |
| `Workflow.StepConsistent` | frontend/src/App.jsx:139-168 | every handler, the empty pick included, keeps a selected image shown by its own object URL and keeps loading and a result only once a preview exists, given that replies arrive only while loading |
| `Workflow.DeliverKeepsSingleFlight` | frontend/src/App.jsx:153-168 | one event keeps "at most one request in flight, loading iff one is"; a click while one is in flight changes nothing |
| `Workflow.ReplayKeepsSingleFlight` | frontend/src/App.jsx:153-168 | every possible sequence of events keeps the single in-flight guarantee and the consistency of the state |
| `Workflow.RunsFromStartAreSingleFlight` | frontend/src/App.jsx:115-168 | from the first render, along every possible run of the modelled events, at most one request is in flight, loading shows whether one is, a selected image is shown by its own preview, and no request or result exists before a preview |
| `Workflow.EnabledClickSendsOnlyRequest` | frontend/src/App.jsx:153-160 | at any point of a run, clicking the enabled button sends the selected image, which is then the only request in flight |
| `Workflow.ReplyEndsRequest` | frontend/src/App.jsx:161-168 | at any point of a run with a request in flight, its reply or failure can arrive, and then nothing is in flight and loading is false |
| `Workflow.EmptyPickDuringRequest` | frontend/src/App.jsx:139-168 | picking a, clicking, an empty pick and then the reply for a ends with nothing in flight, no image, a's preview, a's prediction as the result and the button disabled |
| `Workflow.StaleReplyShownWithNewImage` | frontend/src/App.jsx:139-168 | picking a, clicking, picking b and then receiving the reply for a ends with image b and a's prediction as the result |
| `UploadApp.App.constructor` | frontend/src/App.jsx:115-119 | the initial state: no image, no preview, no result, not loading, no drag highlight |
| `UploadApp.App.HandleFile` | frontend/src/App.jsx:139-143 | the image becomes f, the preview becomes f's token, the result is cleared; loading and the highlight are unchanged |
| `UploadApp.App.HandleNoFile` | frontend/src/App.jsx:139-141 | for a change event with no file, the image becomes None before the throw; preview, result, loading and the highlight are unchanged |
| `UploadApp.App.HandleDrop` | frontend/src/App.jsx:145-151 | the highlight always ends off; an absent or empty list leaves image, preview and result unchanged, otherwise the first file is handled as by HandleFile |
| `UploadApp.App.HandleDragOver` | frontend/src/App.jsx:192-195 | raises the drag highlight and changes nothing else |
| `UploadApp.App.HandleDragLeave` | frontend/src/App.jsx:196 | lowers the drag highlight and changes nothing else |
| `UploadApp.App.StartPredict` | frontend/src/App.jsx:153-160 | with no image or a request in flight it sends nothing and changes no field; otherwise it sends the selected image and raises loading, leaving everything else unchanged |
| `UploadApp.App.CompletePredict` | frontend/src/App.jsx:161-168 | called only while loading, as after line 160; a reply becomes the result, a failure keeps the old result; loading ends false and image, preview and highlight are unchanged |

## Left out

- The JSX markup, the styling classes and the conditional rendering of the preview and result
  (frontend/src/App.jsx:171-280) are presentation only.
- `axios.post`, `FormData`, `URL.createObjectURL`, `alert` and `console.error` are browser and
  network calls. The request becomes the `sent` file and its outcome `Ok(data)` or `Err`. The
  object URL is a token made from the file. The failure alert and the log line have no value
  in the state.
- Releasing object URLs is not modelled, because the code never releases them.
- The exception thrown by `URL.createObjectURL(undefined)` is not modelled as a value. The model
  keeps only its effect: the handler stops after clearing the image.
- The reply body is taken to have the service's shape: a label and a numeric confidence. The
  source does not check the shape of `response.data`.
- A non-numeric or NaN confidence is not modelled. Confidences are exact reals, so the
  rounding of the double constants 0.90 and 0.75 is not represented.
- `(result.confidence * 100).toFixed(2)` is floating-point formatting and is not modelled.
- Labels that name inherited `Object.prototype` members (such as "toString") would find an
  inherited property in the JavaScript object. The model treats them as unknown labels. The
  service only returns the three known labels (api/main.py:11).
- React's asynchronous, batched state updates and the stale `loading` captured by a render's
  closure are not modelled. Each handler is one atomic step.
- The commented-out earlier version of the component (frontend/src/App.jsx:1-105) is dead code.
- The service in api/main.py (image decoding, the TensorFlow model, argmax over float outputs)
  is foreign numeric code and is not part of this model.

# Barcode scanner for Windows Phone 8: scan session model

This project models the Windows Phone 8 side of a Cordova barcode-scanner plugin in Dafny:

- The Cordova command `BarcodeScanner`. `Scan` puts the command into the application's shared
  resource dictionary under the key `"BarcodeScanner"`, then navigates to the camera page.
  `ResolveWithBarcode` and `ResolveWithError` remove that key and dispatch one OK or one ERROR
  result to JavaScript.
- The camera page `CameraScan`, an event-driven state machine. Navigating to the page creates a
  camera and a 250 ms timer. The camera's Initialized event only queues work on the dispatcher.
  After a success that work turns the flash off, requests focus, allocates a preview buffer of the
  preview size, creates a reader with TryHarder on and starts the timer. After a failure it reports
  "Unable to initialize the camera". Each tick captures the
  preview into the buffer and decodes that buffer. A found result sets `barcodeFound` and is
  reported. A successful autofocus completion refocuses while nothing has been found. Cancel goes
  back. Navigating away stops the timer and disposes the camera.
- `BarcodResultInfo`, the immutable `(text, format)` value that is serialised as the two data
  members `"text"` and `"format"`.

Files:

- `wrappers.dfy`: `Option`.
- `barcode_result.dfy` (module `BarcodeResult`): the decoder's result, the format names, and
  `BarcodResultInfo` with its data members.
- `command.dfy` (module `Command`): the `ResourceDictionary` and `BarcodeScanner` classes. It also
  has pure functions for the dictionary updates and the dispatched results.
- `scan_session.dfy` (module `ScanSession`): the page's state as a value. It has one function per
  event handler, the events the platform can deliver (`Enabled`), `Step` and `Run` over event
  sequences, and lemmas that hold over every sequence of events.
- `camera_scan.dfy` (module `CameraScanPage`): the `CameraScan` class. Its handlers update fields
  in place. Each handler is proved to move the page as the matching `ScanSession` function does.
  Each handler also states what the command and the dictionary receive.

The camera, the timer's scheduling and the decoder are outside the model. The camera's events are
method calls with their arguments: Initialized with success and preview size, AutoFocusCompleted
with success. The dispatcher running the work Initialized queued is a call of its own
(`RunQueuedWork`), so any event may come between the two; what is proved about the page after it
is left holds once that work has run. A timer tick is a call to `ScanForBarcode`, with the decoder's
answer for the captured frame as an `Option` argument. Focus requests, captured and decoded frames,
reports to the command and navigations back are kept in a ghost log. The same holds for the
command's navigations and dispatched results.

## Model

| member | source | states |
|---|---|---|
| BarcodeResult.FromBarcode | src/wp8/BarcodeResultInfo.cs:44-48 | the text is the decoder's text unchanged; the format string reads back as exactly the decoder's format |
| BarcodeResult.FormatName | src/wp8/BarcodeResultInfo.cs:47 | the format's enumeration name as ToString gives it, for the formats listed in BarcodeFormat; every such name reads back as that same format |
| BarcodeResult.ParsedNameIsFormatName | src/wp8/BarcodeResultInfo.cs:47 | a string that reads back as a format is exactly that format's name |
| BarcodeResult.ParseFormatIsInverse | src/wp8/BarcodeResultInfo.cs:47 | a format's textual name reads back as that format, and only format names read back (both directions) |
| BarcodeResult.FormatNameInjective | src/wp8/BarcodeResultInfo.cs:47 | two formats with the same name are the same format, so the serialised name loses nothing |
| BarcodeResult.DataMembers | src/wp8/BarcodeResultInfo.cs:17-32 | exactly two members are serialised, under the keys "text" and "format" |
| BarcodeResult.DataMembersRoundTrip | src/wp8/BarcodeResultInfo.cs:25-32 | reading the two data members back gives the same value |
| BarcodeResult.DataMembersDetermined | src/wp8/BarcodeResultInfo.cs:25-32 | any member map that reads back as a value is exactly that value's serialised form |
| BarcodeResult.SerialisedFormDetermines | src/wp8/BarcodeResultInfo.cs:44-48 | two decoder results with equal serialised forms are equal |
| Command.Register | src/wp8/BarcodeScanner.cs:37-42 | after remove-if-present then add, the key maps to this command; every other entry is kept; no duplicate key arises |
| Command.Unregister | src/wp8/BarcodeScanner.cs:63 | only the "BarcodeScanner" key is removed; every other entry keeps its value |
| Command.RegisterReplaces | src/wp8/BarcodeScanner.cs:37-42 | a second Scan replaces the earlier command under the key |
| Command.RegisterThenUnregister | src/wp8/BarcodeScanner.cs:42-50 | registering and then resolving leaves the dictionary as if the key had only been removed |
| Command.AsScanner | src/wp8/CameraScan.xaml.cs:53-54 | the page finds a command exactly when the key is present and holds a scanner command, and then it is that command |
| Command.BarcodeResultFor | src/wp8/BarcodeScanner.cs:64-65 | the dispatched result is OK with a serialised payload of exactly "text" (the barcode's text) and "format" (its format's name) |
| Command.BarcodeResultInjective | src/wp8/BarcodeScanner.cs:64-65 | the dispatched OK result determines the barcode it was built from |
| Command.ErrorResultFor | src/wp8/BarcodeScanner.cs:77 | the dispatched result has status ERROR and a message payload |
| Command.ResultsDistinguishable | src/wp8/BarcodeScanner.cs:77 | an OK result never equals an ERROR result, and the ERROR message is carried unchanged |
| Command.ResourceDictionary.Contains | src/wp8/BarcodeScanner.cs:37 | true exactly when the key is in the dictionary |
| Command.ResourceDictionary.Remove | src/wp8/BarcodeScanner.cs:39 | the key is gone and everything else is kept; removing an absent key changes nothing |
| Command.ResourceDictionary.Add | src/wp8/BarcodeScanner.cs:42 | only callable when the key is absent (the platform throws otherwise); adds exactly that entry |
| Command.BarcodeScanner.Scan | src/wp8/BarcodeScanner.cs:33-53 | with a frame: the key maps to this command and the page "/Plugins/org.bloxlab.barcodescanner/CameraScan.xaml" is navigated to, with nothing dispatched; without one: no navigation, one ERROR "No application frame." is dispatched and the key is removed again |
| Command.BarcodeScanner.ResolveWithBarcode | src/wp8/BarcodeScanner.cs:61-66 | removes only the key and dispatches exactly one OK result for the barcode |
| Command.BarcodeScanner.ResolveWithError | src/wp8/BarcodeScanner.cs:74-78 | removes only the key and dispatches exactly one ERROR result with the message unchanged |
| ScanSession.InitialInv | src/wp8/CameraScan.xaml.cs:28-54 | a new page satisfies the session invariant and is not scanning |
| ScanSession.OnNavigatedTo | src/wp8/CameraScan.xaml.cs:92-108 | a new camera with both handlers subscribed and a 250 ms timer with its tick handler, not started; nothing else changes; the invariant is kept |
| ScanSession.OnNavigatingFrom | src/wp8/CameraScan.xaml.cs:116-127 | the timer is stopped and otherwise unchanged; an existing camera is disposed with Initialized unsubscribed, AutoFocusCompleted still subscribed, and nothing else about it changed; no camera stays no camera; nothing else changes; the invariant is kept |
| ScanSession.CameraInitialised | src/wp8/CameraScan.xaml.cs:142-169 | the handler marks the camera initialised and does nothing but queue its work: the start of scanning at the preview size on success, the error report on failure; nothing else changes; the invariant is kept |
| ScanSession.StartScanning | src/wp8/CameraScan.xaml.cs:146-160 | the queued success work: flash off, exactly one focus request, a buffer of exactly width by height pixels, a TryHarder reader with the page's handler, the same timer started; nothing else changes |
| ScanSession.RunQueued | src/wp8/CameraScan.xaml.cs:146-167 | running the queued work empties the queue, keeps the invariant, and always happens before any barcode is found |
| ScanSession.CameraAutoFocusCompleted | src/wp8/CameraScan.xaml.cs:180-187 | exactly one new focus request if and only if the focus succeeded and no barcode has been found; nothing else changes; the invariant is kept |
| ScanSession.BarcodeReaderResultFound | src/wp8/CameraScan.xaml.cs:195-200 | the found flag is set, the barcode is reported exactly when there is a command, the page goes back, and nothing else changes; the invariant is kept |
| ScanSession.ScanForBarcode | src/wp8/CameraScan.xaml.cs:223-232 | a tick first captures into the buffer, then decodes that same buffer; a miss changes nothing else; a hit sets the found flag, reports and goes back; the invariant is kept |
| ScanSession.CancelClicked | src/wp8/CameraScan.xaml.cs:211-214 | cancel goes back and reports nothing |
| ScanSession.ResolveWithBarcode | src/wp8/CameraScan.xaml.cs:254-263 | the barcode goes to the command only when there is one; the page always goes back; nothing else changes |
| ScanSession.ResolveWithError | src/wp8/CameraScan.xaml.cs:271-280 | the error goes to the command only when there is one; the page always goes back; nothing else changes |
| ScanSession.Step | src/wp8/CameraScan.xaml.cs:92-232 | every handler keeps the session invariant, only appends to the log, and never clears the found flag |
| ScanSession.Run | src/wp8/CameraScan.xaml.cs:92-232 | over any sequence of deliverable events the invariant holds and the log only grows |
| ScanSession.TickHasItsResources | src/wp8/CameraScan.xaml.cs:142-160 | whenever the timer can tick, the camera is initialised and the buffer and the TryHarder reader exist, so the tick's dereferences never meet null |
| ScanSession.FoundStaysSet | src/wp8/CameraScan.xaml.cs:48 | once `barcodeFound` is true it stays true over any sequence of events |
| ScanSession.StepReportsOnlyWhenFound | src/wp8/CameraScan.xaml.cs:195-200 | one deliverable event never reports a barcode while the found flag stays unset |
| ScanSession.NoReportBeforeFound | src/wp8/CameraScan.xaml.cs:195-200 | over any sequence of events, no barcode is ever reported while the found flag is unset: ResultFound sets the flag before it reports |
| ScanSession.StepAddsNoFocusOnceFound | src/wp8/CameraScan.xaml.cs:180-187 | any single deliverable event after a barcode was found adds no focus request |
| ScanSession.NoFocusAfterFound | src/wp8/CameraScan.xaml.cs:180-187 | once a barcode is found, no focus request is ever issued again, over any sequence of serialised events |
| ScanSession.StepAfterLeaving | src/wp8/CameraScan.xaml.cs:116-127 | once the page is left (camera disposed, timer stopped, no initialisation work queued), one deliverable event adds only focus requests or navigations back, and the page stays left |
| ScanSession.NothingScannedAfterLeaving | src/wp8/CameraScan.xaml.cs:116-127 | once the page is left and no initialisation work is still queued, over any sequence of events no frame is captured or decoded and nothing is reported; `TimerRestartsAfterLeaving` shows why the queue condition is needed |
| ScanSession.FailedInitNeverScans | src/wp8/CameraScan.xaml.cs:162-167 | after a failed initialisation (no buffer, and at most the error report still queued) there is never a buffer or a reader, the timer never runs and no frame is captured or decoded |
| ScanSession.TickWithoutBarcode | src/wp8/CameraScan.xaml.cs:223-232 | a tick whose frame holds no barcode changes nothing but logging one capture and one decode of the preview buffer |
| ScanSession.TickWithBarcode | src/wp8/CameraScan.xaml.cs:195-200 | a tick whose frame holds a barcode also sets the found flag, reports the barcode when there is a command, and goes back; nothing else changes |
| ScanSession.SuccessfulScanScenario | src/wp8/CameraScan.xaml.cs:142-232 | for any preview size and any decoded result (for instance "123456789012" as EAN_13 from 640×480), delivered one after another with the queued work run by the dispatcher: one focus request, three capture/decode pairs of the same buffer, one report, one navigation back; afterwards the found flag is set and the page is left |
| ScanSession.FailedInitScenario | src/wp8/CameraScan.xaml.cs:162-167 | a failed initialisation, once the dispatcher runs its queued work, logs only the error report and the navigation back, with no buffer, no reader and no running timer |
| ScanSession.SecondTickReportsAgain | src/wp8/CameraScan.xaml.cs:195-200 | a second tick between a report and navigating away reports a second barcode: nothing guards against it |
| ScanSession.FocusAfterCancelReachesDisposedCamera | src/wp8/CameraScan.xaml.cs:121-126 | because AutoFocusCompleted stays subscribed, a successful focus completion after cancel and navigating away requests focus on the disposed camera |
| ScanSession.TimerRestartsAfterLeaving | src/wp8/CameraScan.xaml.cs:146-160 | when the page is left between Initialized and the dispatcher running its work, and the disposed camera's FlashMode setter, Focus and PreviewResolution return normally, the work still starts the timer, and the next tick captures from the disposed camera |
| ScanSession.ErrorReportedAfterLeaving | src/wp8/CameraScan.xaml.cs:162-167 | when the page is left between a failed Initialized and the dispatcher running its work, the error is still reported and the page asks to go back again |
| CameraScanPage.CameraScan.constructor | src/wp8/CameraScan.xaml.cs:53-54 | the page takes the command from the dictionary ("as": null when absent or of another kind) and starts empty |
| CameraScanPage.CameraScan.OnNavigatedTo | src/wp8/CameraScan.xaml.cs:92-108 | the new state is ScanSession.OnNavigatedTo of the old one |
| CameraScanPage.CameraScan.OnNavigatingFrom | src/wp8/CameraScan.xaml.cs:116-127 | the new state is ScanSession.OnNavigatingFrom of the old one |
| CameraScanPage.CameraScan.CameraInitialised | src/wp8/CameraScan.xaml.cs:142-169 | the new state is ScanSession.CameraInitialised of the old one: the camera is marked initialised and the work is queued; the command is untouched |
| CameraScanPage.CameraScan.RunQueuedWork | src/wp8/CameraScan.xaml.cs:146-167 | the new state is ScanSession.RunQueued of the old one; the command gets exactly one ERROR and loses its key when the queued work was the failure report, and is untouched otherwise |
| CameraScanPage.CameraScan.CameraAutoFocusCompleted | src/wp8/CameraScan.xaml.cs:180-187 | the new state is ScanSession.CameraAutoFocusCompleted of the old one |
| CameraScanPage.CameraScan.BarcodeReaderResultFound | src/wp8/CameraScan.xaml.cs:195-200 | the new state follows ScanSession.BarcodeReaderResultFound; the command gets exactly one OK for the barcode |
| CameraScanPage.CameraScan.CancelClicked | src/wp8/CameraScan.xaml.cs:211-214 | the new state is ScanSession.CancelClicked of the old one; the command is untouched |
| CameraScanPage.CameraScan.ScanForBarcode | src/wp8/CameraScan.xaml.cs:223-232 | the new state follows ScanSession.ScanForBarcode; the command gets one OK exactly when the decoder answered, and nothing otherwise |
| CameraScanPage.CameraScan.ResolveWithBarcode | src/wp8/CameraScan.xaml.cs:254-263 | forwards to the command only when there is one, always goes back |
| CameraScanPage.CameraScan.ResolveWithError | src/wp8/CameraScan.xaml.cs:271-280 | forwards to the command only when there is one, always goes back |
| CameraScanPage.ScanThroughPage | src/wp8/BarcodeScanner.cs:33-66 | Scan, page creation, initialisation and its queued work, a miss, a hit, then navigating away: the page finds the command, the command navigates once to the camera page and gets exactly the one OK result, and the dictionary ends with only the key removed |

## Behaviour worth knowing

- Nothing guards against a second report. A tick that runs after a report, but before the page is
  navigated away from, reports again (`SecondTickReportsAgain`).
- A found barcode does not stop the timer. The page calls `GoBack`, and only the later
  `OnNavigatingFrom` stops the timer. The model keeps these as separate steps.
- Navigating away unsubscribes only the Initialized handler. AutoFocusCompleted stays subscribed, so
  a late focus completion asks the disposed camera to focus (`FocusAfterCancelReachesDisposedCamera`).
- The Initialized handler only queues its work on the dispatcher, and navigating away does not
  withdraw it. Work that runs after the page was left still reports the camera error
  (`ErrorReportedAfterLeaving`). Success work touches the disposed camera first (its FlashMode
  setter, Focus and PreviewResolution). If those return normally, it then starts the timer, which
  captures from the disposed camera (`TimerRestartsAfterLeaving`).
- Cancel sends nothing to the command, so the JavaScript caller gets no callback.
- The command reaches the page through the application's shared resource dictionary.

## Left out

- Camera internals (preview capture, focus hardware, flash, `Dispose`) are abstract. Their effects
  are a camera record and the ghost log.
- The decoding algorithm is left out. Its answer for a frame is the argument of `ScanForBarcode`.
  It fires ResultFound synchronously.
- Pixel contents of the preview buffer and `Invalidate` are left out. Only the buffer's existence
  and size are modelled, so the in-place fill of the pixel array is not.
- The camera, timer, reader and buffer are values owned by the page. They are never aliased, so no
  object identity is modelled for them.
- The preview resolution is given as whole numbers. The cast from the platform's floating-point
  size to `int` is not modelled.
- The dispatcher is modelled only for the work the Initialized handler queues: that work is its
  own event (`Dispatched`), run once, in any order with the other events. Scan's queued action runs
  as one call, and the timer's real scheduling is left out: a tick is an event like any other.
- What a disposed camera does when its FlashMode is set, its PreviewResolution is read, or it is
  asked to focus or to fill the buffer is not modelled (the platform may throw): the model lets
  each call return normally and logs the request.
- Handlers are serialised calls. The camera raises Initialized and AutoFocusCompleted on its own
  thread, and CameraAutoFocusCompleted does not hand its work to the dispatcher. The race between
  its read of `barcodeFound` and ResultFound is not modelled, so `NoFocusAfterFound` assumes that
  serialisation.
- `SetupScanAreaLayout` and `CameraScanLoaded` are left out: they are UI geometry.
- Vibration on a found result is left out: it has no observable state.
- JSON serialisation and the `DispatchCommandResult` transport are left out. A dispatched result
  is its status and its payload: the data-member map or the message.
- `Scan`'s unused `options` parameter is left out.
- A missing key is modelled as the dictionary lookup returning null, so the page holds no command.
- The page is navigated to once, and reactivation after the application is suspended is not
  modelled. The platform delivers Initialized at most once.
- A focus completion is deliverable whenever its handler is subscribed, even with no request
  outstanding. This allows more event sequences than the device produces.
- The decoder's format enumeration is the set of names listed in `BarcodeResult.BarcodeFormat`.
  The decoding library is not part of this model.
- www/barcodescanner.js is left out: it is a one-line bridge with no logic.

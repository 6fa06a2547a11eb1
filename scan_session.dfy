/**
 * The camera page's session state machine (src/wp8/CameraScan.xaml.cs) as
 * values: the page's fields as a record, one function per event handler,
 * and the sequences of events the platform can deliver. The class in
 * camera_scan.dfy is proved to follow these functions; the lemmas here say
 * what holds over every sequence of events.
 */
module ScanSession {
  import opened Wrappers
  import opened BarcodeResult

  /** Interval of the scan timer, in milliseconds. */
  const ScanIntervalMs: nat := 250
  /** The error reported when the camera fails to initialise. */
  const CameraInitError := "Unable to initialize the camera"

  datatype FlashMode = DeviceDefault | Off

  /**
   * What the page sees of its PhotoCamera: the flash setting, whether the
   * device has raised Initialized (it does so once), whether it is disposed,
   * and which of the page's handlers are subscribed to its two events.
   */
  datatype Camera = Camera(
    flash: FlashMode,
    initialized: bool,
    disposed: bool,
    initializedHandler: bool,
    autoFocusHandler: bool)

  /** The preview buffer: a bitmap whose pixel array holds width × height pixels. */
  datatype Bitmap = Bitmap(pixelWidth: nat, pixelHeight: nat)

  /** The barcode reader: its TryHarder option and whether the page handles ResultFound. */
  datatype Reader = Reader(tryHarder: bool, resultFoundHandler: bool)

  /** The dispatcher timer: interval, running or stopped, and whether ScanForBarcode handles Tick. */
  datatype Timer = Timer(intervalMs: nat, running: bool, tickHandler: bool)

  /**
   * The work the Initialized handler queues on the dispatcher: start
   * scanning at the camera's preview resolution, or report the failure.
   */
  datatype QueuedWork = QueuedStart(width: nat, height: nat) | QueuedError

  /** What the page does to the outside world, in order. */
  datatype Effect =
    | FocusRequested
    | FrameCaptured(into: Bitmap)
    | FrameDecoded(source: Bitmap)
    | BarcodeSent(barcode: DecodeResult)
    | ErrorSent(message: string)
    | WentBack

  /**
   * The page's fields, the work it has queued on the dispatcher and that has
   * not run yet, whether it holds a command, and the log of its effects.
   */
  datatype Page = Page(
    camera: Option<Camera>,
    previewBuffer: Option<Bitmap>,
    barcodeReader: Option<Reader>,
    scanTimer: Option<Timer>,
    barcodeFound: bool,
    queued: Option<QueuedWork>,
    hasCommand: bool,
    log: seq<Effect>)

  /** A freshly constructed page. */
  function Initial(hasCommand: bool): (p: Page)
  {
    Page(None, None, None, None, false, None, hasCommand, [])
  }

  predicate Scanning(p: Page)
  {
    p.scanTimer.Some? && p.scanTimer.value.running
  }

  /** What every reachable page state satisfies. */
  predicate Inv(p: Page)
  {
    && (p.camera.None? <==> p.scanTimer.None?)
    && (p.scanTimer.Some? ==> p.scanTimer.value.intervalMs == ScanIntervalMs && p.scanTimer.value.tickHandler)
    && (p.camera.Some? ==> p.camera.value.autoFocusHandler)
    && (p.camera.Some? && p.camera.value.disposed ==> !p.camera.value.initializedHandler)
    && (p.barcodeReader.Some? ==> p.barcodeReader.value == Reader(true, true))
    && (p.previewBuffer.Some? || p.barcodeReader.Some? || p.barcodeFound || p.queued.Some? ==>
          p.camera.Some? && p.camera.value.initialized)
    && (p.queued.Some? ==>
          p.previewBuffer.None? && p.barcodeReader.None? && !p.barcodeFound && !Scanning(p))
    && (Scanning(p) ==> p.previewBuffer.Some? && p.barcodeReader.Some?)
  }

  lemma InitialInv(hasCommand: bool)
    ensures Inv(Initial(hasCommand)) && !Scanning(Initial(hasCommand))
  {
  }

  /** OnNavigatedTo: a new camera with both handlers subscribed, and a stopped 250 ms timer. */
  function OnNavigatedTo(p: Page): (q: Page)
    requires p.camera.None?
    ensures q.camera == Some(Camera(DeviceDefault, false, false, true, true))
    ensures q.scanTimer == Some(Timer(ScanIntervalMs, false, true)) && !Scanning(q)
    ensures q.(camera := p.camera, scanTimer := p.scanTimer) == p
    ensures Inv(p) ==> Inv(q)
  {
    p.(camera := Some(Camera(DeviceDefault, false, false, true, true)),
       scanTimer := Some(Timer(ScanIntervalMs, false, true)))
  }

  /**
   * OnNavigatingFrom: stop the timer; if there is a camera, dispose it and
   * unsubscribe the Initialized handler (the AutoFocusCompleted one stays).
   */
  function OnNavigatingFrom(p: Page): (q: Page)
    requires p.scanTimer.Some?
    ensures !Scanning(q)
    ensures q.scanTimer == Some(p.scanTimer.value.(running := false))
    ensures q.camera.Some? <==> p.camera.Some?
    ensures q.camera.Some? ==> q.camera.value == p.camera.value.(disposed := true, initializedHandler := false)
    ensures q.(camera := p.camera, scanTimer := p.scanTimer) == p
    ensures Inv(p) ==> Inv(q)
  {
    var stopped := p.(scanTimer := Some(p.scanTimer.value.(running := false)));
    if p.camera.Some? then
      stopped.(camera := Some(p.camera.value.(disposed := true, initializedHandler := false)))
    else
      stopped
  }

  /** ResolveWithBarcode: forward the barcode when a command was found, then go back. */
  function ResolveWithBarcode(p: Page, barcode: DecodeResult): (q: Page)
    ensures q.log == p.log + (if p.hasCommand then [BarcodeSent(barcode)] else []) + [WentBack]
    ensures q.(log := p.log) == p
  {
    p.(log := p.log + (if p.hasCommand then [BarcodeSent(barcode)] else []) + [WentBack])
  }

  /** ResolveWithError: forward the message when a command was found, then go back. */
  function ResolveWithError(p: Page, error: string): (q: Page)
    ensures q.log == p.log + (if p.hasCommand then [ErrorSent(error)] else []) + [WentBack]
    ensures q.(log := p.log) == p
  {
    p.(log := p.log + (if p.hasCommand then [ErrorSent(error)] else []) + [WentBack])
  }

  /**
   * Initialized, raised once by the camera: the handler does nothing but
   * queue its work on the dispatcher, the start of scanning on success and
   * the error report on failure.
   */
  function CameraInitialised(p: Page, succeeded: bool, width: nat, height: nat): (q: Page)
    requires p.camera.Some?
    ensures q.camera == Some(p.camera.value.(initialized := true))
    ensures q.queued == Some(if succeeded then QueuedStart(width, height) else QueuedError)
    ensures q.(camera := p.camera, queued := p.queued) == p
    ensures Inv(p) && p.camera.value.initializedHandler && !p.camera.value.initialized ==> Inv(q)
  {
    p.(camera := Some(p.camera.value.(initialized := true)),
       queued := Some(if succeeded then QueuedStart(width, height) else QueuedError))
  }

  /**
   * The work queued after a successful initialisation: flash off, one focus
   * request, a buffer at the preview size, a TryHarder reader with the page's
   * handler, and the timer started.
   */
  function StartScanning(p: Page, width: nat, height: nat): (q: Page)
    requires p.camera.Some? && p.scanTimer.Some?
    ensures q.camera == Some(p.camera.value.(flash := Off))
    ensures q.log == p.log + [FocusRequested]
    ensures q.previewBuffer == Some(Bitmap(width, height))
    ensures q.barcodeReader == Some(Reader(true, true))
    ensures q.scanTimer == Some(p.scanTimer.value.(running := true)) && Scanning(q)
    ensures q.(camera := p.camera, log := p.log, previewBuffer := p.previewBuffer,
               barcodeReader := p.barcodeReader, scanTimer := p.scanTimer) == p
  {
    p.(camera := Some(p.camera.value.(flash := Off)),
       log := p.log + [FocusRequested],
       previewBuffer := Some(Bitmap(width, height)),
       barcodeReader := Some(Reader(true, true)),
       scanTimer := Some(p.scanTimer.value.(running := true)))
  }

  /** AutoFocusCompleted: refocus only when the focus succeeded and nothing has been found. */
  function CameraAutoFocusCompleted(p: Page, succeeded: bool): (q: Page)
    ensures q.log == p.log + [FocusRequested] || q.log == p.log
    ensures q.log != p.log <==> succeeded && !p.barcodeFound
    ensures q.(log := p.log) == p
    ensures Inv(p) ==> Inv(q)
  {
    if succeeded && !p.barcodeFound then p.(log := p.log + [FocusRequested]) else p
  }

  /** ResultFound: set the flag first, then report the barcode. */
  function BarcodeReaderResultFound(p: Page, barcode: DecodeResult): (q: Page)
    ensures q.barcodeFound
    ensures q.log == p.log + (if p.hasCommand then [BarcodeSent(barcode)] else []) + [WentBack]
    ensures q.(barcodeFound := p.barcodeFound, log := p.log) == p
    ensures Inv(p) && p.barcodeReader.Some? ==> Inv(q)
  {
    ResolveWithBarcode(p.(barcodeFound := true), barcode)
  }

  /**
   * A timer tick: capture the preview into the buffer, decode that same
   * buffer, and when the decoder answers with a result, handle it.
   */
  function ScanForBarcode(p: Page, decoded: Option<DecodeResult>): (q: Page)
    requires Inv(p) && Scanning(p)
    ensures |q.log| >= |p.log| + 2
    ensures q.log[..|p.log| + 2] == p.log + [FrameCaptured(p.previewBuffer.value), FrameDecoded(p.previewBuffer.value)]
    ensures decoded.None? ==> q.log == p.log + [FrameCaptured(p.previewBuffer.value), FrameDecoded(p.previewBuffer.value)]
    ensures decoded.None? ==> q.barcodeFound == p.barcodeFound
    ensures decoded.Some? ==> q.barcodeFound
    ensures Inv(q)
    ensures decoded.Some? ==>
              q.log[|p.log| + 2..] == (if p.hasCommand then [BarcodeSent(decoded.value)] else []) + [WentBack]
  {
    var buffer := p.previewBuffer.value;
    var p := p.(log := p.log + [FrameCaptured(buffer), FrameDecoded(buffer)]);
    if decoded.Some? then BarcodeReaderResultFound(p, decoded.value) else p
  }

  /** The cancel button: go back, reporting nothing. */
  function CancelClicked(p: Page): (q: Page)
    ensures q.log == p.log + [WentBack]
    ensures q.(log := p.log) == p
  {
    p.(log := p.log + [WentBack])
  }

  /** The events the platform delivers to the page. */
  datatype Event =
    | NavigatedTo
    | NavigatingFrom
    | Initialized(succeeded: bool, width: nat, height: nat)
    | Dispatched
    | FocusCompleted(succeeded: bool)
    | TimerTick(decoded: Option<DecodeResult>)
    | Cancel

  /**
   * When the platform can deliver an event: the page is navigated to once;
   * navigating from follows navigating to; the camera raises Initialized
   * once, to a subscribed handler; the dispatcher runs queued work once; a
   * focus completion reaches a subscribed handler; the timer ticks only
   * while running.
   */
  predicate Enabled(p: Page, e: Event)
  {
    match e
    case NavigatedTo => p.camera.None?
    case NavigatingFrom => p.scanTimer.Some?
    case Initialized(_, _, _) =>
      p.camera.Some? && p.camera.value.initializedHandler && !p.camera.value.initialized
    case Dispatched => p.queued.Some? && p.camera.Some? && p.scanTimer.Some?
    case FocusCompleted(_) => p.camera.Some? && p.camera.value.autoFocusHandler
    case TimerTick(_) => Scanning(p)
    case Cancel => true
  }

  /** The dispatcher runs the queued work: it leaves the queue and does what it was queued for. */
  function RunQueued(p: Page): (q: Page)
    requires p.queued.Some? && p.camera.Some? && p.scanTimer.Some?
    ensures q.queued.None?
    ensures Inv(p) ==> Inv(q) && !q.barcodeFound
  {
    match p.queued.value
    case QueuedStart(width, height) => StartScanning(p.(queued := None), width, height)
    case QueuedError => ResolveWithError(p.(queued := None), CameraInitError)
  }

  /** One event, handled. */
  function Step(p: Page, e: Event): (q: Page)
    requires Inv(p) && Enabled(p, e)
    ensures Inv(q)
    ensures p.log <= q.log
    ensures p.barcodeFound ==> q.barcodeFound
    ensures q.hasCommand == p.hasCommand
  {
    match e
    case NavigatedTo => OnNavigatedTo(p)
    case NavigatingFrom => OnNavigatingFrom(p)
    case Initialized(succeeded, width, height) => CameraInitialised(p, succeeded, width, height)
    case Dispatched => RunQueued(p)
    case FocusCompleted(succeeded) => CameraAutoFocusCompleted(p, succeeded)
    case TimerTick(decoded) => ScanForBarcode(p, decoded)
    case Cancel => CancelClicked(p)
  }

  /** A sequence of events, each handled when the platform can deliver it and dropped otherwise. */
  function Run(p: Page, events: seq<Event>): (q: Page)
    requires Inv(p)
    ensures Inv(q)
    ensures p.log <= q.log
    ensures q.hasCommand == p.hasCommand
    decreases |events|
  {
    if events == [] then p
    else Run(if Enabled(p, events[0]) then Step(p, events[0]) else p, events[1..])
  }

  /** A tick only happens with an initialised camera, a preview buffer and a reader in place. */
  lemma TickHasItsResources(p: Page, decoded: Option<DecodeResult>)
    requires Inv(p) && Enabled(p, TimerTick(decoded))
    ensures p.camera.Some? && p.camera.value.initialized
    ensures p.previewBuffer.Some? && p.barcodeReader == Some(Reader(true, true))
  {
  }

  /** No handler resets the found flag: once set, it stays set. */
  lemma {:induction false} FoundStaysSet(p: Page, events: seq<Event>)
    requires Inv(p) && p.barcodeFound
    ensures Run(p, events).barcodeFound
    decreases |events|
  {
    if events != [] {
      FoundStaysSet(if Enabled(p, events[0]) then Step(p, events[0]) else p, events[1..]);
    }
  }

  /** Until the found flag is set, no barcode has been reported. */
  predicate ReportedOnlyWhenFound(p: Page)
  {
    !p.barcodeFound ==> forall i :: 0 <= i < |p.log| ==> !p.log[i].BarcodeSent?
  }

  /** One step keeps every reported barcode behind the found flag. */
  lemma StepReportsOnlyWhenFound(p: Page, e: Event)
    requires Inv(p) && Enabled(p, e) && ReportedOnlyWhenFound(p)
    ensures ReportedOnlyWhenFound(Step(p, e))
  {
    var q := Step(p, e);
    if !q.barcodeFound {
      assert !p.barcodeFound;
      forall i | |p.log| <= i < |q.log|
        ensures !q.log[i].BarcodeSent?
      {
        match e
        case TimerTick(decoded) =>
          assert decoded.None?;
        case _ =>
      }
    }
  }

  /**
   * Every barcode ever reported was reported after the found flag was set:
   * ResultFound sets the flag before it reports.
   */
  lemma {:induction false} NoReportBeforeFound(p: Page, events: seq<Event>)
    requires Inv(p) && ReportedOnlyWhenFound(p)
    ensures ReportedOnlyWhenFound(Run(p, events))
    decreases |events|
  {
    if events != [] {
      var p' := if Enabled(p, events[0]) then Step(p, events[0]) else p;
      if Enabled(p, events[0]) {
        StepReportsOnlyWhenFound(p, events[0]);
      }
      NoReportBeforeFound(p', events[1..]);
    }
  }

  /** No focus request appears in the log from position `from` on. */
  predicate NoFocusFrom(log: seq<Effect>, from: nat)
  {
    forall i :: from <= i < |log| ==> log[i] != FocusRequested
  }

  /** One step after a barcode was found adds no focus request. */
  lemma StepAddsNoFocusOnceFound(p: Page, e: Event)
    requires Inv(p) && Enabled(p, e) && p.barcodeFound
    ensures NoFocusFrom(Step(p, e).log, |p.log|)
  {
    match e
    case Initialized(_, _, _) =>
      assert false;
    case Dispatched =>
      assert false;
    case FocusCompleted(succeeded) =>
      assert Step(p, e) == p;
    case TimerTick(decoded) =>
    case NavigatedTo =>
      assert false;
    case NavigatingFrom =>
    case Cancel =>
  }

  /** Once a barcode has been found, no further focus request is ever issued. */
  lemma {:induction false} NoFocusAfterFound(p: Page, events: seq<Event>)
    requires Inv(p) && p.barcodeFound
    ensures NoFocusFrom(Run(p, events).log, |p.log|)
    decreases |events|
  {
    if events != [] {
      var p' := if Enabled(p, events[0]) then Step(p, events[0]) else p;
      if Enabled(p, events[0]) {
        StepAddsNoFocusOnceFound(p, events[0]);
      }
      NoFocusAfterFound(p', events[1..]);
    }
  }

  /** From position `from` on, the log holds only focus requests and navigations back. */
  predicate OnlyFocusOrBackFrom(log: seq<Effect>, from: nat)
  {
    forall i :: from <= i < |log| ==> log[i].FocusRequested? || log[i].WentBack?
  }

  /** The page has been navigated away from and has no initialisation work still queued. */
  predicate Left(p: Page)
  {
    p.camera.Some? && p.camera.value.disposed && !Scanning(p) && p.queued.None?
  }

  /** One step after leaving adds only focus requests or navigations back, and the page stays left. */
  lemma StepAfterLeaving(p: Page, e: Event)
    requires Inv(p) && Enabled(p, e) && Left(p)
    ensures OnlyFocusOrBackFrom(Step(p, e).log, |p.log|)
    ensures Left(Step(p, e))
  {
    match e
    case Initialized(_, _, _) =>
      assert false;
    case Dispatched =>
      assert false;
    case TimerTick(_) =>
      assert false;
    case NavigatedTo =>
      assert false;
    case FocusCompleted(_) =>
    case NavigatingFrom =>
    case Cancel =>
  }

  /**
   * Once the page has been navigated away from (the camera is disposed) and
   * no initialisation work is still queued, no frame is ever captured or
   * decoded and nothing is reported again.
   */
  lemma {:induction false} NothingScannedAfterLeaving(p: Page, events: seq<Event>)
    requires Inv(p) && Left(p)
    ensures OnlyFocusOrBackFrom(Run(p, events).log, |p.log|)
    decreases |events|
  {
    if events != [] {
      var p' := if Enabled(p, events[0]) then Step(p, events[0]) else p;
      if Enabled(p, events[0]) {
        StepAfterLeaving(p, events[0]);
      }
      NothingScannedAfterLeaving(p', events[1..]);
    }
  }

  /**
   * After a failed initialisation the page never gets a preview buffer or a
   * reader and never captures or decodes a frame.
   */
  lemma {:induction false} FailedInitNeverScans(p: Page, events: seq<Event>)
    requires Inv(p) && p.camera.Some? && p.camera.value.initialized
    requires p.previewBuffer.None? && p.barcodeReader.None?
    requires p.queued.None? || p.queued == Some(QueuedError)
    ensures Run(p, events).previewBuffer.None? && Run(p, events).barcodeReader.None?
    ensures !Scanning(Run(p, events))
    ensures forall i :: |p.log| <= i < |Run(p, events).log| ==>
              !Run(p, events).log[i].FrameCaptured? && !Run(p, events).log[i].FrameDecoded?
    decreases |events|
  {
    if events != [] {
      var p' := if Enabled(p, events[0]) then Step(p, events[0]) else p;
      FailedInitNeverScans(p', events[1..]);
    }
  }

  /** A tick whose frame holds no barcode only logs the capture and the decode of the buffer. */
  lemma TickWithoutBarcode(p: Page)
    requires Inv(p) && Scanning(p)
    ensures Step(p, TimerTick(None)) ==
              p.(log := p.log + [FrameCaptured(p.previewBuffer.value), FrameDecoded(p.previewBuffer.value)])
  {
  }

  /** A tick whose frame holds a barcode also sets the flag, reports the barcode and goes back. */
  lemma TickWithBarcode(p: Page, r: DecodeResult)
    requires Inv(p) && Scanning(p)
    ensures Step(p, TimerTick(Some(r))) ==
              p.(barcodeFound := true,
                 log := p.log + [FrameCaptured(p.previewBuffer.value), FrameDecoded(p.previewBuffer.value)]
                        + (if p.hasCommand then [BarcodeSent(r)] else []) + [WentBack])
  {
  }

  /** The page as it stands once the camera has been initialised and the dispatcher has run the queued work. */
  function Started(hasCommand: bool, succeeded: bool, width: nat, height: nat): (p: Page)
    ensures Inv(p)
  {
    var p1 := Step(Initial(hasCommand), NavigatedTo);
    var p2 := Step(p1, Initialized(succeeded, width, height));
    Step(p2, Dispatched)
  }

  /**
   * A successful scan, the events delivered one after another: two frames
   * without a barcode, a third with one (for instance "123456789012" read as
   * EAN_13 from a 640×480 preview), then the page is navigated away from.
   */
  lemma SuccessfulScanScenario(width: nat, height: nat, r: DecodeResult)
    ensures
      var p3 := Started(true, true, width, height);
      Inv(p3) && Scanning(p3) &&
      var p5 := Step(Step(p3, TimerTick(None)), TimerTick(None));
      var q := Step(Step(p5, TimerTick(Some(r))), NavigatingFrom);
      var b := Bitmap(width, height);
      q.log == [FocusRequested, FrameCaptured(b), FrameDecoded(b), FrameCaptured(b), FrameDecoded(b),
                FrameCaptured(b), FrameDecoded(b), BarcodeSent(r), WentBack]
      && q.barcodeFound && Left(q)
  {
    var b := Bitmap(width, height);
    var p3 := Started(true, true, width, height);
    assert p3.log == [FocusRequested] && p3.previewBuffer == Some(b) && Scanning(p3);
    var p4 := Step(p3, TimerTick(None));
    TickWithoutBarcode(p3);
    TickWithoutBarcode(p4);
    TickWithBarcode(Step(p4, TimerTick(None)), r);
  }

  /**
   * A failed initialisation reports the camera error and goes back, with no
   * buffer, no reader and the timer never started.
   */
  lemma FailedInitScenario(width: nat, height: nat)
    ensures
      var q := Started(true, false, width, height);
      q.log == [ErrorSent(CameraInitError), WentBack]
      && q.previewBuffer.None? && q.barcodeReader.None? && !Scanning(q)
  {
  }

  /**
   * Nothing guards against a second report: a tick that lands after a result
   * was found but before the page is navigated away from reports again.
   */
  lemma SecondTickReportsAgain(first: DecodeResult, second: DecodeResult, width: nat, height: nat)
    ensures
      var p3 := Started(true, true, width, height);
      Inv(p3) && Scanning(p3) &&
      var p4 := Step(p3, TimerTick(Some(first)));
      Scanning(p4) &&
      var q := Step(p4, TimerTick(Some(second)));
      BarcodeSent(first) in q.log && BarcodeSent(second) in q.log
  {
    var p3 := Started(true, true, width, height);
    assert Scanning(p3);
    TickWithBarcode(p3, first);
    var p4 := Step(p3, TimerTick(Some(first)));
    TickWithBarcode(p4, second);
    var q := Step(p4, TimerTick(Some(second)));
    assert q.log[|p4.log| + 2] == BarcodeSent(second);
    assert q.log[|p3.log| + 2] == BarcodeSent(first);
  }

  /**
   * The AutoFocusCompleted handler stays subscribed after navigating away:
   * when a cancelled page's pending focus completes successfully, it asks the
   * disposed camera to focus again.
   */
  lemma FocusAfterCancelReachesDisposedCamera(width: nat, height: nat)
    ensures
      var p3 := Started(true, true, width, height);
      var p5 := Step(Step(p3, Cancel), NavigatingFrom);
      Enabled(p5, FocusCompleted(true)) &&
      var q := Step(p5, FocusCompleted(true));
      q.camera.Some? && q.camera.value.disposed && q.log == p5.log + [FocusRequested]
  {
  }

  /**
   * The Initialized handler only queues its work, and navigating away does
   * not withdraw it: when the page is left between Initialized and the
   * dispatcher running that work, and the disposed camera's FlashMode setter,
   * Focus and PreviewResolution return normally, the work still starts the
   * timer, and the next tick captures from the disposed camera.
   */
  lemma TimerRestartsAfterLeaving(width: nat, height: nat)
    ensures
      var p2 := Step(Step(Initial(true), NavigatedTo), Initialized(true, width, height));
      Enabled(p2, NavigatingFrom) &&
      var p3 := Step(p2, NavigatingFrom);
      Enabled(p3, Dispatched) &&
      var p4 := Step(p3, Dispatched);
      var b := Bitmap(width, height);
      p4.camera.Some? && p4.camera.value.disposed && Scanning(p4)
      && Step(p4, TimerTick(None)).log == [FocusRequested, FrameCaptured(b), FrameDecoded(b)]
  {
    var p2 := Step(Step(Initial(true), NavigatedTo), Initialized(true, width, height));
    var p4 := Step(Step(p2, NavigatingFrom), Dispatched);
    assert p4.log == [FocusRequested] && Scanning(p4);
    TickWithoutBarcode(p4);
  }

  /**
   * Likewise a failed initialisation whose queued work runs after the page
   * was left still reports the error and asks to go back.
   */
  lemma ErrorReportedAfterLeaving(width: nat, height: nat)
    ensures
      var p2 := Step(Step(Initial(true), NavigatedTo), Initialized(false, width, height));
      Enabled(p2, NavigatingFrom) &&
      var p3 := Step(p2, NavigatingFrom);
      Enabled(p3, Dispatched) &&
      var q := Step(p3, Dispatched);
      q.camera.Some? && q.camera.value.disposed && q.log == [ErrorSent(CameraInitError), WentBack]
  {
  }
}

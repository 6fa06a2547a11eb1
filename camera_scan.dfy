/**
 * The camera page (src/wp8/CameraScan.xaml.cs) as a class whose event
 * handlers update its fields in place. Each handler is proved to move the
 * page exactly as the matching function of ScanSession does, and to pass
 * to the command exactly the reports it logs.
 */
module CameraScanPage {
  import opened Wrappers
  import opened BarcodeResult
  import opened Command
  import opened ScanSession

  class CameraScan {
    var camera: Option<Camera>
    var previewBuffer: Option<Bitmap>
    var barcodeReader: Option<Reader>
    var scanTimer: Option<Timer>
    var barcodeFound: bool
    /** The work the Initialized handler queued on the dispatcher, until the dispatcher runs it. */
    var queued: Option<QueuedWork>
    /** The command found in the resource dictionary when the page was created, if any. */
    const command: BarcodeScanner?
    /** Focus requests, frames captured and decoded, reports to the command and navigations back. */
    ghost var log: seq<Effect>

    /** The page's state as a ScanSession value. */
    ghost function Snapshot(): Page
      reads this
    {
      Page(camera, previewBuffer, barcodeReader, scanTimer, barcodeFound, queued, command != null, log)
    }

    ghost predicate Valid()
      reads this
    {
      Inv(Snapshot())
    }

    /** The objects a report to the command changes. */
    function Collaborators(): set<object>
    {
      if command == null then {} else {command, command.resources}
    }

    /** Creating the page reads the command out of the shared resource dictionary. */
    constructor (resources: ResourceDictionary)
      ensures command == AsScanner(resources.entries, BarcodeScannerKey)
      ensures Valid() && Snapshot() == Initial(command != null)
    {
      command := AsScanner(resources.entries, BarcodeScannerKey);
      camera, previewBuffer, barcodeReader, scanTimer := None, None, None, None;
      barcodeFound, queued := false, None;
      log := [];
    }

    method OnNavigatedTo()
      requires Valid() && camera.None?
      modifies this
      ensures Valid() && Snapshot() == ScanSession.OnNavigatedTo(old(Snapshot()))
    {
      camera := Some(Camera(DeviceDefault, false, false, true, true));
      scanTimer := Some(Timer(ScanIntervalMs, false, true));
    }

    method OnNavigatingFrom()
      requires Valid() && scanTimer.Some?
      modifies this
      ensures Valid() && Snapshot() == ScanSession.OnNavigatingFrom(old(Snapshot()))
    {
      scanTimer := Some(scanTimer.value.(running := false));
      if camera.Some? {
        camera := Some(camera.value.(disposed := true, initializedHandler := false));
      }
    }

    /** The camera's Initialized event, with the preview resolution it reports: the work is only queued. */
    method CameraInitialised(succeeded: bool, width: nat, height: nat)
      requires Valid() && camera.Some? && camera.value.initializedHandler && !camera.value.initialized
      modifies this
      ensures Valid() && Snapshot() == ScanSession.CameraInitialised(old(Snapshot()), succeeded, width, height)
    {
      camera := Some(camera.value.(initialized := true));
      queued := Some(if succeeded then QueuedStart(width, height) else QueuedError);
    }

    /**
     * The dispatcher runs the work the Initialized handler queued: on success
     * start scanning, on failure report the error to the command.
     */
    method RunQueuedWork()
      requires Valid() && queued.Some? && camera.Some? && scanTimer.Some?
      modifies this, Collaborators()
      ensures Valid() && Snapshot() == ScanSession.RunQueued(old(Snapshot()))
      ensures command != null ==> command.navigations == old(command.navigations)
      ensures command != null && old(queued).value.QueuedStart? ==>
                command.dispatched == old(command.dispatched) && command.resources.entries == old(command.resources.entries)
      ensures command != null && old(queued).value.QueuedError? ==>
                command.dispatched == old(command.dispatched) + [ErrorResultFor(CameraInitError)]
                && command.resources.entries == Unregister(old(command.resources.entries))
    {
      var work := queued.value;
      queued := None;
      match work
      case QueuedStart(width, height) =>
        camera := Some(camera.value.(flash := Off));
        log := log + [FocusRequested];
        previewBuffer := Some(Bitmap(width, height));
        barcodeReader := Some(Reader(true, true));
        scanTimer := Some(scanTimer.value.(running := true));
      case QueuedError =>
        ResolveWithError(CameraInitError);
    }

    method CameraAutoFocusCompleted(succeeded: bool)
      requires Valid() && camera.Some? && camera.value.autoFocusHandler
      modifies this
      ensures Valid() && Snapshot() == ScanSession.CameraAutoFocusCompleted(old(Snapshot()), succeeded)
    {
      if succeeded && !barcodeFound {
        log := log + [FocusRequested];
      }
    }

    /** The reader's ResultFound event. */
    method BarcodeReaderResultFound(barcode: DecodeResult)
      requires Valid() && barcodeReader.Some?
      modifies this, Collaborators()
      ensures Valid() && Snapshot() == ScanSession.BarcodeReaderResultFound(old(Snapshot()), barcode)
      ensures command != null ==>
                command.dispatched == old(command.dispatched) + [BarcodeResultFor(barcode)]
                && command.resources.entries == Unregister(old(command.resources.entries))
                && command.navigations == old(command.navigations)
    {
      barcodeFound := true;
      ResolveWithBarcode(barcode);
    }

    method CancelClicked()
      requires Valid()
      modifies this
      ensures Valid() && Snapshot() == ScanSession.CancelClicked(old(Snapshot()))
    {
      log := log + [WentBack];
    }

    /**
     * A tick of the scan timer. The decoder is outside the model: its answer
     * for the captured frame is the argument.
     */
    method ScanForBarcode(decoded: Option<DecodeResult>)
      requires Valid() && Scanning(Snapshot())
      modifies this, Collaborators()
      ensures Valid() && Snapshot() == ScanSession.ScanForBarcode(old(Snapshot()), decoded)
      ensures command != null ==> command.navigations == old(command.navigations)
      ensures command != null && decoded.None? ==>
                command.dispatched == old(command.dispatched) && command.resources.entries == old(command.resources.entries)
      ensures command != null && decoded.Some? ==>
                command.dispatched == old(command.dispatched) + [BarcodeResultFor(decoded.value)]
                && command.resources.entries == Unregister(old(command.resources.entries))
    {
      log := log + [FrameCaptured(previewBuffer.value)];
      log := log + [FrameDecoded(previewBuffer.value)];
      if decoded.Some? {
        BarcodeReaderResultFound(decoded.value);
      }
    }

    method ResolveWithBarcode(barcode: DecodeResult)
      requires Valid()
      modifies this, Collaborators()
      ensures Valid() && Snapshot() == ScanSession.ResolveWithBarcode(old(Snapshot()), barcode)
      ensures command != null ==>
                command.dispatched == old(command.dispatched) + [BarcodeResultFor(barcode)]
                && command.resources.entries == Unregister(old(command.resources.entries))
                && command.navigations == old(command.navigations)
    {
      if command != null {
        command.ResolveWithBarcode(barcode);
        log := log + [BarcodeSent(barcode)];
      }
      log := log + [WentBack];
    }

    method ResolveWithError(error: string)
      requires Valid()
      modifies this, Collaborators()
      ensures Valid() && Snapshot() == ScanSession.ResolveWithError(old(Snapshot()), error)
      ensures command != null ==>
                command.dispatched == old(command.dispatched) + [ErrorResultFor(error)]
                && command.resources.entries == Unregister(old(command.resources.entries))
                && command.navigations == old(command.navigations)
    {
      if command != null {
        command.ResolveWithError(error);
        log := log + [ErrorSent(error)];
      }
      log := log + [WentBack];
    }
  }

  /**
   * The whole hand-off: Scan registers the command and navigates, the page
   * picks the command up, one frame misses, the next holds a barcode, and the
   * page is navigated away from. The page finds the command, the command
   * navigates once and gets exactly that barcode, and the dictionary ends
   * without the command's key.
   */
  method ScanThroughPage(initial: map<string, Resource>, width: nat, height: nat, barcode: DecodeResult)
    returns (remaining: map<string, Resource>, ghost found: bool, ghost navigated: seq<string>,
             ghost sent: seq<PluginResult>)
    ensures remaining == Unregister(initial)
    ensures found && navigated == [CameraScanUri] && sent == [BarcodeResultFor(barcode)]
  {
    var resources := new ResourceDictionary(initial);
    var command := new BarcodeScanner(resources);
    command.Scan(true);
    var page := new CameraScan(resources);
    found := page.command == command;
    page.OnNavigatedTo();
    page.CameraInitialised(true, width, height);
    page.RunQueuedWork();
    page.ScanForBarcode(None);
    page.ScanForBarcode(Some(barcode));
    page.OnNavigatingFrom();
    remaining, navigated, sent := resources.entries, command.navigations, command.dispatched;
    RegisterThenUnregister(initial, command);
  }
}

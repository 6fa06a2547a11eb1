/**
 * The Cordova command (src/wp8/BarcodeScanner.cs). Scan hands the command to
 * the camera page through the application's shared resource dictionary and
 * navigates to that page; ResolveWithBarcode and ResolveWithError take the
 * command out of the dictionary again and dispatch one result to JavaScript.
 */
module Command {
  import opened Wrappers
  import opened BarcodeResult

  /** The dictionary key under which the command is handed over. */
  const BarcodeScannerKey := "BarcodeScanner"
  /** The page Scan navigates to. */
  const CameraScanUri := "/Plugins/org.bloxlab.barcodescanner/CameraScan.xaml"
  /** The error Scan reports when the root visual is not a frame. */
  const NoFrameError := "No application frame."

  /** A value held by the resource dictionary: a scanner command or anything else the application keeps there. */
  datatype Resource = Scanner(command: BarcodeScanner) | OtherResource(id: nat)

  datatype Status = OK | ERROR

  /** What a dispatched plugin result carries: the data members of a serialised object, or a message. */
  datatype Payload = Serialized(members: map<string, string>) | Message(text: string)

  datatype PluginResult = PluginResult(status: Status, payload: Payload)

  /** The dictionary after the command has been put under its key, whatever was there before. */
  function Register(entries: map<string, Resource>, command: BarcodeScanner): (r: map<string, Resource>)
    ensures r.Keys == entries.Keys + {BarcodeScannerKey}
    ensures r[BarcodeScannerKey] == Scanner(command)
    ensures forall k :: k in entries && k != BarcodeScannerKey ==> r[k] == entries[k]
  {
    (entries - {BarcodeScannerKey})[BarcodeScannerKey := Scanner(command)]
  }

  /** The dictionary after the command's key has been removed; every other entry stays. */
  function Unregister(entries: map<string, Resource>): (r: map<string, Resource>)
    ensures r.Keys == entries.Keys - {BarcodeScannerKey}
    ensures forall k :: k in r ==> r[k] == entries[k]
  {
    entries - {BarcodeScannerKey}
  }

  /** Registering twice leaves only the latest command under the key. */
  lemma RegisterReplaces(entries: map<string, Resource>, first: BarcodeScanner, second: BarcodeScanner)
    ensures Register(Register(entries, first), second) == Register(entries, second)
  {
    var a, b := Register(Register(entries, first), second), Register(entries, second);
    assert a.Keys == b.Keys;
    forall k | k in a ensures a[k] == b[k] {
      if k != BarcodeScannerKey {
        assert a[k] == Register(entries, first)[k] == entries[k];
      }
    }
  }

  /** Registering then resolving leaves the dictionary as if the key had only been removed. */
  lemma RegisterThenUnregister(entries: map<string, Resource>, command: BarcodeScanner)
    ensures Unregister(Register(entries, command)) == Unregister(entries)
  {
    var a, b := Unregister(Register(entries, command)), Unregister(entries);
    assert a.Keys == b.Keys;
    forall k | k in a ensures a[k] == b[k] {
      assert a[k] == Register(entries, command)[k] == entries[k];
    }
  }

  /** The page's lookup `Resources[key] as BarcodeScanner`: null when the key is missing or holds something else. */
  function AsScanner(entries: map<string, Resource>, key: string): (c: BarcodeScanner?)
    ensures c != null <==> key in entries && entries[key].Scanner?
    ensures c != null ==> entries[key] == Scanner(c)
  {
    if key in entries && entries[key].Scanner? then entries[key].command else null
  }

  /** The OK result ResolveWithBarcode dispatches: the serialised BarcodResultInfo of the barcode. */
  function BarcodeResultFor(barcode: DecodeResult): (r: PluginResult)
    ensures r.status == OK && r.payload.Serialized?
    ensures r.payload.members.Keys == {TextKey, FormatKey}
    ensures r.payload.members[TextKey] == barcode.text
    ensures ParseFormat(r.payload.members[FormatKey]) == Some(barcode.format)
  {
    PluginResult(OK, Serialized(DataMembers(FromBarcode(barcode))))
  }

  /** The dispatched OK result determines the barcode it was built from. */
  lemma BarcodeResultInjective(a: DecodeResult, b: DecodeResult)
    requires BarcodeResultFor(a) == BarcodeResultFor(b)
    ensures a == b
  {
    SerialisedFormDetermines(a, b);
  }

  /** The ERROR result ResolveWithError dispatches: the message, unchanged. */
  function ErrorResultFor(message: string): (r: PluginResult)
    ensures r.status == ERROR && r.payload.Message?
  {
    PluginResult(ERROR, Message(message))
  }

  /** An OK result and an ERROR result are never confused. */
  lemma ResultsDistinguishable(barcode: DecodeResult, message: string)
    ensures BarcodeResultFor(barcode) != ErrorResultFor(message)
    ensures ErrorResultFor(message).payload.text == message
  {
  }

  /** Application.Current.Resources: a dictionary mutated in place. */
  class ResourceDictionary {
    var entries: map<string, Resource>

    constructor (initial: map<string, Resource>)
      ensures entries == initial
    {
      entries := initial;
    }

    method Contains(key: string) returns (present: bool)
      ensures present <==> key in entries
    {
      present := key in entries;
    }

    /** Removing an absent key does nothing. */
    method Remove(key: string)
      modifies this
      ensures entries == old(entries) - {key}
    {
      entries := entries - {key};
    }

    /** Adding a key that is already present throws in the platform; callers must not do it. */
    method Add(key: string, value: Resource)
      requires key !in entries
      modifies this
      ensures entries == old(entries)[key := value]
    {
      entries := entries[key := value];
    }
  }

  /** The command object: the dictionary it shares with the page, and ghost logs of what it did. */
  class BarcodeScanner {
    const resources: ResourceDictionary
    /** Pages the command asked the root frame to navigate to. */
    ghost var navigations: seq<string>
    /** Results dispatched to the JavaScript caller, in order. */
    ghost var dispatched: seq<PluginResult>

    constructor (resources: ResourceDictionary)
      ensures this.resources == resources
      ensures navigations == [] && dispatched == []
    {
      this.resources := resources;
      navigations, dispatched := [], [];
    }

    /**
     * The action Scan queues on the dispatcher, run to completion.
     * rootIsFrame says whether the application's root visual is a frame.
     */
    method Scan(rootIsFrame: bool)
      modifies this, resources
      ensures rootIsFrame ==> resources.entries == Register(old(resources.entries), this)
      ensures rootIsFrame ==> navigations == old(navigations) + [CameraScanUri] && dispatched == old(dispatched)
      ensures !rootIsFrame ==> resources.entries == Unregister(Register(old(resources.entries), this))
      ensures !rootIsFrame ==> navigations == old(navigations)
      ensures !rootIsFrame ==> dispatched == old(dispatched) + [ErrorResultFor(NoFrameError)]
    {
      var present := resources.Contains(BarcodeScannerKey);
      if present {
        resources.Remove(BarcodeScannerKey);
      }
      resources.Add(BarcodeScannerKey, Scanner(this));
      if rootIsFrame {
        navigations := navigations + [CameraScanUri];
      } else {
        ResolveWithError(NoFrameError);
      }
    }

    method ResolveWithBarcode(barcode: DecodeResult)
      modifies this, resources
      ensures resources.entries == Unregister(old(resources.entries))
      ensures dispatched == old(dispatched) + [BarcodeResultFor(barcode)]
      ensures navigations == old(navigations)
    {
      resources.Remove(BarcodeScannerKey);
      dispatched := dispatched + [BarcodeResultFor(barcode)];
    }

    method ResolveWithError(error: string)
      modifies this, resources
      ensures resources.entries == Unregister(old(resources.entries))
      ensures dispatched == old(dispatched) + [ErrorResultFor(error)]
      ensures navigations == old(navigations)
    {
      resources.Remove(BarcodeScannerKey);
      dispatched := dispatched + [ErrorResultFor(error)];
    }
  }
}

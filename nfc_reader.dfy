/**
 * The NFC reader component (src/components/nfc/NFCReader.tsx): the support
 * probe, the `scanning` toggle, the scan effect with its abort controller,
 * and the listener that hands `url` and `text` records to `onRead`.
 *
 * React runs the scan effect again whenever `supported` or `scanning`
 * changes, after running the previous run's cleanup; here the two are the
 * methods `ScanEffect` and `Cleanup`, which a caller sequences as React does.
 */
module NfcReader {
  import opened Common
  import opened Ndef

  const NotSupportedMessage: string := "NFC is not supported on this device or browser."
  const ReadFailedMessage: string := "Failed to read NFC tag."

  /** The abort controller of the latest scan effect run. */
  datatype Controller = NoController | Live | Aborted

  class Reader {
    const autoStart: bool
    const hasOnRead: bool          // whether the `onRead` prop was given

    var supported: Option<bool>    // `null` until the probe has run
    var scanning: bool
    var error: Option<string>
    var controller: Controller
    var listening: bool            // the platform is delivering `reading` events

    /** A freshly mounted reader: support unknown, scanning as `autoStart`. */
    constructor (autoStart: bool, hasOnRead: bool)
      ensures this.autoStart == autoStart && this.hasOnRead == hasOnRead
      ensures supported.None? && scanning == autoStart && error.None?
      ensures controller.NoController? && !listening
    {
      this.autoStart := autoStart;
      this.hasOnRead := hasOnRead;
      supported := None;
      scanning := autoStart;
      error := None;
      controller := NoController;
      listening := false;
    }

    /** The mount effect that probes for `NDEFReader`. */
    method ProbeSupport(hasNdefReader: bool)
      modifies this`supported, this`error
      ensures supported == Some(hasNdefReader)
      ensures !hasNdefReader ==> error == Some(NotSupportedMessage)
      ensures hasNdefReader ==> error == old(error)
    {
      supported := Some(hasNdefReader);
      if !hasNdefReader {
        error := Some(NotSupportedMessage);
      }
    }

    /** One run of the scan effect; `scan` is the outcome of `ndef.scan`.
        Returns whether a scan was attempted. */
    method ScanEffect(scan: Attempt<()>) returns (attempted: bool)
      modifies this`scanning, this`error, this`controller, this`listening
      ensures attempted <==> old(supported) == Some(true) && old(scanning)
      ensures !attempted ==>
                scanning == old(scanning) && error == old(error) &&
                controller == old(controller) && listening == old(listening)
      ensures attempted ==> controller.Live?
      ensures attempted && scan.Resolved? ==> error.None? && listening && scanning
      ensures attempted && scan.Rejected? ==>
                error == Some(MessageOr(scan.reason, ReadFailedMessage)) && !scanning &&
                listening == old(listening)
    {
      if supported != Some(true) || !scanning {
        return false;
      }
      attempted := true;
      controller := Live;
      if scan.Resolved? {
        error := None;
        listening := true;
      } else {
        error := Some(MessageOr(scan.reason, ReadFailedMessage));
        scanning := false;
      }
    }

    /** The effect's cleanup, run when `scanning` or `supported` changes and
        on unmount: abort the controller if there is one. */
    method Cleanup()
      modifies this`controller, this`listening
      ensures controller == (if old(controller).NoController? then NoController else Aborted)
      ensures !listening
    {
      if controller != NoController {
        controller := Aborted;
      }
      listening := false;
    }

    /** The scanner button while idle. */
    method StartScanning()
      modifies this`error, this`scanning
      ensures error.None? && scanning
    {
      error := None;
      scanning := true;
    }

    /** The scanner button while scanning; stopping twice is stopping once. */
    method StopScanning()
      modifies this`scanning
      ensures !scanning
    {
      scanning := false;
    }

    /** The `reading` listener: the strings passed to `onRead`, in call
        order, for one message. */
    method OnReading(message: NdefMessage, decode: seq<byte> -> string) returns (delivered: seq<string>)
      requires listening
      ensures delivered == if hasOnRead then DecodedPayloads(message.records, decode) else []
    {
      var records := message.records;
      delivered := [];
      for i := 0 to |records|
        invariant delivered == if hasOnRead then DecodedPayloads(records[..i], decode) else []
      {
        var record := records[i];
        DecodedPayloadsAppend(records[..i], [record], decode);
        DecodedPayloadsOfOne(record, decode);
        assert records[..i + 1] == records[..i] + [record];
        if record.recordType == "url" || record.recordType == "text" {
          var data := decode(record.data);
          if hasOnRead {
            delivered := delivered + [data];
          }
        }
      }
      assert records[..|records|] == records;
    }
  }
}

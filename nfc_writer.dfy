/**
 * The NFC writer component (src/components/nfc/NFCWriter.tsx): a single-shot
 * write of one `url` record, with `writing`, `error` and `success` flags and
 * the `onSuccess` / `onError` callbacks.
 *
 * `writeToTag` is asynchronous: `WriteToTag` is its part up to the awaited
 * platform write, `Settle` its continuation once that write settles.
 */
module NfcWriter {
  import opened Common
  import opened Ndef

  const NotSupportedMessage: string := "NFC is not supported on this device or browser."
  const WriteFailedMessage: string := "Failed to write to NFC tag."

  /** A call the writer makes to one of its callback props. */
  datatype Callback = SuccessCalled | ErrorCalled(message: string)

  class Writer {
    const supported: bool          // probed once, when the component is created
    const urlToWrite: string
    const hasOnSuccess: bool
    const hasOnError: bool

    var writing: bool
    var error: Option<string>
    var success: bool

    constructor (hasNdefReader: bool, urlToWrite: string, hasOnSuccess: bool, hasOnError: bool)
      ensures supported == hasNdefReader && this.urlToWrite == urlToWrite
      ensures this.hasOnSuccess == hasOnSuccess && this.hasOnError == hasOnError
      ensures !writing && error.None? && !success
    {
      supported := hasNdefReader;
      this.urlToWrite := urlToWrite;
      this.hasOnSuccess := hasOnSuccess;
      this.hasOnError := hasOnError;
      writing := false;
      error := None;
      success := false;
    }

    /** The button handler up to the awaited write. `issued` is the message
        handed to the platform, `calls` the callbacks made so far. The button
        is the only caller, and it is offered only while no write is in
        progress, hence the precondition. */
    method WriteToTag() returns (issued: Option<seq<RecordInit>>, calls: seq<Callback>)
      requires !writing
      modifies this`writing, this`error, this`success
      ensures !supported ==>
                issued.None? && error == Some(NotSupportedMessage) &&
                calls == (if hasOnError then [ErrorCalled(NotSupportedMessage)] else []) &&
                writing == old(writing) && success == old(success)
      ensures supported ==>
                issued == Some(UrlMessage(urlToWrite)) && calls == [] &&
                writing && error.None? && !success
    {
      if !supported {
        var errorMsg := NotSupportedMessage;
        error := Some(errorMsg);
        calls := if hasOnError then [ErrorCalled(errorMsg)] else [];
        return None, calls;
      }
      writing := true;
      error := None;
      success := false;
      issued := Some(UrlMessage(urlToWrite));
      calls := [];
    }

    /** The continuation once the platform write settles with `outcome`:
        exactly one callback (when given), and `writing` cleared. */
    method Settle(outcome: Attempt<()>) returns (calls: seq<Callback>)
      requires writing
      modifies this`writing, this`error, this`success
      ensures !writing
      ensures outcome.Resolved? ==>
                success && error == old(error) &&
                calls == (if hasOnSuccess then [SuccessCalled] else [])
      ensures outcome.Rejected? ==>
                var msg := MessageOr(outcome.reason, WriteFailedMessage);
                success == old(success) && error == Some(msg) &&
                calls == (if hasOnError then [ErrorCalled(msg)] else [])
    {
      if outcome.Resolved? {
        success := true;
        calls := if hasOnSuccess then [SuccessCalled] else [];
      } else {
        var errorMsg := MessageOr(outcome.reason, WriteFailedMessage);
        error := Some(errorMsg);
        calls := if hasOnError then [ErrorCalled(errorMsg)] else [];
      }
      writing := false;
    }
  }
}

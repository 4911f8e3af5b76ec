/**
 * The stream object (index.js:14-76) and the reporting client it writes to.
 * The client only records the calls it receives, in order.
 */
module Stream {
  import opened Wrappers
  import opened JsValues
  import opened Levels
  import opened Translator

  /** The reporting client: the two operations the stream uses, each logged as a `Dispatch`. */
  class Client {
    var calls: seq<Dispatch>

    /** A fresh client that has received no call yet, as the stubs each test starts from. */
    constructor ()
      ensures calls == []
    {
      calls := [];
    }

    method HandleErrorWithPayloadData(error: Value, payload: Payload, request: Option<Value>)
      modifies this
      ensures calls == old(calls) + [HandleError(error, payload, request)]
    {
      calls := calls + [HandleError(error, payload, request)];
    }

    method ReportMessageWithPayloadData(message: Value, payload: Payload, request: Option<Value>)
      modifies this
      ensures calls == old(calls) + [ReportMessage(message, payload, request)]
    {
      calls := calls + [ReportMessage(message, payload, request)];
    }
  }

  /** `BunyanRollbar`: a stream holding the client it was given at construction. */
  class BunyanRollbar {
    var rollbar: Client

    /** `initialize` with `options.rollbar` set (index.js:19-22). */
    constructor (rollbar: Client)
      ensures this.rollbar == rollbar
    {
      this.rollbar := rollbar;
    }

    /**
     * `write` (index.js:29-75): raises the configuration error and calls
     * nothing for a non-object record; otherwise makes exactly the one call
     * `Translate` describes. The record, a value, is left as it was.
     */
    method Write(record: Value) returns (thrown: Option<ConfigError>)
      modifies rollbar
      ensures rollbar == old(rollbar)
      ensures Translate(record).Failure? ==>
        thrown == Some(Translate(record).error) && rollbar.calls == old(rollbar.calls)
      ensures Translate(record).Success? ==>
        thrown == None && rollbar.calls == old(rollbar.calls) + [Translate(record).value]
    {
      if !IsObject(record) {
        return Some(RawStreamRequired);
      }
      var error := RecoverError(record);
      var request := RecoverRequest(record);
      var payload := Payload(RollbarLevelOf(Field(record, "level")), Fields(record));
      if error.Some? {
        payload := payload.(custom := payload.custom - {"err"});
      }
      if request.Some? {
        payload := payload.(custom := payload.custom - {"req"});
      }
      assert payload.custom == Fields(record)
                               - (if error.Some? then {"err"} else {})
                               - (if request.Some? then {"req"} else {});
      if error.Some? {
        rollbar.HandleErrorWithPayloadData(error.value, payload, request);
      } else {
        payload := payload.(custom := payload.custom - {"msg"});
        rollbar.ReportMessageWithPayloadData(Field(record, "msg"), payload, request);
      }
      thrown := None;
    }
  }

  /**
   * Writing the same record twice through a stream: two identical calls, or
   * two configuration errors and no call; nothing of the first write changes
   * the second.
   */
  method WriteTwice(stream: BunyanRollbar, record: Value)
    returns (first: Option<ConfigError>, second: Option<ConfigError>)
    modifies stream.rollbar
    ensures first == second
    ensures IsObject(record) ==>
      && first.None?
      && stream.rollbar.calls == old(stream.rollbar.calls) + [Translate(record).value, Translate(record).value]
    ensures !IsObject(record) ==> first.Some? && stream.rollbar.calls == old(stream.rollbar.calls)
  {
    first := stream.Write(record);
    second := stream.Write(record);
  }
}

/**
 * The record translator, `BunyanRollbar.prototype.write` (index.js:29-75), as a
 * pure function from one log record to the one client call it makes, or to the
 * configuration error it raises.
 */
module Translator {
  import opened Wrappers
  import opened JsValues
  import opened Levels

  /** The text of the error raised for a record that is not an object (index.js:31). */
  const RawStreamMessage: string :=
    "bunyan-rollbar requires a raw stream. Please define the type as raw when setting up the bunyan-rollbar stream."

  /** The one error the translator raises itself. */
  datatype ConfigError = RawStreamRequired {
    function Message(): string { RawStreamMessage }
  }

  /** The second argument of either client call: `{ level, custom }`. */
  datatype Payload = Payload(level: RollbarLevel, custom: map<string, Value>)

  /**
   * One call on the reporting client: `handleErrorWithPayloadData(error, payload,
   * request)` or `reportMessageWithPayloadData(message, payload, request)`. An
   * absent request (JavaScript `undefined`) is `None`.
   */
  datatype Dispatch =
    | HandleError(error: Value, payload: Payload, request: Option<Value>)
    | ReportMessage(message: Value, payload: Payload, request: Option<Value>)

  /**
   * The real error of a record (index.js:38-43): the hidden original of
   * `record.err` when that is an Error, else `record.err` when it is itself one.
   */
  function RecoverError(record: Value): (e: Option<Value>)
    ensures e.Some? ==> InstanceOfError(e.value)
    ensures e.Some? <==> InstanceOfError(Original(Field(record, "err"))) || InstanceOfError(Field(record, "err"))
    ensures InstanceOfError(Original(Field(record, "err"))) ==> e == Some(Original(Field(record, "err")))
    ensures (!InstanceOfError(Original(Field(record, "err"))) && InstanceOfError(Field(record, "err")))
      ==> e == Some(Field(record, "err"))
  {
    var err := Field(record, "err");
    if Truthy(err) && Truthy(Original(err)) && InstanceOfError(Original(err)) then Some(Original(err))
    else if Truthy(err) && InstanceOfError(err) then Some(err)
    else None
  }

  /**
   * The real request of a record (index.js:47-52): the hidden original of
   * `record.req` when it has a truthy `connection`, else `record.req` when it has one.
   */
  function RecoverRequest(record: Value): (q: Option<Value>)
    ensures q.Some? ==> HasConnection(q.value)
    ensures q.Some? <==> HasConnection(Original(Field(record, "req"))) || HasConnection(Field(record, "req"))
    ensures HasConnection(Original(Field(record, "req"))) ==> q == Some(Original(Field(record, "req")))
    ensures (!HasConnection(Original(Field(record, "req"))) && HasConnection(Field(record, "req")))
      ==> q == Some(Field(record, "req"))
  {
    var req := Field(record, "req");
    if Truthy(req) && Truthy(Original(req)) && HasConnection(Original(req)) then Some(Original(req))
    else if Truthy(req) && HasConnection(req) then Some(req)
    else None
  }

  /**
   * The whole of `write` on one record: a non-object record is refused;
   * otherwise exactly one call, which reports the error when one was recovered
   * and the message otherwise, carries the recovered request in either case,
   * and sends as `custom` the record's fields minus those sent separately.
   */
  function Translate(record: Value): (r: Result<Dispatch, ConfigError>)
    ensures r.Failure? <==> !IsObject(record)
    ensures r.Success? ==> r.value.payload.level == RollbarLevelOf(Field(record, "level"))
    ensures r.Success? ==> (r.value.HandleError? <==> RecoverError(record).Some?)
    ensures r.Success? && r.value.HandleError? ==> RecoverError(record) == Some(r.value.error)
    ensures r.Success? && r.value.ReportMessage? ==> r.value.message == Field(record, "msg")
    ensures r.Success? ==> r.value.request == RecoverRequest(record)
    ensures r.Success? ==>
      forall k :: k in r.value.payload.custom <==>
        && k in Fields(record)
        && (k == "err" ==> RecoverError(record).None?)
        && (k == "req" ==> RecoverRequest(record).None?)
        && (k == "msg" ==> r.value.HandleError?)
    ensures r.Success? ==>
      forall k :: k in r.value.payload.custom ==> r.value.payload.custom[k] == Fields(record)[k]
  {
    if !IsObject(record) then Failure(RawStreamRequired)
    else
      var error := RecoverError(record);
      var request := RecoverRequest(record);
      var level := RollbarLevelOf(Field(record, "level"));
      var custom := Fields(record)
                    - (if error.Some? then {"err"} else {})
                    - (if request.Some? then {"req"} else {});
      if error.Some? then
        Success(HandleError(error.value, Payload(level, custom), request))
      else
        Success(ReportMessage(Field(record, "msg"), Payload(level, custom - {"msg"}), request))
  }

  /**
   * The payload never repeats what is sent beside it: no `err` when an error
   * is reported, no `req` when a request is passed, no `msg` when the message
   * is; while the error branch keeps `msg` as it was.
   */
  lemma NoDuplicatedData(record: Value)
    requires IsObject(record)
    ensures var d := Translate(record).value;
      && (d.HandleError? ==> "err" !in d.payload.custom)
      && (d.request.Some? ==> "req" !in d.payload.custom)
      && (d.ReportMessage? ==> "msg" !in d.payload.custom)
      && (d.HandleError? && "msg" in Fields(record) ==>
            "msg" in d.payload.custom && d.payload.custom["msg"] == Fields(record)["msg"])
  {
  }

  /**
   * A record with neither an error nor a request to recover is reported as a
   * message, and keeps every field but `msg`; this is the plain `logger.info`
   * path.
   */
  lemma MessageOnly(record: Value)
    requires IsObject(record)
    requires RecoverError(record).None? && RecoverRequest(record).None?
    ensures Translate(record) ==
      Success(ReportMessage(Field(record, "msg"),
                            Payload(RollbarLevelOf(Field(record, "level")), Fields(record) - {"msg"}),
                            None))
  {
    assert Fields(record) - {} - {} - {"msg"} == Fields(record) - {"msg"};
  }

  /**
   * A record with both an error and a request to recover is one error report
   * carrying both, with `custom` missing `err` and `req` only.
   */
  lemma ErrorAndRequest(record: Value)
    requires IsObject(record)
    requires RecoverError(record).Some? && RecoverRequest(record).Some?
    ensures Translate(record) ==
      Success(HandleError(RecoverError(record).value,
                          Payload(RollbarLevelOf(Field(record, "level")), Fields(record) - {"err", "req"}),
                          RecoverRequest(record)))
  {
    assert Fields(record) - {"err"} - {"req"} == Fields(record) - {"err", "req"};
  }
}

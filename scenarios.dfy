/** The behaviours the repository's tests check (test/stream.js), restated on the model. */
module Scenarios {
  import opened Wrappers
  import opened JsValues
  import opened Levels
  import opened Translator
  import opened Serializers

  /** The fields the logging library puts in every record, besides `msg`. */
  function CoreFields(level: int): map<string, Value> {
    map["name" := Str("mylogger"), "hostname" := Str("host"), "pid" := Num(1),
        "level" := Num(level), "time" := Str("2016-01-01T00:00:00.000Z"), "v" := Num(0)]
  }

  /** A record already rendered as text is refused with the raw-stream error. */
  lemma PreformattedRecordIsRefused(line: string)
    ensures Translate(Str(line)) == Failure(RawStreamRequired)
    ensures Translate(Str(line)).error.Message() == RawStreamMessage
  {
  }

  /**
   * `logger.info({ foo: 'bar' }, 'testing')`: a message report whose first
   * argument is the message and whose `custom` is every other field.
   */
  lemma InfoMessageWithExtraField()
    ensures
      var record := Mapping(CoreFields(INFO)["foo" := Str("bar")]["msg" := Str("testing")], None);
      var d := Translate(record).value;
      && Translate(record).Success?
      && d.ReportMessage?
      && d.message == Str("testing")
      && d.payload.level.Name() == "info"
      && d.payload.custom.Keys == {"foo", "hostname", "level", "name", "pid", "time", "v"}
      && d.payload.custom["foo"] == Str("bar")
      && d.request.None?
  {
  }

  /**
   * `logger.info({ err, req }, 'testing')` with both serialized by the
   * wrapped serializers (`f` and `g` are the standard `err` and `req`
   * serializers, each making a fresh plain mapping): one error report
   * carrying the logged Error and request, `custom` without `err` and `req`
   * but with `msg`.
   */
  lemma ErrorAndRequestTogether(f: SerializeFn, g: SerializeFn)
    requires f(ErrorObj(1)).Success? && IsPlainObject(f(ErrorObj(1)).value)
    requires f(ErrorObj(1)).value.hiddenOriginal.None?
    requires g(Request(2, true)).Success? && IsPlainObject(g(Request(2, true)).value)
    requires g(Request(2, true)).value.hiddenOriginal.None?
    ensures Serialize(Recovering(Some(f)), ErrorObj(1)).Success?
    ensures Serialize(Recovering(Some(g)), Request(2, true)).Success?
    ensures
      var e := ErrorObj(1);
      var q := Request(2, true);
      var record := Mapping(CoreFields(INFO)["msg" := Str("testing")]
                                            ["err" := Serialize(Recovering(Some(f)), e).value]
                                            ["req" := Serialize(Recovering(Some(g)), q).value], None);
      var d := Translate(record).value;
      && Translate(record).Success?
      && d == HandleError(e, d.payload, Some(q))
      && "err" !in d.payload.custom && "req" !in d.payload.custom
      && "msg" in d.payload.custom && d.payload.custom["msg"] == Str("testing")
  {
  }
}

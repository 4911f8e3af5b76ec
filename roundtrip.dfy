/**
 * The field recoverer and the translator together: an error or a request that
 * went through the wrapped serializer reaches the client as the very object
 * that was logged, not as its serialized form.
 */
module RoundTrip {
  import opened Wrappers
  import opened JsValues
  import opened Translator
  import opened Serializers

  /**
   * Wrapping an Error's serializer, then writing a record whose `err` is the
   * result, reports that same Error and leaves `err` out of `custom`.
   */
  lemma SerializedErrorIsRecovered(f: SerializeFn, e: Value, fields: map<string, Value>)
    requires InstanceOfError(e)
    requires f(e).Success? && IsPlainObject(f(e).value) && f(e).value.hiddenOriginal.None?
    ensures Serialize(Recovering(Some(f)), e).Success?
    ensures
      var record := Mapping(fields["err" := Serialize(Recovering(Some(f)), e).value], None);
      && Translate(record).Success?
      && Translate(record).value.HandleError?
      && Translate(record).value.error == e
      && "err" !in Translate(record).value.payload.custom
  {
  }

  /**
   * Likewise for a live request: whatever the serialized mapping holds, the
   * request passed to the client is the one that was logged, and `req` is
   * left out of `custom`.
   */
  lemma SerializedRequestIsRecovered(f: SerializeFn, q: Value, fields: map<string, Value>)
    requires q.Request? && q.hasConnection
    requires f(q).Success? && IsPlainObject(f(q).value) && f(q).value.hiddenOriginal.None?
    ensures Serialize(Recovering(Some(f)), q).Success?
    ensures
      var record := Mapping(fields["req" := Serialize(Recovering(Some(f)), q).value], None);
      && Translate(record).Success?
      && Translate(record).value.request == Some(q)
      && "req" !in Translate(record).value.payload.custom
  {
  }

  /**
   * A serializer that hands back its input unchanged (the logging library's
   * `err` serializer does so for a value without a stack) gains nothing from the
   * wrapper: a record's `err` that is not a mapping is then recovered exactly
   * when it is itself an Error.
   */
  lemma UnserializedValuePassesThrough(f: SerializeFn, x: Value)
    requires f(x) == Success(x)
    ensures Serialize(Recovering(Some(f)), x) == Success(x)
    ensures !x.Mapping? ==> (RecoverError(Mapping(map["err" := x], None)).Some? <==> InstanceOfError(x))
  {
  }
}

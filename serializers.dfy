/**
 * The field recoverer (index.js:82-102): the adapter's copy of the logging
 * library's standard serializer table, with its `err` and `req` entries
 * wrapped so that a serialized mapping keeps a hidden back-reference to the
 * object it was made from.
 */
module Serializers {
  import opened Wrappers
  import opened JsValues

  /** What a serializer call may throw: whatever the wrapped serializer throws, or a TypeError of the runtime. */
  datatype Exception = Raised(thrown: Value) | TypeError(message: string)

  /** A serializer of the logging library: it returns the serialized form, or throws. */
  type SerializeFn = Value -> Result<Value, Exception>

  /**
   * An entry of the adapter's serializer table: a standard serializer passed
   * through unchanged, or the wrapper around the standard serializer of the same
   * name (`None` when the standard table has no such entry, so the wrapper
   * calls `undefined`).
   */
  datatype Serializer = Standard(run: SerializeFn) | Recovering(original: Option<SerializeFn>)

  /** The two fields whose serializers are wrapped (index.js:83). */
  const RecoveredFields: seq<string> := ["err", "req"]

  /**
   * The wrapper's body (index.js:85-101) around the original serializer `f`.
   * It returns exactly what `f` returns, and attaches `input` as the hidden
   * original when `f` made something new and that is a plain mapping. Defining
   * the back-reference again with a different value is refused by the runtime,
   * because the property is neither writable nor configurable.
   */
  function Recover(f: SerializeFn, input: Value): (r: Result<Value, Exception>)
    ensures f(input).Failure? ==> r == f(input)
    ensures r.Success? ==> f(input).Success? && Visible(r.value) == Visible(f(input).value)
    ensures f(input).Success? && (f(input).value == input || !IsPlainObject(f(input).value))
      ==> r == f(input)
    ensures r.Success? && IsPlainObject(r.value) && f(input).value != input ==> Original(r.value) == input
    ensures (f(input).Success? && f(input).value != input && IsPlainObject(f(input).value)
             && f(input).value.hiddenOriginal.None?)
      ==> r == Success(f(input).value.(hiddenOriginal := Some(input)))
    ensures (f(input).Success? && f(input).value != input && IsPlainObject(f(input).value)
             && f(input).value.hiddenOriginal.Some? && f(input).value.hiddenOriginal.value != input)
      ==> r.Failure? && r.error.TypeError?
    ensures r.Failure? && f(input).Success? ==>
      && f(input).value != input
      && Original(f(input).value) != input
      && f(input).value.Mapping?
      && f(input).value.hiddenOriginal.Some?
  {
    match f(input)
    case Failure(e) => Failure(e)
    case Success(serialized) =>
      if serialized != input && IsPlainObject(serialized) then
        match serialized.hiddenOriginal
        case None => Success(serialized.(hiddenOriginal := Some(input)))
        case Some(o) =>
          if o == input then Success(serialized)
          else Failure(TypeError("Cannot redefine property: " + HiddenKey))
      else Success(serialized)
  }

  /** Calling an entry of the adapter's serializer table on a value. */
  function Serialize(s: Serializer, input: Value): Result<Value, Exception> {
    match s
    case Standard(f) => f(input)
    case Recovering(None) => Failure(TypeError("originalSerializer is not a function"))
    case Recovering(Some(f)) => Recover(f, input)
  }

  /** The wrapper for field `name` of the standard table. */
  function RecoveringFor(std: map<string, SerializeFn>, name: string): Serializer {
    Recovering(if name in std then Some(std[name]) else None)
  }

  /**
   * `serializers = _.clone(bunyan.stdSerializers)` followed by the loop that
   * replaces the `err` and `req` entries by their wrappers (index.js:82-102).
   * Calling an entry of the result behaves as the standard serializer of that
   * name, except for `err` and `req`, which behave as the wrapper around it, or
   * throw when the standard table has no such entry.
   */
  method BuildSerializers(std: map<string, SerializeFn>) returns (table: map<string, Serializer>)
    ensures table.Keys == std.Keys + {"err", "req"}
    ensures forall k :: k in table && k != "err" && k != "req" ==> table[k] == Standard(std[k])
    ensures table["err"] == RecoveringFor(std, "err")
    ensures table["req"] == RecoveringFor(std, "req")
    ensures forall k, x :: k in std && k != "err" && k != "req" ==> Serialize(table[k], x) == std[k](x)
    ensures forall x :: "err" in std ==> Serialize(table["err"], x) == Recover(std["err"], x)
    ensures forall x :: "req" in std ==> Serialize(table["req"], x) == Recover(std["req"], x)
    ensures forall x :: "err" !in std ==> Serialize(table["err"], x).Failure?
    ensures forall x :: "req" !in std ==> Serialize(table["req"], x).Failure?
  {
    table := map k | k in std :: Standard(std[k]);
    for i := 0 to |RecoveredFields|
      invariant table.Keys == std.Keys + set j | 0 <= j < i :: RecoveredFields[j]
      invariant forall k :: k in table && k !in RecoveredFields[..i] ==> table[k] == Standard(std[k])
      invariant forall j :: 0 <= j < i ==> table[RecoveredFields[j]] == RecoveringFor(std, RecoveredFields[j])
    {
      var name := RecoveredFields[i];
      table := table[name := RecoveringFor(std, name)];
    }
    assert RecoveredFields[0] == "err" && RecoveredFields[1] == "req";
    assert (set j | 0 <= j < |RecoveredFields| :: RecoveredFields[j]) == {"err", "req"};
  }
}

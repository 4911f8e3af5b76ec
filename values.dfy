/**
 * The JavaScript values a log record is made of, and the few operations on them
 * that the adapter relies on: truthiness, `instanceof Error`, lodash's
 * `isObject` and `isPlainObject`, property reads, and the hidden back-reference
 * that the serializer wrapper attaches to a serialized mapping.
 */
module JsValues {
  import opened Wrappers

  /** The reserved attribute name of the hidden back-reference (index.js:95). */
  const HiddenKey: string := "_bunyanRollbarOriginalObject"

  /**
   * A JavaScript value. Objects carry their identity explicitly: two Error
   * instances are the same object exactly when their ids agree, and a live
   * request likewise. `Request.hasConnection` says whether its `connection`
   * property is truthy. A `Mapping` is a plain object: its enumerable fields and,
   * separately, the non-enumerable back-reference the serializer wrapper may
   * have attached, which takes no part in its visible shape.
   */
  datatype Value =
    | Undefined
    | Null
    | Bool(b: bool)
    | Num(n: int)
    | Str(s: string)
    | ErrorObj(id: nat)
    | Request(id: nat, hasConnection: bool)
    | Mapping(fields: map<string, Value>, hiddenOriginal: Option<Value>)

  /** JavaScript truthiness. */
  predicate Truthy(v: Value) {
    match v
    case Undefined => false
    case Null => false
    case Bool(b) => b
    case Num(n) => n != 0
    case Str(s) => s != ""
    case _ => true
  }

  /** lodash `_.isObject`: every object, as opposed to a primitive. */
  predicate IsObject(v: Value) {
    v.ErrorObj? || v.Request? || v.Mapping?
  }

  /** lodash `_.isPlainObject`: an object literal, not an Error or a request. */
  predicate IsPlainObject(v: Value) {
    v.Mapping?
  }

  /** `v instanceof Error`. */
  predicate InstanceOfError(v: Value) {
    v.ErrorObj?
  }

  /** The enumerable fields of a value; Error and request objects are given none. */
  function Fields(v: Value): map<string, Value> {
    if v.Mapping? then v.fields else map[]
  }

  /** The property read `v[key]` of an enumerable field; `undefined` when absent. */
  function Field(v: Value, key: string): Value {
    if key in Fields(v) then Fields(v)[key] else Undefined
  }

  /** The property read `v._bunyanRollbarOriginalObject`. */
  function Original(v: Value): Value {
    if v.Mapping? && v.hiddenOriginal.Some? then v.hiddenOriginal.value else Undefined
  }

  /** Truthiness of the property read `v.connection`. */
  predicate HasConnection(v: Value) {
    match v
    case Request(_, c) => c
    case Mapping(f, _) => "connection" in f && Truthy(f["connection"])
    case _ => false
  }

  /** What enumeration and JSON rendering see of a value: the hidden back-reference dropped. */
  function Visible(v: Value): Value {
    if v.Mapping? then Mapping(v.fields, None) else v
  }
}

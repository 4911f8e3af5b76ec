# bunyan-rollbar, modelled in Dafny

bunyan-rollbar is a stream for the Bunyan logger that forwards each log record
to the Rollbar error-reporting client. This project models its whole logic,
`index.js`:

- the **severity table** from Bunyan's six levels to Rollbar's levels, with
  `error` for any other level (`levels.dfy`);
- the **record translator**, `BunyanRollbar.prototype.write`: a record that is
  not an object raises the "requires a raw stream" error; otherwise the real
  error and request are recovered and exactly one client call is made, with a
  `custom` payload that leaves out what is sent separately. It is a pure
  function `Translator.Translate` (`translator.dfy`) and, beside it, the
  stream class whose `Write` method performs the same steps one by one and
  appends the call to the client's log (`stream.dfy`);
- the **field recoverer**: the copy of Bunyan's standard serializer table in
  which the `err` and `req` serializers are wrapped so that a serialized
  mapping keeps a hidden back-reference to the object it came from
  (`serializers.dfy`), and the round trip through the wrapper and `write`
  (`roundtrip.dfy`).

JavaScript values are the datatype `JsValues.Value` (`values.dfy`): primitives,
Error instances and live requests with explicit identities, and plain mappings
whose non-enumerable back-reference is a separate `hiddenOriginal` field, so
that what enumeration and JSON rendering see is `Visible(v)`. Truthiness,
`instanceof Error`, lodash's `isObject` and `isPlainObject` are predicates on
`Value`; lodash's `omit` is map key removal. Records are values, so `write`
cannot change the record it is given. `scenarios.dfy` restates the
repository's tests on the model.

The reporting client is a class that records the calls it receives; the
original Bunyan serializers are an abstract parameter of type
`Value -> Result<Value, Exception>`.

## Model

| member | source | states |
|---|---|---|
| Levels.RollbarLevelOf | index.js:6-12 | trace and debug go to debug, info to info, warn to warning, fatal to critical, and error and every level outside the table to error; each reporting level's preimage is given exactly |
| Levels.SeverityTable | test/stream.js:129-175 | the payload spells the six levels debug, debug, info, warning, error, critical, and any other level error |
| Translator.RecoverError | index.js:38-43 | an error is recovered exactly when `err`'s hidden original or `err` itself is an Error; the hidden original wins; what is recovered is always an Error |
| Translator.RecoverRequest | index.js:47-52 | a request is recovered exactly when `req`'s hidden original or `req` itself has a truthy `connection`; the hidden original wins |
| Translator.Translate | index.js:29-75 | fails with the configuration error exactly for non-objects; otherwise one dispatch, an error report iff an error was recovered (carrying that error), else a message report carrying `record.msg`; the recovered request in both; the mapped level; `custom` is the record's fields minus `err` iff an error, `req` iff a request, `msg` iff the message branch, every kept value unchanged |
| Translator.NoDuplicatedData | index.js:59-73 | `custom` has no `err` in an error report, no `req` when a request is passed, no `msg` in a message report, and keeps `msg` unchanged in an error report |
| Translator.MessageOnly | index.js:71-73 | with nothing to recover, the record is one message report of `msg` with every other field as `custom` and no request |
| Translator.ErrorAndRequest | index.js:61-70 | with an error and a request to recover, one error report carries both, `custom` missing exactly `err` and `req` |
| Serializers.Recover | index.js:85-101 | the wrapper returns what the original serializer returns, with the same visible shape; it attaches the input as hidden original when the result is a new plain mapping; failures of the original propagate; a new plain mapping that already carries a different hidden original makes it throw a TypeError, and that is its only failure of its own |
| Serializers.BuildSerializers | index.js:82-102 | the table has the standard table's keys plus `err` and `req`; every other entry is the standard serializer unchanged; `err` and `req` are the wrappers around the standard entries of those names; calling an entry behaves as the standard serializer, and calling `err` or `req` as the wrapper around it, or throws when the standard table lacks it |
| Stream.Client.constructor | test/stream.js:13-19 | a fresh client has received no call, as each test's stubs start |
| Stream.Client.HandleErrorWithPayloadData | test/stream.js:14-15 | the client logs one error report with exactly the given arguments |
| Stream.Client.ReportMessageWithPayloadData | test/stream.js:17-18 | the client logs one message report with exactly the given arguments |
| Stream.BunyanRollbar.constructor | index.js:19-22 | the stream keeps the client it was given |
| Stream.BunyanRollbar.Write | index.js:29-75 | a non-object record raises the configuration error and the client's log is unchanged; otherwise the log grows by exactly the one dispatch `Translate` gives, and the stream keeps its client |
| Stream.WriteTwice | index.js:29-75 | writing one record twice gives two identical calls, or two identical errors and no call |
| RoundTrip.SerializedErrorIsRecovered | test/stream.js:195-204 | an Error serialized by the wrapper to a fresh plain mapping and logged as `err` is reported as that same Error, and `custom` has no `err` |
| RoundTrip.SerializedRequestIsRecovered | test/stream.js:206-231 | a live request serialized by the wrapper and logged as `req` is passed to the client as that same request, and `custom` has no `req` |
| RoundTrip.UnserializedValuePassesThrough | index.js:94-100 | when the original serializer returns its input, the wrapper does too, and such a non-mapping `err` is recovered exactly when it is an Error |
| Scenarios.PreformattedRecordIsRefused | test/stream.js:27-43 | a record rendered as a string gives the raw-stream configuration error |
| Scenarios.InfoMessageWithExtraField | test/stream.js:91-110 | `logger.info({ foo: 'bar' }, 'testing')` is a message report of `testing` at level info whose `custom` keys are exactly foo, hostname, level, name, pid, time, v, with foo = bar |
| Scenarios.ErrorAndRequestTogether | test/stream.js:233-260 | an error and a request logged together through the wrapped serializers are one error report of the logged Error with the logged request, `custom` without `err` and `req` and with `msg` |

## Left out

- `initialize`'s self-initialisation (`require('rollbar')` and `rollbar.init(token, options)`, index.js:23-26) is a call into the Rollbar library; the model only has the path where a client is injected, as the constructor's argument.
- The Rollbar client's own behaviour (network, retries, its failures): the client only records calls, so the model never sees a reporting failure propagate out of `Write`.
- Bunyan's standard serializers are abstract functions; `_.clone` of their table is modelled only as "every other entry passed through unchanged".
- Object identity is datatype equality: Errors and requests carry an explicit id, but two distinct plain mappings with the same fields and back-reference are not told apart, so `serialized !== object` is value inequality.
- Property descriptors are not modelled: the back-reference is the separate `hiddenOriginal` field, and a visible field spelled `_bunyanRollbarOriginalObject` is not considered.
- Levels are looked up only for numeric values; the coercion of a numeric string such as `"30"` to a table key, and names inherited from `Object.prototype`, are not modelled (both map to error here).
- Numbers are integers (no fractions, no NaN); arrays and functions are not separate kinds of value; Error and request objects used as a whole record are given no enumerable fields.
- The key order of `custom` is not modelled (the tests compare it sorted).
- The HTTP server, the sinon stubs and the logger construction in the tests are scaffolding; the tests appear only as the scenarios above.

# Result kit, modelled in Dafny

The repository is one small TypeScript module, `src/lib/result.ts`. It defines a
success/failure value `Result<T, E>`, which is either `{ ok: true, value }` or
`{ ok: false, error }`. Around it are pure functions:

- the constructors `resultOk` and `resultError`;
- the type guards `isResult` (over untyped values), `isResultOk` and `isResultError`;
- the helpers `isPromiseLike` (duck-typed thenable test) and `ensureError`
  (turns any thrown value into an `Error`);
- the evaluator `resultOf`, which calls a function once and folds its outcome into a
  `Result`: a returned value, a thrown value, or, when a thenable is returned, its
  fulfilment or rejection.

The model has three modules:

- `NumberText` (`number_text.dfy`) holds the text `String(n)` gives for a safe integer.
  `Decimal` is proved to read back as its input, so the message of a thrown number
  identifies the number.
- `JsValues` (`js_values.dfy`) models untyped JavaScript values as a datatype.
  It has `Undefined`, `Null`, booleans, safe integers, strings, functions, plain
  objects (a map of the properties the module looks up, own or inherited) and native
  errors (`name`, `message`, optional `cause`). It also models the operations the
  module applies to them: `typeof`, `in`, property reads, `isNativeError` and
  `String(x)`. `in` throws a `TypeError` on a non-object, so the model requires an
  object for it. The model also restricts property reads to objects, the only reads
  the module makes. So the verifier checks that the guards of `isResult` and
  `isPromiseLike` come in an order that never throws.
- `ResultKit` (`result.dfy`) models the module itself.
  - `Result` is a datatype `Ok(value) | Err(error)`. `ToJs` gives the object each
    variant is at run time.
  - `resultOf` is a function of what `fn()` did (`Returned(v)` or `Threw(x)`).
    When `fn()` returned a thenable, it also takes what calling that thenable's
    `then` does: it `Settles` with a fulfilment or rejection, stays `Pending`, or
    throws at once (`ThenThrew`).
  - `resultOf` answers `Immediate(result)` or `Eventual(settlement)`.
  - The main property of `ResultOf` compares two things: awaiting its answer, and
    awaiting `fn()` itself and then classifying the outcome (`Classify`: success
    becomes an ok result, failure an error result holding `ensureError` of the
    reason). The two always agree. It follows that the answer never rejects.

Notes on the source:

- The test file imports `computeResult`, which `result.ts` does not export.
  The tests use it exactly as `resultOf`, and the model reads it that way.
- A thenable's `then` is called inside the same `try` as `fn()`. When `then`
  throws, `resultOf` returns an error result at once, not a promise, even though
  the overload for thenables (src/lib/result.ts:55-57) declares a `PromiseLike`
  return. The model keeps this branch.

## Model

| member | source | states |
|---|---|---|
| NumberText.Decimal | src/lib/result.ts:126 | the decimal text of a natural number is non-empty digits, has no leading zero, and reads back as the number |
| NumberText.NumberToString | src/lib/result.ts:126 | `String(n)` of a safe integer is integer text, starts with `-` exactly when `n` is negative, and reads back as `n` |
| JsValues.IsNativeError | src/lib/result.ts:123 | `isNativeError` (imported from `util/types` at line 1) holds only of objects (so never of null, primitives or functions) and never of a plain object, whatever its properties |
| JsValues.ToString | src/lib/result.ts:126 | `String(x)` of a string is that string, of a safe integer text that reads back as the number, and of an error with a name and a message `name: message` |
| ResultKit.ToJs | src/lib/result.ts:4-12 | the run-time object of every result passes `isResult`, reads back through the type guard as the same result, and is not a thenable |
| ResultKit.IsResult | src/lib/result.ts:15-23 | `isResult(x)` holds exactly of a plain object with a boolean `ok` and an `error` or `value` key; it is false for null, primitives, functions and errors, and its guards never make `in` throw |
| ResultKit.IsResultIsLenient | src/lib/result.ts:15-23 | `isResult` is lenient: `{ok: true, error}` passes, though no result is that object, and so does `{ok: false, error: 5}`, whose payload is not an error |
| ResultKit.IsResultOk | src/lib/result.ts:25-27 | `isResultOk(r)` is the `ok` discriminant of the object and holds exactly of the success variant |
| ResultKit.IsResultError | src/lib/result.ts:29-33 | `isResultError(r)` holds exactly of the error variant and is always the negation of `isResultOk(r)` |
| ResultKit.ResultOk | src/lib/result.ts:36-41 | `resultOk(v)` is `{ok: true, value: v}`; `isResult` and `isResultOk` hold of it, `isResultError` does not, and its `value` is `v` |
| ResultKit.ResultError | src/lib/result.ts:43-48 | `resultError(e)` is `{ok: false, error: e}` for any `e`; `isResult` and `isResultError` hold of it, `isResultOk` does not, its `error` is `e`, and the payload is a native error exactly when `e` is one |
| ResultKit.IsPromiseLike | src/lib/result.ts:113-120 | `isPromiseLike(x)` holds exactly of an object whose `then` is a function; never of null, primitives, functions or errors |
| ResultKit.EnsureError | src/lib/result.ts:122-127 | the result is always a native error; a native error is returned unchanged; anything else becomes an `Error` with message `String(x)` and cause `x`; the thrown value is always the result or its cause |
| ResultKit.EnsureErrorIdempotent | src/lib/result.ts:122-127 | applying `ensureError` twice gives the same as applying it once |
| ResultKit.EnsureErrorMessages | src/lib/result.ts:126 | a thrown string becomes an error with that string as message and cause; a thrown number's message reads back as the number |
| ResultKit.OnFulfilled | src/lib/result.ts:100 | the fulfilment handler gives an ok result holding the fulfilled value |
| ResultKit.OnRejected | src/lib/result.ts:101 | the rejection handler never throws and gives an error result whose payload is an error that is, or has as cause, the reason |
| ResultKit.Classify | src/lib/result.ts:105-108 | a success is recorded as an ok result with the same value and a failure as an error result whose payload is an error that is, or has as cause, the reason |
| ResultKit.ResultOf | src/lib/result.ts:92-110 | the answer is immediate exactly when `fn` did not return a thenable or its `then` threw; awaiting the answer gives the classification of what awaiting `fn()` gives, so it never rejects and a pending thenable stays pending |
| ResultKit.ResultOfExamples | src/lib/result.test.ts:13-57 | the calls the tests make: returning 1 gives an immediate ok holding 1, throwing `new Error("test error")` an immediate error holding that error; a promise fulfilled with 1 or rejected with that error (whose results the tests check only by type) gives an eventual ok holding 1 or an eventual error holding the same error |

## Left out

- Promise scheduling and the event loop: a thenable's settlement is an input value (`Settles`, `Pending`), not an asynchronous run.
- Exceptions as control flow: what `fn()` does is an input (`Returned`, `Threw`), and `try`/`catch` is a case split.
- Non-compliant thenables are not modelled. This covers a `then` that returns something other than the promise of its handler's result, and a `then` that calls both handlers or calls one twice.
- Getters and proxies are not modelled: reading `ok` or `then` is a plain lookup that cannot throw.
- `String(x)` is modelled only for the value kinds above, and every non-error object converts to `[object Object]`. Built-in conversions of other objects are not modelled: a promise gives `[object Promise]` through `Symbol.toStringTag`, a date its date text and an array its joined elements. User-defined `toString`, `valueOf` and `Symbol.toPrimitive` are not modelled either. Neither are objects without a prototype, for which `String(x)` throws. Thrown synchronously, such a value makes `ensureError` throw out of the `catch`, so `resultOf` throws. As the reason of a rejected thenable, it makes the rejection handler (src/lib/result.ts:101) throw, so the promise `resultOf` returns rejects. The model's "never throws" and "never rejects" hold only for values whose `String(x)` does not throw.
- Numbers are safe integers only: fractions, `NaN`, infinities, `-0`, `BigInt` and symbols are not modelled.
- Arrays are plain objects here. A function's own properties are not modelled. An error carries only `name`, `message` and `cause`; its `stack` and extra properties are not modelled.
- The TypeScript overload signatures (src/lib/result.ts:51-59) and the type-level test assertions (src/lib/result.test.ts:42-65) only affect compile-time typing.
- The documentation examples (src/lib/result.ts:61-91) use `Math.random` and `console` and are not modelled.

/** The result kit: a success/failure value `Result`, its constructors and
    predicates, the error normalisation `ensureError`, the thenable test
    `isPromiseLike`, and the evaluator `resultOf`, which runs a computation
    once and folds a return, a throw, a fulfilment or a rejection into a
    `Result`. */
module ResultKit {
  import opened NumberText
  import opened JsValues

  /* ---------------------------------------------------------------- values */

  /** `Result<T, E>`: a `ResultOk` carrying `value` or a `ResultError`
      carrying `error`. The boolean discriminant `ok` of the source's object
      shape is the variant here, so a result never carries both payloads or
      neither. */
  datatype Result = Ok(value: JsValue) | Err(error: JsValue)

  /** The payload of an error result is a native error, as everything
      `resultOf` builds is. */
  predicate HasErrorPayload(r: Result) {
    r.Err? ==> IsNativeError(r.error)
  }

  /** The object a result is at run time: `{ ok: true, value }` or
      `{ ok: false, error }`. It passes `isResult`, it reads back as the same
      result, and it is not a thenable, so a promise fulfilled with it keeps
      it as it is. */
  function ToJs(r: Result): (x: JsValue)
    ensures IsResult(x) && Narrow(x) == r
    ensures !IsPromiseLike(x)
  {
    match r
    case Ok(v) => Obj(map["ok" := Bool(true), "value" := v])
    case Err(e) => Obj(map["ok" := Bool(false), "error" := e])
  }

  /** What the type guard `isResult(x)` lets a caller believe `x` is: the
      variant named by `x.ok`, with `x.value` or `x.error` as its payload. */
  function Narrow(x: JsValue): Result
    requires IsResult(x)
  {
    if Get(x, "ok") == Bool(true) then Ok(Get(x, "value")) else Err(Get(x, "error"))
  }

  /* ------------------------------------------------------------ predicates */

  /** `isResult(x)`: a non-null object with a boolean `ok` and at least one of
      the keys `error` and `value`. Each conjunct guards the next, so the
      `in` operator is never applied to a value it would throw on. */
  function IsResult(x: JsValue): (b: bool)
    ensures b <==> x.Obj? && "ok" in x.props && x.props["ok"].Bool?
                   && ("error" in x.props || "value" in x.props)
  {
    && x != Null
    && TypeOf(x) == "object"
    && HasProperty(x, "ok")
    && TypeOf(Get(x, "ok")) == "boolean"
    && (HasProperty(x, "error") || HasProperty(x, "value"))
  }

  /** `isResultOk(r)`: reads the discriminant `ok`; it holds exactly of the
      success variant. */
  function IsResultOk(r: Result): (b: bool)
    ensures b <==> r.Ok?
    ensures b <==> Get(ToJs(r), "ok") == Bool(true)
  {
    Get(ToJs(r), "ok").b
  }

  /** `isResultError(r)`: the negated discriminant; it holds exactly of the
      error variant and is the complement of `isResultOk`. */
  function IsResultError(r: Result): (b: bool)
    ensures b <==> r.Err?
    ensures b == !IsResultOk(r)
  {
    !Get(ToJs(r), "ok").b
  }

  /** `isResult` is lenient: it accepts `{ ok: true, error }`, which no result
      builds, and `{ ok: false, error: 5 }`, whose error payload is not an
      error. */
  lemma IsResultIsLenient()
    ensures var x := Obj(map["ok" := Bool(true), "error" := NativeError("Error", "boom", None)]);
            IsResult(x) && forall r :: ToJs(r) != x
    ensures var y := Obj(map["ok" := Bool(false), "error" := Num(5)]);
            IsResult(y) && !HasErrorPayload(Narrow(y))
  {
  }

  /* ---------------------------------------------------------- constructors */

  /** `resultOk(value)`: the object `{ ok: true, value }`; `isResult` and
      `isResultOk` hold of it and `isResultError` does not. */
  function ResultOk(v: JsValue): (r: Result)
    ensures ToJs(r) == Obj(map["ok" := Bool(true), "value" := v])
    ensures IsResult(ToJs(r)) && IsResultOk(r) && !IsResultError(r)
    ensures Get(ToJs(r), "value") == v
  {
    Ok(v)
  }

  /** `resultError(e)`: the object `{ ok: false, error: e }`; `isResult` and
      `isResultError` hold of it and `isResultOk` does not. `E extends Error`
      is a structural type, so `e` need not be a native error; the payload is
      one exactly when `e` is. */
  function ResultError(e: JsValue): (r: Result)
    ensures ToJs(r) == Obj(map["ok" := Bool(false), "error" := e])
    ensures IsResult(ToJs(r)) && IsResultError(r) && !IsResultOk(r)
    ensures Get(ToJs(r), "error") == e
    ensures HasErrorPayload(r) <==> IsNativeError(e)
  {
    Err(e)
  }

  /* ----------------------------------------------------------------- utils */

  /** `isPromiseLike(x)`: true exactly of an object whose `then` is a function.
      Null, primitives, functions and errors are never thenables here. */
  function IsPromiseLike(x: JsValue): (b: bool)
    ensures b <==> x.Obj? && "then" in x.props && x.props["then"].Func?
  {
    && TypeOf(x) == "object"
    && x != Null
    && HasProperty(x, "then")
    && TypeOf(Get(x, "then")) == "function"
  }

  /** `ensureError(x)`: always a native error. A native error comes back as it
      is; anything else is wrapped in a new `Error` whose message is `String(x)`
      and whose cause is `x`, so the thrown value is never lost. */
  function EnsureError(x: JsValue): (e: JsValue)
    ensures IsNativeError(e)
    ensures IsNativeError(x) ==> e == x
    ensures !IsNativeError(x) ==>
              && Get(e, "name") == Str("Error")
              && Get(e, "message") == Str(ToString(x))
              && Get(e, "cause") == x
    ensures e == x || Get(e, "cause") == x
  {
    if IsNativeError(x) then x else NativeError("Error", ToString(x), Some(x))
  }

  /** Normalising twice is normalising once. */
  lemma EnsureErrorIdempotent(x: JsValue)
    ensures EnsureError(EnsureError(x)) == EnsureError(x)
  {
  }

  /** A thrown string becomes an error whose message and cause are that
      string; a thrown number becomes one whose message reads back as it. */
  lemma EnsureErrorMessages(s: string, n: SafeInteger)
    ensures Get(EnsureError(Str(s)), "message") == Str(s)
    ensures Get(EnsureError(Str(s)), "cause") == Str(s)
    ensures var m := EnsureError(Num(n)).message; IsIntegerText(m) && IntegerValue(m) == n
  {
  }

  /* ------------------------------------------------------------- resultOf */

  /** How a promise settles: fulfilled with a value or rejected with a reason. */
  datatype Settlement<T> = Fulfilled(value: T) | Rejected(reason: JsValue)

  /** What calling the supplied function `fn()` did. */
  datatype Completion = Returned(value: JsValue) | Threw(thrown: JsValue)

  /** What calling `then(onFulfilled, onRejected)` on a returned thenable does:
      the thenable later settles, stays pending for ever, or `then` itself
      throws at once. */
  datatype ThenCall = Settles(settlement: Settlement<JsValue>) | Pending | ThenThrew(thrown: JsValue)

  /** What `resultOf` returns: a result at once, or a promise of a result;
      `None` is a promise that stays pending. */
  datatype Evaluation =
    | Immediate(result: Result)
    | Eventual(settlement: Option<Settlement<Result>>)

  /** The promise `p.then(onFulfilled, onRejected)` for a `p` that settled with
      `s`, given handlers that return normally: it is fulfilled with what the
      matching handler returns. */
  function ThenWith<T, U>(s: Settlement<T>, onFulfilled: T -> U, onRejected: JsValue -> U): Settlement<U> {
    match s
    case Fulfilled(v) => Fulfilled(onFulfilled(v))
    case Rejected(e) => Fulfilled(onRejected(e))
  }

  /** The fulfilment handler `(v) => resultOk(v)`. */
  function OnFulfilled(v: JsValue): (r: Result)
    ensures IsResultOk(r) && r.value == v
  {
    ResultOk(v)
  }

  /** The rejection handler `(e) => resultError(ensureError(e))`; it never
      throws, whatever the reason. */
  function OnRejected(e: JsValue): (r: Result)
    ensures r.Err? && HasErrorPayload(r)
    ensures r.error == e || Get(r.error, "cause") == e
  {
    ResultError(EnsureError(e))
  }

  /** `resultOf(fn)`, given what `fn()` did and, when it returned a thenable,
      what calling that thenable's `then` does. The answer is immediate unless
      `fn` returned a thenable whose `then` did not throw. Awaiting the answer
      gives exactly the classification of what awaiting `fn()` gives: success
      becomes an ok result, any failure an error result; the answer never
      rejects and never throws. */
  function ResultOf(call: Completion, settle: ThenCall): (ev: Evaluation)
    ensures ev.Immediate? <==> !(call.Returned? && IsPromiseLike(call.value)) || settle.ThenThrew?
    ensures Awaited(call, settle).None? ==> Await(ev).None?
    ensures Awaited(call, settle).Some? ==>
              Await(ev) == Some(Fulfilled(Classify(Awaited(call, settle).value)))
  {
    match call
    case Threw(x) => Immediate(ResultError(EnsureError(x)))
    case Returned(v) =>
      if IsPromiseLike(v) then
        match settle
        case Settles(s) => Eventual(Some(ThenWith(s, OnFulfilled, OnRejected)))
        case Pending => Eventual(None)
        case ThenThrew(x) => Immediate(ResultError(EnsureError(x)))
      else
        Immediate(ResultOk(v))
  }

  /** The final outcome of a computation, whether it was synchronous or not. */
  datatype Outcome = Succeeded(value: JsValue) | Failed(reason: JsValue)

  /** What `await fn()` observes, given what `fn()` did: a returned
      non-thenable is the value; a thenable is followed to its settlement, and
      a `then` that throws rejects the await. `None`: it never settles. */
  function Awaited(call: Completion, settle: ThenCall): Option<Outcome> {
    match call
    case Threw(x) => Some(Failed(x))
    case Returned(v) =>
      if !IsPromiseLike(v) then Some(Succeeded(v))
      else
        match settle
        case Settles(Fulfilled(w)) => Some(Succeeded(w))
        case Settles(Rejected(e)) => Some(Failed(e))
        case Pending => None
        case ThenThrew(x) => Some(Failed(x))
  }

  /** How an outcome is meant to be recorded: a success as an ok result with
      the same value, a failure as an error result holding the normalised
      error. */
  function Classify(o: Outcome): (r: Result)
    ensures HasErrorPayload(r)
    ensures r.Ok? <==> o.Succeeded?
    ensures o.Succeeded? ==> r.value == o.value
    ensures o.Failed? ==> r.error == o.reason || Get(r.error, "cause") == o.reason
  {
    match o
    case Succeeded(v) => Ok(v)
    case Failed(x) => Err(EnsureError(x))
  }

  /** What `await resultOf(fn)` observes. A result object is not a thenable,
      so awaiting an immediate result yields it unchanged. */
  function Await(ev: Evaluation): Option<Settlement<Result>> {
    match ev
    case Immediate(r) => Some(Fulfilled(r))
    case Eventual(s) => s
  }

  /** The calls the source's tests make: returning 1, throwing an error, and
      returning a promise `p` that is fulfilled with 1 or rejected with that
      error. The tests check the first two by value; for the promises they
      check only the type, and the lemma gives the value. */
  lemma ResultOfExamples(p: JsValue)
    requires IsPromiseLike(p)
    ensures ResultOf(Returned(Num(1)), Pending) == Immediate(ResultOk(Num(1)))
    ensures var boom := NativeError("Error", "test error", None);
            ResultOf(Threw(boom), Pending) == Immediate(ResultError(boom))
    ensures ResultOf(Returned(p), Settles(Fulfilled(Num(1))))
              == Eventual(Some(Fulfilled(Ok(Num(1)))))
    ensures var boom := NativeError("Error", "test error", None);
            ResultOf(Returned(p), Settles(Rejected(boom))) == Eventual(Some(Fulfilled(Err(boom))))
  {
  }
}

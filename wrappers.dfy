/** Failure-compatible wrappers shared by every module of the model. */
module Wrappers {

  /** An optional value: Python's `None` or a present value. */
  datatype Option<+T> = None | Some(value: T) {
    function GetOr(default: T): T {
      match this
      case Some(v) => v
      case None => default
    }
  }

  /** The outcome of an operation that may raise: a value, or the exception it raises. */
  datatype Result<+T, +E> = Ok(value: T) | Err(error: E) {
    predicate IsFailure() { Err? }
    function PropagateFailure<U>(): Result<U, E>
      requires Err?
    {
      Err(error)
    }
    function Extract(): T
      requires Ok?
    {
      value
    }
  }

  /** The Python exception classes the modelled code raises or catches. */
  datatype Exception =
    | TypeError
    | AttributeError
    | KeyError
    | ValueError
    | JsonDecodeError
    | ValidationError
    | NotImplementedError
      /** FastAPI's HTTPException; `authenticate` is its WWW-Authenticate header, if any. */
    | HttpError(status: int, detail: string, authenticate: Option<string>)
    | RuntimeError(message: string)

  /**
   * One step of a loop that collects optional items and stops at the first exception: the first
   * failure, or the item (if any) ahead of the rest.
   */
  function Prepend<T>(first: Result<Option<T>, Exception>, rest: Result<seq<T>, Exception>): (r: Result<seq<T>, Exception>)
    ensures r.Ok? ==> rest.Ok? && |r.value| <= |rest.value| + 1
  {
    if first.Err? then Err(first.error)
    else if rest.Err? then rest
    else Ok((if first.value.Some? then [first.value.value] else []) + rest.value)
  }

  /** The outcome of such a loop when `done` has been collected and the remaining items give `rest`. */
  function AfterDone<T>(done: seq<T>, rest: Result<seq<T>, Exception>): Result<seq<T>, Exception> {
    if rest.Err? then rest else Ok(done + rest.value)
  }

  lemma AfterPrepend<T>(done: seq<T>, here: Result<Option<T>, Exception>, rest: Result<seq<T>, Exception>)
    ensures AfterDone(done, Prepend(here, rest)) ==
      if here.Err? then Err(here.error)
      else AfterDone(done + (if here.value.Some? then [here.value.value] else []), rest)
  {
    if here.Ok? && rest.Ok? {
      var added := if here.value.Some? then [here.value.value] else [];
      assert done + (added + rest.value) == (done + added) + rest.value;
    }
  }

  /** One step of a loop that collects one item per element and stops at the first exception. */
  function Cons<T>(first: Result<T, Exception>, rest: Result<seq<T>, Exception>): (r: Result<seq<T>, Exception>)
    ensures r.Ok? ==> first.Ok? && rest.Ok? && |r.value| == |rest.value| + 1 && r.value[0] == first.value
  {
    if first.Err? then Err(first.error)
    else if rest.Err? then rest
    else Ok([first.value] + rest.value)
  }

  lemma AfterCons<T>(done: seq<T>, here: Result<T, Exception>, rest: Result<seq<T>, Exception>)
    ensures AfterDone(done, Cons(here, rest)) == if here.Err? then Err(here.error) else AfterDone(done + [here.value], rest)
  {
    if here.Ok? && rest.Ok? {
      assert done + ([here.value] + rest.value) == (done + [here.value]) + rest.value;
    }
  }

  /** Concatenation is associative; loops that append call this to regroup their accumulators. */
  lemma AppendAssoc<T>(a: seq<T>, b: seq<T>, c: seq<T>)
    ensures a + (b + c) == (a + b) + c
  {
  }
}

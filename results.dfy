/** Failure-compatible wrappers shared by the whole model: every parser,
    validator and lowering step either succeeds with a value or aborts with
    one error message (the front end has no error recovery). */
module Results {

  datatype Option<+T> = None | Some(value: T)

  datatype Result<+T> = Ok(value: T) | Err(msg: string) {

    predicate IsFailure() {
      Err?
    }

    function PropagateFailure<U>(): Result<U>
      requires Err?
    {
      Err(msg)
    }

    function Extract(): T
      requires Ok?
    {
      value
    }
  }

  /** A check that either passes or carries an error message. */
  datatype Outcome = Pass | Fail(msg: string) {

    predicate IsFailure() {
      Fail?
    }

    function PropagateFailure<U>(): Result<U>
      requires Fail?
    {
      Err(msg)
    }
  }

  /** Prepends already-collected items to the outcome of the rest of a loop. */
  function Prepend<T>(done: seq<T>, r: Result<seq<T>>): Result<seq<T>>
  {
    match r
    case Ok(rest) => Ok(done + rest)
    case Err(m) => Err(m)
  }

  lemma PrependAppend<T>(done: seq<T>, item: seq<T>, r: Result<seq<T>>)
    ensures Prepend(done, Prepend(item, r)) == Prepend(done + item, r)
  {
    if r.Ok? {
      assert done + (item + r.value) == (done + item) + r.value;
    }
  }

  lemma PrependNothing<T>(r: Result<seq<T>>)
    ensures Prepend([], r) == r
  {
    if r.Ok? {
      assert [] + r.value == r.value;
    }
  }

  lemma PrependDone<T>(done: seq<T>)
    ensures Prepend(done, Ok([])) == Ok(done)
  {
    assert done + [] == done;
  }
}

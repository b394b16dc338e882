/** Option and Result wrappers shared by every module of the model. */
module Base {

  datatype Option<+T> = None | Some(value: T)

  /** The outcome of an operation that may raise: a value or the exception it raised. */
  datatype Result<+T, +E> = Ok(value: T) | Err(error: E)

  /** The outcome of a check that returns nothing or raises. */
  datatype Outcome<+E> = Pass | Fail(error: E)

  /** The index of the first failure among the first `n` outcomes of a loop
      that stops at the first exception, or `n` when none of them failed. */
  function FirstErr<T, E>(attempts: seq<Result<T, E>>, n: nat): (k: nat)
    requires n <= |attempts|
    ensures k <= n
    ensures k < n ==> attempts[k].Err?
    ensures forall j :: 0 <= j < k ==> attempts[j].Ok?
  {
    if n == 0 then 0
    else
      var k := FirstErr(attempts, n - 1);
      if k < n - 1 || attempts[n - 1].Err? then k else n
  }
}

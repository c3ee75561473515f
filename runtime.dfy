/**
 * Vocabulary shared by every module: an optional value, the outcome of a
 * JavaScript evaluation that may throw, and the parts of the JavaScript host
 * whose exact behaviour the model does not fix (floating-point square root,
 * number-to-text and text-to-number conversion).
 */
module JsRuntime {

  datatype Option<+T> = None | Some(value: T)

  /** The outcome of evaluating JavaScript code: a value, or a thrown error with its message. */
  datatype Result<+T> = Ok(value: T) | Throw(message: string) {
    predicate IsFailure() { Throw? }

    function PropagateFailure<U>(): Result<U>
      requires Throw?
    {
      Throw(message)
    }

    function Extract(): T
      requires Ok?
    {
      value
    }
  }

  /**
   * The host operations the model treats as parameters:
   *  - sqrt: Math.sqrt;
   *  - numberText: the text of a number (Number.prototype.toString, also used by JSON.stringify);
   *  - parseNumber: Number(s) for a string s, None standing for NaN.
   */
  datatype Host = Host(sqrt: real -> real, numberText: real -> string, parseNumber: string -> Option<real>)

  function Square(x: real): real
  {
    x * x
  }

  /**
   * What the model assumes of Math.sqrt: it is 0 at 0, never negative on
   * non-negative reals, and exact on the square of a non-negative real.
   */
  ghost predicate SqrtSound(host: Host)
  {
    && host.sqrt(0.0) == 0.0
    && (forall x: real :: 0.0 <= x ==> 0.0 <= host.sqrt(x))
    && (forall x: real :: 0.0 <= x ==> host.sqrt(Square(x)) == x)
  }
}

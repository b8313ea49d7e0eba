/**
 * The result-code taxonomy of the native engine (class ErrorCode).
 * Negative codes are protocol signals, zero is success, positive codes are failures.
 */
module ErrorCodes {

  datatype ErrorCode =
    | EndOfEnumeration     // -2
    | BufferSizeQuery      // -1
    | Success              //  0
    | ObjectNotResolved    //  1
    | RulesetUnavailable   //  2
    | UnexpectedRuleset    //  3
    | Failure              // 127

  /** The integer each member stands for. */
  function Value(c: ErrorCode): int {
    match c
    case EndOfEnumeration => -2
    case BufferSizeQuery => -1
    case Success => 0
    case ObjectNotResolved => 1
    case RulesetUnavailable => 2
    case UnexpectedRuleset => 3
    case Failure => 127
  }

  /** The integers that name a member. */
  predicate IsKnown(v: int) {
    v == -2 || v == -1 || v == 0 || v == 1 || v == 2 || v == 3 || v == 127
  }

  /** from_value: the member with that value, and FAILURE for any other integer (it never raises). */
  function FromValue(v: int): (c: ErrorCode)
    ensures IsKnown(v) ==> Value(c) == v
    ensures !IsKnown(v) ==> c == Failure
  {
    match v
    case -2 => EndOfEnumeration
    case -1 => BufferSizeQuery
    case 0 => Success
    case 1 => ObjectNotResolved
    case 2 => RulesetUnavailable
    case 3 => UnexpectedRuleset
    case _ => Failure
  }

  /** is_success: only SUCCESS is a success. */
  predicate IsSuccess(c: ErrorCode) {
    c == Success
  }

  /** Every member's value is recognised and maps back to that member. */
  lemma FromValueOfValue(c: ErrorCode)
    ensures IsKnown(Value(c))
    ensures FromValue(Value(c)) == c
  {
    match c
    case EndOfEnumeration =>
    case BufferSizeQuery =>
    case Success =>
    case ObjectNotResolved =>
    case RulesetUnavailable =>
    case UnexpectedRuleset =>
    case Failure =>
  }

  /** Distinct members have distinct values. */
  lemma ValueInjective(a: ErrorCode, b: ErrorCode)
    ensures Value(a) == Value(b) ==> a == b
  {
    FromValueOfValue(a);
    FromValueOfValue(b);
  }

  /** Converting an already converted code changes nothing (an IntEnum member is its own value). */
  lemma FromValueIdempotent(v: int)
    ensures FromValue(Value(FromValue(v))) == FromValue(v)
  {
    FromValueOfValue(FromValue(v));
  }

  /** A raw result is a success exactly when it is 0; every other integer, known or not, is not. */
  lemma SuccessIffZero(v: int)
    ensures IsSuccess(FromValue(v)) <==> v == 0
  {
  }

  /** The two protocol signals are not successes, so a call site that only tests success treats them as failures. */
  lemma ProtocolSignalsAreNotSuccess()
    ensures !IsSuccess(FromValue(-1)) && FromValue(-1) == BufferSizeQuery
    ensures !IsSuccess(FromValue(-2)) && FromValue(-2) == EndOfEnumeration
  {
  }
}

/** Shared vocabulary: optional values, results and the error values the services return. */
module Common {

  datatype Option<+T> = None | Some(value: T)

  datatype Result<+T> = Ok(value: T) | Err(error: Error)

  /** The sentinel errors of shared/pkg/errors, plus Failure for an infrastructure error. */
  datatype Error =
    | InvalidInput
    | Unauthorized
    | Forbidden
    | NotFound
    | AlreadyExists
    | InsufficientFunds
    | IdempotencyKeyUsed
    | PodNonZeroBalance
    | EmailAlreadyTaken
    | PhoneAlreadyTaken
    | EmailNotVerified
    | InvalidPassword
    | PasswordMismatch
    | OtpCooldown(retryAfter: int)
    | OtpMaxTries
    | OtpExpired
    | OtpInvalid(attemptsLeft: int)
    | OutOfRange
    | Failure

  /** What became of one remote command: it was answered, it never ran, or it ran and the answer was lost. */
  datatype Fate = Answered | Dropped | Unanswered

  const MAX_INT64: int := 0x7FFF_FFFF_FFFF_FFFF
  const MIN_INT64: int := -0x8000_0000_0000_0000
  const TWO_64: int := 0x1_0000_0000_0000_0000

  predicate IsInt64(x: int) {
    MIN_INT64 <= x <= MAX_INT64
  }

  /** Two's complement wrap-around of Go's int64 arithmetic. */
  function WrapInt64(x: int): (r: int)
    ensures IsInt64(r)
    ensures IsInt64(x) <==> r == x
  {
    var m := x % TWO_64;
    if m > MAX_INT64 then m - TWO_64 else m
  }

  /** Go's integer division, which truncates toward zero. */
  function TruncDiv(a: int, b: int): (q: int)
    requires b > 0
    ensures a >= 0 ==> q == a / b
    ensures a < 0 ==> q == -((-a) / b)
  {
    if a >= 0 then a / b else -((-a) / b)
  }

  lemma SomeMember(s: set<int>)
    ensures s == {} || exists x :: x in s
  {
    assert (forall x :: x !in s) ==> s == {};
  }
}

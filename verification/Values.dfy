/** Shared values: results, errors, opaque identifiers, instants and the 64-bit
    arithmetic of the ledger. */
module Values {
  datatype Option<+T> = None | Some(value: T)

  /** The error classes callers are told apart by (internal/domain/values.go:18-60)
      and the recorded refusals of an admission. */
  datatype Error =
    | NotFound
    | IdempotencyConflict
    | RevisionConflict
    | StaleExecution
    | ProfileUnqualified
    | Invalid
    | EffectUncertain
    | Integrity
    | BudgetExhausted
    | Forbidden
    | EvidenceInsufficient
    | DuplicateKey
    | Denied(code: DenialCode)

  datatype DenialCode =
    | DenyStaleExecution
    | DenyProfileUnqualified
    | DenyForbidden
    | DenyBudgetExhausted
    | DenyInvalidArgument
    | DenyCapExceeded
    | DenyRecoveryRestricted
    | DenyApprovalRequired
    | DenyReceiptsRequired
    | DenyAttemptClosed

  datatype Result<+T> = Ok(value: T) | Err(error: Error) {
    predicate IsFailure() { Err? }
    function PropagateFailure<U>(): Result<U>
      requires Err?
    {
      Err(error)
    }
    function Extract(): T
      requires Ok?
    {
      value
    }
  }

  /** A check that passes or names its error; the first failure is the answer. */
  datatype Check = Pass | Fail(error: Error) {
    function Then(next: Check): Check { if Fail? then this else next }
  }

  function Require(condition: bool, error: Error): Check { if condition then Pass else Fail(error) }

  function Refuse(condition: bool, code: DenialCode): Check { if condition then Fail(Denied(code)) else Pass }

  /** A change that is refused changes nothing. */
  predicate Applied<T(==)>(spec: Result<T>, r: Check, before: T, after: T) {
    match spec
    case Ok(next) => r == Pass && after == next
    case Err(e) => r == Fail(e) && after == before
  }

  /** Identifiers, digests and names are opaque: only their equality matters, and
      for inventory keys their order. An absent ("") one is Option.None. */
  type Id = nat
  type Name = nat
  type Time = int

  const MIN_INT64: int := -0x8000_0000_0000_0000
  const MAX_INT64: int := 0x7fff_ffff_ffff_ffff

  predicate InInt64(x: int) {
    MIN_INT64 <= x <= MAX_INT64
  }

  /** The ledger's integers are 64 bits wide. */
  type Int64 = x: int | InInt64(x)

  /** Two's complement wrap-around of a 64-bit addition. */
  function Wrap64(x: int): (r: Int64)
    ensures InInt64(x) ==> r == x
  {
    (x - MIN_INT64) % 0x1_0000_0000_0000_0000 + MIN_INT64
  }

  /** The overflow test of internal/domain/budget.go:82-88: the wrapped sum is
      compared with the first operand. */
  function AddInt64(a: Int64, b: Int64): Option<Int64> {
    var c := Wrap64(a + b);
    if (c > a) != (b > 0) then None else Some(c)
  }

  /** The comparison detects overflow exactly: the sum is answered if and only if it
      is representable, and then it is the mathematical sum. */
  lemma AddInt64Exact(a: Int64, b: Int64)
    ensures AddInt64(a, b) == if InInt64(a + b) then Some(a + b) else None
  {
    assert InInt64(a) && InInt64(b);
    var sum: int := a + b;
    if sum > MAX_INT64 {
      assert (sum - MIN_INT64) / 0x1_0000_0000_0000_0000 == 1;
      assert Wrap64(sum) == sum - 0x1_0000_0000_0000_0000;
    } else if sum < MIN_INT64 {
      assert (sum - MIN_INT64) / 0x1_0000_0000_0000_0000 == -1;
      assert Wrap64(sum) == sum + 0x1_0000_0000_0000_0000;
    }
  }
}

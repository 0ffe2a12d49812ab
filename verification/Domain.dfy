/** Vocabulary shared by the worker, the backend services and the investigation agent. */
module Domain {

  datatype Option<+T> = None | Some(value: T) {
    function GetOr(default: T): T {
      match this
      case Some(v) => v
      case None => default
    }
  }

  /** Milliseconds on the one monotone clock every process reads. */
  type Time = nat

  /** An opaque digest: hashes are only ever compared for equality. */
  type Hash = nat

  /** What a provider call is known to have done. */
  datatype Outcome = Accepted | Rejected | NotAttempted | Unknown

  datatype Provider = Email | Telegram | OtherProvider

  datatype Phase = ResolveDestination | Send | OtherPhase

  const TELEGRAM_RATE_LIMITED := "telegram_http_429"

  /** A stage of a workflow run; the unique pair (zapRunId, stage) of the execution table. */
  datatype Key = Key(run: nat, stage: nat)

  /** The outcome of one database transaction: it commits whole or leaves no trace. */
  datatype Tx<+T> =
    | Committed(state: T)
    | Stale             // a fencing condition matched no row
    | ConstraintError   // a unique or not-null constraint rejected an insert

  function PowerOfTwo(n: nat): nat {
    if n == 0 then 1 else 2 * PowerOfTwo(n - 1)
  }

  lemma {:induction false} PowersGrow(m: nat, n: nat)
    requires m <= n
    ensures 1 <= PowerOfTwo(m) <= PowerOfTwo(n)
    decreases n
  {
    if m < n { PowersGrow(m, n - 1); }
    if m == n && m > 0 { PowersGrow(m - 1, n - 1); }
  }
}

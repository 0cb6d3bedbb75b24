/** What the two clients of the other services share, internal/rpcretry/retry.go and
    internal/channelclient/client.go: status codes, the waits between attempts and the operation deadline.
    Durations are milliseconds. */
module RpcTiming {

  const OP_TIMEOUT := 5000
  const BASE_BACKOFF := 100

  datatype Code = OK | Unavailable | DeadlineExceeded | Other

  predicate Transient(code: Code) { code == Unavailable || code == DeadlineExceeded }

  /** The wait after attempt `i`, counted from 0. */
  function Backoff(i: nat): nat { (i + 1) * BASE_BACKOFF }

  /** How long that wait lasts when it begins at `elapsed` and the caller's context ends `callerDoneAfter`
      later: the caller's context or the operation deadline may cut it short. A tie goes to the timer. */
  function WaitLength(callerDoneAfter: nat, i: nat, elapsed: nat): nat {
    var left := if elapsed < OP_TIMEOUT then OP_TIMEOUT - elapsed else 0;
    var stop := if callerDoneAfter < left then callerDoneAfter else left;
    if stop < Backoff(i) then stop else Backoff(i)
  }
}

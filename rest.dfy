/**
 * The bounded retry of a REST request shared by both brokerages: a request is
 * repeated while the server answers 429 (Too Many Requests), at most ten times.
 * The server's successive answers are an input: `responses(k)` is the status
 * code of attempt `k`.
 */
module Rest {

  const MaxAttempts: nat := 10
  const TooManyRequests: int := 429

  /** The number of attempts made when attempt `k` is the next to go out. */
  function AttemptsFrom(responses: nat -> int, k: nat): (n: nat)
    requires k < MaxAttempts
    ensures k < n <= MaxAttempts
    ensures n < MaxAttempts ==> responses(n - 1) != TooManyRequests
    ensures forall j :: k <= j < n - 1 ==> responses(j) == TooManyRequests
    decreases MaxAttempts - k
  {
    if k + 1 == MaxAttempts || responses(k) != TooManyRequests then k + 1
    else AttemptsFrom(responses, k + 1)
  }

  /**
   * The number of attempts a request takes: between one and ten, every attempt
   * but the last answered 429, and the last one did not unless it was the tenth.
   */
  function AttemptsNeeded(responses: nat -> int): (n: nat)
    ensures 1 <= n <= MaxAttempts
    ensures forall j :: 0 <= j < n - 1 ==> responses(j) == TooManyRequests
    ensures n < MaxAttempts ==> responses(n - 1) != TooManyRequests
  {
    AttemptsFrom(responses, 0)
  }

  /** The attempt count is the first attempt not answered 429, or ten. */
  lemma AttemptsNeededIsFirstAccepted(responses: nat -> int, n: nat)
    requires 1 <= n <= MaxAttempts
    requires forall j :: 0 <= j < n - 1 ==> responses(j) == TooManyRequests
    requires n == MaxAttempts || responses(n - 1) != TooManyRequests
    ensures AttemptsNeeded(responses) == n
  {
  }
}

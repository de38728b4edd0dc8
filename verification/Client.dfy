/** The client's end of the API: a bounded loop of attempts, and how each ending is classified. */
module Client {
  import opened Pour
  import opened Server

  datatype Code = Network | Timeout | Refused | Failed | Conflicting

  datatype ApiError = ApiError(code: Code, status: int)
  {
    predicate Retryable() { code == Network || code == Timeout || code == Failed }
  }

  /** How one attempt can end. */
  datatype Outcome = Answered(reply: Reply) | TimedOut | Unreachable

  datatype Fetched = Success(reply: Reply) | Failure(error: ApiError)

  predicate IsOk(status: int) { 200 <= status <= 299 }

  function FailureFor(status: int): ApiError
  {
    ApiError(if status == 409 then Conflicting else if status >= 500 then Failed else Refused, status)
  }

  /** What an attempt's end means to the loop. */
  function Judge(o: Outcome): Fetched
  {
    match o
    case Answered(reply) => if IsOk(reply.status) then Success(reply) else Failure(FailureFor(reply.status))
    case TimedOut => Failure(ApiError(Timeout, 0))
    case Unreachable => Failure(ApiError(Network, 0))
  }

  predicate TryAgain(f: Fetched) { f.Failure? && f.error.Retryable() }

  function Doubled(ms: nat, times: nat): nat { if times == 0 then ms else 2 * Doubled(ms, times - 1) }

  /**
   * apiFetch, against an environment that ends the k-th attempt as outcomes[k]. It stops at the first
   * success, at the first failure that another attempt cannot help, or after retries + 1 attempts; it
   * returns what the last attempt made of it, and it has slept a doubling backoff between attempts.
   */
  method ApiFetch(outcomes: seq<Outcome>, retries: nat, backoffMs: nat)
      returns (r: Fetched, attempts: nat, sleeps: seq<nat>)
    requires |outcomes| >= retries + 1
    ensures 1 <= attempts <= retries + 1
    ensures r == Judge(outcomes[attempts - 1])
    ensures forall k :: 0 <= k < attempts - 1 ==> TryAgain(Judge(outcomes[k]))
    ensures TryAgain(r) ==> attempts == retries + 1
    ensures |sleeps| == attempts - 1 && (|sleeps| > 0 ==> sleeps[0] == backoffMs)
    ensures forall k :: 0 <= k < |sleeps| - 1 ==> sleeps[k + 1] == 2 * sleeps[k]
  {
    var last := Judge(outcomes[0]);
    var attempt := 0;
    sleeps := [];
    while attempt <= retries
      invariant 0 <= attempt <= retries + 1
      invariant forall k :: 0 <= k < attempt ==> TryAgain(Judge(outcomes[k]))
      invariant attempt > 0 ==> last == Judge(outcomes[attempt - 1])
      invariant |sleeps| == if attempt == 0 then 0 else attempt - 1
      invariant forall k :: 0 <= k < |sleeps| ==> sleeps[k] == Doubled(backoffMs, k)
      decreases retries + 1 - attempt
    {
      if attempt > 0 {
        sleeps := sleeps + [Doubled(backoffMs, attempt - 1)];
      }
      match outcomes[attempt] {
        case Answered(reply) =>
          if IsOk(reply.status) {
            return Success(reply), attempt + 1, sleeps;
          }
          last := Failure(FailureFor(reply.status));
        case TimedOut =>
          last := Failure(ApiError(Timeout, 0));
        case Unreachable =>
          last := Failure(ApiError(Network, 0));
      }
      if !last.error.Retryable() {
        return last, attempt + 1, sleeps;
      }
      attempt := attempt + 1;
    }
    return last, attempt, sleeps;
  }

  /** Where attempt k of a seal leads. */
  datatype Turn = Retry | Done(f: Fetched)

  /** The loop one attempt at a time: try again while the failure may pass and attempts are left. */
  function NextTurn(o: Outcome, attempt: nat, retries: nat): Turn
  {
    if TryAgain(Judge(o)) && attempt < retries then Retry else Done(Judge(o))
  }

  /** The whole loop as a function of the attempts' ends. */
  function Fetch(outcomes: seq<Outcome>, attempt: nat, retries: nat): Fetched
    requires attempt <= retries && |outcomes| >= retries + 1
    decreases retries - attempt
  {
    match NextTurn(outcomes[attempt], attempt, retries)
    case Retry => Fetch(outcomes, attempt + 1, retries)
    case Done(f) => f
  }

  /** The loop's contract determines its result: it is what taking the turns one at a time gives. */
  lemma {:induction false} TurnsAreTheLoop(outcomes: seq<Outcome>, attempt: nat, retries: nat, attempts: nat)
    requires attempt < attempts <= retries + 1 && |outcomes| >= retries + 1
    requires forall k :: attempt <= k < attempts - 1 ==> TryAgain(Judge(outcomes[k]))
    requires TryAgain(Judge(outcomes[attempts - 1])) ==> attempts == retries + 1
    ensures Fetch(outcomes, attempt, retries) == Judge(outcomes[attempts - 1])
    decreases attempts - attempt
  {
    if attempt < attempts - 1 {
      TurnsAreTheLoop(outcomes, attempt + 1, retries, attempts);
    }
  }

  /**
   * Which endings are worth another attempt, and what the caller is told of each: an answer is a success
   * from 200 to 299; otherwise a 409 is a conflict, a status from 500 up a failure of the server, the rest a
   * refusal. The loop tries again exactly after no answer or a status from 500 up.
   */
  lemma EndingsInNumbers(o: Outcome)
    ensures TryAgain(Judge(o)) <==> o.TimedOut? || o.Unreachable? || (o.Answered? && o.reply.status >= 500)
    ensures o.Answered? ==>
      var status := o.reply.status;
      Judge(o) ==
        if 200 <= status <= 299 then Success(o.reply)
        else if status == 409 then Failure(ApiError(Conflicting, 409))
        else if status >= 500 then Failure(ApiError(Failed, status))
        else Failure(ApiError(Refused, status))
    ensures o.TimedOut? ==> Judge(o) == Failure(ApiError(Timeout, 0))
    ensures o.Unreachable? ==> Judge(o) == Failure(ApiError(Network, 0))
  {
  }
}

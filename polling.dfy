/** What the server sees of one HTTP exchange, and the bounded poll loop that
    both provider pollers share: ask, inspect the reply, stop on a URL, and
    raise a timeout once the attempt budget is spent. */
module Polling {
  import opened Wrappers
  import opened Json
  import opened Text

  /** One `requests.get`/`requests.post`: either the call itself raised
      (connection error, request timeout), or a response came back with a
      status code, its raw text, and what `response.json()` gives (the
      decoded document, or the text of the decoding exception). */
  datatype Reply =
    | Raised(message: string)
    | Answered(code: int, text: string, body: Result<Json, string>)

  /** What one loop iteration decides: return this URL, or go round again.
      `raised` is the text of the exception the iteration raised and its own
      handler swallowed, if any. */
  datatype Attempt = Ready(url: Json) | Retry(raised: Option<string>)

  /** A submission: the decoded body of a 200 response; otherwise the
      exception raised, `Erreur <provider> <code>: <text>` for any other status. */
  function Posted(reply: Reply, provider: string): (r: Result<Json, string>)
    ensures reply.Answered? && reply.code != 200 ==>
              r == Failure("Erreur " + provider + " " + Decimal(reply.code) + ": " + reply.text)
    ensures r.Success? ==> reply.Answered? && reply.code == 200 && reply.body == r
  {
    match reply
    case Raised(m) => Failure(m)
    case Answered(code, text, body) =>
      if code == 200 then body else Failure("Erreur " + provider + " " + Decimal(code) + ": " + text)
  }

  /** How a poll ends: a URL after `attempts` requests, or the budget spent. */
  datatype PollOutcome = Found(url: Json, attempts: nat) | TimedOut

  /** The loop `for attempt in range(budget)` from attempt `k` on, where the
      provider's reply to request number `i` is `replies(i)`. */
  function PollFrom(step: Reply -> Attempt, replies: nat -> Reply, k: nat, budget: nat): PollOutcome
    decreases budget - k
  {
    if k >= budget then TimedOut
    else match step(replies(k))
      case Ready(url) => Found(url, k + 1)
      case Retry(_) => PollFrom(step, replies, k + 1, budget)
  }

  /** After the loop: the URL, or the timeout exception. */
  function PollResult(o: PollOutcome, timeout: string): (r: Result<Json, string>)
    ensures r.Failure? <==> o.TimedOut?
  {
    match o
    case Found(url, _) => Success(url)
    case TimedOut => Failure(timeout)
  }

  /** A poll returns the URL of the FIRST attempt that yields one, and times out
      exactly when none of the attempts up to the budget does; no reply, however
      it failed, ends the loop early. */
  lemma {:induction false} PollStopsAtFirstReady(step: Reply -> Attempt, replies: nat -> Reply, k: nat, budget: nat)
    requires k <= budget
    ensures PollFrom(step, replies, k, budget).TimedOut?
        <==> forall i :: k <= i < budget ==> step(replies(i)).Retry?
    ensures PollFrom(step, replies, k, budget).Found? ==>
              var o := PollFrom(step, replies, k, budget);
              && k < o.attempts <= budget
              && step(replies(o.attempts - 1)) == Ready(o.url)
              && forall i :: k <= i < o.attempts - 1 ==> step(replies(i)).Retry?
    decreases budget - k
  {
    if k < budget && step(replies(k)).Retry? {
      PollStopsAtFirstReady(step, replies, k + 1, budget);
    }
  }

  /** The poll never sends more than `budget` requests: replies past the budget
      cannot change how it ends. */
  lemma {:induction false} PollReadsOnlyBudget(step: Reply -> Attempt, replies: nat -> Reply, others: nat -> Reply, k: nat, budget: nat)
    requires forall i :: k <= i < budget ==> replies(i) == others(i)
    ensures PollFrom(step, replies, k, budget) == PollFrom(step, others, k, budget)
    decreases budget - k
  {
    if k < budget {
      PollReadsOnlyBudget(step, replies, others, k + 1, budget);
    }
  }
}

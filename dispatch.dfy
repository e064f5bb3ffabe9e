/**
 * The reference definition of an authenticated call with bounded re-login on 403.
 *
 * The service answers every HTTP call in turn from `replies`; a login is an HTTP
 * call too and takes the next answer. A call starts at `attempt` 0; an answer 403
 * while `attempt <= maxAttempts` triggers one login and the same request again with
 * `attempt + 1`. A login whose body is not "Ok." raises, and so does a call that
 * finds no answer left.
 */
module Dispatch {
  import opened Wrappers
  import opened Http

  /** What a call did: its outcome, how many requests and logins it issued, the answers left. */
  datatype Trace = Trace(outcome: Result<Payload, Error>, requests: nat, logins: nat, rest: seq<Response>)

  /** How a login ends, given the answer it receives (if any). */
  function LoginOutcome(answer: Option<Response>): (r: Option<Error>)
    ensures r == None <==> answer.Some? && answer.value.text == LoginOk
  {
    match answer
    case None => Some(ConnectionFailed)
    case Some(a) => if a.text == LoginOk then None else Some(WrongCredentials)
  }

  /** The first answer, if the service has one left. */
  function Next(replies: seq<Response>): Option<Response>
  {
    if replies == [] then None else Some(replies[0])
  }

  /** The answers after the first. */
  function Drop(replies: seq<Response>): seq<Response>
  {
    if replies == [] then [] else replies[1..]
  }

  /** A trace with `k` more request-and-login rounds in front of it. */
  function After(k: nat, t: Trace): Trace
  {
    Trace(t.outcome, t.requests + k, t.logins + k, t.rest)
  }

  /** Whether a 403 at this attempt is retried. */
  predicate Retries(status: int, attempt: int, maxAttempts: int)
  {
    status == Forbidden && attempt <= maxAttempts
  }

  /** The reference definition of `_request` from `attempt` on. */
  function Call(replies: seq<Response>, attempt: int, maxAttempts: int, url: string,
                parse: string -> Option<Json>): (t: Trace)
    ensures t.requests >= 1
    ensures t.outcome.Success? ==> t.requests == t.logins + 1
    ensures t.outcome == Failure(WrongCredentials) ==> t.requests == t.logins
    decreases |replies|
  {
    if replies == [] then Trace(Failure(ConnectionFailed), 1, 0, [])
    else if Retries(replies[0].status, attempt, maxAttempts) then
      match LoginOutcome(Next(replies[1..]))
      case Some(e) => Trace(Failure(e), 1, 1, Drop(replies[1..]))
      case None => After(1, Call(replies[2..], attempt + 1, maxAttempts, url, parse))
    else Trace(Normalise(replies[0], url, parse), 1, 0, replies[1..])
  }

  /** One retry round: a 403 within budget and an accepted login lead to the same call one attempt on. */
  lemma RetryStep(replies: seq<Response>, attempt: int, maxAttempts: int, url: string, parse: string -> Option<Json>)
    requires replies != [] && Retries(replies[0].status, attempt, maxAttempts)
    requires LoginOutcome(Next(Drop(replies))) == None
    ensures Drop(Drop(replies)) == replies[2..]
    ensures Call(replies, attempt, maxAttempts, url, parse)
         == After(1, Call(replies[2..], attempt + 1, maxAttempts, url, parse))
  {
  }

  /** How many 403 answers a call starting at `attempt` may retry. */
  function RetryBudget(attempt: int, maxAttempts: int): nat
  {
    if attempt <= maxAttempts then maxAttempts - attempt + 1 else 0
  }

  /**
   * Bounds for every server: each retry costs exactly one login, at most
   * `RetryBudget` logins happen, requests equal logins or one more, and the
   * answers taken are exactly the ones that are no longer left.
   */
  lemma {:induction false} CallBounded(replies: seq<Response>, attempt: int, maxAttempts: int, url: string,
                                      parse: string -> Option<Json>)
    ensures var t := Call(replies, attempt, maxAttempts, url, parse);
      && t.logins <= RetryBudget(attempt, maxAttempts)
      && (t.requests == t.logins || t.requests == t.logins + 1)
      && (t.requests + t.logins <= |replies| ==> t.rest == replies[t.requests + t.logins..])
      && (t.requests + t.logins > |replies| ==> t.rest == [] && t.outcome == Failure(ConnectionFailed))
    decreases |replies|
  {
    if replies != [] && Retries(replies[0].status, attempt, maxAttempts) && |replies| > 1 && replies[1].text == LoginOk {
      CallBounded(replies[2..], attempt + 1, maxAttempts, url, parse);
      var t := Call(replies[2..], attempt + 1, maxAttempts, url, parse);
      if t.requests + t.logins <= |replies[2..]| {
        assert replies[2..][t.requests + t.logins..] == replies[t.requests + t.logins + 2..];
      }
    }
  }

  /** The server rejects the first `n` requests with 403 and accepts each login in between. */
  predicate ForbiddenThenOk(replies: seq<Response>, n: nat)
  {
    && |replies| > 2 * n
    && (forall i :: 0 <= i < n ==> RejectedThenRelogged(replies, i))
  }

  /** Round `i`: the request is answered 403 and the login that follows is accepted. */
  predicate RejectedThenRelogged(replies: seq<Response>, i: nat)
  {
    2 * i + 1 < |replies| && replies[2 * i].status == Forbidden && replies[2 * i + 1].text == LoginOk
  }

  /** After the first round, the remaining answers hold the remaining rounds. */
  lemma ForbiddenThenOkTail(replies: seq<Response>, n: nat)
    requires n > 0 && ForbiddenThenOk(replies, n)
    ensures RejectedThenRelogged(replies, 0) && ForbiddenThenOk(replies[2..], n - 1)
  {
    assert RejectedThenRelogged(replies, 0);
    forall i | 0 <= i < n - 1 ensures RejectedThenRelogged(replies[2..], i) {
      assert RejectedThenRelogged(replies, i + 1);
    }
  }

  /**
   * Against `n` rejections within the retry budget followed by an answer that is not
   * a 403, a call makes exactly `n` logins and `n + 1` requests and returns what
   * that last answer normalises to.
   */
  lemma {:induction false} RecoversAfterForbidden(replies: seq<Response>, n: nat, attempt: int, maxAttempts: int,
                                                 url: string, parse: string -> Option<Json>)
    requires n <= RetryBudget(attempt, maxAttempts)
    requires ForbiddenThenOk(replies, n)
    requires replies[2 * n].status != Forbidden
    ensures Call(replies, attempt, maxAttempts, url, parse)
         == Trace(Normalise(replies[2 * n], url, parse), n + 1, n, replies[2 * n + 1..])
    decreases n
  {
    if n > 0 {
      ForbiddenThenOkTail(replies, n);
      RecoversAfterForbidden(replies[2..], n - 1, attempt + 1, maxAttempts, url, parse);
      assert replies[2..][2 * (n - 1)] == replies[2 * n];
      assert replies[2..][2 * (n - 1) + 1..] == replies[2 * n + 1..];
    }
  }

  /**
   * Against a server that keeps answering 403 (and accepting logins), a call uses up
   * its whole budget: `RetryBudget + 1` requests, `RetryBudget` logins, then the 403
   * is raised. From attempt 0 that is `maxAttempts + 2` requests.
   */
  lemma {:induction false} ExhaustsRetries(replies: seq<Response>, attempt: int, maxAttempts: int,
                                          url: string, parse: string -> Option<Json>)
    requires ForbiddenThenOk(replies, RetryBudget(attempt, maxAttempts))
    requires replies[2 * RetryBudget(attempt, maxAttempts)].status == Forbidden
    ensures var k := RetryBudget(attempt, maxAttempts);
      Call(replies, attempt, maxAttempts, url, parse)
      == Trace(Failure(HttpError(Forbidden, url)), k + 1, k, replies[2 * k + 1..])
    decreases RetryBudget(attempt, maxAttempts)
  {
    var k := RetryBudget(attempt, maxAttempts);
    if k > 0 {
      ForbiddenThenOkTail(replies, k);
      ExhaustsRetries(replies[2..], attempt + 1, maxAttempts, url, parse);
      assert replies[2..][2 * (k - 1)] == replies[2 * k];
      assert replies[2..][2 * (k - 1) + 1..] == replies[2 * k + 1..];
    }
  }

  /** From the first attempt a call against a server that only says 403 issues `maxAttempts + 2` requests. */
  lemma AlwaysForbiddenFromStart(replies: seq<Response>, maxAttempts: nat, url: string, parse: string -> Option<Json>)
    requires ForbiddenThenOk(replies, maxAttempts + 1)
    requires replies[2 * (maxAttempts + 1)].status == Forbidden
    ensures var t := Call(replies, 0, maxAttempts, url, parse);
      t.outcome == Failure(HttpError(Forbidden, url)) && t.requests == maxAttempts + 2 && t.logins == maxAttempts + 1
  {
    ExhaustsRetries(replies, 0, maxAttempts, url, parse);
  }

  /** A login that fails during a retry ends the call with that login's error, unchanged. */
  lemma {:induction false} LoginFailurePropagates(replies: seq<Response>, n: nat, attempt: int, maxAttempts: int,
                                                 url: string, parse: string -> Option<Json>)
    requires n < RetryBudget(attempt, maxAttempts)
    requires ForbiddenThenOk(replies, n)
    requires replies[2 * n].status == Forbidden
    requires |replies| > 2 * n + 1 && replies[2 * n + 1].text != LoginOk
    ensures Call(replies, attempt, maxAttempts, url, parse)
         == Trace(Failure(WrongCredentials), n + 1, n + 1, replies[2 * n + 2..])
    decreases n
  {
    if n > 0 {
      ForbiddenThenOkTail(replies, n);
      LoginFailurePropagates(replies[2..], n - 1, attempt + 1, maxAttempts, url, parse);
      assert replies[2..][2 * (n - 1)] == replies[2 * n];
      assert replies[2..][2 * (n - 1) + 1] == replies[2 * n + 1];
      assert replies[2..][2 * (n - 1) + 2..] == replies[2 * n + 2..];
    } else {
      assert replies[1..][0] == replies[1];
    }
  }

  /**
   * The first `n` calls of a dispatch of `req` that starts on session `session0`: the
   * request and the login alternate. Sending number k of the request goes out on
   * session `session0 + k`; login number k replaces the session by `session0 + k + 1`
   * and is posted on it.
   */
  function Exchanges(req: HttpRequest, login: HttpRequest, session0: nat, n: nat): (s: seq<Sent>)
    ensures |s| == n
    ensures forall i :: 0 <= i < n ==> s[i] == Sent(session0 + (i + 1) / 2, if i % 2 == 0 then req else login)
  {
    seq(n, i requires 0 <= i < n => Sent(session0 + (i + 1) / 2, if i % 2 == 0 then req else login))
  }

  /** One more sending, or one more sending and its login, continue an even-length exchange. */
  lemma ExchangesStep(req: HttpRequest, login: HttpRequest, session0: nat, k: nat)
    ensures Exchanges(req, login, session0, 2 * k) + [Sent(session0 + k, req)]
         == Exchanges(req, login, session0, 2 * k + 1)
    ensures Exchanges(req, login, session0, 2 * k) + [Sent(session0 + k, req), Sent(session0 + k + 1, login)]
         == Exchanges(req, login, session0, 2 * k + 2)
  {
    assert (2 * k + 1) / 2 == k && (2 * k + 2) / 2 == k + 1;
    assert (2 * k) % 2 == 0 && (2 * k + 1) % 2 == 1;
  }

  /**
   * A retry goes out on the session its re-login opened, one past the session of the
   * sending it repeats: never on the stale session.
   */
  lemma RetryOnFreshSession(req: HttpRequest, login: HttpRequest, session0: nat, k: nat, n: nat)
    requires 2 * k + 2 < n
    ensures Exchanges(req, login, session0, n)[2 * k] == Sent(session0 + k, req)
    ensures Exchanges(req, login, session0, n)[2 * k + 1] == Sent(session0 + k + 1, login)
    ensures Exchanges(req, login, session0, n)[2 * k + 2] == Sent(session0 + k + 1, req)
  {
    assert (2 * k + 1) / 2 == k && (2 * k + 2) / 2 == k + 1 && (2 * k + 3) / 2 == k + 1;
    assert (2 * k) % 2 == 0 && (2 * k + 1) % 2 == 1 && (2 * k + 2) % 2 == 0;
  }
}

/** The retry loop of the client's GET request, as a reference definition over the outcomes
    the network gives to successive attempts.  The loop in the client is proved against it. */
module Fetching {
  import opened Wrappers
  import opened Text
  import opened Errors

  /** What one attempt at a request ends with: a transport error (a client error of the
      HTTP library, described by its message), a response with a status and a decodable
      body, or an exception the loop does not catch (a total timeout, which is not a client
      error, or a body that fails to decode), described by its message. */
  datatype Attempt =
    | TransportError(reason: string)
    | Response(status: int, body: string)
    | Escaped(reason: string)

  /** The end of a request: the unescaped body or the error raised, how many attempts were
      made and the delays slept between them, in seconds. */
  datatype FetchRun = FetchRun(outcome: Result<string, Error>, attempts: nat, sleeps: seq<nat>)

  /** The linear backoff `1, 2, ..., k`. */
  function Backoff(k: nat): (r: seq<nat>)
    ensures |r| == k && forall i :: 0 <= i < k ==> r[i] == i + 1
  {
    seq(k, i requires 0 <= i => i + 1)
  }

  /** The answer to a response that is not a transport error: 404 and any other status
      but 200 raise at once, without a retry; 200 gives the unescaped body. */
  function Answer(url: string, status: int, body: string, unescape: string -> string): (r: Result<string, Error>)
    ensures status == 404 <==> r.Failure? && r.error.ModelNotFound?
    ensures status != 404 && status != 200 <==> r.Failure? && r.error.NetworkError?
    ensures status == 200 <==> r == Success(unescape(body))
  {
    if status == 404 then Failure(ModelNotFound("页面不存在: " + url))
    else if status != 200 then Failure(NetworkError("HTTP " + IntToString(status) + ": " + url))
    else Success(unescape(body))
  }

  /** The loop from (0-based) attempt `attempt` on, when at most `maxRetries` attempts are
      made and `net(k)` is what attempt `k` ends with. */
  function FetchFrom(net: nat -> Attempt, maxRetries: int, url: string, unescape: string -> string,
                     attempt: nat): FetchRun
    decreases if attempt < maxRetries then maxRetries - attempt else 0
  {
    if maxRetries <= attempt then
      FetchRun(Failure(NetworkError("请求失败: " + url)), attempt, [])
    else match net(attempt)
      case Response(status, body) => FetchRun(Answer(url, status, body, unescape), attempt + 1, [])
      case Escaped(e) => FetchRun(Failure(Uncaught(e)), attempt + 1, [])
      case TransportError(e) =>
        if attempt == maxRetries - 1 then
          FetchRun(Failure(NetworkError("网络请求失败: " + e)), attempt + 1, [])
        else
          var rest := FetchFrom(net, maxRetries, url, unescape, attempt + 1);
          FetchRun(rest.outcome, rest.attempts, [attempt + 1] + rest.sleeps)
  }

  /** `_fetch(url)` */
  function Fetch(net: nat -> Attempt, maxRetries: int, url: string, unescape: string -> string): FetchRun
  {
    FetchFrom(net, maxRetries, url, unescape, 0)
  }

  /** From attempt `a` on, the loop makes at most `maxRetries - a` more attempts and sleeps
      `a + 1, a + 2, ...` seconds, one sleep fewer than the attempts it makes. */
  lemma {:induction false} FetchFromShape(net: nat -> Attempt, maxRetries: int, url: string,
                                          unescape: string -> string, a: nat)
    ensures var run := FetchFrom(net, maxRetries, url, unescape, a);
      && (a < maxRetries ==> a < run.attempts <= maxRetries)
      && (maxRetries <= a ==> run.attempts == a)
      && |run.sleeps| == (if a < maxRetries then run.attempts - a - 1 else 0)
      && forall i :: 0 <= i < |run.sleeps| ==> run.sleeps[i] == a + i + 1
    decreases if a < maxRetries then maxRetries - a else 0
  {
    if a < maxRetries && net(a).TransportError? && a != maxRetries - 1 {
      FetchFromShape(net, maxRetries, url, unescape, a + 1);
    }
  }

  /** A request fails only with "page not found", a network error, or the exception of an
      attempt that escaped the loop; so when no attempt escapes, it raises nothing outside
      the site's own error classes. */
  lemma {:induction false} FetchFromErrors(net: nat -> Attempt, maxRetries: int, url: string,
                                           unescape: string -> string, a: nat)
    ensures var o := FetchFrom(net, maxRetries, url, unescape, a).outcome;
      && (o.Failure? ==> o.error.ModelNotFound? || o.error.NetworkError? || o.error.Uncaught?)
      && (o.Failure? && o.error.Uncaught? ==>
            exists k :: a <= k < maxRetries && net(k) == Escaped(o.error.msg))
    decreases if a < maxRetries then maxRetries - a else 0
  {
    if a < maxRetries && net(a).TransportError? && a != maxRetries - 1 {
      FetchFromErrors(net, maxRetries, url, unescape, a + 1);
    } else if a < maxRetries && net(a).Escaped? {
      assert net(a) == Escaped(net(a).reason);
    }
  }

  /** A transport error before the last attempt passes the outcome on to the next attempt,
      after sleeping `a + 1` seconds on top of the backoff so far. */
  lemma RetryStep(net: nat -> Attempt, maxRetries: int, url: string, unescape: string -> string, a: nat)
    requires a < maxRetries - 1 && net(a).TransportError?
    ensures FetchFrom(net, maxRetries, url, unescape, a).outcome == FetchFrom(net, maxRetries, url, unescape, a + 1).outcome
    ensures Backoff(a) + FetchFrom(net, maxRetries, url, unescape, a).sleeps
         == Backoff(a + 1) + FetchFrom(net, maxRetries, url, unescape, a + 1).sleeps
  {
    var rest := FetchFrom(net, maxRetries, url, unescape, a + 1).sleeps;
    assert Backoff(a) + [a + 1] == Backoff(a + 1);
    assert Backoff(a) + ([a + 1] + rest) == (Backoff(a) + [a + 1]) + rest;
  }

  /** At most `max(0, maxRetries)` attempts are made, and the delays slept are `1, 2, ...`,
      one fewer than the attempts. */
  lemma FetchBounds(net: nat -> Attempt, maxRetries: int, url: string, unescape: string -> string)
    ensures var run := Fetch(net, maxRetries, url, unescape);
      && run.attempts <= (if maxRetries > 0 then maxRetries else 0)
      && run.sleeps == Backoff(if run.attempts > 0 then run.attempts - 1 else 0)
  {
    FetchFromShape(net, maxRetries, url, unescape, 0);
  }

  /** With no attempts allowed, the request fails with the closing "request failed" error
      without touching the network. */
  lemma FetchNoAttempts(net: nat -> Attempt, maxRetries: int, url: string, unescape: string -> string)
    requires maxRetries <= 0
    ensures Fetch(net, maxRetries, url, unescape) == FetchRun(Failure(NetworkError("请求失败: " + url)), 0, [])
  {
  }

  /** The closing "request failed" error is raised only when no attempt is allowed: with at
      least one attempt the last one always returns or raises. */
  lemma {:induction false} FetchFromLastWord(net: nat -> Attempt, maxRetries: int, url: string,
                                             unescape: string -> string, a: nat)
    requires a < maxRetries
    ensures FetchFrom(net, maxRetries, url, unescape, a).outcome != Failure(NetworkError("请求失败: " + url))
    decreases maxRetries - a
  {
    var run := FetchFrom(net, maxRetries, url, unescape, a);
    match net(a)
    case Response(status, body) =>
      if status != 404 && status != 200 {
        var m := "HTTP " + IntToString(status) + ": " + url;
        IntToStringHead(status);
        assert m[0] == 'H';
        assert ("请求失败: " + url)[0] == '请';
      }
    case Escaped(_) =>
    case TransportError(e) =>
      if a == maxRetries - 1 {
        assert ("网络请求失败: " + e)[0] == '网';
        assert ("请求失败: " + url)[0] == '请';
      } else {
        FetchFromLastWord(net, maxRetries, url, unescape, a + 1);
      }
  }

  /** When every attempt before `k` ends in a transport error and attempt `k` (within the
      allowance) gets a response, that response decides the outcome, after `k + 1` attempts
      and the sleeps `1, ..., k`. */
  lemma {:induction false} FetchFirstResponse(net: nat -> Attempt, maxRetries: int, url: string,
                                              unescape: string -> string, a: nat, k: nat)
    requires a <= k < maxRetries
    requires forall j :: a <= j < k ==> net(j).TransportError?
    requires net(k).Response?
    ensures var run := FetchFrom(net, maxRetries, url, unescape, a);
      && run.outcome == Answer(url, net(k).status, net(k).body, unescape)
      && run.attempts == k + 1
      && run.sleeps == seq(k - a, i requires 0 <= i => a + i + 1)
    decreases k - a
  {
    if a < k {
      FetchFirstResponse(net, maxRetries, url, unescape, a + 1, k);
      var rest := FetchFrom(net, maxRetries, url, unescape, a + 1);
      assert [a + 1] + rest.sleeps == seq(k - a, i requires 0 <= i => a + i + 1);
    }
  }

  /** An exception the loop does not catch ends the request at the attempt that raised it,
      unconverted and without a retry, even when attempts remain. */
  lemma {:induction false} FetchFirstEscape(net: nat -> Attempt, maxRetries: int, url: string,
                                            unescape: string -> string, a: nat, k: nat)
    requires a <= k < maxRetries
    requires forall j :: a <= j < k ==> net(j).TransportError?
    requires net(k).Escaped?
    ensures var run := FetchFrom(net, maxRetries, url, unescape, a);
      && run.outcome == Failure(Uncaught(net(k).reason))
      && run.attempts == k + 1
      && run.sleeps == seq(k - a, i requires 0 <= i => a + i + 1)
    decreases k - a
  {
    if a < k {
      FetchFirstEscape(net, maxRetries, url, unescape, a + 1, k);
      var rest := FetchFrom(net, maxRetries, url, unescape, a + 1);
      assert [a + 1] + rest.sleeps == seq(k - a, i requires 0 <= i => a + i + 1);
    }
  }

  /** In particular a 404 on the first response raises "page not found" at once, and a 200
      after `k` transport errors returns the body after sleeping `1 + ... + k` seconds. */
  lemma Fetch404(net: nat -> Attempt, maxRetries: int, url: string, unescape: string -> string, k: nat)
    requires k < maxRetries
    requires forall j :: 0 <= j < k ==> net(j).TransportError?
    requires net(k).Response? && net(k).status == 404
    ensures Fetch(net, maxRetries, url, unescape).outcome == Failure(ModelNotFound("页面不存在: " + url))
    ensures Fetch(net, maxRetries, url, unescape).attempts == k + 1
  {
    FetchFirstResponse(net, maxRetries, url, unescape, 0, k);
  }

  lemma FetchSucceedsAfterErrors(net: nat -> Attempt, maxRetries: int, url: string,
                                 unescape: string -> string, k: nat)
    requires k < maxRetries
    requires forall j :: 0 <= j < k ==> net(j).TransportError?
    requires net(k).Response? && net(k).status == 200
    ensures Fetch(net, maxRetries, url, unescape).outcome == Success(unescape(net(k).body))
    ensures Fetch(net, maxRetries, url, unescape).sleeps == Backoff(k)
  {
    FetchFirstResponse(net, maxRetries, url, unescape, 0, k);
  }

  /** When every allowed attempt ends in a transport error, the request fails with the last
      error's message after all `maxRetries` attempts. */
  lemma {:induction false} FetchFromAllFail(net: nat -> Attempt, maxRetries: int, url: string,
                                            unescape: string -> string, a: nat)
    requires a < maxRetries
    requires forall j :: a <= j < maxRetries ==> net(j).TransportError?
    ensures var run := FetchFrom(net, maxRetries, url, unescape, a);
      && run.outcome == Failure(NetworkError("网络请求失败: " + net(maxRetries - 1).reason))
      && run.attempts == maxRetries
    decreases maxRetries - a
  {
    if a < maxRetries - 1 {
      FetchFromAllFail(net, maxRetries, url, unescape, a + 1);
    }
  }

  lemma FetchAllFail(net: nat -> Attempt, maxRetries: int, url: string, unescape: string -> string)
    requires 0 < maxRetries
    requires forall j :: 0 <= j < maxRetries ==> net(j).TransportError?
    ensures Fetch(net, maxRetries, url, unescape).outcome ==
      Failure(NetworkError("网络请求失败: " + net(maxRetries - 1).reason))
    ensures Fetch(net, maxRetries, url, unescape).sleeps == Backoff(maxRetries - 1)
  {
    FetchFromAllFail(net, maxRetries, url, unescape, 0);
    FetchBounds(net, maxRetries, url, unescape);
  }
}

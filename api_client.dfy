/**
 * The PDPJ API client (`PDPJClient`): round-robin bearer tokens (the
 * `Authorization: Bearer` header of section 2.1 of RFC 6750), `get` with a
 * fixed attempt budget and the wait after an HTTP 429 (section 4 of
 * RFC 6585), the cursor pager with `page_N.json` checkpoints,
 * the name search that merges two pagers, the detail download and the
 * statistics.
 *
 * The network is an oracle: the k-th request the client ever issues (counting
 * from 0, in the order `get` issues them) gets `net(k)`. Sleeps are recorded,
 * not performed; the backoff durations (`backoff_base * 2**attempt` plus a
 * random jitter) are recorded by attempt number only.
 */
module Client {
  import opened Common
  import opened Process

  /** An HTTP response: status, the Retry-After header when present, and the body. */
  datatype Response = Response(status: int, retryAfter: Option<string>, body: Body)

  /** What the network does with one request. */
  datatype Outcome =
    | Answered(resp: Response)
    | ConnectionFailed
    | TimedOut
    | OtherRequestError

  /** The kind of the last `ConnectionError`/`Timeout` that `get` kept. */
  datatype Failure = ConnectionFailure | TimeoutFailure

  /** Why `get` raised. */
  datatype GetError =
    | Exhausted(last: Option<Failure>)     // the ConnectionError raised after the last attempt
    | InvalidRetryAfter(header: string)    // the ValueError of int() on the header
    | RequestRaised                        // any other exception of the request itself

  datatype GetResult = Returned(resp: Response) | Raised(err: GetError)

  /** A recorded sleep: the 429 wait in seconds, or the backoff after attempt `attempt`. */
  datatype Sleep = RateLimitWait(seconds: int) | Backoff(attempt: nat)

  /** No sleep, or one. */
  function AsSeq(sleep: Option<Sleep>): seq<Sleep>
  {
    if sleep.None? then [] else [sleep.value]
  }

  /** The `_stats` counters. */
  datatype Stats = Stats(requests: nat, retries: nat, errors429: nat, errorsOther: nat, pagesOk: nat, detailsOk: nat)

  /** Query parameters, every value as the text that goes on the wire. */
  type Params = map<string, string>

  /** One request as issued: URL, query and Authorization header. */
  datatype Request = Request(url: string, params: Params, authorization: string)

  /** The statuses `get` retries after a backoff. */
  predicate Transient(status: int)
  {
    status == 500 || status == 502 || status == 503 || status == 504
  }

  const TooManyRequests: int := 429
  const DefaultRetryAfter: int := 30

  /** `int(resp.headers.get("Retry-After", 30))`; None when `int()` rejects the header (an HTTP-date, say). */
  function RetryAfterSeconds(header: Option<string>): (r: Option<int>)
    ensures header.None? ==> r == Some(DefaultRetryAfter)
    ensures header.Some? ==> r == ParseInt(header.value)
  {
    if header.None? then Some(DefaultRetryAfter) else ParseInt(header.value)
  }

  /** The 429 wait: the advised seconds, but at least ten seconds per attempt made so far. */
  function RateLimitSeconds(retryAfter: int, attempt: nat): (r: int)
    ensures r >= retryAfter && r >= 10 * (attempt + 1)
    ensures r == retryAfter || r == 10 * (attempt + 1)
  {
    if retryAfter > 10 * (attempt + 1) then retryAfter else 10 * (attempt + 1)
  }

  /** A 429 answer (with or without a usable Retry-After header). */
  predicate RateLimited(o: Outcome)
  {
    o.Answered? && o.resp.status == TooManyRequests
  }

  /** An outcome after which `get` tries again (given attempts remain). */
  predicate Retryable(o: Outcome)
  {
    match o
    case Answered(resp) =>
      (resp.status == TooManyRequests && RetryAfterSeconds(resp.retryAfter).Some?) || Transient(resp.status)
    case ConnectionFailed => true
    case TimedOut => true
    case OtherRequestError => false
  }

  /**
   * The counters after one more attempt answered with `o`: a request; a
   * retry for a retried failure other than a 429; a 429; a network error
   * for a connection failure or a timeout.
   */
  function Counted(s: Stats, o: Outcome): Stats
  {
    s.(requests := s.requests + 1,
       retries := s.retries + (if Retryable(o) && !RateLimited(o) then 1 else 0),
       errors429 := s.errors429 + (if RateLimited(o) then 1 else 0),
       errorsOther := s.errorsOther + (if o.ConnectionFailed? || o.TimedOut? then 1 else 0))
  }

  /** The counters after the attempts answered by `net(k)`, ..., `net(k + n - 1)`. */
  function Replay(s: Stats, net: nat -> Outcome, k: nat, n: nat): Stats
  {
    if n == 0 then s else Counted(Replay(s, net, k, n - 1), net(k + n - 1))
  }

  /** The sleep attempt number `attempt` records when answered with `o`: none unless it is retried. */
  function StepSleeps(o: Outcome, attempt: nat): (r: seq<Sleep>)
    ensures |r| == (if Retryable(o) then 1 else 0)
  {
    match o
    case Answered(resp) =>
      if resp.status == TooManyRequests then
        var ra := RetryAfterSeconds(resp.retryAfter);
        if ra.None? then [] else [RateLimitWait(RateLimitSeconds(ra.value, attempt))]
      else if Transient(resp.status) then [Backoff(attempt)]
      else []
    case ConnectionFailed => [Backoff(attempt)]
    case TimedOut => [Backoff(attempt)]
    case OtherRequestError => []
  }

  /** The sleeps of attempts 0, ..., n - 1 of a `get` call whose first request is answered by `net(k)`. */
  function SleepsOf(net: nat -> Outcome, k: nat, n: nat): seq<Sleep>
  {
    if n == 0 then [] else SleepsOf(net, k, n - 1) + StepSleeps(net(k + n - 1), n - 1)
  }

  /** The failure `get` keeps after an outcome. */
  function KeptFailure(o: Outcome, last: Option<Failure>): Option<Failure>
  {
    match o
    case ConnectionFailed => Some(ConnectionFailure)
    case TimedOut => Some(TimeoutFailure)
    case _ => last
  }

  /** What `get` does with an outcome it does not retry: return the response or let the exception escape. */
  function Final(o: Outcome): (r: GetResult)
    requires !Retryable(o)
    ensures r.Returned? <==> o.Answered? && o.resp.status != TooManyRequests
    ensures r.Returned? ==> r.resp == o.resp
  {
    match o
    case Answered(resp) =>
      if resp.status == TooManyRequests then Raised(InvalidRetryAfter(resp.retryAfter.value)) else Returned(resp)
    case OtherRequestError => Raised(RequestRaised)
  }

  /** The outcome of `get`, and the number of attempts made when it ended. */
  datatype Run = Run(result: GetResult, attempts: nat)

  /**
   * The attempts of `get` from attempt number `attempt` on, the request of
   * that attempt being answered by `net(k)`; `last` is the failure kept so far.
   */
  function Attempts(net: nat -> Outcome, k: nat, attempt: nat, maxRetries: int, last: Option<Failure>): Run
    decreases maxRetries - attempt
  {
    if attempt >= maxRetries then Run(Raised(Exhausted(last)), attempt)
    else if Retryable(net(k)) then Attempts(net, k + 1, attempt + 1, maxRetries, KeptFailure(net(k), last))
    else Run(Final(net(k)), attempt + 1)
  }

  /** One call of `get` whose first request is answered by `net(k)`. */
  function GetRun(net: nat -> Outcome, k: nat, maxRetries: int): Run
  {
    Attempts(net, k, 0, maxRetries, None)
  }

  /**
   * The attempt budget: from attempt `attempt`, `get` makes `n` more
   * attempts, none when the budget is spent and otherwise between one and
   * what is left of it; every attempt but the last was retried; it raises
   * `Exhausted` exactly when it used the whole budget on retried attempts,
   * and otherwise its result is what the last outcome, not retried, gives.
   */
  lemma {:induction false} AttemptsShape(net: nat -> Outcome, k: nat, attempt: nat, maxRetries: int, last: Option<Failure>)
    ensures var r := Attempts(net, k, attempt, maxRetries, last);
            var n := r.attempts - attempt;
            && (attempt >= maxRetries ==> n == 0)
            && (attempt < maxRetries ==> 1 <= n <= maxRetries - attempt)
            && (forall i :: k <= i < k + n - 1 ==> Retryable(net(i)))
            && (r.result.Raised? && r.result.err.Exhausted? <==>
                  n == (if attempt < maxRetries then maxRetries - attempt else 0) && forall i :: k <= i < k + n ==> Retryable(net(i)))
            && (!(r.result.Raised? && r.result.err.Exhausted?) ==> n >= 1 && !Retryable(net(k + n - 1)) && r.result == Final(net(k + n - 1)))
    decreases maxRetries - attempt
  {
    if attempt < maxRetries && Retryable(net(k)) {
      var last' := KeptFailure(net(k), last);
      AttemptsShape(net, k + 1, attempt + 1, maxRetries, last');
      var r := Attempts(net, k, attempt, maxRetries, last);
      var n := r.attempts - attempt;
      assert r == Attempts(net, k + 1, attempt + 1, maxRetries, last');
      forall i | k <= i < k + n - 1
        ensures Retryable(net(i))
      {
        if i > k {
          assert k + 1 <= i < (k + 1) + (r.attempts - (attempt + 1)) - 1;
        }
      }
      if !(r.result.Raised? && r.result.err.Exhausted?) {
        assert !forall i :: k + 1 <= i < (k + 1) + (r.attempts - (attempt + 1)) ==> Retryable(net(i));
        var i :| k + 1 <= i < (k + 1) + (r.attempts - (attempt + 1)) && !Retryable(net(i));
        assert !Retryable(net(i)) && k <= i < k + n;
      } else {
        forall i | k <= i < k + n
          ensures Retryable(net(i))
        {
          if i > k {
            assert k + 1 <= i < (k + 1) + (r.attempts - (attempt + 1));
          }
        }
      }
    }
  }

  /**
   * A returned response is the answer to the last request: neither a 429
   * nor a transient status, after requests that all failed in a retried way.
   */
  lemma AttemptsReturned(net: nat -> Outcome, k: nat, maxRetries: int)
    requires GetRun(net, k, maxRetries).result.Returned?
    ensures var r := GetRun(net, k, maxRetries);
            && 1 <= r.attempts <= maxRetries
            && net(k + r.attempts - 1) == Answered(r.result.resp)
            && r.result.resp.status != TooManyRequests && !Transient(r.result.resp.status)
            && forall i :: k <= i < k + r.attempts - 1 ==> Retryable(net(i))
  {
    AttemptsShape(net, k, 0, maxRetries, None);
  }

  /**
   * How the counters add up over `n` attempts: one request each, a network
   * error is always also a retry, and when every attempt was retried each is
   * either a retry or a 429, and each recorded one sleep.
   */
  lemma {:induction false} ReplayCounts(s: Stats, net: nat -> Outcome, k: nat, n: nat)
    ensures var t := Replay(s, net, k, n);
            && t.requests == s.requests + n
            && t.pagesOk == s.pagesOk && t.detailsOk == s.detailsOk
            && t.retries >= s.retries && t.errors429 >= s.errors429
            && t.errorsOther - s.errorsOther <= t.retries - s.retries
            && ((forall i :: k <= i < k + n ==> Retryable(net(i))) ==>
                  (t.retries - s.retries) + (t.errors429 - s.errors429) == n && |SleepsOf(net, k, n)| == n)
  {
    if n > 0 {
      ReplayCounts(s, net, k, n - 1);
      if forall i :: k <= i < k + n ==> Retryable(net(i)) {
        assert forall i :: k <= i < k + (n - 1) ==> Retryable(net(i));
        assert Retryable(net(k + n - 1));
      }
    }
  }

  /**
   * The counters after a whole `get` call from zero: every attempt is a
   * retry, a 429, or the last one when it returned or raised a request
   * exception (a 429 with an unreadable header is counted as a 429 only);
   * network errors never outnumber retries; one sleep per attempt except
   * the last, unless the budget ran out.
   */
  lemma GetAccounting(net: nat -> Outcome, k: nat, maxRetries: int)
    ensures var r := GetRun(net, k, maxRetries);
            var t := Replay(Stats(0, 0, 0, 0, 0, 0), net, k, r.attempts);
            var exhausted := r.result.Raised? && r.result.err.Exhausted?;
            && t.requests == r.attempts <= (if maxRetries > 0 then maxRetries else 0)
            && r.attempts == t.retries + t.errors429 + (if r.result.Returned? || r.result.err.RequestRaised? then 1 else 0)
            && t.errorsOther <= t.retries
            && |SleepsOf(net, k, r.attempts)| == r.attempts - (if exhausted then 0 else 1)
  {
    var r := GetRun(net, k, maxRetries);
    var z := Stats(0, 0, 0, 0, 0, 0);
    AttemptsShape(net, k, 0, maxRetries, None);
    ReplayCounts(z, net, k, r.attempts);
    if !(r.result.Raised? && r.result.err.Exhausted?) {
      ReplayEnded(z, net, k, r.attempts);
    }
  }

  /**
   * Attempts that were all retried but the last: each but the last is a
   * retry or a 429, the last is a 429 only if it is one, and only the
   * retried attempts slept.
   */
  lemma ReplayEnded(s: Stats, net: nat -> Outcome, k: nat, n: nat)
    requires n >= 1 && !Retryable(net(k + n - 1))
    requires forall i :: k <= i < k + n - 1 ==> Retryable(net(i))
    ensures var t := Replay(s, net, k, n);
            && (t.retries - s.retries) + (t.errors429 - s.errors429) == n - 1 + (if RateLimited(net(k + n - 1)) then 1 else 0)
            && |SleepsOf(net, k, n)| == n - 1
  {
    ReplayCounts(s, net, k, n - 1);
  }

  /**
   * `r` transient statuses or network errors, then a response with any
   * other status (429 excepted), within the budget: that response is
   * returned after `r + 1` attempts, with exactly `r` retries and no 429.
   */
  lemma {:induction false} RetriesThenSuccess(net: nat -> Outcome, k: nat, attempt: nat, maxRetries: int, last: Option<Failure>, r: nat, resp: Response)
    requires attempt + r < maxRetries
    requires forall i :: k <= i < k + r ==> (net(i).Answered? && Transient(net(i).resp.status)) || net(i).ConnectionFailed? || net(i).TimedOut?
    requires net(k + r) == Answered(resp) && resp.status != TooManyRequests && !Transient(resp.status)
    ensures Attempts(net, k, attempt, maxRetries, last) == Run(Returned(resp), attempt + r + 1)
    ensures forall s :: Replay(s, net, k, r + 1).retries == s.retries + r && Replay(s, net, k, r + 1).errors429 == s.errors429
  {
    RetriesThenReturned(net, k, attempt, maxRetries, last, r, resp);
    forall s
      ensures Replay(s, net, k, r + 1).retries == s.retries + r && Replay(s, net, k, r + 1).errors429 == s.errors429
    {
      ReplayNoRateLimit(s, net, k, r);
    }
  }

  /** The run of `RetriesThenSuccess`: `r` retried attempts, then the answer returned. */
  lemma {:induction false} RetriesThenReturned(net: nat -> Outcome, k: nat, attempt: nat, maxRetries: int, last: Option<Failure>, r: nat, resp: Response)
    requires attempt + r < maxRetries
    requires forall i :: k <= i < k + r ==> (net(i).Answered? && Transient(net(i).resp.status)) || net(i).ConnectionFailed? || net(i).TimedOut?
    requires net(k + r) == Answered(resp) && resp.status != TooManyRequests && !Transient(resp.status)
    ensures Attempts(net, k, attempt, maxRetries, last) == Run(Returned(resp), attempt + r + 1)
    decreases r
  {
    if r > 0 {
      assert Retryable(net(k));
      RetriesThenReturned(net, k + 1, attempt + 1, maxRetries, KeptFailure(net(k), last), r - 1, resp);
    } else {
      assert !Retryable(net(k));
    }
  }

  /** Transient statuses and network errors each count as a retry and never as a 429. */
  lemma {:induction false} ReplayNoRateLimit(s: Stats, net: nat -> Outcome, k: nat, n: nat)
    requires forall i :: k <= i < k + n ==> (net(i).Answered? && Transient(net(i).resp.status)) || net(i).ConnectionFailed? || net(i).TimedOut?
    ensures Replay(s, net, k, n).retries == s.retries + n && Replay(s, net, k, n).errors429 == s.errors429
  {
    if n > 0 {
      ReplayNoRateLimit(s, net, k, n - 1);
    }
  }

  /**
   * A 429 advising 5 seconds, then a 200: the response is returned after two
   * attempts and one wait of 10 seconds (ten seconds per attempt outweighs
   * the advice), with one 429 counted and no retry counted.
   */
  lemma RateLimitedOnce(net: nat -> Outcome, k: nat, maxRetries: int, ok: Response)
    requires maxRetries >= 2
    requires net(k) == Answered(Response(429, Some("5"), EmptyJson))
    requires net(k + 1) == Answered(ok) && ok.status == 200
    ensures GetRun(net, k, maxRetries) == Run(Returned(ok), 2)
    ensures SleepsOf(net, k, 2) == [RateLimitWait(10)]
    ensures forall s :: Replay(s, net, k, 2) == s.(requests := s.requests + 2, errors429 := s.errors429 + 1)
  {
    RetryAfterFive();
    var o := net(k);
    assert Retryable(o) && RateLimited(o);
    assert StepSleeps(o, 0) == [RateLimitWait(10)];
    assert !Retryable(net(k + 1)) && !RateLimited(net(k + 1));
    assert Attempts(net, k + 1, 1, maxRetries, None) == Run(Returned(ok), 2);
    assert SleepsOf(net, k, 1) == [RateLimitWait(10)];
    forall s
      ensures Replay(s, net, k, 2) == s.(requests := s.requests + 2, errors429 := s.errors429 + 1)
    {
      var once := Replay(s, net, k, 1);
      assert Replay(s, net, k, 0) == s;
      assert once == Counted(s, o);
      assert Counted(s, o) == s.(requests := s.requests + 1, errors429 := s.errors429 + 1);
      assert Replay(s, net, k, 2) == Counted(once, net(k + 1)) == once.(requests := once.requests + 1);
    }
  }

  /** A Retry-After of "5" reads as five seconds. */
  lemma RetryAfterFive()
    ensures RetryAfterSeconds(Some("5")) == Some(5)
  {
    StripNoSpace("5");
    assert DigitsToNat("5") == 5;
  }

  /** The requests of `n` attempts from rotation cursor `start`. */
  function RequestsSent(url: string, params: Params, tokens: seq<string>, pinned: Option<string>, start: nat, n: nat): (r: seq<Request>)
    requires |tokens| > 0
    ensures |r| == n
  {
    if n == 0 then []
    else RequestsSent(url, params, tokens, pinned, start, n - 1) + [Request(url, params, Bearer(TokenFor(tokens, pinned, start, n - 1)))]
  }

  /** Unpinned attempts use the tokens round-robin from the cursor; a pinned token is used by every attempt. */
  lemma {:induction false} RequestsSentTokens(url: string, params: Params, tokens: seq<string>, pinned: Option<string>, start: nat, n: nat, j: nat)
    requires |tokens| > 0 && j < n
    ensures RequestsSent(url, params, tokens, pinned, start, n)[j].authorization
            == Bearer(if pinned.Some? then pinned.value else tokens[(start + j) % |tokens|])
  {
    if j < n - 1 {
      RequestsSentTokens(url, params, tokens, pinned, start, n - 1, j);
    }
  }

  /** The token the `j`-th attempt from rotation cursor `start` uses. */
  function TokenFor(tokens: seq<string>, pinned: Option<string>, start: nat, j: nat): string
    requires |tokens| > 0
  {
    if pinned.Some? then pinned.value else tokens[(start + j) % |tokens|]
  }

  /** The Authorization header value for a token. */
  function Bearer(token: string): string
  {
    "Bearer " + token
  }

  /** The `_headers` dict. */
  function HeadersFor(token: string): (h: map<string, string>)
    ensures h.Keys == {"Authorization", "Accept"} && h["Authorization"] == Bearer(token)
  {
    map["Authorization" := Bearer(token), "Accept" := "application/json"]
  }

  class PDPJClient {
    const tokens: seq<string>
    const baseUrl: string
    const tribunal: string
    const idClasse: string
    const maxPorPagina: int
    const maxRetries: int
    /** The network. */
    const net: nat -> Outcome

    var tokenIdx: nat
    var stats: Stats
    /** Every request issued so far, in order. */
    ghost var sent: seq<Request>
    /** Every sleep so far, in order. */
    ghost var sleeps: seq<Sleep>

    ghost predicate Valid()
      reads this
    {
      |tokens| > 0 && stats.requests == |sent|
    }

    /** The counters, the sleeps, the token cursor and the requests issued. */
    ghost function State(): ClientState
      reads this
    {
      ClientState(stats, sleeps, tokenIdx, sent)
    }

    /** `__init__` past its empty-token check: cursor 0, zero counters. */
    constructor (tokens: seq<string>, baseUrl: string, tribunal: string, idClasse: string,
                 maxPorPagina: int, maxRetries: int, net: nat -> Outcome)
      requires |tokens| > 0
      ensures Valid()
      ensures this.tokens == tokens && this.baseUrl == RightStripSlash(baseUrl) && this.tribunal == tribunal
      ensures this.idClasse == idClasse && this.maxPorPagina == maxPorPagina && this.maxRetries == maxRetries && this.net == net
      ensures tokenIdx == 0 && stats == Stats(0, 0, 0, 0, 0, 0) && sent == [] && sleeps == []
    {
      this.tokens := tokens;
      this.baseUrl := RightStripSlash(baseUrl);
      this.tribunal := tribunal;
      this.idClasse := idClasse;
      this.maxPorPagina := maxPorPagina;
      this.maxRetries := maxRetries;
      this.net := net;
      tokenIdx := 0;
      stats := Stats(0, 0, 0, 0, 0, 0);
      sent := [];
      sleeps := [];
    }

    /** `_next_token`: the token under the cursor, which then advances by one. */
    method NextToken() returns (t: string)
      requires |tokens| > 0
      modifies this
      ensures t == tokens[old(tokenIdx) % |tokens|]
      ensures tokenIdx == old(tokenIdx) + 1
      ensures stats == old(stats) && sent == old(sent) && sleeps == old(sleeps)
    {
      t := tokens[tokenIdx % |tokens|];
      tokenIdx := tokenIdx + 1;
    }

    /** `_headers`: a pinned token is used as given and leaves the cursor alone; otherwise the next token is taken. */
    method Headers(token: Option<string>) returns (h: map<string, string>, used: string)
      requires |tokens| > 0
      modifies this
      ensures used == TokenFor(tokens, token, old(tokenIdx), 0)
      ensures h == HeadersFor(used)
      ensures tokenIdx == old(tokenIdx) + (if token.None? then 1 else 0)
      ensures stats == old(stats) && sent == old(sent) && sleeps == old(sleeps)
    {
      if token.None? {
        used := NextToken();
      } else {
        used := token.value;
      }
      h := HeadersFor(used);
    }

    /**
     * One pass of `get`'s loop: the request (answered by the next outcome of
     * the network) and what the outcome does to the counters, the sleeps
     * and the kept failure. `done` says that `get` returns or raises
     * here, with `r`.
     */
    method Attempt(url: string, params: Params, token: Option<string>, attempt: nat, last: Option<Failure>)
      returns (done: bool, r: GetResult, last': Option<Failure>)
      requires Valid()
      modifies this
      ensures Valid()
      ensures done <==> !Retryable(Answer(net, old(stats.requests)))
      ensures done ==> r == Final(Answer(net, old(stats.requests)))
      ensures last' == KeptFailure(Answer(net, old(stats.requests)), last)
      ensures ClientState(stats, sleeps, tokenIdx, sent) == AttemptEffect(old(ClientState(stats, sleeps, tokenIdx, sent)), net, url, params, tokens, token, attempt)
    {
      // The 429 gate is not modelled: requests run one at a time here.
      var outcome := Answer(net, stats.requests);
      var headers, used := Headers(token);
      var counters, sleep;
      done, r, last', counters, sleep := HandleOutcome(outcome, stats, attempt, last);
      stats, sent, sleeps := counters, sent + [Request(url, params, Bearer(used))], sleeps + AsSeq(sleep);
    }

    /**
     * `get`: the result, the counters, the sleeps and the token cursor are
     * those of `GetRun` from the current request count; each attempt issues
     * one request with the next token of the rotation (or the pinned one).
     */
    method Get(url: string, params: Params, token: Option<string>) returns (r: GetResult)
      requires Valid()
      modifies this
      ensures Valid()
      ensures r == GetRun(net, old(stats.requests), maxRetries).result
      ensures ClientState(stats, sleeps, tokenIdx, sent) == AfterAttempts(old(ClientState(stats, sleeps, tokenIdx, sent)), net, url, params, tokens, token, GetRun(net, old(stats.requests), maxRetries).attempts)
    {
      var attempt: nat := 0;
      var last: Option<Failure> := None;
      ghost var k0 := stats.requests;
      ghost var whole := GetRun(net, k0, maxRetries);
      AfterNoAttempts(ClientState(stats, sleeps, tokenIdx, sent), net, url, params, tokens, token);
      while attempt < maxRetries
        invariant Valid()
        invariant stats.requests == k0 + attempt
        invariant whole == Attempts(net, k0 + attempt, attempt, maxRetries, last)
        invariant ClientState(stats, sleeps, tokenIdx, sent) == AfterAttempts(old(ClientState(stats, sleeps, tokenIdx, sent)), net, url, params, tokens, token, attempt)
        decreases maxRetries - attempt
      {
        var done, res, last' := Attempt(url, params, token, attempt, last);
        AfterAttemptsStep(old(ClientState(stats, sleeps, tokenIdx, sent)), net, url, params, tokens, token, attempt);
        AttemptsStep(net, k0 + attempt, attempt, maxRetries, last);
        if done {
          return res;
        }
        last := last';
        attempt := attempt + 1;
      }
      return Raised(Exhausted(last));
    }

    /** Reads one page's data, counting it in `pages_ok` when it has items. */
    method ReadPage(p: Pages, data: Body, maxProcessos: int) returns (step: Step)
      requires Valid()
      modifies this
      ensures Valid()
      ensures var t := TakePage(old(ClientState(stats, sleeps, tokenIdx, sent)), p, data, maxProcessos);
              ClientState(stats, sleeps, tokenIdx, sent) == t.client && step == t.step
    {
      var page := AsPage(data);
      if page.None? {
        return End(p, Failed(BodyNotObject));
      }
      var pg := page.value;
      var first := if p.first.None? then Some(TotalOf(pg)) else p.first;
      if pg.content == [] {
        return End(p.(first := first), Stopped(EmptyPage));
      }
      var items := p.items + pg.content;
      stats := stats.(pagesOk := stats.pagesOk + 1);
      if |items| >= maxProcessos {
        return End(Pages(items, p.pagina, p.cursor, first), Stopped(ItemCap));
      }
      var cursor := ExtractSearchAfter(pg);
      if cursor == [] {
        return End(Pages(items, p.pagina, p.cursor, first), Stopped(NoCursor));
      }
      return Next(Pages(items, p.pagina + 1, cursor, first));
    }

    /** Fetching one page: the checkpoint, or a `get` whose 200 answer is saved before it is read. */
    method FetchOnce(disk: Disk, dir: string, params: Params, p: Pages) returns (got: Fetched)
      requires Valid()
      modifies this, disk
      ensures Valid()
      ensures var f := FetchPage(PagerEnv(net, tokens, maxRetries, baseUrl, dir, params, 0),
                                 old(ClientState(stats, sleeps, tokenIdx, sent)), old(disk.files), p);
              ClientState(stats, sleeps, tokenIdx, sent) == f.client && disk.files == f.files && got == f.got
    {
      var loaded := LoadPage(disk, dir, p.pagina);
      if loaded.Some? {
        return Got(loaded.value);
      }
      var r := Get(baseUrl, PageParams(params, p.cursor), None);
      if r.Raised? {
        return Halted(Failed(GetFailed(r.err)));
      }
      if r.resp.status != 200 {
        return Halted(Stopped(BadStatus(r.resp.status)));
      }
      if r.resp.body.NotJson? {
        return Halted(Failed(BodyNotJson));
      }
      SavePage(disk, dir, p.pagina, r.resp.body);
      got := Got(r.resp.body);
    }

    /** One pass of the pager's loop. */
    method PageOnce(disk: Disk, dir: string, params: Params, p: Pages, maxProcessos: int) returns (step: Step)
      requires Valid()
      modifies this, disk
      ensures Valid()
      ensures var s := PageStep(PagerEnv(net, tokens, maxRetries, baseUrl, dir, params, maxProcessos),
                                old(ClientState(stats, sleeps, tokenIdx, sent)), old(disk.files), p);
              ClientState(stats, sleeps, tokenIdx, sent) == s.client && disk.files == s.files && step == s.step
    {
      ghost var e := PagerEnv(net, tokens, maxRetries, baseUrl, dir, params, maxProcessos);
      ghost var f := FetchPage(e, ClientState(stats, sleeps, tokenIdx, sent), disk.files, p);
      var got := FetchOnce(disk, dir, params, p);
      FetchPageEnv(e, maxProcessos, old(ClientState(stats, sleeps, tokenIdx, sent)), old(disk.files), p);
      if got.Halted? {
        return End(p, got.how);
      }
      step := ReadPage(p, got.data, maxProcessos);
    }

    /**
     * The pager loop shared by the document and the name searches: pages
     * 1, 2, ... up to `maxPaginas`, as `Pagination` says.
     */
    method Paginate(disk: Disk, dir: string, params: Params, maxPaginas: int, maxProcessos: int) returns (p: Pages, how: Ending)
      requires Valid()
      modifies this, disk
      ensures Valid()
      ensures var w := Pagination(PagerEnv(net, tokens, maxRetries, baseUrl, dir, params, maxProcessos), maxPaginas,
                                  old(ClientState(stats, sleeps, tokenIdx, sent)), old(disk.files), StartPages);
              ClientState(stats, sleeps, tokenIdx, sent) == w.client && disk.files == w.files && p == w.pages && how == w.how
    {
      ghost var e := PagerEnv(net, tokens, maxRetries, baseUrl, dir, params, maxProcessos);
      ghost var whole := Pagination(e, maxPaginas, ClientState(stats, sleeps, tokenIdx, sent), disk.files, StartPages);
      p := StartPages;
      while p.pagina <= maxPaginas
        invariant Valid()
        invariant whole == Pagination(e, maxPaginas, ClientState(stats, sleeps, tokenIdx, sent), disk.files, p)
        decreases maxPaginas - p.pagina
      {
        var step := PageOnce(disk, dir, params, p, maxProcessos);
        if step.End? {
          return step.p, step.how;
        }
        p := step.p;
      }
      how := Stopped(PageCap);
    }

    /** The pager's fixed part for a document search: the class given, else the client's. */
    function DocEnv(documento: string, idClasse: string, saveDir: string, maxProcessos: int): PagerEnv
    {
      PagerEnv(net, tokens, maxRetries, baseUrl, saveDir,
               DocParams(documento, tribunal, maxPorPagina, if idClasse != "" then idClasse else this.idClasse), maxProcessos)
    }

    /** The pager's fixed part for one field of a name search, in its own sub-directory. */
    function NameEnv(campo: string, nome: string, saveDir: string, maxProcessos: int): PagerEnv
    {
      PagerEnv(net, tokens, maxRetries, baseUrl, NameDir(saveDir, campo), NameParams(campo, nome, tribunal, maxPorPagina), maxProcessos)
    }

    /**
     * `buscar_por_documento`: the pager over the document's query, with
     * `page_N.json` checkpoints in `saveDir` ("" for none); the class is the
     * one given, else the client's. An exception of the pager escapes.
     */
    method BuscarPorDocumento(disk: Disk, documento: string, maxPaginas: int, maxProcessos: int,
                              idClasse: string, saveDir: string) returns (r: Search<DocSearch>)
      requires Valid()
      modifies this, disk
      ensures Valid()
      ensures var s := DocSearchRun(DocEnv(documento, idClasse, saveDir, maxProcessos), maxPaginas,
                                    old(ClientState(stats, sleeps, tokenIdx, sent)), old(disk.files));
              ClientState(stats, sleeps, tokenIdx, sent) == s.client && disk.files == s.files && r == s.result
    {
      var idCl := if idClasse != "" then idClasse else this.idClasse;
      var params := DocParams(documento, tribunal, maxPorPagina, idCl);
      var p, how := Paginate(disk, saveDir, params, maxPaginas, maxProcessos);
      if how.Failed? {
        return Raise(how.failure);
      }
      var total := if p.first.None? || p.first.value == 0 then |p.items| else p.first.value;
      var gigante := p.first.Some? && p.first.value > GiganteThreshold;
      r := Done(DocSearch(p.items, total, p.pagina, gigante));
    }

    /**
     * `buscar_por_nome`: the pager for `nomeParte`, then for
     * `outroNomeParte`, each with its own checkpoint sub-directory; the
     * items of both merged by number, first seen kept; the raw item count of
     * each field. An exception of either pager escapes.
     */
    method BuscarPorNome(disk: Disk, nome: string, maxPaginas: int, maxProcessos: int, saveDir: string)
      returns (r: Search<NameSearch>)
      requires Valid()
      modifies this, disk
      ensures Valid()
      ensures var s := NameSearchRun(NameEnv("nomeParte", nome, saveDir, maxProcessos),
                                     NameEnv("outroNomeParte", nome, saveDir, maxProcessos), maxPaginas,
                                     old(ClientState(stats, sleeps, tokenIdx, sent)), old(disk.files));
              ClientState(stats, sleeps, tokenIdx, sent) == s.client && disk.files == s.files && r == s.result
    {
      ghost var c0, f0 := ClientState(stats, sleeps, tokenIdx, sent), disk.files;
      var p1, how1 := Paginate(disk, NameDir(saveDir, "nomeParte"), NameParams("nomeParte", nome, tribunal, maxPorPagina),
                               maxPaginas, maxProcessos);
      if how1.Failed? {
        return Raise(how1.failure);
      }
      assert [] + p1.items == p1.items;
      var merged, seen := MergeInto([], {}, [], p1.items);
      var p2, how2 := Paginate(disk, NameDir(saveDir, "outroNomeParte"), NameParams("outroNomeParte", nome, tribunal, maxPorPagina),
                               maxPaginas, maxProcessos);
      if how2.Failed? {
        return Raise(how2.failure);
      }
      merged, seen := MergeInto(merged, seen, p1.items, p2.items);
      r := Done(NameSearch(merged, |merged|, map["nomeParte" := |p1.items|, "outroNomeParte" := |p2.items|]));
    }

    /**
     * `buscar_detalhe_processo` on `<base>/<numero>`, with the detail file
     * at `savePath` when there is one.
     */
    method BuscarDetalheProcesso(disk: Disk, numero: string, savePath: Option<FileKey>) returns (data: Body)
      requires Valid()
      modifies this, disk
      ensures Valid()
      ensures var d := DetailRun(net, tokens, maxRetries, baseUrl + "/" + numero,
                                 old(ClientState(stats, sleeps, tokenIdx, sent)), old(disk.files), savePath);
              ClientState(stats, sleeps, tokenIdx, sent) == d.client && disk.files == d.files && data == d.data
    {
      if savePath.Some? && disk.IsFile(savePath.value) {
        var loaded := disk.Load(savePath.value);
        if loaded.Some? {
          return loaded.value;
        }
      }
      var r := Get(baseUrl + "/" + numero, map[], None);
      if r.Raised? {
        return EmptyJson;
      }
      if r.resp.status == 404 {
        return EmptyJson;
      }
      if r.resp.status != 200 {
        return EmptyJson;
      }
      if r.resp.body.NotJson? {
        return EmptyJson;
      }
      data := r.resp.body;
      stats := stats.(detailsOk := stats.detailsOk + 1);
      if savePath.Some? {
        disk.Save(savePath.value, data);
      }
    }

    /** `get_stats`: the counters as they are now. */
    method GetStats() returns (s: Stats)
      ensures s == stats
    {
      s := stats;
    }
  }

  /**
   * What one pass of `get`'s loop does with the outcome of its request: the
   * counters, the sleep, the kept failure, and whether `get` returns or
   * raises here and with what. A 429 whose Retry-After header `int()`
   * rejects raises at once (the 429 is counted first); any other 429 waits
   * the longer of the advice and ten seconds per attempt; a transient status
   * or a network error backs off; anything else ends `get`.
   */
  method HandleOutcome(o: Outcome, s: Stats, attempt: nat, last: Option<Failure>)
    returns (done: bool, r: GetResult, last': Option<Failure>, counters: Stats, sleep: Option<Sleep>)
    ensures done <==> !Retryable(o)
    ensures done ==> r == Final(o)
    ensures last' == KeptFailure(o, last)
    ensures counters == Counted(s, o)
    ensures AsSeq(sleep) == StepSleeps(o, attempt)
  {
    counters := s.(requests := s.requests + 1);
    done, r, last', sleep := false, Raised(Exhausted(last)), last, None;
    match o {
      case Answered(resp) =>
        if resp.status == TooManyRequests {
          counters := counters.(errors429 := counters.errors429 + 1);
          var ra := RetryAfterSeconds(resp.retryAfter);
          if ra.None? {
            done, r := true, Raised(InvalidRetryAfter(resp.retryAfter.value));
          } else {
            sleep := Some(RateLimitWait(RateLimitSeconds(ra.value, attempt)));
          }
        } else if Transient(resp.status) {
          counters := counters.(retries := counters.retries + 1);
          sleep := Some(Backoff(attempt));
        } else {
          done, r := true, Returned(resp);
        }
      case ConnectionFailed =>
        last' := Some(ConnectionFailure);
        counters := counters.(errorsOther := counters.errorsOther + 1, retries := counters.retries + 1);
        sleep := Some(Backoff(attempt));
      case TimedOut =>
        last' := Some(TimeoutFailure);
        counters := counters.(errorsOther := counters.errorsOther + 1, retries := counters.retries + 1);
        sleep := Some(Backoff(attempt));
      case OtherRequestError =>
        done, r := true, Raised(RequestRaised);
    }
  }

  /**
   * The part of the client's state `get` changes: the counters, the sleeps,
   * the token cursor and the requests issued.
   */
  datatype ClientState = ClientState(stats: Stats, sleeps: seq<Sleep>, tokenIdx: nat, sent: seq<Request>)

  /** The state after one attempt, attempt number `attempt`, from `c`. */
  function AttemptEffect(c: ClientState, net: nat -> Outcome, url: string, params: Params, tokens: seq<string>,
                         token: Option<string>, attempt: nat): ClientState
    requires |tokens| > 0
  {
    var o := Answer(net, c.stats.requests);
    ClientState(Counted(c.stats, o), c.sleeps + StepSleeps(o, attempt),
                c.tokenIdx + (if token.None? then 1 else 0),
                c.sent + [Request(url, params, Bearer(TokenFor(tokens, token, c.tokenIdx, 0)))])
  }

  /** The state after attempts 0, ..., n - 1 of a `get` call from `c`. */
  function AfterAttempts(c: ClientState, net: nat -> Outcome, url: string, params: Params, tokens: seq<string>,
                         token: Option<string>, n: nat): ClientState
    requires |tokens| > 0
  {
    ClientState(Replay(c.stats, net, c.stats.requests, n), c.sleeps + SleepsOf(net, c.stats.requests, n),
                c.tokenIdx + (if token.None? then n else 0),
                c.sent + RequestsSent(url, params, tokens, token, c.tokenIdx, n))
  }

  lemma AfterNoAttempts(c: ClientState, net: nat -> Outcome, url: string, params: Params, tokens: seq<string>, token: Option<string>)
    requires |tokens| > 0
    ensures AfterAttempts(c, net, url, params, tokens, token, 0) == c
  {
    assert c.sleeps + [] == c.sleeps && c.sent + [] == c.sent;
  }

  /** One more attempt extends the state after `n` attempts by that attempt's effect. */
  lemma AfterAttemptsStep(c: ClientState, net: nat -> Outcome, url: string, params: Params, tokens: seq<string>,
                          token: Option<string>, n: nat)
    requires |tokens| > 0
    ensures AfterAttempts(c, net, url, params, tokens, token, n + 1)
            == AttemptEffect(AfterAttempts(c, net, url, params, tokens, token, n), net, url, params, tokens, token, n)
  {
    var k := c.stats.requests;
    var before := AfterAttempts(c, net, url, params, tokens, token, n);
    ReplayCounts(c.stats, net, k, n);
    assert before.stats.requests == k + n;
    SleepsStep(c.sleeps, net, k, n);
    SentStep(c.sent, url, params, tokens, token, c.tokenIdx, n);
    assert TokenFor(tokens, token, before.tokenIdx, 0) == TokenFor(tokens, token, c.tokenIdx, n);
  }

  /** The sleeps of `n + 1` attempts are those of `n` attempts, then those of attempt `n`. */
  lemma SleepsStep(a: seq<Sleep>, net: nat -> Outcome, k: nat, n: nat)
    ensures a + SleepsOf(net, k, n + 1) == a + SleepsOf(net, k, n) + StepSleeps(Answer(net, k + n), n)
  {
    assert SleepsOf(net, k, n + 1) == SleepsOf(net, k, n) + StepSleeps(net(k + n), n);
  }

  /** The requests of `n + 1` attempts are those of `n` attempts, then the request of attempt `n`. */
  lemma SentStep(a: seq<Request>, url: string, params: Params, tokens: seq<string>, pinned: Option<string>, start: nat, n: nat)
    requires |tokens| > 0
    ensures a + RequestsSent(url, params, tokens, pinned, start, n + 1)
            == a + RequestsSent(url, params, tokens, pinned, start, n) + [Request(url, params, Bearer(TokenFor(tokens, pinned, start, n)))]
  {
  }

  /** One step of `Attempts`: a retried attempt hands on to the next, any other ends the run. */
  lemma AttemptsStep(net: nat -> Outcome, k: nat, attempt: nat, maxRetries: int, last: Option<Failure>)
    ensures attempt < maxRetries && !Retryable(Answer(net, k)) ==>
              Attempts(net, k, attempt, maxRetries, last) == Run(Final(Answer(net, k)), attempt + 1)
    ensures attempt < maxRetries && Retryable(Answer(net, k)) ==>
              Attempts(net, k, attempt, maxRetries, last) == Attempts(net, k + 1, attempt + 1, maxRetries, KeptFailure(Answer(net, k), last))
  {
  }

  /** The network's answer to the `k`-th request. */
  function Answer(net: nat -> Outcome, k: nat): Outcome
  {
    net(k)
  }

  /** `base_url.rstrip("/")`. */
  function RightStripSlash(s: string): (r: string)
    ensures |r| <= |s| && r == s[..|r|]
    ensures |r| == 0 || r[|r| - 1] != '/'
    ensures forall i :: |r| <= i < |s| ==> s[i] == '/'
  {
    if |s| > 0 && s[|s| - 1] == '/' then RightStripSlash(s[..|s| - 1]) else s
  }

  // ---------------------------------------------------------------------
  // The cursor pager
  // ---------------------------------------------------------------------

  /** Why the pager stopped without an exception. */
  datatype Stop = PageCap | BadStatus(status: int) | EmptyPage | ItemCap | NoCursor

  /** The exceptions that escape the pager: from `get`, from `resp.json()`, from `data.get` on a value that is not an object. */
  datatype PageFailure = GetFailed(err: GetError) | BodyNotJson | BodyNotObject

  datatype Ending = Stopped(reason: Stop) | Failed(failure: PageFailure)

  /**
   * The pager's loop variables: the items gathered, the page number, the
   * cursor (empty for none) and the first page's total (None until a page
   * has been read).
   */
  datatype Pages = Pages(items: seq<Item>, pagina: int, cursor: seq<string>, first: Option<int>)

  /** Before the first page. */
  const StartPages := Pages([], 1, [], None)

  /** The pager goes on with the next page, or ends. */
  datatype Step = Next(p: Pages) | End(p: Pages, how: Ending)

  /** What stays fixed during one pager run: the network, the client's settings, the directory ("" for none) and the query. */
  datatype PagerEnv = PagerEnv(net: nat -> Outcome, tokens: seq<string>, maxRetries: int, url: string,
                               dir: string, params: Params, maxProcessos: int)

  /** The client's state and the step after reading one page. */
  datatype Took = Took(client: ClientState, step: Step)

  /** The client's state, the files and the step after one pass of the pager's loop. */
  datatype Stepped = Stepped(client: ClientState, files: map<FileKey, Body>, step: Step)

  /** The client's state, the files, the loop variables and the ending after a whole pager run. */
  datatype PagerEnd = PagerEnd(client: ClientState, files: map<FileKey, Body>, pages: Pages, how: Ending)

  /** The query of a page: the base query plus `searchAfter`, the cursor joined with ",", once there is a cursor. */
  function PageParams(params: Params, cursor: seq<string>): (r: Params)
    ensures cursor == [] ==> r == params
    ensures cursor != [] ==> r == params["searchAfter" := Join(cursor, ",")]
  {
    if cursor == [] then params else params["searchAfter" := Join(cursor, ",")]
  }

  /** `_load_page`: the parsed checkpoint of page `n`; none without a directory, without the file, when it does not parse or holds `null`. */
  function Loaded(files: map<FileKey, Body>, dir: string, n: int): Option<Body>
  {
    var k := PageFile(dir, n);
    if dir != "" && k in files && !files[k].NotJson? && !files[k].NullJson? then Some(files[k]) else None
  }

  /** `data.get("totalRegistros", 0)`. */
  function TotalOf(pg: JsonPage): int
  {
    if pg.totalRegistros.None? then 0 else pg.totalRegistros.value
  }

  /** `_load_page`. */
  method LoadPage(disk: Disk, dir: string, n: int) returns (r: Option<Body>)
    ensures r == Loaded(disk.files, dir, n)
  {
    if dir == "" {
      return None;
    }
    r := disk.Load(PageFile(dir, n));
    if r.Some? && r.value.NullJson? {
      r := None;
    }
  }

  /** `_save_page`: writes `page_<n>.json` in the directory, and nothing without one. */
  method SavePage(disk: Disk, dir: string, n: int, data: Body)
    modifies disk
    ensures disk.files == if dir == "" then old(disk.files) else old(disk.files)[PageFile(dir, n) := data]
  {
    if dir != "" {
      disk.Save(PageFile(dir, n), data);
    }
  }

  /**
   * `_extract_search_after`: the page's `searchAfter` when it is non-empty,
   * else the last item's `sort` when there are items; empty for none.
   */
  function ExtractSearchAfter(pg: JsonPage): (r: seq<string>)
    ensures pg.searchAfter != [] ==> r == pg.searchAfter
    ensures pg.searchAfter == [] && pg.content != [] ==> r == pg.content[|pg.content| - 1].sort
    ensures r == [] <==> pg.searchAfter == [] && (pg.content == [] || pg.content[|pg.content| - 1].sort == [])
  {
    if pg.searchAfter != [] then pg.searchAfter
    else if pg.content != [] then pg.content[|pg.content| - 1].sort
    else []
  }

  /**
   * Reading one page's data: the first page read fixes the total; an empty
   * page ends the run; otherwise its items are appended and counted in
   * `pages_ok`, and the run ends at the item cap or when there is no cursor.
   */
  function TakePage(c: ClientState, p: Pages, data: Body, maxProcessos: int): (r: Took)
    ensures r.step.Next? ==> r.step.p.pagina == p.pagina + 1
    ensures r.step.p.items == p.items + (if AsPage(data).Some? then AsPage(data).value.content else [])
    ensures r.step.End? && r.step.how == Stopped(ItemCap) <==> AsPage(data).Some? && AsPage(data).value.content != [] && |r.step.p.items| >= maxProcessos
    ensures r.step.Next? ==> AsPage(data).Some? && |r.step.p.items| < maxProcessos && r.step.p.cursor != [] && r.step.p.cursor == ExtractSearchAfter(AsPage(data).value)
    ensures r.client == c || r.client == c.(stats := c.stats.(pagesOk := c.stats.pagesOk + 1))
  {
    match AsPage(data)
    case None => Took(c, End(p, Failed(BodyNotObject)))
    case Some(pg) =>
      var first := if p.first.None? then Some(TotalOf(pg)) else p.first;
      if pg.content == [] then Took(c, End(p.(first := first), Stopped(EmptyPage)))
      else
        var items := p.items + pg.content;
        var c' := c.(stats := c.stats.(pagesOk := c.stats.pagesOk + 1));
        if |items| >= maxProcessos then Took(c', End(Pages(items, p.pagina, p.cursor, first), Stopped(ItemCap)))
        else
          var cursor := ExtractSearchAfter(pg);
          if cursor == [] then Took(c', End(Pages(items, p.pagina, p.cursor, first), Stopped(NoCursor)))
          else Took(c', Next(Pages(items, p.pagina + 1, cursor, first)))
  }

  /** What fetching a page gives: its data, or the end of the run. */
  datatype Fetched = Got(data: Body) | Halted(how: Ending)

  /** The client's state and the files after fetching a page, and what it gave. */
  datatype Fetch = Fetch(client: ClientState, files: map<FileKey, Body>, got: Fetched)

  /**
   * Fetching page `p.pagina`: the checkpoint when there is one, else a
   * `get` with the page's query, which ends the run unless it answers 200
   * with JSON; that answer is saved as the checkpoint (before it is read)
   * when there is a directory.
   */
  function FetchPage(e: PagerEnv, c: ClientState, files: map<FileKey, Body>, p: Pages): Fetch
    requires |e.tokens| > 0
  {
    var loaded := Loaded(files, e.dir, p.pagina);
    if loaded.Some? then Fetch(c, files, Got(loaded.value))
    else
      var run := GetRun(e.net, c.stats.requests, e.maxRetries);
      var c' := AfterAttempts(c, e.net, e.url, PageParams(e.params, p.cursor), e.tokens, None, run.attempts);
      if run.result.Raised? then Fetch(c', files, Halted(Failed(GetFailed(run.result.err))))
      else if run.result.resp.status != 200 then Fetch(c', files, Halted(Stopped(BadStatus(run.result.resp.status))))
      else if run.result.resp.body.NotJson? then Fetch(c', files, Halted(Failed(BodyNotJson)))
      else
        var body := run.result.resp.body;
        Fetch(c', if e.dir == "" then files else files[PageFile(e.dir, p.pagina) := body], Got(body))
  }

  /** Fetching a page does not depend on the item cap. */
  lemma FetchPageEnv(e: PagerEnv, maxProcessos: int, c: ClientState, files: map<FileKey, Body>, p: Pages)
    requires |e.tokens| > 0
    ensures FetchPage(e.(maxProcessos := maxProcessos), c, files, p) == FetchPage(e.(maxProcessos := 0), c, files, p)
  {
  }

  /** One pass of the pager's loop: fetching the page, then reading it. */
  function PageStep(e: PagerEnv, c: ClientState, files: map<FileKey, Body>, p: Pages): (r: Stepped)
    requires |e.tokens| > 0
    ensures r.step.Next? ==> r.step.p.pagina == p.pagina + 1
  {
    var f := FetchPage(e, c, files, p);
    match f.got
    case Halted(how) => Stepped(f.client, f.files, End(p, how))
    case Got(data) =>
      var t := TakePage(f.client, p, data, e.maxProcessos);
      Stepped(t.client, f.files, t.step)
  }

  /** The pager from loop variables `p` until a page ends it or the page number passes `maxPaginas`. */
  function Pagination(e: PagerEnv, maxPaginas: int, c: ClientState, files: map<FileKey, Body>, p: Pages): PagerEnd
    requires |e.tokens| > 0
    decreases maxPaginas - p.pagina
  {
    if p.pagina > maxPaginas then PagerEnd(c, files, p, Stopped(PageCap))
    else
      var s := PageStep(e, c, files, p);
      match s.step
      case Next(p') => Pagination(e, maxPaginas, s.client, s.files, p')
      case End(p', how) => PagerEnd(s.client, s.files, p', how)
  }

  /**
   * The items of a pager run only grow at the end; the item cap ends the
   * run only when reached, and any other ending leaves the items under the
   * cap unless no page added any.
   */
  lemma {:induction false} PaginationItems(e: PagerEnv, maxPaginas: int, c: ClientState, files: map<FileKey, Body>, p: Pages)
    requires |e.tokens| > 0
    ensures var w := Pagination(e, maxPaginas, c, files, p);
            && p.items <= w.pages.items
            && (w.how == Stopped(ItemCap) ==> |w.pages.items| >= e.maxProcessos)
            && (w.how != Stopped(ItemCap) ==> |w.pages.items| < e.maxProcessos || w.pages.items == p.items)
    decreases maxPaginas - p.pagina
  {
    if p.pagina <= maxPaginas {
      var s := PageStep(e, c, files, p);
      if s.step.Next? {
        PaginationItems(e, maxPaginas, s.client, s.files, s.step.p);
      }
    }
  }

  /**
   * The page number of a pager run only grows, ends past `maxPaginas`
   * exactly when the page cap ended the run and then just past it; the
   * first page's total, once read, stays.
   */
  lemma {:induction false} PaginationPages(e: PagerEnv, maxPaginas: int, c: ClientState, files: map<FileKey, Body>, p: Pages)
    requires |e.tokens| > 0
    ensures var w := Pagination(e, maxPaginas, c, files, p);
            && (p.first.Some? ==> w.pages.first == p.first)
            && p.pagina <= w.pages.pagina
            && (p.pagina <= maxPaginas + 1 ==> w.pages.pagina <= maxPaginas + 1)
            && (w.how == Stopped(PageCap) <==> w.pages.pagina > maxPaginas)
    decreases maxPaginas - p.pagina
  {
    if p.pagina <= maxPaginas {
      var s := PageStep(e, c, files, p);
      if s.step.Next? {
        PaginationPages(e, maxPaginas, s.client, s.files, s.step.p);
      }
    }
  }

  /** A pager run writes only this directory's checkpoints of the pages it visits, and removes no file. */
  lemma {:induction false} PaginationFiles(e: PagerEnv, maxPaginas: int, c: ClientState, files: map<FileKey, Body>, p: Pages)
    requires |e.tokens| > 0
    ensures var w := Pagination(e, maxPaginas, c, files, p);
            && files.Keys <= w.files.Keys
            && forall k :: k in w.files && (k !in files || w.files[k] != files[k]) ==>
                 e.dir != "" && k.PageFile? && k.dir == e.dir && p.pagina <= k.n <= w.pages.pagina
    decreases maxPaginas - p.pagina
  {
    if p.pagina <= maxPaginas {
      var s := PageStep(e, c, files, p);
      PageStepFiles(e, c, files, p);
      if s.step.Next? {
        PaginationFiles(e, maxPaginas, s.client, s.files, s.step.p);
        PaginationPages(e, maxPaginas, s.client, s.files, s.step.p);
      }
    }
  }

  /** One pass of the pager writes at most this directory's checkpoint of its page, and ends on that page. */
  lemma PageStepFiles(e: PagerEnv, c: ClientState, files: map<FileKey, Body>, p: Pages)
    requires |e.tokens| > 0
    ensures var s := PageStep(e, c, files, p);
            && files.Keys <= s.files.Keys
            && (forall k :: k in s.files && (k !in files || s.files[k] != files[k]) ==> e.dir != "" && k == PageFile(e.dir, p.pagina))
            && (s.step.End? ==> s.step.p.pagina == p.pagina)
  {
    var f := FetchPage(e, c, files, p);
    assert f.files == files || (e.dir != "" && f.files == files[PageFile(e.dir, p.pagina) := f.got.data]);
  }

  /** Pages already on disk are read from there: a run over checkpoints only issues no request and writes no file. */
  lemma {:induction false} PaginationFromCheckpoints(e: PagerEnv, maxPaginas: int, c: ClientState, files: map<FileKey, Body>, p: Pages)
    requires |e.tokens| > 0
    requires forall n :: p.pagina <= n <= maxPaginas ==> Loaded(files, e.dir, n).Some?
    ensures var w := Pagination(e, maxPaginas, c, files, p);
            && w.files == files
            && w.client.stats.requests == c.stats.requests && w.client.sent == c.sent
            && w.client.sleeps == c.sleeps && w.client.tokenIdx == c.tokenIdx
    decreases maxPaginas - p.pagina
  {
    if p.pagina <= maxPaginas {
      assert Loaded(files, e.dir, p.pagina).Some?;
      var s := PageStep(e, c, files, p);
      if s.step.Next? {
        PaginationFromCheckpoints(e, maxPaginas, s.client, s.files, s.step.p);
      }
    }
  }

  /** A fetched page is saved only when it came with status 200, and a checkpointed page costs no request. */
  lemma FetchPageSaves(e: PagerEnv, c: ClientState, files: map<FileKey, Body>, p: Pages)
    requires |e.tokens| > 0
    ensures var f := FetchPage(e, c, files, p);
            var run := GetRun(e.net, c.stats.requests, e.maxRetries);
            && (Loaded(files, e.dir, p.pagina).Some? ==> f == Fetch(c, files, Got(Loaded(files, e.dir, p.pagina).value)))
            && (f.files != files ==> e.dir != "" && Loaded(files, e.dir, p.pagina).None? && run.result.Returned?
                                     && run.result.resp.status == 200 && f.files == files[PageFile(e.dir, p.pagina) := run.result.resp.body])
  {
  }

  // ---------------------------------------------------------------------
  // Searches
  // ---------------------------------------------------------------------

  /** What a search returns, or the exception that escapes it. */
  datatype Search<T> = Done(value: T) | Raise(failure: PageFailure)

  /** A document search's result: the items, `total_api`, the page number it ended on, and whether the case is oversized. */
  datatype DocSearch = DocSearch(processos: seq<Item>, totalApi: int, paginas: int, gigante: bool)

  /** The oversized-case threshold on the first page's total (fixed in the code, not taken from the configuration). */
  const GiganteThreshold: int := 5000

  /** The result of a document search from the pager's final variables. */
  function DocReport(p: Pages): DocSearch
  {
    DocSearch(p.items,
              if p.first.None? || p.first.value == 0 then |p.items| else p.first.value,
              p.pagina,
              p.first.Some? && p.first.value > GiganteThreshold)
  }

  /** The document search's query: the document, the court, the page size and, when there is one, the class. */
  function DocParams(documento: string, tribunal: string, maxPorPagina: int, idClasse: string): (r: Params)
    ensures r.Keys == {"cpfCnpjParte", "siglaTribunal", "tamanhoPagina"} + (if idClasse != "" then {"idClasse"} else {})
    ensures r["cpfCnpjParte"] == documento && r["siglaTribunal"] == tribunal && r["tamanhoPagina"] == IntToString(maxPorPagina)
    ensures idClasse != "" ==> r["idClasse"] == idClasse
  {
    var base := map["cpfCnpjParte" := documento, "siglaTribunal" := tribunal, "tamanhoPagina" := IntToString(maxPorPagina)];
    if idClasse != "" then base["idClasse" := idClasse] else base
  }

  /**
   * The totals of a document search whose first page was read: that page's
   * `totalRegistros` (0 when absent) is `total_api`, unless it is 0, when
   * the number of items is; the case is oversized exactly when that total
   * exceeds 5000. When no page could be read, `total_api` is the (empty)
   * item count and the case is not oversized.
   */
  lemma DocSearchTotals(e: PagerEnv, maxPaginas: int, c: ClientState, files: map<FileKey, Body>)
    requires |e.tokens| > 0
    ensures var w := Pagination(e, maxPaginas, c, files, StartPages);
            var f := FetchPage(e, c, files, StartPages);
            var r := DocReport(w.pages);
            if maxPaginas >= 1 && f.got.Got? && AsPage(f.got.data).Some? then
              var total := TotalOf(AsPage(f.got.data).value);
              && w.pages.first == Some(total)
              && (r.gigante <==> total > 5000)
              && r.totalApi == (if total == 0 then |w.pages.items| else total)
            else
              w.pages.first.None? && w.pages.items == [] && r.totalApi == 0 && !r.gigante
  {
    if maxPaginas >= 1 {
      var s := PageStep(e, c, files, StartPages);
      if s.step.Next? {
        PaginationPages(e, maxPaginas, s.client, s.files, s.step.p);
      }
    }
  }

  /** A name search's result: the merged items, their number, and the raw item count of each field. */
  datatype NameSearch = NameSearch(processos: seq<Item>, total: int, origens: map<string, int>)

  /** The name search's query for one field. */
  function NameParams(campo: string, nome: string, tribunal: string, maxPorPagina: int): (r: Params)
    ensures campo != "siglaTribunal" && campo != "tamanhoPagina" ==>
              r.Keys == {campo, "siglaTribunal", "tamanhoPagina"} && r[campo] == nome && r["siglaTribunal"] == tribunal
  {
    map[campo := nome, "siglaTribunal" := tribunal, "tamanhoPagina" := IntToString(maxPorPagina)]
  }

  /** The checkpoint directory of one field: a sub-directory named after it, or none. */
  function NameDir(saveDir: string, campo: string): string
  {
    if saveDir == "" then "" else PathJoin(saveDir, campo)
  }

  /** What a search leaves behind: the client's state, the files, and its result or the exception that escaped. */
  datatype Searched<T> = Searched(client: ClientState, files: map<FileKey, Body>, result: Search<T>)

  /** `buscar_por_documento` from the client's state `c` and the files. */
  function DocSearchRun(e: PagerEnv, maxPaginas: int, c: ClientState, files: map<FileKey, Body>): Searched<DocSearch>
    requires |e.tokens| > 0
  {
    var w := Pagination(e, maxPaginas, c, files, StartPages);
    Searched(w.client, w.files, if w.how.Failed? then Raise(w.how.failure) else Done(DocReport(w.pages)))
  }

  /** `buscar_por_nome`: the first field's pager, then the second's, their items merged. */
  function NameSearchRun(e1: PagerEnv, e2: PagerEnv, maxPaginas: int, c: ClientState, files: map<FileKey, Body>): Searched<NameSearch>
    requires |e1.tokens| > 0 && |e2.tokens| > 0
  {
    var w1 := Pagination(e1, maxPaginas, c, files, StartPages);
    if w1.how.Failed? then Searched(w1.client, w1.files, Raise(w1.how.failure))
    else
      var w2 := Pagination(e2, maxPaginas, w1.client, w1.files, StartPages);
      if w2.how.Failed? then Searched(w2.client, w2.files, Raise(w2.how.failure))
      else
        var merged := Merged(w1.pages.items + w2.pages.items);
        Searched(w2.client, w2.files,
                 Done(NameSearch(merged, |merged|, map["nomeParte" := |w1.pages.items|, "outroNomeParte" := |w2.pages.items|])))
  }

  /** The process numbers of a list of items. */
  function Numbers(xs: seq<Item>): set<string>
  {
    set i | 0 <= i < |xs| :: xs[i].numero
  }

  lemma NumbersAppend(xs: seq<Item>, x: Item)
    ensures Numbers(xs + [x]) == Numbers(xs) + {x.numero}
  {
    var ys := xs + [x];
    assert ys[|xs|] == x;
    forall n | n in Numbers(xs)
      ensures n in Numbers(ys)
    {
      var i :| 0 <= i < |xs| && xs[i].numero == n;
      assert ys[i] == xs[i];
    }
  }

  /** The `resultados` dict's values after the items, in order: the first item seen for each non-empty number. */
  function Merged(items: seq<Item>): seq<Item>
  {
    if items == [] then []
    else
      var m := Merged(items[..|items| - 1]);
      var it := items[|items| - 1];
      if it.numero != "" && it.numero !in Numbers(m) then m + [it] else m
  }

  /** The merge keeps unique, non-empty numbers, and only items from the list. */
  lemma {:induction false} MergedUnique(items: seq<Item>)
    ensures forall i, j :: 0 <= i < j < |Merged(items)| ==> Merged(items)[i].numero != Merged(items)[j].numero
    ensures forall l :: 0 <= l < |Merged(items)| ==> Merged(items)[l].numero != "" && Merged(items)[l] in items
  {
    if items != [] {
      var init := items[..|items| - 1];
      var it := items[|items| - 1];
      var m := Merged(init);
      MergedUnique(init);
      assert forall i, j :: 0 <= i < j < |m| ==> m[i].numero != m[j].numero;
      assert forall l :: 0 <= l < |m| ==> m[l].numero != "" && m[l] in init;
      assert items == init + [it];
      assert forall x :: x in init ==> x in items;
      if it.numero != "" && it.numero !in Numbers(m) {
        var r := m + [it];
        assert Merged(items) == r;
        forall i, j | 0 <= i < j < |r|
          ensures r[i].numero != r[j].numero
        {
          if j == |m| {
            assert r[i] == m[i];
            assert m[i].numero in Numbers(m);
          } else {
            assert r[i] == m[i] && r[j] == m[j];
          }
        }
        forall l | 0 <= l < |r|
          ensures r[l].numero != "" && r[l] in items
        {
          if l < |m| { assert r[l] == m[l]; }
        }
      } else {
        assert Merged(items) == m;
      }
    }
  }

  /**
   * The merge's numbers are those of the items, "" excepted, and the first
   * item seen for each number is the one kept.
   */
  lemma {:induction false} MergedFirst(items: seq<Item>)
    ensures var r := Merged(items);
            && Numbers(r) == Numbers(items) - {""}
            && forall j :: 0 <= j < |items| && items[j].numero != "" && (forall l :: 0 <= l < j ==> items[l].numero != items[j].numero) ==> items[j] in r
  {
    if items != [] {
      var init := items[..|items| - 1];
      var it := items[|items| - 1];
      var m := Merged(init);
      MergedFirst(init);
      assert items == init + [it];
      NumbersAppend(init, it);
      var r := Merged(items);
      if it.numero != "" && it.numero !in Numbers(m) {
        NumbersAppend(m, it);
      }
      forall j | 0 <= j < |items| && items[j].numero != "" && (forall l :: 0 <= l < j ==> items[l].numero != items[j].numero)
        ensures items[j] in r
      {
        if j < |init| {
          assert init[j] == items[j];
          assert forall l :: 0 <= l < j ==> init[l].numero != init[j].numero;
        } else {
          assert it.numero !in Numbers(init);
        }
      }
    }
  }

  /**
   * The merge loop of `buscar_por_nome`: each item with a number not yet in
   * `resultados` (`seen`, whose values are `merged`, in insertion order) is
   * added; `before` are the items merged so far.
   */
  method MergeInto(merged: seq<Item>, seen: set<string>, ghost before: seq<Item>, items: seq<Item>)
    returns (merged': seq<Item>, seen': set<string>)
    requires merged == Merged(before) && seen == Numbers(merged)
    ensures merged' == Merged(before + items) && seen' == Numbers(merged')
  {
    merged', seen' := merged, seen;
    assert before + items[..0] == before;
    for i := 0 to |items|
      invariant merged' == Merged(before + items[..i]) && seen' == Numbers(merged')
    {
      var it := items[i];
      ghost var done := before + items[..i];
      assert before + items[..i + 1] == done + [it];
      assert (done + [it])[..|done|] == done;
      if it.numero != "" && it.numero !in seen' {
        NumbersAppend(merged', it);
        merged', seen' := merged' + [it], seen' + {it.numero};
      }
    }
    assert items[..|items|] == items;
  }

  /** A client from `__init__`'s arguments: none (the `ValueError`) when there is no token. */
  method NewClient(tokens: seq<string>, baseUrl: string, tribunal: string, idClasse: string,
                   maxPorPagina: int, maxRetries: int, net: nat -> Outcome) returns (c: Option<PDPJClient>)
    ensures c.None? <==> |tokens| == 0
    ensures c.Some? ==> fresh(c.value) && c.value.Valid() && c.value.tokens == tokens && c.value.tokenIdx == 0
                        && c.value.stats == Stats(0, 0, 0, 0, 0, 0) && c.value.baseUrl == RightStripSlash(baseUrl)
  {
    if |tokens| == 0 {
      return None;
    }
    var client := new PDPJClient(tokens, baseUrl, tribunal, idClasse, maxPorPagina, maxRetries, net);
    c := Some(client);
  }

  /** The detail download's outcome: the client's state, the files and the data returned (`{}` for none). */
  datatype Detail = Detail(client: ClientState, files: map<FileKey, Body>, data: Body)

  /**
   * `buscar_detalhe_processo`: the saved file when it exists and parses;
   * otherwise `get` on `<base>/<numero>`, where a 404, any other status but
   * 200, a body that is not JSON and any exception give `{}`, and a 200
   * counts in `details_ok` and is saved when there is a path.
   */
  function DetailRun(net: nat -> Outcome, tokens: seq<string>, maxRetries: int, url: string,
                     c: ClientState, files: map<FileKey, Body>, savePath: Option<FileKey>): Detail
    requires |tokens| > 0
  {
    if savePath.Some? && savePath.value in files && !files[savePath.value].NotJson? then Detail(c, files, files[savePath.value])
    else
      var run := GetRun(net, c.stats.requests, maxRetries);
      var c' := AfterAttempts(c, net, url, map[], tokens, None, run.attempts);
      if run.result.Raised? || run.result.resp.status != 200 || run.result.resp.body.NotJson? then Detail(c', files, EmptyJson)
      else
        var body := run.result.resp.body;
        Detail(c'.(stats := c'.stats.(detailsOk := c'.stats.detailsOk + 1)),
               if savePath.Some? then files[savePath.value := body] else files,
               body)
  }

  /**
   * A saved detail costs no request and changes nothing; `details_ok` grows
   * by one exactly when `get` returned a 200 with JSON, which is then the
   * data; the data is `{}` when `get` raised or answered anything else;
   * only the detail's own path is written.
   */
  lemma DetailFacts(net: nat -> Outcome, tokens: seq<string>, maxRetries: int, url: string,
                    c: ClientState, files: map<FileKey, Body>, savePath: Option<FileKey>)
    requires |tokens| > 0
    ensures var d := DetailRun(net, tokens, maxRetries, url, c, files, savePath);
            var cached := savePath.Some? && savePath.value in files && !files[savePath.value].NotJson?;
            var run := GetRun(net, c.stats.requests, maxRetries);
            var fetched := !cached && run.result.Returned? && run.result.resp.status == 200 && !run.result.resp.body.NotJson?;
            && (cached ==> d == Detail(c, files, files[savePath.value]))
            && d.client.stats.detailsOk == c.stats.detailsOk + (if fetched then 1 else 0)
            && (fetched ==> d.data == run.result.resp.body)
            && (!cached && !fetched ==> d.data == EmptyJson && d.files == files)
            && (d.files != files ==> fetched && savePath.Some? && d.files == files[savePath.value := d.data])
  {
    if !(savePath.Some? && savePath.value in files && !files[savePath.value].NotJson?) {
      var run := GetRun(net, c.stats.requests, maxRetries);
      ReplayCounts(c.stats, net, c.stats.requests, run.attempts);
    }
  }
}

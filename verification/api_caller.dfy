/**
 The shared HTTP primitive `apiCaller` (utils.js:37-102): it shapes one
 request, then runs a do-while loop of at most five attempts. A 429 response
 waits 60 seconds and tries again; every other outcome ends the call at once.
 The network is an oracle `server` mapping the attempt index (0-based) to what
 that attempt observed; the 60-second waits are recorded as events.
 */
module ApiCaller {

  import opened Js

  const RetryLimit: nat := 5
  const RateLimitStatus: int := 429
  const UnauthorizedStatus: int := 401
  const RateLimitWaitMs: nat := 60000

  /** The `call` argument: bearer token and body are arbitrary JS values;
      `headers` is the caller's header object (empty when absent). */
  datatype ApiCall = ApiCall(
    verb: string,
    baseUrl: string,
    endpoint: string,
    bearerToken: JsValue,
    body: JsValue,
    headers: map<string, string>)

  /** The body handed to fetch: JSON-serialised, or the value as it is. */
  datatype RequestBody = JsonEncoded(value: JsValue) | Verbatim(value: JsValue)

  datatype Request = Request(verb: string, url: string, headers: map<string, string>, body: RequestBody)

  /** What fetch produced on one attempt: a response with a status and, if the
      body is valid JSON, its value; or a thrown failure. */
  datatype Attempt = Response(status: int, json: Option<JsValue>) | Fault(code: FaultCode)

  datatype FaultCode = EConnReset | OtherFault

  /** How the call ends: the parsed body, the raw response (when `json` is
      false), `undefined` after the attempts ran out, or a thrown error. */
  datatype CallResult = Body(value: JsValue) | Raw(status: int) | Exhausted | Raised(error: Error)

  datatype Event = Send(request: Request) | Sleep(ms: nat)

  datatype Outcome = Outcome(result: CallResult, attempts: nat, trace: seq<Event>)

  /** The effective header map: Content-Type defaults to application/json,
      Authorization is added for a truthy token, Connection is keep-alive, and
      every caller header overrides these defaults. */
  function Headers(token: JsValue, overrides: map<string, string>): (h: map<string, string>)
    ensures h.Keys == {"Content-Type", "Connection"} + overrides.Keys + (if Truthy(token) then {"Authorization"} else {})
    ensures forall name | name in overrides :: h[name] == overrides[name]
    ensures h["Content-Type"] == (if "Content-Type" in overrides then overrides["Content-Type"] else "application/json")
    ensures "Connection" !in overrides ==> h["Connection"] == "keep-alive"
    ensures "Authorization" !in overrides ==>
      ("Authorization" in h <==> Truthy(token))
      && (Truthy(token) ==> h["Authorization"] == "Bearer " + ToText(token))
  {
    var defaults := map["Content-Type" := "application/json"];
    var withAuth := if Truthy(token) then defaults["Authorization" := "Bearer " + ToText(token)] else defaults;
    withAuth["Connection" := "keep-alive"] + overrides
  }

  /** The request every attempt of the call sends. */
  function BuildRequest(call: ApiCall, json: bool): (req: Request)
    ensures req.body.JsonEncoded? <==> json
    ensures req.body.value == call.body
    ensures req.headers == Headers(call.bearerToken, call.headers)
    ensures req.verb == call.verb
  {
    Request(
      call.verb,
      call.baseUrl + call.endpoint,
      Headers(call.bearerToken, call.headers),
      if json then JsonEncoded(call.body) else Verbatim(call.body))
  }

  predicate IsOk(status: int) {
    200 <= status <= 299
  }

  predicate RateLimited(a: Attempt) {
    a.Response? && a.status == RateLimitStatus
  }

  function FaultError(code: FaultCode): Error {
    if code == EConnReset then ConnectionReset else NetworkFailure
  }

  /** The guard of the catch block. Written with `||`, it holds for every
      status, so the catch rethrows whatever it caught. */
  predicate CatchRethrows(responseCode: Option<int>) {
    responseCode != Some(RateLimitStatus) || responseCode != Some(UnauthorizedStatus)
  }

  lemma CatchAlwaysRethrows(responseCode: Option<int>)
    ensures CatchRethrows(responseCode)
  {
  }

  /** The loop condition, evaluated only after a 429 (every other path
      returns or throws first). */
  predicate LoopContinues(responseCode: Option<int>, tryCount: nat) {
    (responseCode == Some(RateLimitStatus) || responseCode == Some(UnauthorizedStatus)) && tryCount < RetryLimit
  }

  /** How an attempt that is not a 429 ends the call: a fault or a non-ok
      status is thrown, an unreadable JSON body is thrown, otherwise the body
      (or the raw response) is returned. */
  function Settle(a: Attempt, json: bool): (r: CallResult)
    requires !RateLimited(a)
    ensures !r.Exhausted?
    ensures r.Raw? ==> !json
    ensures r.Raised? <==> a.Fault? || !IsOk(a.status) || (json && a.json.None?)
    ensures a.Fault? ==> r == Raised(FaultError(a.code))
    ensures a.Response? && !IsOk(a.status) ==> r == Raised(HttpError(a.status))
    ensures a.Response? && IsOk(a.status) && json ==>
      r == (if a.json.Some? then Body(a.json.value) else Raised(SyntaxError))
    ensures a.Response? && IsOk(a.status) && !json ==> r == Raw(a.status)
  {
    match a
    case Fault(code) => Raised(FaultError(code))
    case Response(status, body) =>
      if !IsOk(status) then Raised(HttpError(status))
      else if json then (if body.Some? then Body(body.value) else Raised(SyntaxError))
      else Raw(status)
  }

  /** The call from attempt `k` on, given that attempts before `k` were 429s:
      the result and the total number of attempts made. */
  function CallFrom(server: nat -> Attempt, json: bool, k: nat): (r: (CallResult, nat))
    requires k < RetryLimit
    ensures k < r.1 <= RetryLimit
    ensures forall i | k <= i < r.1 - 1 :: RateLimited(server(i))
    ensures r.0.Exhausted? <==> RateLimited(server(r.1 - 1))
    ensures r.0.Exhausted? ==> r.1 == RetryLimit
    ensures !r.0.Exhausted? ==> r.0 == Settle(server(r.1 - 1), json)
    decreases RetryLimit - k
  {
    if RateLimited(server(k)) then
      if k + 1 < RetryLimit then CallFrom(server, json, k + 1) else (Exhausted, k + 1)
    else
      (Settle(server(k), json), k + 1)
  }

  /** `n` rounds of a request followed by a 60-second wait. */
  function Rounds(req: Request, n: nat): (t: seq<Event>)
    ensures |t| == 2 * n
  {
    if n == 0 then [] else Rounds(req, n - 1) + [Send(req), Sleep(RateLimitWaitMs)]
  }

  lemma {:induction false} RoundsAlternate(req: Request, n: nat)
    ensures forall i | 0 <= i < 2 * n ::
      Rounds(req, n)[i] == (if i % 2 == 0 then Send(req) else Sleep(RateLimitWaitMs))
  {
    if n > 0 {
      RoundsAlternate(req, n - 1);
      var t := Rounds(req, n);
      forall i | 0 <= i < 2 * n
        ensures t[i] == (if i % 2 == 0 then Send(req) else Sleep(RateLimitWaitMs))
      {
        if i < 2 * (n - 1) {
          assert t[i] == Rounds(req, n - 1)[i];
        }
      }
    }
  }

  /** The events of a call that made `attempts` attempts and ended in `result`. */
  function Transcript(req: Request, attempts: nat, result: CallResult): seq<Event>
    requires attempts >= 1
  {
    Rounds(req, attempts - 1) + [Send(req)] + (if result.Exhausted? then [Sleep(RateLimitWaitMs)] else [])
  }

  /** One call of `apiCaller(call, json)` against the server behaviour. */
  function Call(call: ApiCall, json: bool, server: nat -> Attempt): (o: Outcome)
    ensures 1 <= o.attempts <= RetryLimit
    ensures forall i | 0 <= i < o.attempts - 1 :: RateLimited(server(i))
    ensures o.result.Exhausted? <==> forall i | 0 <= i < RetryLimit :: RateLimited(server(i))
    ensures o.result.Exhausted? ==> o.attempts == RetryLimit
    ensures !o.result.Exhausted? ==> !RateLimited(server(o.attempts - 1)) && o.result == Settle(server(o.attempts - 1), json)
  {
    var r := CallFrom(server, json, 0);
    var req := BuildRequest(call, json);
    Outcome(r.0, r.1, Transcript(req, r.1, r.0))
  }

  /** The events of a call alternate between sending the same request and
      waiting 60 seconds: every attempt after the first is preceded by a wait,
      and a wait follows the last attempt only when it was a 429. */
  lemma CallTrace(call: ApiCall, json: bool, server: nat -> Attempt)
    ensures var o := Call(call, json, server);
      && |o.trace| == 2 * o.attempts - (if o.result.Exhausted? then 0 else 1)
      && forall i | 0 <= i < |o.trace| ::
           o.trace[i] == (if i % 2 == 0 then Send(BuildRequest(call, json)) else Sleep(RateLimitWaitMs))
  {
    var o := Call(call, json, server);
    var req := BuildRequest(call, json);
    var head := Rounds(req, o.attempts - 1);
    RoundsAlternate(req, o.attempts - 1);
    forall i | 0 <= i < |o.trace|
      ensures o.trace[i] == (if i % 2 == 0 then Send(req) else Sleep(RateLimitWaitMs))
    {
      if i < |head| {
        assert o.trace[i] == head[i];
      } else {
        assert i == |head| || i == |head| + 1;
      }
    }
  }

  /** The call as a whole once attempt `k` has ended it with `result`. */
  lemma {:induction false} SkipRateLimited(server: nat -> Attempt, json: bool, k: nat)
    requires k < RetryLimit
    requires forall i | 0 <= i < k :: RateLimited(server(i))
    ensures CallFrom(server, json, k) == CallFrom(server, json, 0)
  {
    if k > 0 {
      var prev: nat := k - 1;
      assert RateLimited(server(prev));
      assert CallFrom(server, json, prev) == CallFrom(server, json, k);
      SkipRateLimited(server, json, prev);
    }
  }

  lemma {:induction false} CallEndsWith(call: ApiCall, json: bool, server: nat -> Attempt, k: nat, result: CallResult)
    requires 1 <= k <= RetryLimit
    requires forall i | 0 <= i < k - 1 :: RateLimited(server(i))
    requires CallFrom(server, json, k - 1) == (result, k)
    ensures Call(call, json, server) == Outcome(result, k, Transcript(BuildRequest(call, json), k, result))
  {
    SkipRateLimited(server, json, k - 1);
    var r := CallFrom(server, json, 0);
    assert r.0 == result && r.1 == k;
    assert Call(call, json, server) == Outcome(r.0, r.1, Transcript(BuildRequest(call, json), r.1, r.0));
  }

  /** The do-while loop of utils.js:43-101, with its counter, response code,
      trace and `continue`. A thrown status or unreadable body is recorded as
      the call's result directly, without passing through the catch guard,
      which rethrows everything anyway (CatchAlwaysRethrows). */
  method ApiCallerLoop(call: ApiCall, json: bool, server: nat -> Attempt) returns (o: Outcome)
    ensures o == Call(call, json, server)
  {
    var request := BuildRequest(call, json);
    var responseCode: Option<int> := None;
    var tryCount: nat := 0;
    var trace: seq<Event> := [];
    while true
      invariant tryCount < RetryLimit
      invariant forall i | 0 <= i < tryCount :: RateLimited(server(i))
      invariant trace == Rounds(request, tryCount)
      decreases RetryLimit - tryCount
    {
      tryCount := tryCount + 1;
      trace := trace + [Send(request)];
      var result: CallResult;
      var attempt := server(tryCount - 1);
      if attempt.Fault? {
        // The catch block: the ECONNRESET check only logs, the guard rethrows.
        CatchAlwaysRethrows(responseCode);
        result := Raised(FaultError(attempt.code));
      } else {
        var status := attempt.status;
        var body := attempt.json;
        responseCode := Some(status);
        if status == RateLimitStatus {
          trace := trace + [Sleep(RateLimitWaitMs)];
          if LoopContinues(responseCode, tryCount) {
            assert trace == Rounds(request, tryCount);
            continue;
          }
          result := Exhausted;
        } else if !IsOk(status) {
          result := Raised(HttpError(status));
        } else if json {
          // `return await response.json()` sits inside the try: a body that
          // does not parse is caught and rethrown like any other error.
          result := if body.Some? then Body(body.value) else Raised(SyntaxError);
        } else {
          result := Raw(status);
        }
      }
      assert trace == Transcript(request, tryCount, result);
      CallEndsWith(call, json, server, tryCount, result);
      return Outcome(result, tryCount, trace);
    }
  }

  /** What the awaiting script sees: the value, `undefined` once the attempts
      ran out, or the thrown error. */
  function Await(o: Outcome): (c: Completion)
    requires !o.result.Raw?
    ensures c.Thrown? <==> o.result.Raised?
    ensures o.result.Exhausted? ==> c == Normal(Undefined)
    ensures o.result.Body? ==> c == Normal(o.result.value)
  {
    match o.result
    case Body(v) => Normal(v)
    case Exhausted => Normal(Undefined)
    case Raised(e) => Thrown(e)
  }

  /** Every call the scripts make uses `json = true`, so Await applies. */
  lemma JsonCallNeverRaw(call: ApiCall, server: nat -> Attempt)
    ensures !Call(call, true, server).result.Raw?
  {
  }

  /** The first `k - 1` attempts were rate limited: attempt `k` is made. */
  predicate RateLimitedBefore(server: nat -> Attempt, k: nat) {
    forall i | 0 <= i < k - 1 :: RateLimited(server(i))
  }

  /** After k - 1 rate-limited attempts, attempt k decides the call when it is
      not a 429 itself: the call ends there, after exactly k attempts. */
  lemma {:induction false} EndsAtFirstOther(call: ApiCall, json: bool, server: nat -> Attempt, k: nat)
    requires 1 <= k <= RetryLimit
    requires RateLimitedBefore(server, k)
    requires !RateLimited(server(k - 1))
    ensures Call(call, json, server).attempts == k
    ensures Call(call, json, server).result == Settle(server(k - 1), json)
  {
    var o := Call(call, json, server);
    var last: nat := k - 1;
    var made: nat := o.attempts - 1;
    assert o.result.Exhausted? ==> RateLimited(server(last));
    assert made > last ==> RateLimited(server(last));
    assert made < last ==> RateLimited(server(made));
  }

  /** Attempt k is reached after k rate-limited attempts and answers ok with
      a body that parses. */
  predicate SettlesWithBody(server: nat -> Attempt, k: nat) {
    && RateLimitedBefore(server, k + 1)
    && server(k).Response? && IsOk(server(k).status) && server(k).json.Some?
  }

  /** What a script awaiting `apiCaller(call)` sees, in terms of the server
      alone: a value exactly when all five attempts were 429s or some attempt
      after only 429s answered ok with a parseable body, and that body is
      the value; every other server behaviour makes the await throw. */
  lemma AwaitedCall(call: ApiCall, server: nat -> Attempt)
    ensures var c := Await(Call(call, true, server));
      c.Normal? <==>
        (forall i | 0 <= i < RetryLimit :: RateLimited(server(i)))
        || exists k | 0 <= k < RetryLimit :: SettlesWithBody(server, k)
    ensures forall k | 0 <= k < RetryLimit && SettlesWithBody(server, k) ::
      Await(Call(call, true, server)) == Normal(server(k).json.value)
  {
    var o := Call(call, true, server);
    JsonCallNeverRaw(call, server);
    forall k | 0 <= k < RetryLimit && SettlesWithBody(server, k)
      ensures Await(o) == Normal(server(k).json.value)
    {
      OkReturnsOnThatAttempt(call, server, k + 1, server(k).status, server(k).json);
    }
    if Await(o).Normal? && !o.result.Exhausted? {
      var k: nat := o.attempts - 1;
      assert SettlesWithBody(server, k);
    }
  }

  /** An ok status on attempt k returns after exactly k attempts: the parsed
      body with `json`, the raw response without. */
  lemma OkReturnsOnThatAttempt(call: ApiCall, server: nat -> Attempt, k: nat, status: int, body: Option<JsValue>)
    requires 1 <= k <= RetryLimit
    requires RateLimitedBefore(server, k)
    requires server(k - 1) == Response(status, body) && IsOk(status)
    ensures body.Some? ==> Call(call, true, server).attempts == k && Call(call, true, server).result == Body(body.value)
    ensures Call(call, false, server).attempts == k && Call(call, false, server).result == Raw(status)
  {
    EndsAtFirstOther(call, true, server, k);
    EndsAtFirstOther(call, false, server, k);
  }

  /** Any other non-ok status, 401 included, is thrown on that attempt and no
      further attempt is made. */
  lemma ErrorStatusIsThrown(call: ApiCall, json: bool, server: nat -> Attempt, k: nat, status: int, body: Option<JsValue>)
    requires 1 <= k <= RetryLimit
    requires RateLimitedBefore(server, k)
    requires server(k - 1) == Response(status, body) && !IsOk(status) && status != RateLimitStatus
    ensures Call(call, json, server).attempts == k
    ensures Call(call, json, server).result == Raised(HttpError(status))
  {
    EndsAtFirstOther(call, json, server, k);
  }

  /** A failure thrown inside an attempt, ECONNRESET included, is rethrown at
      once: no further attempt follows it. */
  lemma FaultIsRethrown(call: ApiCall, json: bool, server: nat -> Attempt, k: nat, code: FaultCode)
    requires 1 <= k <= RetryLimit
    requires RateLimitedBefore(server, k)
    requires server(k - 1) == Fault(code)
    ensures Call(call, json, server).attempts == k
    ensures Call(call, json, server).result == Raised(FaultError(code))
  {
    EndsAtFirstOther(call, json, server, k);
  }

  /** A body that is not JSON is thrown as a SyntaxError on that attempt. */
  lemma UnreadableBodyIsThrown(call: ApiCall, server: nat -> Attempt, k: nat, status: int)
    requires 1 <= k <= RetryLimit
    requires RateLimitedBefore(server, k)
    requires server(k - 1) == Response(status, None) && IsOk(status)
    ensures Call(call, true, server).attempts == k
    ensures Call(call, true, server).result == Raised(SyntaxError)
  {
    EndsAtFirstOther(call, true, server, k);
  }

  /** Three 429s and then a 200: the 200's body, after four attempts and
      three waits. */
  lemma ThreeRateLimitsThenOk(call: ApiCall, body: JsValue)
    ensures var server := (i: nat) => if i < 3 then Response(RateLimitStatus, None) else Response(200, Some(body));
      var o := Call(call, true, server);
      o.attempts == 4 && o.result == Body(body) && |o.trace| == 7
      && o.trace[1] == o.trace[3] == o.trace[5] == Sleep(RateLimitWaitMs)
  {
    var server := (i: nat) => if i < 3 then Response(RateLimitStatus, None) else Response(200, Some(body));
    OkReturnsOnThatAttempt(call, server, 4, 200, Some(body));
    CallTrace(call, true, server);
  }

  /** Five 429s end the loop: `undefined` is returned, nothing is thrown and
      no sixth attempt is made; each of the five responses was followed by a
      wait. */
  lemma FiveRateLimitsReturnUndefined(call: ApiCall, server: nat -> Attempt)
    requires forall i | 0 <= i < RetryLimit :: RateLimited(server(i))
    ensures Call(call, true, server).attempts == RetryLimit
    ensures Await(Call(call, true, server)) == Normal(Undefined)
    ensures |Call(call, true, server).trace| == 2 * RetryLimit
    ensures forall i | 0 <= i < RetryLimit ::
      && Call(call, true, server).trace[2 * i] == Send(BuildRequest(call, true))
      && Call(call, true, server).trace[2 * i + 1] == Sleep(RateLimitWaitMs)
  {
    CallTrace(call, true, server);
  }
}

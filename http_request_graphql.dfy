/** lib/HttpRequestGraphQL.php: the GraphQL POST, its throttle check and the
    bounded retry loop around it.

    The statics are shared with HttpRequestJson: `$httpHeaders` is the
    parent's, so the GraphQL state object refers to the JSON one. The
    transport is a script: the i-th POST of one `post` call returns
    `answers(i)` (CurlRequest's output, or the CurlException it threw).
    Sleeping is recorded as the list of waits slept, in seconds. */
module GraphQLRequest {
  import opened Php
  import opened Headers
  import opened JsonRequest

  const MAX_RETRIES: nat := 3
  const ACCESS_TOKEN := "X-Shopify-Access-Token"
  const APPLICATION_GRAPHQL := "application/graphql"
  const THROTTLED := "THROTTLED"
  const NOT_A_STRING := "Only GraphQL string is allowed!"
  const NO_ACCESS_TOKEN := "The GraphQL Admin API requires an access token for making authenticated requests!"

  // ---------------------------------------------------------------------------
  // waitForThrottle

  /** What `foreach ($response['errors'] as $error)` visits: the items of a
      list; for a decoded object, one value per distinct key, the key's last
      one; nothing for anything else (PHP skips it with a warning). */
  function ErrorEntries(errors: Value): (r: seq<Value>)
    ensures errors.Assoc? ==> forall e :: e in r <==> LookedUp(errors.entries, e)
  {
    match errors
    case List(items) => items
    case Assoc(entries) => ObjectValuesAreLookups(entries); ObjectValues(entries)
    case _ => []
  }

  /** `$error['extensions']['code'] == 'THROTTLED'`: true only for the string
      THROTTLED or `true`; reading a key from a string entry or from string
      `extensions` throws TypeError. */
  function IsThrottledError(error: Value): (r: Result<bool>)
    ensures r.Err? <==> error.Str? || (Member(error, "extensions").Some? && Member(error, "extensions").value.Str?)
    ensures r.Err? ==> r.failure == TypeError
    ensures r == Ok(true) <==>
      Offset(Member(error, "extensions"), "code") in {Some(Str(THROTTLED)), Some(Bool(true))}
  {
    var code := ReadIn(Read(error, "extensions"), "code");
    if code.Err? then Err(code.failure) else Ok(LooseEqualsText(ValueOr(code.value), THROTTLED))
  }

  /** The `foreach` loop: the flag is set by a throttled entry and never
      reset; an entry that throws ends the loop with its TypeError. */
  function ScanThrottled(errors: seq<Value>, throttled: bool): (r: Result<bool>)
    ensures r.Err? ==> r.failure == TypeError
    ensures r.Ok? && throttled ==> r.value
  {
    if |errors| == 0 then Ok(throttled)
    else
      match IsThrottledError(errors[0])
      case Err(f) => Err(f)
      case Ok(t) => ScanThrottled(errors[1..], throttled || t)
  }

  /** The errors of a response, as the `foreach` visits them. */
  function ErrorsOf(response: Value): seq<Value> {
    ErrorEntries(ValueOr(Member(response, "errors")))
  }

  /** Some error entry cannot be read as an array (PHP 8 throws). */
  predicate Unreadable(response: Value) {
    exists e :: e in ErrorsOf(response) && IsThrottledError(e).Err?
  }

  /** The response reports throttling: some error entry has code THROTTLED. */
  predicate Throttled(response: Value) {
    exists e :: e in ErrorsOf(response) && IsThrottledError(e) == Ok(true)
  }

  /** The scan throws exactly when some entry is unreadable; otherwise it ends
      with the flag set exactly when it started set or some entry is
      throttled. */
  lemma {:induction false} ScanThrottledFindsAny(errors: seq<Value>, throttled: bool)
    ensures ScanThrottled(errors, throttled).Err? <==> exists e :: e in errors && IsThrottledError(e).Err?
    ensures ScanThrottled(errors, throttled).Ok? ==>
      (ScanThrottled(errors, throttled).value <==> throttled || exists e :: e in errors && IsThrottledError(e) == Ok(true))
    decreases |errors|
  {
    if |errors| > 0 {
      assert errors == [errors[0]] + errors[1..];
      var head := IsThrottledError(errors[0]);
      if head.Ok? {
        ScanThrottledFindsAny(errors[1..], throttled || head.value);
      }
    }
  }

  /** The order of the error entries does not matter. */
  lemma ScanThrottledIgnoresOrder(a: seq<Value>, b: seq<Value>)
    requires multiset(a) == multiset(b)
    ensures ScanThrottled(a, false) == ScanThrottled(b, false)
  {
    ScanThrottledFindsAny(a, false);
    ScanThrottledFindsAny(b, false);
    forall e
      ensures e in a <==> e in b
    {
      assert e in a <==> e in multiset(a);
      assert e in b <==> e in multiset(b);
    }
  }

  /** `$response['extensions']['cost']`, read under `isset`. */
  function CostOf(response: Value): Option<Value> {
    Offset(Member(response, "extensions"), "cost")
  }

  /** An operand of the cost expression: a throwing read throws, otherwise
      PHP's arithmetic conversion applies. */
  function Operand(read: Result<Option<Value>>): Result<real> {
    if read.Err? then Err(read.failure) else ToNumber(read.value)
  }

  /** `$cost['requestedQueryCost']`, `$cost['throttleStatus']['currentlyAvailable']`
      and `$cost['throttleStatus']['restoreRate']` as numbers: missing fields
      count as 0; a string cost block or status, or a non-number operand,
      throws TypeError. */
  function CostFields(cost: Value): Result<(real, real, real)> {
    var status := Read(cost, "throttleStatus");
    var requested := Operand(Read(cost, "requestedQueryCost"));
    var available := Operand(ReadIn(status, "currentlyAvailable"));
    var rate := Operand(ReadIn(status, "restoreRate"));
    if requested.Err? || available.Err? || rate.Err? then Err(TypeError)
    else Ok((requested.value, available.value, rate.value))
  }

  /** `($cost['requestedQueryCost'] - $cost['throttleStatus']['currentlyAvailable'])
      / $cost['throttleStatus']['restoreRate']`: a zero rate throws
      DivisionByZeroError. No rounding, no clamping. */
  function CostWait(cost: Value): (r: Result<real>)
    ensures cost.Str? ==> r == Err(TypeError)
    ensures r.Err? ==> r.failure == TypeError || r.failure == DivisionByZeroError
  {
    match CostFields(cost)
    case Err(f) => Err(f)
    case Ok((requested, available, rate)) =>
      if rate == 0.0 then Err(DivisionByZeroError) else Ok((requested - available) / rate)
  }

  /** The wait is a quotient: times the restore rate it gives back the cost
      still missing; it throws DivisionByZeroError exactly when the fields are
      numbers and the rate is zero. */
  lemma CostWaitQuotient(cost: Value)
    ensures CostWait(cost) == Err(DivisionByZeroError) <==> CostFields(cost).Ok? && CostFields(cost).value.2 == 0.0
    ensures CostWait(cost).Ok? ==>
      && CostFields(cost).Ok?
      && var (requested, available, rate) := CostFields(cost).value;
         rate != 0.0 && CostWait(cost).value * rate == requested - available
  {
    if CostFields(cost).Ok? {
      var (requested, available, rate) := CostFields(cost).value;
      if rate != 0.0 {
        var w := (requested - available) / rate;
        assert w * rate == requested - available;
      }
    }
  }

  /** `waitForThrottle`: the seconds to wait before retrying. The `array`
      parameter type rejects anything but an array. */
  function WaitForThrottle(response: Value): (r: Result<real>)
    ensures !IsArray(response) ==> r == Err(TypeError)
    ensures r.Err? ==> r.failure == TypeError || r.failure == DivisionByZeroError
  {
    if !IsArray(response) then Err(TypeError)
    else if !Isset(Member(response, "errors")) then Ok(0.0)
    else
      match ScanThrottled(ErrorEntries(Member(response, "errors").value), false)
      case Err(f) => Err(f)
      case Ok(throttled) =>
        if !throttled then Ok(0.0)
        else if !Isset(CostOf(response)) then Ok(0.0)
        else CostWait(CostOf(response).value)
  }

  /** What `waitForThrottle` decides: a response without errors needs no wait;
      an error entry it cannot read throws TypeError; without a throttled
      error or without a cost block there is no wait; otherwise the wait is
      what the cost block says. */
  lemma WaitForThrottleCases(response: Value)
    ensures !IsArray(response) ==> WaitForThrottle(response) == Err(TypeError)
    ensures IsArray(response) && !Isset(Member(response, "errors")) ==> WaitForThrottle(response) == Ok(0.0)
    ensures IsArray(response) && Unreadable(response) ==> WaitForThrottle(response) == Err(TypeError)
    ensures IsArray(response) && !Unreadable(response) && !Throttled(response) ==> WaitForThrottle(response) == Ok(0.0)
    ensures IsArray(response) && !Unreadable(response) && Throttled(response) && !Isset(CostOf(response)) ==>
              WaitForThrottle(response) == Ok(0.0)
    ensures IsArray(response) && !Unreadable(response) && Throttled(response) && Isset(CostOf(response)) ==>
              WaitForThrottle(response) == CostWait(CostOf(response).value)
  {
    if IsArray(response) && Isset(Member(response, "errors")) {
      ScanThrottledFindsAny(ErrorEntries(Member(response, "errors").value), false);
    }
  }

  /** A throttled response with numeric cost fields and a non-zero restore
      rate waits exactly (requested - available) / rate seconds; with a
      positive rate the wait is negative when more is available than
      requested, and zero exactly when the two are equal. */
  lemma ThrottledWaitIsQuotient(response: Value, requested: real, available: real, rate: real)
    requires IsArray(response) && !Unreadable(response) && Throttled(response) && Isset(CostOf(response))
    requires Member(CostOf(response).value, "requestedQueryCost") == Some(Num(requested))
    requires Offset(Member(CostOf(response).value, "throttleStatus"), "currentlyAvailable") == Some(Num(available))
    requires Offset(Member(CostOf(response).value, "throttleStatus"), "restoreRate") == Some(Num(rate))
    requires rate != 0.0
    ensures WaitForThrottle(response) == Ok((requested - available) / rate)
    ensures WaitForThrottle(response).value * rate == requested - available
    ensures rate > 0.0 ==> (WaitForThrottle(response).value < 0.0 <==> available > requested)
    ensures rate > 0.0 ==> (WaitForThrottle(response).value == 0.0 <==> available == requested)
  {
    var cost := CostOf(response).value;
    WaitForThrottleCases(response);
    assert WaitForThrottle(response) == CostWait(cost);
    var status := Member(cost, "throttleStatus");
    assert Operand(Read(cost, "requestedQueryCost")) == Ok(requested);
    assert Operand(ReadIn(Read(cost, "throttleStatus"), "currentlyAvailable")) == Ok(available);
    assert Operand(ReadIn(Read(cost, "throttleStatus"), "restoreRate")) == Ok(rate);
    assert CostFields(cost) == Ok((requested, available, rate));
    if rate > 0.0 {
      QuotientSign(requested - available, rate);
    }
  }

  lemma QuotientSign(a: real, rate: real)
    requires rate > 0.0
    ensures a / rate < 0.0 <==> a < 0.0
    ensures a / rate == 0.0 <==> a == 0.0
  {
  }

  /** The throttled response of the project's own test: 507 requested, 493
      available, restored at 50 per second. */
  const TEST_ERROR: Value :=
    Assoc([
      ("message", Str("Throttled")),
      ("extensions", Assoc([
        ("code", Str("THROTTLED")),
        ("documentation", Str("https://help.shopify.com/api/graphql-admin-api/graphql-admin-api-rate-limits"))]))])
  const TEST_STATUS: Value :=
    Assoc([("maximumAvailable", Num(1000.0)), ("currentlyAvailable", Num(493.0)), ("restoreRate", Num(50.0))])
  const TEST_COST: Value :=
    Assoc([("requestedQueryCost", Num(507.0)), ("actualQueryCost", Null), ("throttleStatus", TEST_STATUS)])
  const TEST_RESPONSE: Value :=
    Assoc([("errors", List([TEST_ERROR])), ("extensions", Assoc([("cost", TEST_COST)]))])

  /** The test's expected wait: (507 - 493) / 50 = 0.28 seconds. */
  lemma TestResponseWaits()
    ensures WaitForThrottle(TEST_RESPONSE) == Ok(0.28)
  {
    assert Member(TEST_ERROR, "extensions") == Some(TEST_ERROR.entries[1].1);
    assert IsThrottledError(TEST_ERROR) == Ok(true);
    var top := TEST_RESPONSE.entries;
    assert top[1].0 != "errors" by { assert |top[1].0| != |"errors"|; }
    assert EntryOf(top, "errors") == EntryOf(top[..1], "errors");
    assert Member(TEST_RESPONSE, "errors") == Some(List([TEST_ERROR]));
    assert Throttled(TEST_RESPONSE) by {
      assert TEST_ERROR in ErrorEntries(List([TEST_ERROR]));
    }
    assert Member(TEST_RESPONSE, "extensions") == Some(Assoc([("cost", TEST_COST)]));
    assert CostOf(TEST_RESPONSE) == Some(TEST_COST);
    var cost := TEST_COST.entries;
    assert cost[2].0 != "requestedQueryCost" by { assert |cost[2].0| != |"requestedQueryCost"|; }
    assert cost[1].0 != "requestedQueryCost" by { assert |cost[1].0| != |"requestedQueryCost"|; }
    assert EntryOf(cost, "requestedQueryCost") == EntryOf(cost[..2], "requestedQueryCost");
    assert cost[..2][..1] == cost[..1];
    assert EntryOf(cost[..2], "requestedQueryCost") == EntryOf(cost[..1], "requestedQueryCost");
    assert Member(TEST_COST, "requestedQueryCost") == Some(Num(507.0));
    assert Member(TEST_COST, "throttleStatus") == Some(TEST_STATUS);
    assert Member(TEST_STATUS, "currentlyAvailable") == Some(Num(493.0));
    assert Member(TEST_STATUS, "restoreRate") == Some(Num(50.0));
    ThrottledWaitIsQuotient(TEST_RESPONSE, 507.0, 493.0, 50.0);
  }

  /** A key repeated in the decoded `errors` object keeps only its last
      value: a throttled entry overwritten by `null` is never visited, so
      there is no wait. */
  lemma OverwrittenErrorIsNotSeen()
    ensures WaitForThrottle(Assoc([("errors", Assoc([("a", TEST_ERROR), ("a", Null)])),
                                   ("extensions", Assoc([("cost", TEST_COST)]))])) == Ok(0.0)
  {
    var errors := Assoc([("a", TEST_ERROR), ("a", Null)]);
    var response := Assoc([("errors", errors), ("extensions", Assoc([("cost", TEST_COST)]))]);
    var top := response.entries;
    assert top[1].0 != "errors" by { assert |top[1].0| != |"errors"|; }
    assert EntryOf(top, "errors") == EntryOf(top[..1], "errors");
    assert Member(response, "errors") == Some(errors);
    assert WithoutKey(errors.entries[1..], "a") == [];
    assert EntryOf(errors.entries, "a") == Some(Null);
    assert ObjectValues(errors.entries) == [Null] + ObjectValues([]);
    assert ErrorEntries(errors) == [Null];
    assert ScanThrottled([Null], false) == Ok(false);
  }

  /** A string among the errors cannot be indexed: PHP 8 throws TypeError. */
  lemma StringErrorThrows()
    ensures WaitForThrottle(Assoc([("errors", List([Str("oops")]))])) == Err(TypeError)
  {
    var response := Assoc([("errors", List([Str("oops")]))]);
    assert Member(response, "errors") == Some(List([Str("oops")]));
    assert ScanThrottled([Str("oops")], false) == Err(TypeError);
  }

  // ---------------------------------------------------------------------------
  // prepareRequest and post

  /** The body `prepareRequest` stores: the JSON envelope when `variables` is
      an array, the raw query otherwise. */
  function PreparedBody(query: string, variables: Value, encode: Value -> string): string {
    if IsArray(variables) then encode(Assoc([("query", Str(query)), ("variables", variables)]))
    else query
  }

  /** The envelope carries the query and the variables: when `json_decode`
      gives back the envelope `json_encode` made of it, the decoded body has
      the query under `query` and the variables under `variables`. Without
      variables the body is the raw query. */
  lemma PreparedBodyCarriesQuery(query: string, variables: Value, encode: Value -> string, decode: string -> Value)
    requires decode(encode(Assoc([("query", Str(query)), ("variables", variables)])))
          == Assoc([("query", Str(query)), ("variables", variables)])
    ensures IsArray(variables) ==>
      && Member(decode(PreparedBody(query, variables, encode)), "query") == Some(Str(query))
      && Member(decode(PreparedBody(query, variables, encode)), "variables") == Some(variables)
    ensures !IsArray(variables) ==> PreparedBody(query, variables, encode) == query
  {
    if IsArray(variables) {
      var envelope := [("query", Str(query)), ("variables", variables)];
      assert decode(encode(Assoc(envelope))) == Assoc(envelope);
      assert envelope[1].0 != "query" by { assert |envelope[1].0| != |"query"|; }
      assert envelope[..1] == [("query", Str(query))];
      assert EntryOf(envelope, "query") == EntryOf(envelope[..1], "query");
      assert Member(Assoc(envelope), "query") == Some(Str(query));
    }
  }

  /** The headers `prepareRequest` stores: the caller's, with the content type
      chosen by whether `variables` is an array. */
  function PreparedGraphQLHeaders(httpHeaders: HeaderMap, variables: Value): (h: HeaderMap)
    ensures Lookup(h, CONTENT_TYPE) == Some(if IsArray(variables) then APPLICATION_JSON else APPLICATION_GRAPHQL)
    ensures forall k :: k != CONTENT_TYPE ==> Lookup(h, k) == Lookup(httpHeaders, k)
    ensures |h| >= |httpHeaders|
    ensures forall i :: 0 <= i < |httpHeaders| && httpHeaders[i].0 != CONTENT_TYPE ==> h[i] == httpHeaders[i]
  {
    Set(httpHeaders, CONTENT_TYPE, if IsArray(variables) then APPLICATION_JSON else APPLICATION_GRAPHQL)
  }

  /** What one pass of the retry loop observes: the exception the transport
      or `waitForThrottle` threw, or the decoded response and its wait. */
  datatype Attempt = Raised(failure: Failure) | Answered(response: Value, wait: real)

  /** `usleep($wait * 1E6)`: the pause in whole microseconds. */
  function PauseMicros(wait: real): int {
    TruncateToInt(wait * 1000000.0)
  }

  /** The attempt was answered with a non-zero wait, and that wait was slept,
      in microseconds. */
  predicate SleptAfter(attempt: Attempt, slept: nat) {
    attempt.Answered? && attempt.wait != 0.0 && PauseMicros(attempt.wait) == slept
  }

  /** Why the retry loop stopped after `posts` POSTs and `slept` pauses, and
      what `post` then returns: an exception passes through; a zero wait
      returns the response; a wait of less than minus one microsecond makes
      `usleep` throw; any other wait is slept, and the still-throttled
      response is returned only once MAX_RETRIES POSTs are spent. */
  predicate Stopped(last: Attempt, r: Result<Value>, posts: nat, slept: nat) {
    match last
    case Raised(f) => r == Err(f) && slept + 1 == posts
    case Answered(response, wait) =>
      if wait == 0.0 then r == Ok(response) && slept + 1 == posts
      else if PauseMicros(wait) < 0 then r == Err(ValueError) && slept + 1 == posts
      else r == Ok(response) && slept == posts == MAX_RETRIES
  }

  function AttemptOf(answer: Result<string>, decode: string -> Value): Attempt {
    match answer
    case Err(f) => Raised(f)
    case Ok(output) =>
      var response := decode(output);
      match WaitForThrottle(response)
      case Err(f) => Raised(f)
      case Ok(w) => Answered(response, w)
  }

  /** What the retry loop guarantees: between one and MAX_RETRIES POSTs,
      all of the same request; every POST but the last was answered with a
      non-zero wait, slept in full; and the loop stopped as `Stopped` says. */
  ghost predicate Retried(request: Call, decode: string -> Value, answers: nat -> Result<string>,
                          r: Result<Value>, sent: seq<Call>, sleeps: seq<nat>) {
    && 1 <= |sent| <= MAX_RETRIES
    && (forall i :: 0 <= i < |sent| ==> sent[i] == request)
    && |sleeps| <= |sent|
    && (forall i :: 0 <= i < |sleeps| ==> SleptAfter(AttemptOf(answers(i), decode), sleeps[i]))
    && Stopped(AttemptOf(answers(|sent| - 1), decode), r, |sent|, |sleeps|)
  }

  /** The loop of `post`: POST, decode, compute the wait; stop at an
      exception or a zero wait, otherwise sleep the wait and retry, at most
      MAX_RETRIES times; return the last decoded response. */
  method Retry(request: Call, decode: string -> Value, answers: nat -> Result<string>)
    returns (r: Result<Value>, sent: seq<Call>, sleeps: seq<nat>)
    ensures 1 <= |sent| <= MAX_RETRIES
    ensures forall i :: 0 <= i < |sent| ==> sent[i] == request
    ensures |sleeps| <= |sent|
    ensures forall i :: 0 <= i < |sleeps| ==> SleptAfter(AttemptOf(answers(i), decode), sleeps[i])
    ensures Stopped(AttemptOf(answers(|sent| - 1), decode), r, |sent|, |sleeps|)
  {
    sent, sleeps := [], [];
    var response: Value := Null;
    ghost var lastWait := 0.0;
    var retries: nat := 0;
    while retries < MAX_RETRIES
      invariant retries <= MAX_RETRIES && |sent| == retries && |sleeps| == retries
      invariant forall i :: 0 <= i < retries ==> sent[i] == request
      invariant forall i :: 0 <= i < retries ==> SleptAfter(AttemptOf(answers(i), decode), sleeps[i])
      invariant retries > 0 ==> AttemptOf(answers(retries - 1), decode) == Answered(response, lastWait)
    {
      sent := sent + [request];
      var answer := answers(retries);
      if answer.Err? {
        return Err(answer.failure), sent, sleeps;
      }
      response := decode(answer.value);
      var wait := WaitForThrottle(response);
      if wait.Err? {
        return Err(wait.failure), sent, sleeps;
      }
      if wait.value == 0.0 {
        assert Stopped(AttemptOf(answers(retries), decode), Ok(response), |sent|, |sleeps|);
        break;
      }
      var micros := PauseMicros(wait.value);
      if micros < 0 {
        return Err(ValueError), sent, sleeps;
      }
      sleeps := sleeps + [micros];
      lastWait := wait.value;
      retries := retries + 1;
    }
    r := Ok(response);
  }

  /** The GraphQL statics; `json` holds the shared `$httpHeaders`. */
  class HttpRequestGraphQL {
    var postDataGraphQL: string
    const json: HttpRequestJson

    constructor (json: HttpRequestJson)
      ensures this.json == json && postDataGraphQL == ""
    {
      this.json := json;
      postDataGraphQL := "";
    }

    /** `prepareRequest`: rejects a non-string query first, then a missing
        access token (after storing the query, before touching the
        headers); otherwise stores the body and headers. */
    method PrepareRequest(httpHeaders: HeaderMap, data: Value, variables: Value, encode: Value -> string)
      returns (r: Result<()>)
      modifies this, json
      ensures json.postDataJson == old(json.postDataJson)
      ensures !data.Str? ==>
        && r == Err(SdkException(NOT_A_STRING))
        && postDataGraphQL == old(postDataGraphQL) && json.httpHeaders == old(json.httpHeaders)
      ensures data.Str? && !HasKey(httpHeaders, ACCESS_TOKEN) ==>
        && r == Err(SdkException(NO_ACCESS_TOKEN))
        && postDataGraphQL == data.s && json.httpHeaders == old(json.httpHeaders)
      ensures data.Str? && HasKey(httpHeaders, ACCESS_TOKEN) ==>
        && r == Ok(())
        && postDataGraphQL == PreparedBody(data.s, variables, encode)
        && json.httpHeaders == PreparedGraphQLHeaders(httpHeaders, variables)
    {
      if data.Str? {
        postDataGraphQL := data.s;
      } else {
        return Err(SdkException(NOT_A_STRING));
      }

      if !HasKey(httpHeaders, ACCESS_TOKEN) {
        return Err(SdkException(NO_ACCESS_TOKEN));
      }

      json.httpHeaders := httpHeaders;

      if IsArray(variables) {
        postDataGraphQL := encode(Assoc([("query", data), ("variables", variables)]));
        json.httpHeaders := Set(json.httpHeaders, CONTENT_TYPE, APPLICATION_JSON);
      } else {
        json.httpHeaders := Set(json.httpHeaders, CONTENT_TYPE, APPLICATION_GRAPHQL);
      }
      r := Ok(());
    }

    /** `post`: prepares the request, then runs the retry loop on it. A
        rejected query or a missing token throws before anything is sent. */
    method Post(url: string, data: Value, httpHeaders: HeaderMap, variables: Value,
                encode: Value -> string, decode: string -> Value, answers: nat -> Result<string>)
      returns (r: Result<Value>, sent: seq<Call>, sleeps: seq<nat>)
      modifies this, json
      ensures json.postDataJson == old(json.postDataJson)
      ensures !data.Str? ==>
        && r == Err(SdkException(NOT_A_STRING)) && sent == [] && sleeps == []
        && postDataGraphQL == old(postDataGraphQL) && json.httpHeaders == old(json.httpHeaders)
      ensures data.Str? && !HasKey(httpHeaders, ACCESS_TOKEN) ==>
        && r == Err(SdkException(NO_ACCESS_TOKEN)) && sent == [] && sleeps == []
        && postDataGraphQL == data.s && json.httpHeaders == old(json.httpHeaders)
      ensures data.Str? && HasKey(httpHeaders, ACCESS_TOKEN) ==>
        && postDataGraphQL == PreparedBody(data.s, variables, encode)
        && json.httpHeaders == PreparedGraphQLHeaders(httpHeaders, variables)
        && Retried(Call(POST, url, Some(postDataGraphQL), json.httpHeaders), decode, answers, r, sent, sleeps)
    {
      var prepared := PrepareRequest(httpHeaders, data, variables, encode);
      if prepared.Err? {
        return Err(prepared.failure), [], [];
      }
      r, sent, sleeps := Retry(Call(POST, url, Some(postDataGraphQL), json.httpHeaders), decode, answers);
    }
  }
}

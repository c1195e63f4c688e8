/** `publishFile.py` around the payload: the retry settings read from `global.ini`, one
    attempt to publish (a fresh token, the bearer header, the request and the reading of the
    reply), the retry decorator that repeats the attempt on server errors with a growing
    delay, and the start-up check that drops a token saved for another user. */
module Publish {
  import opened Wrappers
  import opened Text
  import opened Json
  import opened Exceptions
  import opened IniFile
  import opened RdpToken

  const RetryConfigSection := "RETRY_CONFIG"

  /** The texts `configparser` holds for the defaults given to its constructor. */
  const DefaultRetryLimit := "3"
  const DefaultRetryDelay := "1"
  const DefaultRetryBackoff := "2"

  const PublishFailed := "Failed to publish file"

  /** The arguments of the retry decorator. */
  datatype RetryPolicy = RetryPolicy(tries: int, delay: int, backoff: int)

  // ---------------------------------------------------------------------------------------
  // Retry settings
  // ---------------------------------------------------------------------------------------

  /** `config.get(RETRY_CONFIG, name)`: the option when the section has it, the default
      otherwise. */
  function RetryOption(sec: Section, name: string, default: string): string {
    match GetOption(sec, name)
    case Some(v) => v
    case None => default
  }

  /** `int()` of a retry option. */
  function RetryNumber(text: string): Result<int, Fault> {
    match ParseInt(text)
    case Some(n) => Success(n)
    case None => Failure(BadIntLiteral(text))
  }

  /** The three module constants: a missing `[RETRY_CONFIG]` section raises even though the
      options have defaults, and each value goes through `int()`. */
  function RetrySettings(config: Config): (r: Result<RetryPolicy, Fault>)
    ensures r.Success? ==> RetryConfigSection in config
    ensures r.Failure? ==> r.error == NoSectionFound(RetryConfigSection) || r.error.BadIntLiteral?
  {
    if RetryConfigSection !in config then Failure(NoSectionFound(RetryConfigSection))
    else
      var sec := config[RetryConfigSection];
      var limit :- RetryNumber(RetryOption(sec, "RETRY_LIMIT", DefaultRetryLimit));
      var delay :- RetryNumber(RetryOption(sec, "RETRY_DELAY", DefaultRetryDelay));
      var backoff :- RetryNumber(RetryOption(sec, "RETRY_BACKOFF", DefaultRetryBackoff));
      Success(RetryPolicy(limit, delay, backoff))
  }

  /** The settings come from the section's options, each in place of its default; they are
      read exactly when the section exists and every value is an integer. */
  lemma RetrySettingsValues(config: Config)
    ensures var r := RetrySettings(config);
      (RetryConfigSection !in config ==> r == Failure(NoSectionFound(RetryConfigSection))) &&
      (RetryConfigSection in config ==>
        var sec := config[RetryConfigSection];
        var limit := ParseInt(RetryOption(sec, "RETRY_LIMIT", DefaultRetryLimit));
        var delay := ParseInt(RetryOption(sec, "RETRY_DELAY", DefaultRetryDelay));
        var backoff := ParseInt(RetryOption(sec, "RETRY_BACKOFF", DefaultRetryBackoff));
        (r.Success? <==> limit.Some? && delay.Some? && backoff.Some?) &&
        (r.Success? ==> r.value == RetryPolicy(limit.value, delay.value, backoff.value)))
  {
  }

  /** An empty `[RETRY_CONFIG]` section gives three tries, one second, doubling. */
  lemma DefaultRetrySettings(config: Config)
    requires RetryConfigSection in config && config[RetryConfigSection] == []
    ensures RetrySettings(config) == Success(RetryPolicy(3, 1, 2))
  {
    ParseDigits(DefaultRetryLimit);
    ParseDigits(DefaultRetryDelay);
    ParseDigits(DefaultRetryBackoff);
    assert DefaultRetryLimit[..0] == [];
  }

  // ---------------------------------------------------------------------------------------
  // One attempt
  // ---------------------------------------------------------------------------------------

  /** `print_json_format` gets through a value: it is a dict, and its `error` entry, if any,
      is a dict too. */
  predicate Printable(v: Json) {
    v.JObj? && forall i :: 0 <= i < |v.fields| && v.fields[i].0 == "error" ==> v.fields[i].1.JObj?
  }

  /** What `publish_file` raises for a reply. A 201 is parsed and printed and then falls
      through to the error branch, so it ends in `CFSInvalidInputException` too, unless
      parsing or printing fails first; in the two error branches the exception raised in
      `finally` replaces any parse or print failure. */
  function ClassifyPublishReply(payload: Json, reply: HttpReply): (e: Error)
    ensures e.CFSServer? <==> reply.status == 429 || reply.status >= 500
    ensures e.Builtin? || e.CFSServer? || e.CFSInvalidInput?
    ensures e.Builtin? ==> reply.status == 201
    ensures (e.CFSServer? || e.CFSInvalidInput?) ==> e.payload == payload && e.result == Some(reply.text)
  {
    if reply.status == 201 && reply.body.None? then Builtin(NotJson)
    else if reply.status == 201 && !Printable(reply.body.value) then Builtin(NoItems)
    else if reply.status == 429 || reply.status >= 500 then CFSServer(PublishFailed, payload, Some(reply.text))
    else CFSInvalidInput(PublishFailed, payload, Some(reply.text))
  }

  /** The reply classes: server errors (429 and every status from 500 on) are the only ones
      retried, every other reply, a 201 included, is an invalid-input error unless a 201's
      body cannot be parsed or printed; both exceptions carry the payload and the reply text. */
  lemma ClassifyPublishReplyCases(payload: Json, reply: HttpReply)
    ensures var e := ClassifyPublishReply(payload, reply);
      (e.CFSServer? <==> reply.status == 429 || reply.status >= 500) &&
      (e.CFSInvalidInput? <==>
        (reply.status == 201 && reply.body.Some? && Printable(reply.body.value)) ||
        (reply.status != 201 && reply.status != 429 && reply.status < 500)) &&
      (e.Builtin? <==> reply.status == 201 && (reply.body.None? || !Printable(reply.body.value))) &&
      ((e.CFSServer? || e.CFSInvalidInput?) ==>
        e.detail == PublishFailed && e.payload == payload && e.result == Some(reply.text))
  {
  }

  /** The request headers for a token. */
  function BearerHeaders(token: Json): Dict {
    [("Authorization", JStr("Bearer " + Str(token))), ("Content-Type", JStr("application/json"))]
  }

  /** One call of `publish_file(payload)`: a token from `getToken`, one request, and the
      exception the reply calls for; the function never returns normally. */
  function PublishAttemptEffect(env: Env, s: State, payload: Json): (State, Error) {
    var (s1, token) := GetTokenEffect(env, s);
    if token.Failure? then (s1, token.error)
    else
      var reply := env.publishServer(s1.publishes);
      (s1.(publishes := s1.publishes + 1, trace := s1.trace + [PublishRequested(BearerHeaders(token.value), payload)]),
       ClassifyPublishReply(payload, reply))
  }

  /** Each attempt fetches the token anew and sends exactly one request, with that token in
      the bearer header, unless fetching the token fails; a server error always comes from a
      request that was sent. */
  lemma PublishAttemptRequest(env: Env, s: State, payload: Json)
    ensures var (s', e) := PublishAttemptEffect(env, s, payload); var (st, token) := GetTokenEffect(env, s);
      (token.Success? ==>
        s'.publishes == st.publishes + 1 &&
        s'.trace == st.trace + [PublishRequested(BearerHeaders(token.value), payload)] &&
        Get(BearerHeaders(token.value), "Authorization") == Some(JStr("Bearer " + Str(token.value))) &&
        e == ClassifyPublishReply(payload, env.publishServer(st.publishes))) &&
      (token.Failure? ==> s' == st && e == token.error && !e.CFSServer?) &&
      (e.CFSServer? ==> s'.publishes == s.publishes + 1)
  {
    GetTokenKeepsPublishes(env, s);
    GetTokenNeverServerError(env, s);
  }

  /** `getToken` sends no publish request. */
  lemma GetTokenKeepsPublishes(env: Env, s: State)
    ensures GetTokenEffect(env, s).0.publishes == s.publishes
  {
    var stored := StoredToken(s);
    LoadCredentialsFrame(env, s);
    if stored == JNull || (!CachedTokenValid(s) && Subscript(stored, "expiry_tm").Success? &&
                           GreaterThan(Subscript(stored, "expiry_tm").value, s.clock).Success?) {
      var fetched := FetchTokenEffect(env, s, stored);
      assert GetTokenEffect(env, s) == SaveAndReturnEffect(env, fetched);
      FetchKeepsPublishes(env, s, stored);
      if fetched.1.Success? {
        SaveKeepsPublishes(env, fetched.0, fetched.1.value);
      }
    }
  }

  lemma FetchKeepsPublishes(env: Env, s: State, stored: Json)
    ensures FetchTokenEffect(env, s, stored).0.publishes == s.publishes
  {
    LoadCredentialsFrame(env, s);
    var refresh := Subscript(stored, "refresh_token");
    if stored != JNull && refresh.Success? {
      var (s1, r1) := RequestNewTokenEffect(env, s, refresh.value);
      LoadCredentialsFrame(env, s1);
    }
  }

  lemma SaveKeepsPublishes(env: Env, s: State, tkn: Json)
    ensures SaveTokenEffect(env, s, tkn).0.publishes == s.publishes
  {
    if SaveTokenEffect(env, s, tkn).1.Success? {
      var record := SaveTokenEffect(env, s, tkn).1.value;
      LoadCredentialsFrame(env, s.(tokenFile := Holds(record), trace := s.trace + [TokenFileTruncated, TokenFileWritten(record)]));
    }
  }

  /** `getToken` raises its own errors and built-in ones, never a server error. */
  lemma GetTokenNeverServerError(env: Env, s: State)
    ensures var r := GetTokenEffect(env, s).1; r.Failure? ==> r.error.Raised? || r.error.Builtin?
  {
  }

  // ---------------------------------------------------------------------------------------
  // The retry decorator
  // ---------------------------------------------------------------------------------------

  /** `@retry(CFSServerException, tries, delay, backoff)` around a call that always raises:
      a server error with tries left is followed by a sleep of the current delay, which is
      then multiplied by the backoff; the last server error, and any other error at once,
      propagates; with no tries at all the wrapper returns `None` without calling. `None`
      here is that return, `Some(e)` the exception that escapes. */
  function Retry(attempt: State -> (State, Error), s: State, tries: nat, delay: int, backoff: int): (State, Option<Error>)
    decreases tries
  {
    if tries == 0 then (s, None)
    else
      var (s1, e) := attempt(s);
      if !e.CFSServer? || tries == 1 then (s1, Some(e))
      else if delay < 0 then (s1, Some(Builtin(NegativeSleep)))
      else Retry(attempt, AfterSleep(s1, delay), tries - 1, delay * backoff, backoff)
  }

  /** `publish_file` on a payload, as the function the decorator wraps. */
  function PublishAttempt(env: Env, payload: Json): State -> (State, Error) {
    st => PublishAttemptEffect(env, st, payload)
  }

  /** `publish_file(payload)` as decorated. */
  function RetryEffect(env: Env, s: State, payload: Json, tries: nat, delay: int, backoff: int): (State, Option<Error>) {
    Retry(PublishAttempt(env, payload), s, tries, delay, backoff)
  }

  /** The sleeps of a retry: those that come right after a publish request. */
  function RetrySleeps(trace: seq<Event>): seq<int>
    decreases |trace|
  {
    if |trace| < 2 then []
    else
      var last := trace[|trace| - 1];
      RetrySleeps(trace[..|trace| - 1]) +
      (if last.Slept? && trace[|trace| - 2].PublishRequested? then [last.seconds] else [])
  }

  /** `delay`, `delay * backoff`, ... : the first `n` delays of the schedule. */
  function Geometric(delay: int, backoff: int, n: nat): (r: seq<int>)
    ensures |r| == n
    decreases n
  {
    if n == 0 then [] else [delay] + Geometric(delay * backoff, backoff, n - 1)
  }

  function Power(b: int, k: nat): int {
    if k == 0 then 1 else b * Power(b, k - 1)
  }

  /** The `k`-th delay of the schedule is `delay * backoff^k`. */
  lemma {:induction false} GeometricTerms(delay: int, backoff: int, n: nat, k: nat)
    requires k < n
    ensures Geometric(delay, backoff, n)[k] == delay * Power(backoff, k)
    decreases n
  {
    if k > 0 {
      GeometricTerms(delay * backoff, backoff, n - 1, k - 1);
      assert delay * backoff * Power(backoff, k - 1) == delay * (backoff * Power(backoff, k - 1));
    }
  }

  lemma {:induction false} RetrySleepsAppend(a: seq<Event>, b: seq<Event>)
    requires b != [] ==> !b[0].Slept?
    ensures RetrySleeps(a + b) == RetrySleeps(a) + RetrySleeps(b)
    decreases |b|
  {
    if b == [] {
      assert a + b == a;
    } else if |b| == 1 {
      if |a| >= 1 {
        assert (a + b)[..|a + b| - 1] == a;
      } else {
        assert a + b == b;
      }
    } else {
      RetrySleepsAppend(a, b[..|b| - 1]);
      assert (a + b)[..|a + b| - 1] == a + b[..|b| - 1];
      assert b[..|b| - 1][..|b| - 2] == b[..|b| - 2];
    }
  }

  lemma {:induction false} NoPublishNoRetrySleeps(t: seq<Event>)
    requires forall i :: 0 <= i < |t| ==> !t[i].PublishRequested?
    ensures RetrySleeps(t) == []
    decreases |t|
  {
    if |t| >= 2 {
      NoPublishNoRetrySleeps(t[..|t| - 1]);
    }
  }

  /** The last event of a trace is a publish request. */
  predicate EndsWithRequest(t: seq<Event>) {
    t != [] && t[|t| - 1].PublishRequested?
  }

  /** What the retry count needs of one attempt: it sends at most one request, and one when
      it raises a server error. */
  predicate AttemptCount(st: State, out: (State, Error)) {
    st.publishes <= out.0.publishes <= st.publishes + 1 &&
    (out.1.CFSServer? ==> out.0.publishes == st.publishes + 1)
  }

  /** What the sleep schedule needs of one attempt: it adds no retry sleep, and a server
      error comes right after its request. */
  predicate AttemptSleeps(st: State, out: (State, Error)) {
    (out.1.CFSServer? ==> EndsWithRequest(out.0.trace)) &&
    RetrySleeps(out.0.trace) == RetrySleeps(st.trace)
  }

  /** One call of `publish_file` is such an attempt, from any state. */
  lemma AttemptTrace(env: Env, s: State, payload: Json)
    ensures AttemptCount(s, PublishAttemptEffect(env, s, payload))
    ensures AttemptSleeps(s, PublishAttemptEffect(env, s, payload))
  {
    var (st, token) := GetTokenEffect(env, s);
    GetTokenAddsTokenEvents(env, s);
    PublishAttemptRequest(env, s, payload);
    GetTokenKeepsPublishes(env, s);
    var added := st.trace[|s.trace|..];
    assert st.trace == s.trace + added;
    NoPublishNoRetrySleeps(added);
    RetrySleepsAppend(s.trace, added);
    if token.Success? {
      var request := PublishRequested(BearerHeaders(token.value), payload);
      RetrySleepsAppend(st.trace, [request]);
      assert RetrySleeps([request]) == [];
      assert (st.trace + [request])[..|s.trace|] == s.trace;
      assert |added| == 0 ==> (st.trace + [request])[|s.trace|] == request;
      assert |added| > 0 ==> (st.trace + [request])[|s.trace|] == added[0];
    }
  }

  lemma PublishAttempts(env: Env, payload: Json)
    ensures forall st :: AttemptCount(st, PublishAttemptEffect(env, st, payload))
    ensures forall st :: AttemptSleeps(st, PublishAttemptEffect(env, st, payload))
  {
    forall st ensures AttemptCount(st, PublishAttemptEffect(env, st, payload)) && AttemptSleeps(st, PublishAttemptEffect(env, st, payload)) {
      AttemptTrace(env, st, payload);
    }
  }

  /** With at least one try the decorated call always raises; with none it returns `None`
      and does nothing. At most one request is sent per try. */
  lemma {:induction false} RetryOutcome(attempt: State -> (State, Error), s: State, tries: nat, delay: int, backoff: int)
    requires forall st {:trigger AttemptCount(st, attempt(st))} :: AttemptCount(st, attempt(st))
    ensures var (s', r) := Retry(attempt, s, tries, delay, backoff);
      (r.None? <==> tries == 0) && (tries == 0 ==> s' == s) &&
      s.publishes <= s'.publishes <= s.publishes + tries &&
      (r.Some? && r.value.CFSServer? ==> s'.publishes == s.publishes + tries)
    decreases tries
  {
    if tries > 0 {
      var (s1, e) := attempt(s);
      assert AttemptCount(s, attempt(s));
      if e.CFSServer? && tries > 1 && delay >= 0 {
        var s2 := AfterSleep(s1, delay);
        assert Retry(attempt, s, tries, delay, backoff) == Retry(attempt, s2, tries - 1, delay * backoff, backoff);
        RetryOutcome(attempt, s2, tries - 1, delay * backoff, backoff);
      }
    }
  }

  /** A server error escapes only after every try was used, with the sleeps `delay`,
      `delay * backoff`, `delay * backoff^2`, ... between the tries. */
  lemma {:induction false} RetryExhausted(attempt: State -> (State, Error), s: State, tries: nat, delay: int, backoff: int)
    requires forall st {:trigger AttemptSleeps(st, attempt(st))} :: AttemptSleeps(st, attempt(st))
    requires var r := Retry(attempt, s, tries, delay, backoff).1; r.Some? && r.value.CFSServer?
    ensures var (s', r) := Retry(attempt, s, tries, delay, backoff);
      tries >= 1 && RetrySleeps(s'.trace) == RetrySleeps(s.trace) + Geometric(delay, backoff, tries - 1)
    decreases tries
  {
    var (s1, e) := attempt(s);
    assert AttemptSleeps(s, attempt(s));
    assert tries >= 1 && e.CFSServer?;
    if tries == 1 {
      assert Retry(attempt, s, tries, delay, backoff) == (s1, Some(e));
    } else {
      assert delay >= 0;
      var s2 := AfterSleep(s1, delay);
      assert Retry(attempt, s, tries, delay, backoff) == Retry(attempt, s2, tries - 1, delay * backoff, backoff);
      RetryExhausted(attempt, s2, tries - 1, delay * backoff, backoff);
      SleepAfterRequest(s1.trace, delay);
      var rest := Geometric(delay * backoff, backoff, tries - 2);
      assert Geometric(delay, backoff, tries - 1) == [delay] + rest;
      assert RetrySleeps(s.trace) + [delay] + rest == RetrySleeps(s.trace) + ([delay] + rest);
    }
  }

  /** A sleep right after a request is a retry sleep. */
  lemma SleepAfterRequest(t: seq<Event>, seconds: int)
    requires EndsWithRequest(t)
    ensures RetrySleeps(t + [Slept(seconds)]) == RetrySleeps(t) + [seconds]
  {
    assert (t + [Slept(seconds)])[..|t|] == t;
  }

  /** After a server error and the sleep, the decorator goes on as if called afresh with one
      try less and the grown delay. */
  lemma RetryResume(attempt: State -> (State, Error), s: State, tries: nat, delay: int, backoff: int,
                    out: (State, Error), now: State)
    requires tries > 1 && attempt(s) == out && out.1.CFSServer? && delay >= 0
    requires now == AfterSleep(out.0, delay)
    ensures Retry(attempt, now, tries - 1, delay * backoff, backoff) == Retry(attempt, s, tries, delay, backoff)
  {
  }

  /** One round of the decorator, given what the attempt did. */
  lemma RetryRound(attempt: State -> (State, Error), s: State, tries: nat, delay: int, backoff: int, out: (State, Error))
    requires tries >= 1 && attempt(s) == out
    ensures Retry(attempt, s, tries, delay, backoff) ==
      if !out.1.CFSServer? || tries == 1 then (out.0, Some(out.1))
      else if delay < 0 then (out.0, Some(Builtin(NegativeSleep)))
      else Retry(attempt, AfterSleep(out.0, delay), tries - 1, delay * backoff, backoff)
  {
  }

  /** Decorated `publish_file`: it raises whenever it is given a try, sends at most one
      request per try, and a server error escapes only after a request on every try with the
      geometric sleeps between them. */
  lemma RetryPublish(env: Env, s: State, payload: Json, tries: nat, delay: int, backoff: int)
    ensures var (s', r) := RetryEffect(env, s, payload, tries, delay, backoff);
      (r.None? <==> tries == 0) && s.publishes <= s'.publishes <= s.publishes + tries &&
      (r.Some? && r.value.CFSServer? ==>
        s'.publishes == s.publishes + tries &&
        RetrySleeps(s'.trace) == RetrySleeps(s.trace) + Geometric(delay, backoff, tries - 1))
  {
    var attempt := PublishAttempt(env, payload);
    PublishAttempts(env, payload);
    assert forall st :: AttemptCount(st, attempt(st)) && AttemptSleeps(st, attempt(st));
    RetryOutcome(attempt, s, tries, delay, backoff);
    if Retry(attempt, s, tries, delay, backoff).1.Some? && Retry(attempt, s, tries, delay, backoff).1.value.CFSServer? {
      RetryExhausted(attempt, s, tries, delay, backoff);
    }
  }

  /** Any other error ends the retry at once: it is raised by the first attempt, after at
      most one request. */
  lemma RetryStopsOnOtherError(env: Env, s: State, payload: Json, tries: nat, delay: int, backoff: int)
    requires tries >= 1
    requires !PublishAttemptEffect(env, s, payload).1.CFSServer?
    ensures RetryEffect(env, s, payload, tries, delay, backoff) ==
      (PublishAttemptEffect(env, s, payload).0, Some(PublishAttemptEffect(env, s, payload).1))
    ensures RetryEffect(env, s, payload, tries, delay, backoff).0.publishes <= s.publishes + 1
  {
    AttemptTrace(env, s, payload);
  }

  /** With the default settings a server error escapes after three requests and the sleeps
      of one and two seconds between them. */
  lemma DefaultSchedule(env: Env, s: State, payload: Json, config: Config)
    requires RetryConfigSection in config && config[RetryConfigSection] == []
    requires var r := RetryEffect(env, s, payload, 3, 1, 2).1; r.Some? && r.value.CFSServer?
    ensures RetrySettings(config) == Success(RetryPolicy(3, 1, 2))
    ensures var s' := RetryEffect(env, s, payload, 3, 1, 2).0;
      s'.publishes == s.publishes + 3 && RetrySleeps(s'.trace) == RetrySleeps(s.trace) + [1, 2]
  {
    DefaultRetrySettings(config);
    RetryPublish(env, s, payload, 3, 1, 2);
    assert Geometric(1, 2, 2) == [1, 2];
  }

  // ---------------------------------------------------------------------------------------
  // The stale-token check at start-up
  // ---------------------------------------------------------------------------------------

  /** `load_current_user()`: the `username` of the marker file, `None` (`JNull`) when the
      file is missing, does not parse, or has no such key. */
  function LoadCurrentUser(userFile: FileContent): (user: Json)
    ensures user != JNull ==> userFile.Holds? && userFile.content.JObj? && Get(userFile.content.fields, "username") == Some(user)
    ensures userFile.Holds? && userFile.content.JObj? && Has(userFile.content.fields, "username") ==>
      Some(user) == Get(userFile.content.fields, "username")
  {
    if userFile.Holds? && Subscript(userFile.content, "username").Success? then
      Subscript(userFile.content, "username").value
    else JNull
  }

  /** The saved token belongs to someone else: no user is recorded, a blank one is, or one
      that differs from the configured user name. */
  predicate StaleUser(user: Json, name: string): (stale: bool)
    ensures user == JNull ==> stale
    ensures user.JStr? ==> (!stale <==> user.s == name && exists i :: 0 <= i < |name| && !IsSpace(name[i]))
  {
    StripBlank(Str(user));
    user == JNull || Strip(Str(user)) == "" || Str(user) != name
  }

  /** The check at start-up: credentials are loaded, and a token file saved for another user
      is removed. */
  function StaleCheckEffect(env: Env, s: State): State {
    var s1 := LoadCredentials(env, s);
    if StaleUser(LoadCurrentUser(s1.userFile), s1.username) && s1.tokenFile != Missing then
      s1.(tokenFile := Missing, trace := s1.trace + [TokenFileRemoved])
    else s1
  }

  /** The marker a successful save writes keeps the token at the next start-up exactly when
      the configured user name is not blank. */
  lemma SavedUserNotStale(env: Env, s: State, tkn: Json)
    requires SaveTokenEffect(env, s, tkn).1.Success?
    ensures var s' := SaveTokenEffect(env, s, tkn).0;
      StaleCheckEffect(env, s') == s' <==> Strip(s'.username) != ""
  {
    var s' := SaveTokenEffect(env, s, tkn).0;
    SaveThenLoad(env, s, tkn);
    GetAt([("username", JStr(s'.username))], 0);
  }

  /** The check removes the token file exactly when the recorded user is stale and the file
      exists; nothing but the credentials, the token file and the trace changes. */
  lemma StaleCheckRemoves(env: Env, s: State)
    ensures var s' := StaleCheckEffect(env, s); var c := LoadCredentials(env, s);
      (s'.tokenFile == Missing <==> StaleUser(LoadCurrentUser(s.userFile), c.username) || s.tokenFile == Missing) &&
      (s'.tokenFile != Missing ==> s'.tokenFile == s.tokenFile) &&
      s'.userFile == s.userFile && s'.clock == s.clock && s'.grants == s.grants &&
      s'.publishes == s.publishes && s'.username == c.username
  {
    LoadCredentialsFrame(env, s);
  }

  /** After the check removed a stale token, the next `getToken` asks for a password grant
      with the configured credentials and for nothing else. */
  lemma StaleTokenForcesPasswordGrant(env: Env, s: State)
    requires StaleUser(LoadCurrentUser(s.userFile), LoadCredentials(env, s).username)
    ensures var s1 := StaleCheckEffect(env, s); var (s', r) := GetTokenEffect(env, s1);
      var c := LoadCredentials(env, s);
      StoredToken(s1) == JNull && s'.grants == s1.grants + 1 &&
      GrantBodies(s'.trace) == GrantBodies(s1.trace) + [PasswordBody(c.username, c.password)]
  {
    var s1 := StaleCheckEffect(env, s);
    LoadCredentialsFrame(env, s);
    NoStoredTokenPasswordGrant(env, s1);
    LoadCredentialsIdempotent(env, s, s1);
  }

  // ---------------------------------------------------------------------------------------
  // The methods
  // ---------------------------------------------------------------------------------------

  /** `publish_file(payload)`, undecorated. */
  method PublishFile(session: Session, payload: Json) returns (e: Error)
    modifies session
    ensures (session.Snapshot(), e) == PublishAttemptEffect(session.env, old(session.Snapshot()), payload)
  {
    var token := session.GetToken();
    if token.Failure? {
      return token.error;
    }
    e := SendPublish(session, token.value, payload);
  }

  /** The part of `publish_file` after the token is in hand: one request with the bearer
      header, then the reply is classified. */
  method SendPublish(session: Session, token: Json, payload: Json) returns (e: Error)
    modifies session
    ensures session.Snapshot() == old(session.Snapshot()).(publishes := old(session.publishes) + 1,
      trace := old(session.trace) + [PublishRequested(BearerHeaders(token), payload)])
    ensures e == ClassifyPublishReply(payload, session.env.publishServer(old(session.publishes)))
  {
    var headers := BearerHeaders(token);
    var reply := session.env.publishServer(session.publishes);
    session.publishes := session.publishes + 1;
    session.trace := session.trace + [PublishRequested(headers, payload)];
    if reply.status == 201 {
      if reply.body.None? {
        return Builtin(NotJson);
      }
      if !Printable(reply.body.value) {
        return Builtin(NoItems);
      }
    }
    if reply.status == 429 || reply.status >= 500 {
      return CFSServer(PublishFailed, payload, Some(reply.text));
    }
    return CFSInvalidInput(PublishFailed, payload, Some(reply.text));
  }

  /** One round of the decorator: an attempt, and the sleep before the next one when the
      attempt raised a server error and tries are left. `done` says the decorated call has
      ended, with `r` as its outcome. */
  method PublishRound(session: Session, payload: Json, tries: nat, delay: int, backoff: int)
    returns (done: bool, r: Option<Error>)
    requires tries >= 1
    modifies session
    ensures var goal := RetryEffect(session.env, old(session.Snapshot()), payload, tries, delay, backoff);
      if done then (session.Snapshot(), r) == goal
      else tries > 1 && RetryEffect(session.env, session.Snapshot(), payload, tries - 1, delay * backoff, backoff) == goal
  {
    ghost var attempt := PublishAttempt(session.env, payload);
    ghost var before := session.Snapshot();
    var e := PublishFile(session, payload);
    RetryRound(attempt, before, tries, delay, backoff, (session.Snapshot(), e));
    if !e.CFSServer? || tries == 1 {
      return true, Some(e);
    }
    ghost var after := session.Snapshot();
    var err := session.Sleep(delay);
    if err.Some? {
      return true, err;
    }
    RetryResume(attempt, before, tries, delay, backoff, (after, e), session.Snapshot());
    return false, None;
  }

  /** `publish_file(payload)` as the decorator runs it. */
  method PublishWithRetry(session: Session, payload: Json, tries: int, delay: int, backoff: int)
    returns (r: Option<Error>)
    requires tries >= 0
    modifies session
    ensures (session.Snapshot(), r) == RetryEffect(session.env, old(session.Snapshot()), payload, tries, delay, backoff)
  {
    var left: nat := tries;
    var wait := delay;
    while left != 0
      invariant RetryEffect(session.env, session.Snapshot(), payload, left, wait, backoff) ==
        RetryEffect(session.env, old(session.Snapshot()), payload, tries, delay, backoff)
      decreases left
    {
      var done;
      done, r := PublishRound(session, payload, left, wait, backoff);
      if done {
        return;
      }
      left := left - 1;
      wait := wait * backoff;
    }
    return None;
  }

  /** The start-up check. */
  method RemoveStaleToken(session: Session)
    modifies session
    ensures session.Snapshot() == StaleCheckEffect(session.env, old(session.Snapshot()))
  {
    var name := session.LoadCredentialsFromFile();
    var user := LoadCurrentUser(session.userFile);
    if StaleUser(user, name) && session.tokenFile != Missing {
      session.tokenFile := Missing;
      session.trace := session.trace + [TokenFileRemoved];
    }
  }
}

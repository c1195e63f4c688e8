/** The OAuth token cache of `rdpToken.py`: credentials read from `global.ini` into module
    globals, a token record kept in `token.txt` with its expiry time, refresh and password
    grants against the token endpoint, and the `current_user.json` marker written beside
    the token. Files, the clock and the token server are the session's environment; every
    request, sleep and file write is appended to an event trace. */
module RdpToken {
  import opened Wrappers
  import opened Text
  import opened Json
  import opened Exceptions
  import opened IniFile

  /** The placeholder credentials the module globals start with. */
  const DefaultUsername := "---YOUR PROVIDED RDP MACHINE ID---"
  const DefaultPassword := "---YOUR PASSWORD---"
  const DefaultClientId := "---YOUR GENERATED CLIENT ID---"

  const ClientSecret := ""
  const Scope := "trapi"
  const CredentialsSection := "RDP"

  /** Seconds slept after a token request the server refused. */
  const CooldownSeconds := 5

  /** Seconds taken off `expires_in` when the expiry time is stored. */
  const ExpiryMargin := 10

  /** What a JSON file holds as far as `json.load` is concerned: no file, a file that does
      not parse (an emptied one included), or a value. */
  datatype FileContent = Missing | Unreadable | Holds(content: Json)

  /** A reply of a server: the status code, the body text and what `json.loads` makes of
      the text (`None` when it raises). */
  datatype HttpReply = HttpReply(status: int, text: string, body: Option<Json>)

  /** What the session does to the world, in order. */
  datatype Event =
    | GrantRequested(clientId: string, clientSecret: string, body: Dict)
    | Slept(seconds: int)
    | TokenFileTruncated
    | TokenFileWritten(record: Json)
    | UserFileWritten(record: Json)
    | TokenFileRemoved
    | PublishRequested(headers: Dict, payload: Json)

  /** What the session cannot change: the parsed `global.ini`, and the replies of the token
      endpoint and of the publish endpoint, by the number of requests made before. */
  datatype Env = Env(credentials: Config, tokenServer: nat -> HttpReply, publishServer: nat -> HttpReply)

  /** The credential globals, the two files, the clock, the request counters and the trace. */
  datatype State = State(
    username: string,
    password: string,
    clientId: string,
    tokenFile: FileContent,
    userFile: FileContent,
    clock: int,
    grants: nat,
    publishes: nat,
    trace: seq<Event>)

  // ---------------------------------------------------------------------------------------
  // The steps, as functions of the state
  // ---------------------------------------------------------------------------------------

  /** `_loadCredentialsFromFile()`: the three globals are overwritten one at a time from
      `[RDP]`; the first missing section or option ends the copy and is swallowed. */
  function LoadCredentials(env: Env, s: State): State {
    match GetSection(env.credentials, CredentialsSection)
    case Failure(_) => s
    case Success(rdp) =>
      match GetOption(rdp, "username")
      case None => s
      case Some(u) =>
        var s1 := s.(username := u);
        match GetOption(rdp, "password")
        case None => s1
        case Some(p) =>
          var s2 := s1.(password := p);
          match GetOption(rdp, "clientId")
          case None => s2
          case Some(c) => s2.(clientId := c)
  }

  /** The body of a password grant. */
  function PasswordBody(username: string, password: string): Dict {
    [("username", JStr(username)), ("password", JStr(password)), ("grant_type", JStr("password")),
     ("scope", JStr(Scope)), ("takeExclusiveSignOnControl", JStr("true"))]
  }

  /** The body of a refresh grant. */
  function RefreshBody(refreshToken: Json): Dict {
    [("refresh_token", refreshToken), ("grant_type", JStr("refresh_token"))]
  }

  /** The grant `_requestNewToken` asks for: a password grant when there is no refresh token. */
  function GrantBody(refreshToken: Json, username: string, password: string): (body: Dict)
    ensures refreshToken != JNull ==> Get(body, "refresh_token") == Some(refreshToken)
    ensures refreshToken == JNull ==>
      Get(body, "username") == Some(JStr(username)) && Get(body, "password") == Some(JStr(password))
  {
    if refreshToken == JNull then PasswordBody(username, password) else RefreshBody(refreshToken)
  }

  function GrantFailureMessage(reply: HttpReply): string {
    "Failed to get access token " + IntToString(reply.status) + " - " + reply.text
  }

  /** How `_requestNewToken` reads the token endpoint's reply: an `invalid_grant` refusal is
      `None` (`JNull`), any other status but 200 raises, and a 200 is the parsed body. */
  function GrantOutcome(reply: HttpReply): (r: Result<Json, Error>)
    ensures r.Success? ==> reply.status == 200 || reply.status == 400
    ensures r.Failure? && r.error.Raised? <==> reply.status != 200 && !(reply.status == 400 && Contains(reply.text, "invalid_grant"))
  {
    if reply.status == 400 && Contains(reply.text, "invalid_grant") then Success(JNull)
    else if reply.status != 200 then Failure(Raised(GrantFailureMessage(reply)))
    else if reply.body.None? then Failure(Builtin(NotJson))
    else Success(reply.body.value)
  }

  /** `time.sleep(seconds)` for a length that is not negative. */
  function AfterSleep(s: State, seconds: nat): State {
    s.(clock := s.clock + seconds, trace := s.trace + [Slept(seconds)])
  }

  /** `_requestNewToken(refreshToken)`: the credentials are reloaded, one grant is requested,
      and a refused request is followed by the cool-down sleep. */
  function RequestNewTokenEffect(env: Env, s: State, refreshToken: Json): (State, Result<Json, Error>) {
    var s1 := LoadCredentials(env, s);
    var request := GrantRequested(s1.clientId, ClientSecret, GrantBody(refreshToken, s1.username, s1.password));
    var reply := env.tokenServer(s1.grants);
    var s2 := s1.(grants := s1.grants + 1, trace := s1.trace + [request]);
    (if reply.status != 200 then AfterSleep(s2, CooldownSeconds) else s2, GrantOutcome(reply))
  }

  /** The record `_saveToken` stores: the token with `expiry_tm` set to the current time plus
      `expires_in`, less the margin. */
  function StampedRecord(tkn: Json, now: int): (r: Result<Json, Fault>)
    ensures r.Success? <==> tkn.JObj? && Has(tkn.fields, "expires_in") && ToInt(Get(tkn.fields, "expires_in").value).Success?
    ensures r.Success? ==> r.value.JObj? && Has(r.value.fields, "expiry_tm")
  {
    match Subscript(tkn, "expires_in")
    case Failure(f) => Failure(f)
    case Success(e) =>
      match ToInt(e)
      case Failure(f) => Failure(f)
      case Success(n) =>
        GetSet(tkn.fields, "expiry_tm", JInt(now + n - ExpiryMargin), "expiry_tm");
        Success(JObj(Set(tkn.fields, "expiry_tm", JInt(now + n - ExpiryMargin))))
  }

  /** The marker `_saveToken` writes to `current_user.json`. */
  function UserRecord(username: string): Json {
    JObj([("username", JStr(username))])
  }

  /** `_saveToken(tkn)`: the token file is emptied first; then the stamped record is written
      to it, the credentials are reloaded and the user marker is written. A token without a
      usable `expires_in` raises after the file was emptied. */
  function SaveTokenEffect(env: Env, s: State, tkn: Json): (State, Result<Json, Error>) {
    var s1 := s.(tokenFile := Unreadable, trace := s.trace + [TokenFileTruncated]);
    match StampedRecord(tkn, s.clock)
    case Failure(f) => (s1, Failure(Builtin(f)))
    case Success(record) =>
      var s2 := s1.(tokenFile := Holds(record), trace := s1.trace + [TokenFileWritten(record)]);
      var s3 := LoadCredentials(env, s2);
      var user := UserRecord(s3.username);
      (s3.(userFile := Holds(user), trace := s3.trace + [UserFileWritten(user)]), Success(record))
  }

  /** `_loadToken()`: the stored value, or `None` when the file is missing or does not parse. */
  function StoredToken(s: State): Json {
    if s.tokenFile.Holds? then s.tokenFile.content else JNull
  }

  /** The grants of `getToken` once the cached token cannot be used: with no stored token a
      password grant; otherwise a refresh grant with the stored refresh token, then a password
      grant when the refresh is refused. */
  function FetchTokenEffect(env: Env, s: State, stored: Json): (State, Result<Json, Error>) {
    if stored == JNull then RequestNewTokenEffect(env, s, JNull)
    else
      match Subscript(stored, "refresh_token")
      case Failure(f) => (s, Failure(Builtin(f)))
      case Success(refresh) =>
        var (s1, r1) := RequestNewTokenEffect(env, s, refresh);
        if r1 == Success(JNull) then RequestNewTokenEffect(env, s1, JNull) else (s1, r1)
  }

  /** The end of `getToken`: the fetched token is saved and the saved record's
      `access_token` returned. */
  function SaveAndReturnEffect(env: Env, fetched: (State, Result<Json, Error>)): (State, Result<Json, Error>) {
    var (s, r) := fetched;
    if r.Failure? then (s, r)
    else
      var (s1, saved) := SaveTokenEffect(env, s, r.value);
      if saved.Failure? then (s1, saved)
      else
        match Subscript(saved.value, "access_token")
        case Failure(f) => (s1, Failure(Builtin(f)))
        case Success(t) => (s1, Success(t))
  }

  /** `getToken()`: a stored token that has not expired is returned as it is; otherwise a new
      one is fetched, saved and returned. */
  function GetTokenEffect(env: Env, s: State): (State, Result<Json, Error>) {
    var stored := StoredToken(s);
    if stored == JNull then SaveAndReturnEffect(env, FetchTokenEffect(env, s, JNull))
    else
      match Subscript(stored, "expiry_tm")
      case Failure(f) => (s, Failure(Builtin(f)))
      case Success(expiry) =>
        match GreaterThan(expiry, s.clock)
        case Failure(f) => (s, Failure(Builtin(f)))
        case Success(valid) =>
          if valid then
            var s1 := LoadCredentials(env, s);
            match Subscript(stored, "access_token")
            case Failure(f) => (s1, Failure(Builtin(f)))
            case Success(t) => (s1, Success(t))
          else SaveAndReturnEffect(env, FetchTokenEffect(env, s, stored))
  }

  // ---------------------------------------------------------------------------------------
  // Properties of the steps
  // ---------------------------------------------------------------------------------------

  /** The bodies of the grant requests in a trace, in order. */
  function GrantBodies(trace: seq<Event>): seq<Dict>
    decreases |trace|
  {
    if trace == [] then []
    else GrantBodies(trace[..|trace| - 1]) + (if trace[|trace| - 1].GrantRequested? then [trace[|trace| - 1].body] else [])
  }

  lemma {:induction false} GrantBodiesAppend(a: seq<Event>, b: seq<Event>)
    ensures GrantBodies(a + b) == GrantBodies(a) + GrantBodies(b)
    decreases |b|
  {
    if b == [] {
      assert a + b == a;
    } else {
      GrantBodiesAppend(a, b[..|b| - 1]);
      assert (a + b)[..|a + b| - 1] == a + b[..|b| - 1];
    }
  }

  /** Loading the credentials touches only the three credential globals. */
  lemma LoadCredentialsFrame(env: Env, s: State)
    ensures var c := LoadCredentials(env, s);
      c == s.(username := c.username, password := c.password, clientId := c.clientId)
  {
  }

  /** With all three options in `[RDP]` the globals take their values; with one missing, the
      globals before it in the order username, password, client id are still overwritten and
      the rest keep their values; without an `[RDP]` section nothing changes. */
  lemma LoadCredentialsValues(env: Env, s: State)
    ensures CredentialsSection !in env.credentials ==> LoadCredentials(env, s) == s
    ensures CredentialsSection in env.credentials ==>
      var rdp := env.credentials[CredentialsSection]; var c := LoadCredentials(env, s);
      (HasOption(rdp, "username") ==> c.username == GetOption(rdp, "username").value) &&
      (!HasOption(rdp, "username") ==> c == s) &&
      (HasOption(rdp, "username") && HasOption(rdp, "password") ==> c.password == GetOption(rdp, "password").value) &&
      (!HasOption(rdp, "password") ==> c.password == s.password && c.clientId == s.clientId) &&
      (!HasOption(rdp, "clientId") ==> c.clientId == s.clientId) &&
      (HasOption(rdp, "username") && HasOption(rdp, "password") && HasOption(rdp, "clientId") ==>
        c.clientId == GetOption(rdp, "clientId").value)
  {
  }

  /** Loading the credentials is idempotent: a state already holding the values read from
      `[RDP]` is left as it is by a second load. */
  lemma LoadCredentialsIdempotent(env: Env, s: State, t: State)
    requires var c := LoadCredentials(env, s);
      t.username == c.username && t.password == c.password && t.clientId == c.clientId
    ensures LoadCredentials(env, t) == t
  {
  }

  /** A password grant is asked for exactly when there is no refresh token; the body carries
      the credentials, or the refresh token, and nothing else. */
  lemma GrantBodyShape(refreshToken: Json, username: string, password: string)
    ensures var body := GrantBody(refreshToken, username, password);
      (Get(body, "grant_type") == Some(JStr("password")) <==> refreshToken == JNull) &&
      (Get(body, "grant_type") == Some(JStr("refresh_token")) <==> refreshToken != JNull) &&
      (refreshToken == JNull ==>
        Keys(body) == ["username", "password", "grant_type", "scope", "takeExclusiveSignOnControl"] &&
        Get(body, "username") == Some(JStr(username)) && Get(body, "password") == Some(JStr(password)) &&
        Get(body, "scope") == Some(JStr("trapi")) && Get(body, "takeExclusiveSignOnControl") == Some(JStr("true"))) &&
      (refreshToken != JNull ==>
        Keys(body) == ["refresh_token", "grant_type"] && Get(body, "refresh_token") == Some(refreshToken))
  {
    var body := GrantBody(refreshToken, username, password);
    if refreshToken == JNull {
      GetAt(body, 0);
      GetAt(body, 1);
      GetAt(body, 2);
      GetAt(body, 3);
      GetAt(body, 4);
    } else {
      GetAt(body, 0);
      GetAt(body, 1);
    }
  }

  /** The reply of the token endpoint, case by case: `None` for an `invalid_grant` refusal (or
      a 200 whose body is `null`), a raised error for every other status but 200, and the
      parsed body for a 200. The session sleeps exactly when the status is not 200. */
  lemma GrantOutcomeCases(reply: HttpReply)
    ensures var r := GrantOutcome(reply);
      (r == Success(JNull) <==>
        (reply.status == 400 && Contains(reply.text, "invalid_grant")) ||
        (reply.status == 200 && reply.body == Some(JNull))) &&
      (r.Failure? && r.error.Raised? <==>
        reply.status != 200 && !(reply.status == 400 && Contains(reply.text, "invalid_grant"))) &&
      (r.Success? && r.value != JNull <==> reply.status == 200 && reply.body.Some? && reply.body.value != JNull)
  {
  }

  /** One token request: the credentials are reloaded, exactly one grant request is added to
      the trace, and the files are left alone. */
  lemma RequestNewTokenOneGrant(env: Env, s: State, refreshToken: Json)
    ensures var (s', r) := RequestNewTokenEffect(env, s, refreshToken); var c := LoadCredentials(env, s);
      s'.grants == s.grants + 1 && r == GrantOutcome(env.tokenServer(s.grants)) &&
      s'.username == c.username && s'.password == c.password && s'.clientId == c.clientId &&
      GrantBodies(s'.trace) == GrantBodies(s.trace) + [GrantBody(refreshToken, c.username, c.password)] &&
      s'.tokenFile == s.tokenFile && s'.userFile == s.userFile &&
      s'.clock == s.clock + (if env.tokenServer(s.grants).status != 200 then CooldownSeconds else 0)
  {
    LoadCredentialsFrame(env, s);
    var c := LoadCredentials(env, s);
    var request := GrantRequested(c.clientId, ClientSecret, GrantBody(refreshToken, c.username, c.password));
    GrantBodiesOne(request);
    GrantBodiesAppend(s.trace, [request]);
    if env.tokenServer(s.grants).status != 200 {
      GrantBodiesOne(Slept(CooldownSeconds));
      GrantBodiesAppend(s.trace + [request], [Slept(CooldownSeconds)]);
    }
  }

  lemma GrantBodiesOne(e: Event)
    ensures GrantBodies([e]) == if e.GrantRequested? then [e.body] else []
  {
    assert [e][..0] == [];
  }

  /** The stamped record has `expiry_tm` set to now plus `expires_in` less ten seconds and
      every other key as in the token; it exists exactly when the token is a dict whose
      `expires_in` `int()` accepts. */
  lemma StampedRecordFields(tkn: Json, now: int, k: string)
    ensures var r := StampedRecord(tkn, now);
      (r.Success? <==> tkn.JObj? && Has(tkn.fields, "expires_in") && ToInt(Get(tkn.fields, "expires_in").value).Success?) &&
      (r.Success? ==>
        r.value.JObj? &&
        Get(r.value.fields, k) ==
          if k == "expiry_tm" then Some(JInt(now + ToInt(Get(tkn.fields, "expires_in").value).value - ExpiryMargin))
          else Get(tkn.fields, k))
  {
    if StampedRecord(tkn, now).Success? {
      GetSet(tkn.fields, "expiry_tm", JInt(now + ToInt(Get(tkn.fields, "expires_in").value).value - ExpiryMargin), k);
    }
  }

  /** `_saveToken(None)` empties the token file and then raises, writing nothing else. */
  lemma SaveNothingEmptiesTokenFile(env: Env, s: State)
    ensures SaveTokenEffect(env, s, JNull) ==
      (s.(tokenFile := Unreadable, trace := s.trace + [TokenFileTruncated]), Failure(Builtin(NotSubscriptable)))
  {
  }

  /** A successful save leaves the record in the token file, to be read back by the next
      load, and the configured user in the marker file; the token file is written before the
      marker, and these are the last things done. */
  lemma SaveThenLoad(env: Env, s: State, tkn: Json)
    requires SaveTokenEffect(env, s, tkn).1.Success?
    ensures var (s', r) := SaveTokenEffect(env, s, tkn);
      StoredToken(s') == r.value && r.value.JObj? && s'.userFile == Holds(UserRecord(s'.username)) &&
      s'.username == LoadCredentials(env, s).username && s'.clock == s.clock && s'.grants == s.grants &&
      s'.trace == s.trace + [TokenFileTruncated, TokenFileWritten(r.value), UserFileWritten(UserRecord(s'.username))] &&
      LoadCredentials(env, s') == s'
  {
    var (s', r) := SaveTokenEffect(env, s, tkn);
    var s2 := s.(tokenFile := Holds(r.value), trace := s.trace + [TokenFileTruncated, TokenFileWritten(r.value)]);
    LoadCredentialsFrame(env, s2);
    LoadCredentialsIdempotent(env, s2, s');
  }

  /** The stored token can be used as it is: its `expiry_tm` lies after the current time. */
  predicate CachedTokenValid(s: State): (valid: bool)
    ensures valid ==> StoredToken(s).JObj? && Has(StoredToken(s).fields, "expiry_tm")
  {
    var stored := StoredToken(s);
    stored != JNull && Subscript(stored, "expiry_tm").Success? &&
    GreaterThan(Subscript(stored, "expiry_tm").value, s.clock) == Success(true)
  }

  /** A stored token that has not expired is returned without any request: the credentials
      are reloaded and nothing else changes. */
  lemma CachedTokenReused(env: Env, s: State)
    requires CachedTokenValid(s)
    ensures var (s', r) := GetTokenEffect(env, s); var stored := StoredToken(s);
      s' == LoadCredentials(env, s) &&
      s'.grants == s.grants && s'.trace == s.trace && s'.tokenFile == s.tokenFile &&
      s'.userFile == s.userFile && s'.clock == s.clock &&
      (r.Success? <==> Has(stored.fields, "access_token")) &&
      (r.Success? ==> Get(stored.fields, "access_token") == Some(r.value))
  {
    LoadCredentialsFrame(env, s);
  }

  /** Saving the fetched token and reading its `access_token` makes no request; on success
      the returned token is the one in the token file, the marker names the configured user,
      and the two writes are the last events. */
  lemma SaveAndReturnFacts(env: Env, fetched: (State, Result<Json, Error>))
    ensures var (s', r) := SaveAndReturnEffect(env, fetched); var s := fetched.0;
      s'.grants == s.grants && GrantBodies(s'.trace) == GrantBodies(s.trace) && s'.clock == s.clock &&
      (r.Failure? && r.error.Raised? ==> fetched.1 == r) &&
      (r.Success? ==>
        fetched.1.Success? &&
        s'.tokenFile == Holds(SaveTokenEffect(env, s, fetched.1.value).1.value) &&
        Get(StoredToken(s').fields, "access_token") == Some(r.value) &&
        s'.userFile == Holds(UserRecord(s'.username)) &&
        s' == LoadCredentials(env, s') &&
        s'.trace == s.trace + [TokenFileTruncated, TokenFileWritten(StoredToken(s')), UserFileWritten(UserRecord(s'.username))])
  {
    var (s, r) := fetched;
    if r.Success? {
      SaveTokenNoGrant(env, s, r.value);
      if SaveTokenEffect(env, s, r.value).1.Success? {
        SaveThenLoad(env, s, r.value);
      }
    }
  }

  /** Saving a token asks for no grant and takes no time. */
  lemma SaveTokenNoGrant(env: Env, s: State, tkn: Json)
    ensures var (s', r) := SaveTokenEffect(env, s, tkn);
      s'.grants == s.grants && s'.clock == s.clock && GrantBodies(s'.trace) == GrantBodies(s.trace)
  {
    var (s', saved) := SaveTokenEffect(env, s, tkn);
    if saved.Success? {
      SaveThenLoad(env, s, tkn);
      GrantBodiesNone(s.trace, [TokenFileTruncated, TokenFileWritten(saved.value), UserFileWritten(UserRecord(s'.username))]);
    } else {
      GrantBodiesNone(s.trace, [TokenFileTruncated]);
    }
  }

  /** Events other than grant requests add no grant body. */
  lemma {:induction false} GrantBodiesNone(a: seq<Event>, b: seq<Event>)
    requires forall i :: 0 <= i < |b| ==> !b[i].GrantRequested?
    ensures GrantBodies(a + b) == GrantBodies(a)
    decreases |b|
  {
    if b != [] {
      GrantBodiesNone(a, b[..|b| - 1]);
      var ab := a + b;
      assert ab[..|ab| - 1] == a + b[..|b| - 1];
      assert !ab[|ab| - 1].GrantRequested? by {
        assert ab[|ab| - 1] == b[|b| - 1];
      }
      assert GrantBodies(ab) == GrantBodies(ab[..|ab| - 1]);
    } else {
      assert a + b == a;
    }
  }

  /** With no stored token, `getToken` asks for exactly one grant, a password grant with the
      configured credentials. */
  lemma NoStoredTokenPasswordGrant(env: Env, s: State)
    requires StoredToken(s) == JNull
    ensures var (s', r) := GetTokenEffect(env, s); var c := LoadCredentials(env, s);
      s'.grants == s.grants + 1 &&
      GrantBodies(s'.trace) == GrantBodies(s.trace) + [PasswordBody(c.username, c.password)]
  {
    RequestNewTokenOneGrant(env, s, JNull);
    SaveAndReturnFacts(env, FetchTokenEffect(env, s, JNull));
  }

  /** With an expired stored token, `getToken` first asks for a refresh grant with the stored
      refresh token, and asks for a password grant after it only when the refresh was refused. */
  lemma ExpiredTokenGrants(env: Env, s: State)
    requires StoredToken(s) != JNull && !CachedTokenValid(s)
    requires Subscript(StoredToken(s), "expiry_tm").Success?
    requires GreaterThan(Subscript(StoredToken(s), "expiry_tm").value, s.clock).Success?
    requires Has(StoredToken(s).fields, "refresh_token")
    ensures var (s', r) := GetTokenEffect(env, s); var c := LoadCredentials(env, s);
      var refresh := Get(StoredToken(s).fields, "refresh_token").value;
      var refused := GrantOutcome(env.tokenServer(s.grants)) == Success(JNull);
      s'.grants == s.grants + (if refused then 2 else 1) &&
      GrantBodies(s'.trace) == GrantBodies(s.trace) + [GrantBody(refresh, c.username, c.password)] +
        (if refused then [PasswordBody(c.username, c.password)] else [])
  {
    var stored := StoredToken(s);
    var fetched := FetchTokenEffect(env, s, stored);
    assert GetTokenEffect(env, s) == SaveAndReturnEffect(env, fetched);
    RefreshGrants(env, s, stored);
    SaveAndReturnFacts(env, fetched);
  }

  /** The grant cascade for a stored token with a refresh token: a refresh grant, then a
      password grant exactly when the refresh was refused. */
  lemma RefreshGrants(env: Env, s: State, stored: Json)
    requires stored.JObj? && Has(stored.fields, "refresh_token")
    ensures var (s', r) := FetchTokenEffect(env, s, stored); var c := LoadCredentials(env, s);
      var refresh := Get(stored.fields, "refresh_token").value;
      var refused := GrantOutcome(env.tokenServer(s.grants)) == Success(JNull);
      s'.grants == s.grants + (if refused then 2 else 1) &&
      GrantBodies(s'.trace) == GrantBodies(s.trace) + [GrantBody(refresh, c.username, c.password)] +
        (if refused then [PasswordBody(c.username, c.password)] else [])
  {
    if GrantOutcome(env.tokenServer(s.grants)) == Success(JNull) {
      RefusedRefreshThenPassword(env, s, stored);
    } else {
      AcceptedRefreshOnly(env, s, stored);
    }
  }

  /** A refused refresh is followed by a password grant with the same credentials. */
  lemma RefusedRefreshThenPassword(env: Env, s: State, stored: Json)
    requires stored.JObj? && Has(stored.fields, "refresh_token")
    requires GrantOutcome(env.tokenServer(s.grants)) == Success(JNull)
    ensures var (s', r) := FetchTokenEffect(env, s, stored); var c := LoadCredentials(env, s);
      var refresh := Get(stored.fields, "refresh_token").value;
      s'.grants == s.grants + 2 &&
      GrantBodies(s'.trace) == GrantBodies(s.trace) + [GrantBody(refresh, c.username, c.password)] +
        [PasswordBody(c.username, c.password)]
  {
    var refresh := Get(stored.fields, "refresh_token").value;
    assert Subscript(stored, "refresh_token") == Success(refresh);
    var s1 := RequestNewTokenEffect(env, s, refresh).0;
    RequestNewTokenOneGrant(env, s, refresh);
    LoadCredentialsIdempotent(env, s, s1);
    RequestNewTokenOneGrant(env, s1, JNull);
  }

  /** An accepted refresh is the only grant. */
  lemma AcceptedRefreshOnly(env: Env, s: State, stored: Json)
    requires stored.JObj? && Has(stored.fields, "refresh_token")
    requires GrantOutcome(env.tokenServer(s.grants)) != Success(JNull)
    ensures var (s', r) := FetchTokenEffect(env, s, stored); var c := LoadCredentials(env, s);
      var refresh := Get(stored.fields, "refresh_token").value;
      s'.grants == s.grants + 1 &&
      GrantBodies(s'.trace) == GrantBodies(s.trace) + [GrantBody(refresh, c.username, c.password)]
  {
    var refresh := Get(stored.fields, "refresh_token").value;
    assert Subscript(stored, "refresh_token") == Success(refresh);
    RequestNewTokenOneGrant(env, s, refresh);
  }

  /** `getToken` never asks for more than two grants. */
  lemma AtMostTwoGrants(env: Env, s: State)
    ensures var (s', r) := GetTokenEffect(env, s); s.grants <= s'.grants <= s.grants + 2
  {
    var stored := StoredToken(s);
    if stored == JNull {
      NoStoredTokenPasswordGrant(env, s);
    } else if CachedTokenValid(s) {
      CachedTokenReused(env, s);
    } else if Subscript(stored, "expiry_tm").Success? &&
              GreaterThan(Subscript(stored, "expiry_tm").value, s.clock).Success? &&
              Has(stored.fields, "refresh_token") {
      ExpiredTokenGrants(env, s);
    }
  }

  /** Fetching a token writes neither file. */
  lemma FetchKeepsFiles(env: Env, s: State, stored: Json)
    ensures var (s', r) := FetchTokenEffect(env, s, stored);
      s'.tokenFile == s.tokenFile && s'.userFile == s.userFile
  {
    var refresh := Subscript(stored, "refresh_token");
    if stored == JNull {
      RequestNewTokenOneGrant(env, s, JNull);
    } else if refresh.Success? {
      RequestNewTokenOneGrant(env, s, refresh.value);
      var (s1, r1) := RequestNewTokenEffect(env, s, refresh.value);
      RequestNewTokenOneGrant(env, s1, JNull);
    }
  }

  /** When the token endpoint's refusal is raised, neither the token file nor the user marker
      has been touched. */
  lemma RaisedGrantKeepsFiles(env: Env, s: State)
    ensures var (s', r) := GetTokenEffect(env, s);
      r.Failure? && r.error.Raised? ==> s'.tokenFile == s.tokenFile && s'.userFile == s.userFile
  {
    var stored := StoredToken(s);
    if stored == JNull || (!CachedTokenValid(s) && Subscript(stored, "expiry_tm").Success? &&
                           GreaterThan(Subscript(stored, "expiry_tm").value, s.clock).Success?) {
      var fetched := FetchTokenEffect(env, s, stored);
      assert GetTokenEffect(env, s) == SaveAndReturnEffect(env, fetched);
      FetchKeepsFiles(env, s, stored);
      SaveAndReturnFacts(env, fetched);
    }
  }

  /** A token fetched and saved by `getToken` is served from the file by the next call, with
      no request, exactly when its `expires_in` exceeds the ten-second margin. */
  lemma FreshTokenServedFromCache(env: Env, s: State)
    requires !CachedTokenValid(s)
    requires GetTokenEffect(env, s).1.Success?
    ensures var (s', r) := GetTokenEffect(env, s); var record := StoredToken(s');
      record.JObj? && Has(record.fields, "expires_in") && ToInt(Get(record.fields, "expires_in").value).Success? &&
      (CachedTokenValid(s') <==> ToInt(Get(record.fields, "expires_in").value).value > ExpiryMargin) &&
      (CachedTokenValid(s') ==> GetTokenEffect(env, s') == (s', r))
  {
    var fetched := FetchTokenEffect(env, s, StoredToken(s));
    assert GetTokenEffect(env, s) == SaveAndReturnEffect(env, fetched);
    SavedRecordStamped(env, fetched);
    var s' := GetTokenEffect(env, s).0;
    if CachedTokenValid(s') {
      CachedTokenReused(env, s');
    }
  }

  /** After a successful save, the token file holds the fetched token stamped with
      `expiry_tm`, computed from its `expires_in` at the current time. */
  lemma SavedRecordStamped(env: Env, fetched: (State, Result<Json, Error>))
    requires SaveAndReturnEffect(env, fetched).1.Success?
    ensures var s' := SaveAndReturnEffect(env, fetched).0; var record := StoredToken(s');
      record.JObj? && Has(record.fields, "expires_in") && ToInt(Get(record.fields, "expires_in").value).Success? &&
      s'.clock == fetched.0.clock &&
      Get(record.fields, "expiry_tm") ==
        Some(JInt(s'.clock + ToInt(Get(record.fields, "expires_in").value).value - ExpiryMargin))
  {
    var (fs, tkn) := fetched;
    SaveThenLoad(env, fs, tkn.value);
    assert StoredToken(SaveAndReturnEffect(env, fetched).0) == StampedRecord(tkn.value, fs.clock).value;
    StampedRecordFields(tkn.value, fs.clock, "expiry_tm");
    StampedRecordFields(tkn.value, fs.clock, "expires_in");
  }

  /** Events the token steps may add to a trace: never a publish request, and never a sleep
      as the first one (a sleep only follows a grant request). */
  predicate TokenEvents(added: seq<Event>) {
    (forall i :: 0 <= i < |added| ==> !added[i].PublishRequested?) && (added != [] ==> !added[0].Slept?)
  }

  /** `t'` is `t` followed by token events. */
  predicate AddsTokenEvents(t: seq<Event>, t': seq<Event>) {
    |t| <= |t'| && t'[..|t|] == t && TokenEvents(t'[|t|..])
  }

  lemma AddsTokenEventsTrans(a: seq<Event>, b: seq<Event>, c: seq<Event>)
    requires AddsTokenEvents(a, b) && AddsTokenEvents(b, c)
    ensures AddsTokenEvents(a, c)
  {
    assert c[|a|..] == b[|a|..] + c[|b|..];
    assert c[..|a|] == b[..|a|];
  }

  lemma RequestAddsTokenEvents(env: Env, s: State, refreshToken: Json)
    ensures AddsTokenEvents(s.trace, RequestNewTokenEffect(env, s, refreshToken).0.trace)
  {
    LoadCredentialsFrame(env, s);
    var t' := RequestNewTokenEffect(env, s, refreshToken).0.trace;
    assert t'[|s.trace|].GrantRequested?;
  }

  lemma SaveAddsTokenEvents(env: Env, s: State, tkn: Json)
    ensures AddsTokenEvents(s.trace, SaveTokenEffect(env, s, tkn).0.trace)
  {
    var t' := SaveTokenEffect(env, s, tkn).0.trace;
    if SaveTokenEffect(env, s, tkn).1.Success? {
      SaveThenLoad(env, s, tkn);
    }
    assert t'[|s.trace|] == TokenFileTruncated;
  }

  lemma FetchAddsTokenEvents(env: Env, s: State, stored: Json)
    ensures AddsTokenEvents(s.trace, FetchTokenEffect(env, s, stored).0.trace)
  {
    var refresh := Subscript(stored, "refresh_token");
    if stored == JNull {
      RequestAddsTokenEvents(env, s, JNull);
    } else if refresh.Success? {
      RequestAddsTokenEvents(env, s, refresh.value);
      var (s1, r1) := RequestNewTokenEffect(env, s, refresh.value);
      if r1 == Success(JNull) {
        RequestAddsTokenEvents(env, s1, JNull);
        AddsTokenEventsTrans(s.trace, s1.trace, FetchTokenEffect(env, s, stored).0.trace);
      }
    } else {
      assert s.trace[|s.trace|..] == [];
    }
  }

  /** `getToken` adds only token events to the trace. */
  lemma GetTokenAddsTokenEvents(env: Env, s: State)
    ensures AddsTokenEvents(s.trace, GetTokenEffect(env, s).0.trace)
  {
    var stored := StoredToken(s);
    assert s.trace[|s.trace|..] == [];
    if stored == JNull || (!CachedTokenValid(s) && Subscript(stored, "expiry_tm").Success? &&
                           GreaterThan(Subscript(stored, "expiry_tm").value, s.clock).Success?) {
      var fetched := FetchTokenEffect(env, s, stored);
      assert GetTokenEffect(env, s) == SaveAndReturnEffect(env, fetched);
      FetchAddsTokenEvents(env, s, stored);
      if fetched.1.Success? {
        SaveAddsTokenEvents(env, fetched.0, fetched.1.value);
        AddsTokenEventsTrans(s.trace, fetched.0.trace, GetTokenEffect(env, s).0.trace);
      }
    } else if CachedTokenValid(s) {
      CachedTokenReused(env, s);
    }
  }

  // ---------------------------------------------------------------------------------------
  // The session object
  // ---------------------------------------------------------------------------------------

  /** The module's globals and files as one object whose methods update them in place. */
  class Session {
    const env: Env
    var username: string
    var password: string
    var clientId: string
    var tokenFile: FileContent
    var userFile: FileContent
    var clock: int
    var grants: nat
    var publishes: nat
    var trace: seq<Event>

    function Snapshot(): State
      reads this
    {
      State(username, password, clientId, tokenFile, userFile, clock, grants, publishes, trace)
    }

    /** The module as imported: placeholder credentials and the files as they are found. */
    constructor(env: Env, tokenFile: FileContent, userFile: FileContent, clock: int)
      ensures this.env == env
      ensures Snapshot() == State(DefaultUsername, DefaultPassword, DefaultClientId, tokenFile, userFile, clock, 0, 0, [])
    {
      this.env := env;
      username := DefaultUsername;
      password := DefaultPassword;
      clientId := DefaultClientId;
      this.tokenFile := tokenFile;
      this.userFile := userFile;
      this.clock := clock;
      grants := 0;
      publishes := 0;
      trace := [];
    }

    /** `_loadCredentialsFromFile()`; returns `USERNAME`. */
    method LoadCredentialsFromFile() returns (name: string)
      modifies this
      ensures Snapshot() == LoadCredentials(env, old(Snapshot()))
      ensures name == username
    {
      var rdp := GetSection(env.credentials, CredentialsSection);
      if rdp.Failure? {
        return username;
      }
      var u := GetOption(rdp.value, "username");
      if u.None? {
        return username;
      }
      username := u.value;
      var p := GetOption(rdp.value, "password");
      if p.None? {
        return username;
      }
      password := p.value;
      var c := GetOption(rdp.value, "clientId");
      if c.None? {
        return username;
      }
      clientId := c.value;
      return username;
    }

    /** `time.sleep(seconds)`; a negative length raises. */
    method Sleep(seconds: int) returns (err: Option<Error>)
      modifies this
      ensures seconds < 0 ==> Snapshot() == old(Snapshot()) && err == Some(Builtin(NegativeSleep))
      ensures seconds >= 0 ==> Snapshot() == AfterSleep(old(Snapshot()), seconds) && err.None?
    {
      if seconds < 0 {
        return Some(Builtin(NegativeSleep));
      }
      clock := clock + seconds;
      trace := trace + [Slept(seconds)];
      return None;
    }

    /** `_requestNewToken(refreshToken)`. */
    method RequestNewToken(refreshToken: Json) returns (r: Result<Json, Error>)
      modifies this
      ensures (Snapshot(), r) == RequestNewTokenEffect(env, old(Snapshot()), refreshToken)
    {
      var _ := LoadCredentialsFromFile();
      var body := if refreshToken == JNull then PasswordBody(username, password) else RefreshBody(refreshToken);
      var reply := env.tokenServer(grants);
      trace := trace + [GrantRequested(clientId, ClientSecret, body)];
      grants := grants + 1;
      if reply.status == 400 && Contains(reply.text, "invalid_grant") {
        var _ := Sleep(CooldownSeconds);
        return Success(JNull);
      }
      if reply.status != 200 {
        var _ := Sleep(CooldownSeconds);
        return Failure(Raised(GrantFailureMessage(reply)));
      }
      if reply.body.None? {
        return Failure(Builtin(NotJson));
      }
      return Success(reply.body.value);
    }

    /** `_saveToken(tkn)`; returns the record written, which is `tkn` with its expiry. */
    method SaveToken(tkn: Json) returns (r: Result<Json, Error>)
      modifies this
      ensures (Snapshot(), r) == SaveTokenEffect(env, old(Snapshot()), tkn)
    {
      tokenFile := Unreadable;
      trace := trace + [TokenFileTruncated];
      var expiresIn := Subscript(tkn, "expires_in");
      if expiresIn.Failure? {
        return Failure(Builtin(expiresIn.error));
      }
      var seconds := ToInt(expiresIn.value);
      if seconds.Failure? {
        return Failure(Builtin(seconds.error));
      }
      var record := JObj(Set(tkn.fields, "expiry_tm", JInt(clock + seconds.value - ExpiryMargin)));
      tokenFile := Holds(record);
      trace := trace + [TokenFileWritten(record)];
      var name := LoadCredentialsFromFile();
      var user := UserRecord(name);
      userFile := Holds(user);
      trace := trace + [UserFileWritten(user)];
      return Success(record);
    }

    /** `_loadToken()`. */
    method LoadToken() returns (tkn: Json)
      ensures tkn == StoredToken(Snapshot())
      ensures tkn != JNull ==> tokenFile == Holds(tkn)
    {
      if tokenFile.Holds? {
        return tokenFile.content;
      }
      return JNull;
    }

    /** `getToken()`. */
    method GetToken() returns (r: Result<Json, Error>)
      modifies this
      ensures (Snapshot(), r) == GetTokenEffect(env, old(Snapshot()))
    {
      var stored := LoadToken();
      var tkn: Result<Json, Error>;
      if stored != JNull {
        var expiry := Subscript(stored, "expiry_tm");
        if expiry.Failure? {
          return Failure(Builtin(expiry.error));
        }
        var valid := GreaterThan(expiry.value, clock);
        if valid.Failure? {
          return Failure(Builtin(valid.error));
        }
        if valid.value {
          var _ := LoadCredentialsFromFile();
          var access := Subscript(stored, "access_token");
          if access.Failure? {
            return Failure(Builtin(access.error));
          }
          return Success(access.value);
        }
        var refresh := Subscript(stored, "refresh_token");
        if refresh.Failure? {
          return Failure(Builtin(refresh.error));
        }
        tkn := RequestNewToken(refresh.value);
        if tkn.Failure? {
          return tkn;
        }
        if tkn.value == JNull {
          tkn := RequestNewToken(JNull);
          if tkn.Failure? {
            return tkn;
          }
        }
      } else {
        tkn := RequestNewToken(JNull);
        if tkn.Failure? {
          return tkn;
        }
      }
      var saved := SaveToken(tkn.value);
      if saved.Failure? {
        return saved;
      }
      var access := Subscript(saved.value, "access_token");
      if access.Failure? {
        return Failure(Builtin(access.error));
      }
      return Success(access.value);
    }
  }
}

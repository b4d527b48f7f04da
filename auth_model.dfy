/** The state and behaviour of the `Auth` class of `main.py` as values and
    functions. Every method of `AuthObject.Auth` is proved to move its fields
    exactly as its function here says: the function of the same name, except
    for `Login` (`LoginFrom`), `FillHeaders` (`DefaultHeaders`), `SaveCreds`
    and `LoadCreds` (`Save` and `Load`) and `GetSession` (`EnsureSessionValid`).

    Effects outside the object are inputs or part of the state:
    - the clock is an integer `now`, one reading per top-level call;
    - the platform's reply to the k-th request issued is `env.server(k)`;
      every request issued is appended to `sent`;
    - `datetime.fromisoformat` is `env.parse`, None when it raises;
    - the credentials file is `store`, None while the file does not exist. */
module AuthModel {
  import opened Wrappers
  import Text
  import Utf8
  import Base64

  /** A Python value that is a `str` or `None`. */
  type Str = Option<string>

  /** Python truthiness of a `str`/`None` value. */
  predicate Truthy(v: Str) {
    v.Some? && v.value != ""
  }

  const DefaultAppId: string := "e3d5ea9e-50bd-43b7-88bf-39794f4e3d40"
  const UserAgent: string := "UbiServices_SDK_2020.Release.58_PC64_ansi_static"

  /** `Auth.get_basic_token`: Base64 of the UTF-8 bytes of `email:password`. */
  function BasicToken(email: string, password: string): (token: string)
    ensures Base64.Decode(token) == Some(Utf8.Encode(email + ":" + password))
  {
    var bytes := Utf8.Encode(email + ":" + password);
    Base64.DecodeEncode(bytes);
    Base64.Encode(bytes)
  }

  /** The eight fields that `save_creds` writes and `load_creds` reads back. */
  datatype Creds = Creds(
    sessionid: Str, key: Str, newKey: Str, spaceid: Str,
    profileid: Str, userid: Str, expiration: Str, newExpiration: Str)

  /** The values `__init__` gives the eight fields. */
  const InitialCreds: Creds := Creds(Some(""), Some(""), Some(""), Some(""), Some(""), Some(""), Some(""), Some(""))

  /** The aiohttp session: which one it is and whether it was closed. */
  datatype HttpSession = HttpSession(serial: nat, open: bool)

  /** The attributes `__init__` sets and nothing changes afterwards. */
  datatype Config = Config(token: string, appid: string, maxConnectRetries: int, refreshSessionPeriod: int)

  /** A request as issued: the POST of `connect` with its headers, or the GET of `get`. */
  datatype Request = Post(postHeaders: map<string, string>) | Fetch(url: string, getHeaders: map<string, Str>)

  /** A decoded JSON object: the fields the core reads (None when absent) and the rest. */
  datatype Body = Body(
    ticket: Str, expiration: Str, profileId: Str, sessionId: Str, spaceId: Str, userId: Str,
    message: Str, httpCode: Option<int>, resource: Str, other: map<string, string>)

  /** A reply: its text, and its decoding when the text is JSON. */
  datatype Reply = Reply(text: string, json: Option<Body>)

  datatype Env = Env(server: nat -> Reply, parse: string -> Option<int>)

  /** What a call can raise. `TypeError` is a None used as a str (a missing
      ticket or expiry), `ValueError` an expiry `fromisoformat` rejects,
      `JsonError` a login reply that is not JSON. `OutOfFuel` is not Python:
      it marks a call the model stopped following (see `Connect` and `Get`). */
  datatype Error =
    | FailedToConnect(message: string)
    | InvalidRequest(message: string, code: int)
    | TypeError
    | ValueError
    | JsonError
    | OutOfFuel

  datatype Response = Json(body: Body) | Raw(text: string)

  datatype State = State(
    creds: Creds,
    cooldown: int,            // _login_cooldown
    session: HttpSession,
    sessionStart: int,        // _session_start
    store: Option<Creds>,     // the file at creds_path
    sent: seq<Request>)       // every request issued so far

  /** `load_creds`: a missing file changes nothing; otherwise the file's record
      replaces the fields and the cooldown is zeroed. */
  function Load(s: State): State {
    if s.store.None? then s else s.(creds := s.store.value, cooldown := 0)
  }

  /** `save_creds`: the file is overwritten with the whole record. */
  function Save(s: State): State {
    s.(store := Some(s.creds))
  }

  /** The test of `_ensure_session_valid`. */
  predicate NeedsRefresh(hasSession: bool, period: int, elapsed: int) {
    !hasSession || 0 <= period <= elapsed
  }

  /** `refresh_session`: the old session is closed and a new one started now. */
  function RefreshSession(s: State, now: int): State {
    s.(session := HttpSession(s.session.serial + 1, true), sessionStart := now)
  }

  /** `_ensure_session_valid` (the state change of `get_session`). The
      constructor always supplies a session, so `hasSession` is true here. */
  function EnsureSessionValid(s: State, cfg: Config, now: int): State {
    if NeedsRefresh(true, cfg.refreshSessionPeriod, now - s.sessionStart) then RefreshSession(s, now) else s
  }

  /** `close`: save the credentials, then close the session. */
  function Close(s: State): State {
    Save(s).(session := s.session.(open := false))
  }

  function Prefix(s: string, n: nat): (r: string)
    ensures |r| <= n && r <= s
  {
    if |s| <= n then s else s[..n]
  }

  /** `tok and datetime.fromisoformat(exp[:26] + "+00:00") > now`. */
  function Live(tok: Str, exp: Str, now: int, parse: string -> Option<int>): Result<bool, Error> {
    if !Truthy(tok) then Ok(false)
    else if exp.None? then Err(TypeError)
    else match parse(Prefix(exp.value, 26) + "+00:00")
      case None => Err(ValueError)
      case Some(t) => Ok(t > now)
  }

  /** Whether the ticket `connect(_new)` is after is still valid. */
  function TicketLive(c: Creds, isNew: bool, now: int, parse: string -> Option<int>): Result<bool, Error> {
    if isNew then Live(c.newKey, c.newExpiration, now, parse) else Live(c.key, c.expiration, now, parse)
  }

  /** The headers of the login POST: Basic with the token for the session
      ticket, `Ubi_v1` with the session ticket for the bearer ticket. */
  function PostHeaders(cfg: Config, c: Creds, isNew: bool): (r: Result<map<string, string>, Error>)
    ensures r.Err? <==> isNew && c.key.None?
    ensures r.Err? ==> r.error == TypeError
    ensures r.Ok? ==> r.value.Keys == {"User-Agent", "Content-Type", "Ubi-AppId", "Authorization"}
                      && r.value["User-Agent"] == UserAgent && r.value["Ubi-AppId"] == cfg.appid
                      && r.value["Content-Type"] == "application/json; charset=UTF-8"
    ensures r.Ok? ==> "Authorization" in r.value && r.value["Authorization"] == if isNew then "Ubi_v1 t=" + c.key.value else "Basic " + cfg.token
  {
    var base := map[
      "User-Agent" := UserAgent,
      "Content-Type" := "application/json; charset=UTF-8",
      "Ubi-AppId" := cfg.appid,
      "Authorization" := "Basic " + cfg.token];
    if !isNew then Ok(base)
    else if c.key.None? then Err(TypeError)
    else Ok(base["Ubi-AppId" := cfg.appid]["Authorization" := "Ubi_v1 t=" + c.key.value])
  }

  /** Where a login reply's ticket goes: the bearer slot for `_new`, the session
      slot otherwise; the four identifiers are overwritten either way. */
  function StoreTicket(s: State, isNew: bool, b: Body): (r: State)
    ensures r.cooldown == s.cooldown && r.session == s.session && r.store == s.store && r.sent == s.sent
    ensures r.sessionStart == s.sessionStart
    ensures isNew ==> r.creds.newKey == b.ticket && r.creds.newExpiration == b.expiration
                      && r.creds.key == s.creds.key && r.creds.expiration == s.creds.expiration
    ensures !isNew ==> r.creds.key == b.ticket && r.creds.expiration == b.expiration
                       && r.creds.newKey == s.creds.newKey && r.creds.newExpiration == s.creds.newExpiration
    ensures r.creds.profileid == b.profileId && r.creds.sessionid == b.sessionId
    ensures r.creds.spaceid == b.spaceId && r.creds.userid == b.userId
  {
    var c := if isNew then s.creds.(newKey := b.ticket, newExpiration := b.expiration)
             else s.creds.(key := b.ticket, expiration := b.expiration);
    s.(creds := c.(profileid := b.profileId, sessionid := b.sessionId, spaceid := b.spaceId, userid := b.userId))
  }

  /** The message of the `FailedToConnect` raised for a login reply without a
      ticket: `HTTP <code>: <message>`, the message, the code, or "Unknown Error". */
  function FailureMessage(b: Body): (r: string)
    ensures b.message.None? && b.httpCode.Some? ==> r == Text.IntToString(b.httpCode.value)
    ensures b.message.None? && b.httpCode.None? ==> r == "Unknown Error"
    ensures b.message.Some? && b.httpCode.None? ==> r == b.message.value
    ensures b.message.Some? && b.httpCode.Some? ==> r == "HTTP " + Text.IntToString(b.httpCode.value) + ": " + b.message.value
  {
    if b.message.Some? && b.httpCode.Some? then
      "HTTP " + Text.IntToString(b.httpCode.value) + ": " + b.message.value
    else if b.message.Some? then b.message.value
    else if b.httpCode.Some? then Text.IntToString(b.httpCode.value)
    else "Unknown Error"
  }

  /** `connect(_new)`. The method re-enters itself after a valid session ticket
      (to get the bearer ticket) and after every stored ticket, so nothing
      bounds it when the platform keeps handing out expired tickets; `fuel`
      bounds the re-entries and `OutOfFuel` reports that it ran out. */
  function Connect(s: State, cfg: Config, env: Env, isNew: bool, now: int, fuel: nat): (State, Option<Error>)
    decreases fuel, 1
  {
    var s1 := Load(s);
    if s1.cooldown > now then (s1, Some(FailedToConnect("Login on cooldown")))
    else match TicketLive(s1.creds, isNew, now, env.parse)
      case Err(e) => (s1, Some(e))
      case Ok(true) =>
        if isNew then (s1, None)
        else if fuel == 0 then (s1, Some(OutOfFuel))
        else Connect(s1, cfg, env, true, now, fuel - 1)
      case Ok(false) => Handshake(s1, cfg, env, isNew, now, fuel)
  }

  /** `main.py:164-206`: the part of `connect` that runs when the ticket is
      missing or expired: take the session, POST to the sessions endpoint,
      store and save the ticket it answers with, and re-enter `connect(True)`. */
  function Handshake(s: State, cfg: Config, env: Env, isNew: bool, now: int, fuel: nat): (State, Option<Error>)
    decreases fuel, 0
  {
    var s2 := EnsureSessionValid(s, cfg, now);
    match PostHeaders(cfg, s2.creds, isNew)
    case Err(e) => (s2, Some(e))
    case Ok(headers) =>
      var reply := env.server(|s2.sent|);
      var s3 := s2.(sent := s2.sent + [Post(headers)]);
      match reply.json
      case None => (s3, Some(JsonError))
      case Some(b) =>
        if b.ticket.Some? then
          var s4 := Save(StoreTicket(s3, isNew, b));
          if fuel == 0 then (s4, Some(OutOfFuel)) else Connect(s4, cfg, env, true, now, fuel - 1)
        else (s3, Some(FailedToConnect(FailureMessage(b))))
  }

  datatype LoginOutcome = LoginOutcome(state: State, error: Option<Error>, attempts: nat)

  /** The `for`/`else` loop of `get` from attempt `i` on, with `last` the last
      `FailedToConnect` caught: up to `maxConnectRetries` calls of `connect()`,
      leaving at the first success; other errors propagate; when every attempt
      failed, `close` and raise the last error (or "Unknown Error"). `attempts`
      counts the calls of `connect` made. */
  function LoginFrom(s: State, cfg: Config, env: Env, now: int, fuel: nat, i: int, last: Option<Error>): (r: LoginOutcome)
    ensures r.attempts == 0 <==> i >= cfg.maxConnectRetries
    ensures i < cfg.maxConnectRetries ==> r.attempts <= cfg.maxConnectRetries - i
    ensures r.error.Some? && r.error.value.FailedToConnect? && i < cfg.maxConnectRetries ==>
              r.attempts == cfg.maxConnectRetries - i && !r.state.session.open && r.state.store == Some(r.state.creds)
    decreases cfg.maxConnectRetries - i
  {
    if i >= cfg.maxConnectRetries then
      var e := if last.Some? then last.value else FailedToConnect("Unknown Error");
      LoginOutcome(Close(s), Some(e), 0)
    else
      var (s1, e) := Connect(s, cfg, env, false, now, fuel);
      if e.None? then LoginOutcome(s1, None, 1)
      else if e.value.FailedToConnect? then
        var r := LoginFrom(s1, cfg, env, now, fuel, i + 1, e);
        r.(attempts := r.attempts + 1)
      else LoginOutcome(s1, e, 1)
  }

  /** The test at the head of `get`: the ticket this call uses is missing. */
  predicate NeedsLogin(c: Creds, isNew: bool) {
    (!Truthy(c.key) && !isNew) || (!Truthy(c.newKey) && isNew)
  }

  /** The seven headers `get` fills in. */
  const DefaultedHeaders: set<string> :=
    {"Authorization", "Ubi-AppId", "Ubi-LocaleCode", "Ubi-SessionId", "User-Agent", "Connection", "expiration"}

  function Lookup(h: map<string, Str>, k: string): Str {
    if k in h then h[k] else None
  }

  /** Python's `v or d`. */
  function Or(v: Str, d: Str): Str {
    if Truthy(v) then v else d
  }

  /** The default of each header `get` fills in, when it can be formed. */
  function HeaderDefault(k: string, c: Creds, cfg: Config, isNew: bool): Str {
    var ticket := if isNew then c.newKey else c.key;
    if k == "Authorization" then (if ticket.Some? then Some("Ubi_v1 t=" + ticket.value) else None)
    else if k == "Ubi-AppId" then Some(cfg.appid)
    else if k == "Ubi-LocaleCode" then Some("en-US")
    else if k == "Ubi-SessionId" then c.sessionid
    else if k == "User-Agent" then Some(UserAgent)
    else if k == "Connection" then Some("keep-alive")
    else if k == "expiration" then c.expiration
    else None
  }

  /** The header dictionary after `main.py:231-243` (see `HeaderDefaulting`
      in `AuthProperties` for what it is). */
  function DefaultHeaders(h: map<string, Str>, c: Creds, cfg: Config, isNew: bool): Result<map<string, Str>, Error> {
    var ticket := if isNew then c.newKey else c.key;
    var auth := Lookup(h, "Authorization");
    if !Truthy(auth) && ticket.None? then Err(TypeError)
    else
      var authorization := if Truthy(auth) then auth else Some("Ubi_v1 t=" + ticket.value);
      Ok(h["Authorization" := authorization]
          ["Ubi-AppId" := Or(Lookup(h, "Ubi-AppId"), Some(cfg.appid))]
          ["Ubi-LocaleCode" := Or(Lookup(h, "Ubi-LocaleCode"), Some("en-US"))]
          ["Ubi-SessionId" := Or(Lookup(h, "Ubi-SessionId"), c.sessionid)]
          ["User-Agent" := Or(Lookup(h, "User-Agent"), Some(UserAgent))]
          ["Connection" := Or(Lookup(h, "Connection"), Some("keep-alive"))]
          ["expiration" := Or(Lookup(h, "expiration"), c.expiration)])
  }

  /** How far `get` gets before it reads the reply: it failed (login or headers),
      or it issued the GET and received `reply`. */
  datatype Sending =
    | Failed(state: State, headers: map<string, Str>, error: Error)
    | Sent(state: State, headers: map<string, Str>, reply: Reply)

  /** `main.py:214-246`: log in if the ticket is missing, fill in the headers,
      take the session and issue the GET. */
  function Send(s: State, cfg: Config, env: Env, url: string, h: map<string, Str>, isNew: bool, now: int, fuel: nat): Sending {
    var login := if NeedsLogin(s.creds, isNew) then LoginFrom(s, cfg, env, now, fuel, 0, None) else LoginOutcome(s, None, 0);
    if login.error.Some? then Failed(login.state, h, login.error.value)
    else
      var s1 := login.state;
      match DefaultHeaders(h, s1.creds, cfg, isNew)
      case Err(e) => Failed(s1, h, e)
      case Ok(h1) =>
        var s2 := EnsureSessionValid(s1, cfg, now);
        Sent(s2.(sent := s2.sent + [Fetch(url, h1)]), h1, env.server(|s2.sent|))
  }

  /** The 401 branch: cooldown when the retries are used up, and the session ticket dropped. */
  function Unauthorized(s: State, cfg: Config, retries: int, now: int): (r: State)
    ensures r.creds == s.creds.(key := None)
    ensures r.cooldown == if retries >= cfg.maxConnectRetries then now + 30 else s.cooldown
    ensures r.session == s.session && r.sessionStart == s.sessionStart && r.store == s.store && r.sent == s.sent
  {
    s.(cooldown := if retries >= cfg.maxConnectRetries then now + 30 else s.cooldown, creds := s.creds.(key := None))
  }

  const NotJsonPrefix: string := "Received a text response, expected JSON response. Message: "

  /** The message of the `InvalidRequest` for a reply carrying `httpCode` other than 401. */
  function CodeMessage(b: Body, code: int, url: string): string {
    var detail :=
      if code == 404 then "Missing resource " + (if b.resource.Some? then b.resource.value else url)
      else if b.message.Some? then b.message.value else "";
    "HTTP " + Text.IntToString(code) + ": " + detail
  }

  datatype GetOutcome = GetOutcome(state: State, headers: map<string, Str>, result: Result<Response, Error>)

  /** `get(url, headers=h, retries=, json_=, new=)`. `headers` is the final
      content of the header dictionary. The 401 branch calls `get` again with
      `retries + 1`, the same dictionary, and `json_`/`new` back at their
      defaults; nothing bounds that recursion, so `fuel` does. */
  function Get(s: State, cfg: Config, env: Env, url: string, h: map<string, Str>, retries: int,
               json: bool, isNew: bool, now: int, fuel: nat): GetOutcome
    decreases fuel, 1
  {
    Respond(Send(s, cfg, env, url, h, isNew, now, fuel), cfg, env, url, retries, json, now, fuel)
  }

  /** `main.py:247-274`: what `get` makes of the reply to its GET. */
  function Respond(snd: Sending, cfg: Config, env: Env, url: string, retries: int, json: bool, now: int, fuel: nat): GetOutcome
    decreases fuel, 0
  {
    match snd
    case Failed(s1, h1, e) => GetOutcome(s1, h1, Err(e))
    case Sent(s1, h1, reply) =>
      if !json then GetOutcome(s1, h1, Ok(Raw(reply.text)))
      else match reply.json
        case None => GetOutcome(s1, h1, Err(InvalidRequest(NotJsonPrefix + Text.HtmlMessage(reply.text), 0)))
        case Some(b) =>
          match b.httpCode
          case None => GetOutcome(s1, h1, Ok(Json(b)))
          case Some(code) =>
            if code == 401 then
              var s2 := Unauthorized(s1, cfg, retries, now);
              if fuel == 0 then GetOutcome(s2, h1, Err(OutOfFuel))
              else Get(s2, cfg, env, url, h1, retries + 1, true, false, now, fuel - 1)
            else GetOutcome(s1, h1, Err(InvalidRequest(CodeMessage(b, code, url), code)))
  }
}

/** The `Auth` class of `main.py`: fields updated in place by its methods.
    Each method is proved to change the fields exactly as its function in
    `AuthModel` says: the function of the same name, except for `Login`
    (`LoginFrom`), `FillHeaders` (`DefaultHeaders`), `SaveCreds` and
    `LoadCreds` (`Save` and `Load`) and `GetSession` (`EnsureSessionValid`). */
module AuthObject {
  import opened Wrappers
  import opened AuthModel

  /** The `headers` dictionary a caller hands to `get`; `get` fills it in place
      and hands the same dictionary to its retry. */
  class HeaderDict {
    var entries: map<string, Str>

    constructor (entries: map<string, Str>)
      ensures this.entries == entries
    {
      this.entries := entries;
    }
  }

  class Auth {
    const token: string
    const appid: string
    const maxConnectRetries: int
    const refreshSessionPeriod: int

    var sessionid: Str
    var key: Str
    var newKey: Str
    var spaceid: Str
    var profileid: Str
    var userid: Str
    var expiration: Str
    var newExpiration: Str
    var loginCooldown: int
    var session: HttpSession
    var sessionStart: int
    /** The credentials file at `creds_path`; None while it does not exist. */
    var store: Option<Creds>
    /** Every request issued through `session`, in order. */
    var sent: seq<Request>

    function Cfg(): Config {
      Config(token, appid, maxConnectRetries, refreshSessionPeriod)
    }

    function Record(): Creds
      reads this
    {
      Creds(sessionid, key, newKey, spaceid, profileid, userid, expiration, newExpiration)
    }

    function Abs(): State
      reads this
    {
      State(Record(), loginCooldown, session, sessionStart, store, sent)
    }

    /** `__init__`: the token is the one given, else the basic token of the
        email and password; the app id likewise; all eight fields empty. */
    constructor (email: string, password: string, token: Str, appid: Str,
                 maxConnectRetries: int, refreshSessionPeriod: int, now: int, file: Option<Creds>)
      ensures Cfg() == Config(if Truthy(token) then token.value else BasicToken(email, password),
                              if Truthy(appid) then appid.value else DefaultAppId,
                              maxConnectRetries, refreshSessionPeriod)
      ensures Abs() == State(InitialCreds, 0, HttpSession(0, true), now, file, [])
    {
      this.session := HttpSession(0, true);
      this.maxConnectRetries := maxConnectRetries;
      this.refreshSessionPeriod := refreshSessionPeriod;
      this.token := if Truthy(token) then token.value else BasicToken(email, password);
      this.appid := if Truthy(appid) then appid.value else DefaultAppId;
      this.sessionid, this.key, this.newKey, this.spaceid := Some(""), Some(""), Some(""), Some("");
      this.profileid, this.userid, this.expiration, this.newExpiration := Some(""), Some(""), Some(""), Some("");
      this.loginCooldown := 0;
      this.sessionStart := now;
      this.store := file;
      this.sent := [];
    }

    method RefreshSession(now: int)
      modifies this`session, this`sessionStart
      ensures Abs() == AuthModel.RefreshSession(old(Abs()), now)
    {
      session := HttpSession(session.serial + 1, true);
      sessionStart := now;
    }

    /** `get_session`, with `_ensure_session_valid` inlined. */
    method GetSession(now: int) returns (current: HttpSession)
      modifies this`session, this`sessionStart
      ensures Abs() == EnsureSessionValid(old(Abs()), Cfg(), now)
      ensures current == session
    {
      if NeedsRefresh(true, refreshSessionPeriod, now - sessionStart) {
        RefreshSession(now);
      }
      current := session;
    }

    method SaveCreds()
      modifies this`store
      ensures Abs() == Save(old(Abs()))
    {
      store := Some(Record());
    }

    method LoadCreds()
      modifies this
      ensures Abs() == Load(old(Abs()))
    {
      if store.None? {
        return;
      }
      var data := store.value;
      sessionid := data.sessionid;
      key := data.key;
      newKey := data.newKey;
      spaceid := data.spaceid;
      profileid := data.profileid;
      userid := data.userid;
      expiration := data.expiration;
      newExpiration := data.newExpiration;
      loginCooldown := 0;
    }

    method Close()
      modifies this
      ensures Abs() == AuthModel.Close(old(Abs()))
    {
      SaveCreds();
      session := session.(open := false);
    }

    method Connect(env: Env, isNew: bool, now: int, fuel: nat) returns (err: Option<Error>)
      modifies this
      ensures (Abs(), err) == AuthModel.Connect(old(Abs()), Cfg(), env, isNew, now, fuel)
      decreases fuel, 1
    {
      LoadCreds();
      if loginCooldown > now {
        return Some(FailedToConnect("Login on cooldown"));
      }
      var live := if isNew then Live(newKey, newExpiration, now, env.parse) else Live(key, expiration, now, env.parse);
      if live.Err? {
        return Some(live.error);
      }
      if live.value {
        if isNew {
          return None;
        }
        if fuel == 0 {
          return Some(OutOfFuel);
        }
        err := Connect(env, true, now, fuel - 1);
        return;
      }
      err := Handshake(env, isNew, now, fuel);
    }

    /** `main.py:184-194`: copy a login reply's ticket and identifiers into the fields. */
    method StoreTicket(isNew: bool, data: Body)
      modifies this
      ensures Abs() == AuthModel.StoreTicket(old(Abs()), isNew, data)
    {
      if isNew {
        newKey := data.ticket;
        newExpiration := data.expiration;
      } else {
        key := data.ticket;
        expiration := data.expiration;
      }
      profileid := data.profileId;
      sessionid := data.sessionId;
      spaceid := data.spaceId;
      userid := data.userId;
    }

    method Handshake(env: Env, isNew: bool, now: int, fuel: nat) returns (err: Option<Error>)
      modifies this
      ensures (Abs(), err) == AuthModel.Handshake(old(Abs()), Cfg(), env, isNew, now, fuel)
      decreases fuel, 0
    {
      var _ := GetSession(now);
      var headers := map[
        "User-Agent" := UserAgent,
        "Content-Type" := "application/json; charset=UTF-8",
        "Ubi-AppId" := appid,
        "Authorization" := "Basic " + token];
      if isNew {
        if key.None? {
          return Some(TypeError);
        }
        headers := headers["Ubi-AppId" := appid];
        headers := headers["Authorization" := "Ubi_v1 t=" + key.value];
      }
      var reply := env.server(|sent|);
      sent := sent + [Post(headers)];
      if reply.json.None? {
        return Some(JsonError);
      }
      var data := reply.json.value;
      if data.ticket.None? {
        return Some(FailedToConnect(FailureMessage(data)));
      }
      StoreTicket(isNew, data);
      SaveCreds();
      if fuel == 0 {
        return Some(OutOfFuel);
      }
      err := Connect(env, true, now, fuel - 1);
    }

    /** The `for`/`else` login loop at the head of `get`. */
    method Login(env: Env, now: int, fuel: nat) returns (err: Option<Error>)
      modifies this
      ensures var r := LoginFrom(old(Abs()), Cfg(), env, now, fuel, 0, None); Abs() == r.state && err == r.error
    {
      ghost var goal := LoginFrom(Abs(), Cfg(), env, now, fuel, 0, None);
      var lastError: Option<Error> := None;
      var i := 0;
      while i < maxConnectRetries
        invariant 0 <= i
        invariant goal.state == LoginFrom(Abs(), Cfg(), env, now, fuel, i, lastError).state
        invariant goal.error == LoginFrom(Abs(), Cfg(), env, now, fuel, i, lastError).error
        decreases maxConnectRetries - i
      {
        var e := Connect(env, false, now, fuel);
        if e.None? {
          return None;
        } else if !e.value.FailedToConnect? {
          return e;
        }
        lastError := e;
        i := i + 1;
      }
      Close();
      err := Some(if lastError.Some? then lastError.value else FailedToConnect("Unknown Error"));
    }

    /** `main.py:231-243`: fill in the seven headers the caller left falsy. */
    method FillHeaders(headers: HeaderDict, isNew: bool) returns (err: Option<Error>)
      modifies headers
      ensures var d := DefaultHeaders(old(headers.entries), Record(), Cfg(), isNew);
        if d.Err? then err == Some(d.error) && headers.entries == old(headers.entries)
        else err.None? && headers.entries == d.value
    {
      var h := headers.entries;
      var ticket := if isNew then newKey else key;
      var auth := Lookup(h, "Authorization");
      if !Truthy(auth) && ticket.None? {
        return Some(TypeError);
      }
      // Each line reads a key no earlier line writes, so reading `h` is the same
      // as reading the dictionary as it is being updated.
      var authorization := if Truthy(auth) then auth else Some("Ubi_v1 t=" + ticket.value);
      var app := Or(Lookup(h, "Ubi-AppId"), Some(appid));
      var locale := Or(Lookup(h, "Ubi-LocaleCode"), Some("en-US"));
      var sid := Or(Lookup(h, "Ubi-SessionId"), sessionid);
      var agent := Or(Lookup(h, "User-Agent"), Some(UserAgent));
      var connection := Or(Lookup(h, "Connection"), Some("keep-alive"));
      var exp := Or(Lookup(h, "expiration"), expiration);
      headers.entries := h["Authorization" := authorization]["Ubi-AppId" := app]["Ubi-LocaleCode" := locale]
        ["Ubi-SessionId" := sid]["User-Agent" := agent]["Connection" := connection]["expiration" := exp];
      return None;
    }

    /** `get(url, headers=headers, retries=retries, json_=json, new=isNew)`;
        a null `headers` is a call without a `headers` argument. */
    method Get(env: Env, url: string, headers: HeaderDict?, retries: int, json: bool, isNew: bool, now: int, fuel: nat)
      returns (r: Result<Response, Error>)
      modifies this, headers
      ensures var out := AuthModel.Get(old(Abs()), Cfg(), env, url, if headers == null then map[] else old(headers.entries),
                                       retries, json, isNew, now, fuel);
        Abs() == out.state && r == out.result && (headers != null ==> headers.entries == out.headers)
      decreases fuel, 1
    {
      var dict := headers;
      if dict == null {
        dict := new HeaderDict(map[]);
      }
      var sending := Send(env, url, dict, isNew, now, fuel);
      if sending.Err? {
        return Err(sending.error);
      }
      r := Respond(env, url, dict, sending.value, retries, json, now, fuel);
    }

    /** `main.py:214-246`: log in when the ticket is missing, fill in the
        headers, take the session and issue the GET; the reply, or the error
        that stopped it. */
    method Send(env: Env, url: string, dict: HeaderDict, isNew: bool, now: int, fuel: nat)
      returns (reply: Result<Reply, Error>)
      modifies this, dict
      ensures var snd := AuthModel.Send(old(Abs()), Cfg(), env, url, old(dict.entries), isNew, now, fuel);
        Abs() == snd.state && dict.entries == snd.headers &&
        reply == (if snd.Failed? then Err(snd.error) else Ok(snd.reply))
    {
      if NeedsLogin(Record(), isNew) {
        var e := Login(env, now, fuel);
        if e.Some? {
          return Err(e.value);
        }
      }
      var e := FillHeaders(dict, isNew);
      if e.Some? {
        return Err(e.value);
      }
      var _ := GetSession(now);
      var answer := env.server(|sent|);
      sent := sent + [Fetch(url, dict.entries)];
      return Ok(answer);
    }

    /** `main.py:247-274`: what `get` makes of `reply`. */
    method Respond(env: Env, url: string, dict: HeaderDict, reply: Reply, retries: int, json: bool, now: int, fuel: nat)
      returns (r: Result<Response, Error>)
      modifies this, dict
      ensures var out := AuthModel.Respond(Sent(old(Abs()), old(dict.entries), reply), Cfg(), env, url, retries, json, now, fuel);
        Abs() == out.state && r == out.result && dict.entries == out.headers
      decreases fuel, 0
    {
      if !json {
        return Ok(Raw(reply.text));
      }
      if reply.json.None? {
        return Err(InvalidRequest(NotJsonPrefix + Text.HtmlMessage(reply.text), 0));
      }
      var data := reply.json.value;
      if data.httpCode.None? {
        return Ok(Json(data));
      }
      var code := data.httpCode.value;
      if code != 401 {
        return Err(InvalidRequest(CodeMessage(data, code, url), code));
      }
      if retries >= maxConnectRetries {
        loginCooldown := now + 30;
      }
      key := None;
      if fuel == 0 {
        return Err(OutOfFuel);
      }
      r := Get(env, url, dict, retries + 1, true, false, now, fuel - 1);
    }
  }
}

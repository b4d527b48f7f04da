/** What the `Auth` model promises, stated about the functions of `AuthModel`. */
module AuthProperties {
  import opened Wrappers
  import opened AuthModel
  import Text
  import Utf8
  import Base64

  /** Both tickets of a credentials record are present and unexpired at `now`. */
  predicate StoredTicketsLive(c: Creds, now: int, parse: string -> Option<int>) {
    TicketLive(c, false, now, parse) == Ok(true) && TicketLive(c, true, now, parse) == Ok(true)
  }

  /** The platform answers every request with a JSON body carrying `httpCode` 401. */
  ghost predicate AlwaysUnauthorized(env: Env) {
    forall k: nat :: env.server(k).json.Some? && env.server(k).json.value.httpCode == Some(401)
  }

  /** With a credentials file whose tickets are both live, the login loop of
      `get` succeeds on its first `connect()` without a POST, the fields being
      the file's record and the cooldown zero. */
  lemma LoginFromLiveFile(s: State, cfg: Config, env: Env, now: int, fuel: nat)
    requires s.store.Some? && StoredTicketsLive(s.store.value, now, env.parse)
    requires cfg.maxConnectRetries >= 1 && now >= 0
    ensures var r := LoginFrom(s, cfg, env, now, fuel, 0, None);
      if fuel == 0 then r.error == Some(OutOfFuel) else r.error.None? && r.state == Load(s)
  {
    var s1 := Load(s);
    assert Load(s1) == s1;
    if fuel > 0 {
      assert Connect(s1, cfg, env, true, now, fuel - 1) == (s1, None);
    }
  }

  /** The first half of `get` under the same conditions: out of fuel in the
      login, or the GET issued with the file still in place. */
  lemma SendWithLiveFile(s: State, cfg: Config, env: Env, url: string, h: map<string, Str>, isNew: bool, now: int, fuel: nat)
    requires s.store.Some? && StoredTicketsLive(s.store.value, now, env.parse)
    requires cfg.maxConnectRetries >= 1 && now >= 0
    ensures var snd := Send(s, cfg, env, url, h, isNew, now, fuel);
      (snd.Failed? ==> fuel == 0 && snd.error == OutOfFuel) && snd.state.store == s.store
  {
    if NeedsLogin(s.creds, isNew) {
      LoginFromLiveFile(s, cfg, env, now, fuel);
    }
  }

  /** `main.py:146` against `main.py:259-265`: the 30-second cooldown set once
      the retries are used up is zeroed by the `load_creds` at the head of the
      next `connect`, so with a credentials file holding tickets that stay
      live and a platform that keeps answering 401, `get` does not stop:
      whatever bound is put on its recursion is reached, and the cooldown
      plays no part. This rests on the single clock reading `now` that the
      model gives one call of `get`; in the running program the clock moves
      on, so the tickets expire in the end, and the interpreter's recursion
      limit stops the chain as well. */
  lemma {:induction false} UnauthorizedLoopNeverEnds(
    s: State, cfg: Config, env: Env, url: string, h: map<string, Str>,
    retries: int, isNew: bool, now: int, fuel: nat)
    requires s.store.Some? && StoredTicketsLive(s.store.value, now, env.parse)
    requires AlwaysUnauthorized(env)
    requires cfg.maxConnectRetries >= 1 && now >= 0
    ensures Get(s, cfg, env, url, h, retries, true, isNew, now, fuel).result == Err(OutOfFuel)
    decreases fuel
  {
    var snd := Send(s, cfg, env, url, h, isNew, now, fuel);
    SendWithLiveFile(s, cfg, env, url, h, isNew, now, fuel);
    if snd.Sent? && fuel > 0 {
      var s2 := Unauthorized(snd.state, cfg, retries, now);
      assert snd.reply.json.value.httpCode == Some(401);
      UnauthorizedLoopNeverEnds(s2, cfg, env, url, snd.headers, retries + 1, false, now, fuel - 1);
    }
  }

  // ---------------------------------------------------------------------
  // get_basic_token

  /** `main.py:40-41`: decoding the token as Base64 and then as UTF-8 gives
      back `email:password`. */
  lemma BasicTokenRoundTrip(email: string, password: string)
    ensures var bytes := Base64.Decode(BasicToken(email, password));
      bytes.Some? && Utf8.Decode(bytes.value) == Some(email + ":" + password)
  {
    Utf8.DecodeEncode(email + ":" + password);
  }

  /** The token is the only Base64 text that decodes to those bytes. */
  lemma BasicTokenUnique(email: string, password: string, t: string)
    requires Base64.Decode(t) == Some(Utf8.Encode(email + ":" + password))
    ensures t == BasicToken(email, password)
  {
    Base64.EncodeDecode(t, Utf8.Encode(email + ":" + password));
  }

  // ---------------------------------------------------------------------
  // save_creds, load_creds, close, the session

  /** `load_creds` after `save_creds` restores every field and zeroes the cooldown. */
  lemma SaveLoadRoundTrip(s: State)
    ensures Load(Save(s)) == Save(s).(cooldown := 0)
  {
  }

  /** Without a file `load_creds` changes nothing. */
  lemma LoadWithoutFile(s: State)
    ensures s.store.None? ==> Load(s) == s
  {
  }

  /** `close` saves the fields and closes the session, and nothing else. */
  lemma CloseSaves(s: State)
    ensures Close(s).store == Some(s.creds) && !Close(s).session.open
    ensures Close(s).creds == s.creds && Close(s).sent == s.sent && Close(s).cooldown == s.cooldown
  {
  }

  /** `main.py:83-98`: the session is replaced, and its start set to now,
      exactly when `0 <= period <= elapsed`; otherwise nothing changes. */
  lemma SessionRefreshRule(s: State, cfg: Config, now: int)
    ensures var r := EnsureSessionValid(s, cfg, now);
      if 0 <= cfg.refreshSessionPeriod <= now - s.sessionStart
      then r.session == HttpSession(s.session.serial + 1, true) && r.sessionStart == now
           && r.creds == s.creds && r.store == s.store && r.sent == s.sent && r.cooldown == s.cooldown
      else r == s
  {
  }

  // ---------------------------------------------------------------------
  // connect

  /** `main.py:150-153`: on cooldown (after the reload) `connect` raises at
      once: no POST, nothing saved. */
  lemma ConnectOnCooldown(s: State, cfg: Config, env: Env, isNew: bool, now: int, fuel: nat)
    requires Load(s).cooldown > now
    ensures var (r, e) := Connect(s, cfg, env, isNew, now, fuel);
      e == Some(FailedToConnect("Login on cooldown")) && r == Load(s) && r.sent == s.sent && r.store == s.store
  {
  }

  /** `main.py:146`: while the credentials file exists, the cooldown the object
      holds makes no difference to `connect`. */
  lemma ConnectIgnoresCooldownWithFile(s: State, cfg: Config, env: Env, isNew: bool, now: int, fuel: nat, cooldown: int)
    requires s.store.Some?
    ensures Connect(s, cfg, env, isNew, now, fuel) == Connect(s.(cooldown := cooldown), cfg, env, isNew, now, fuel)
  {
    assert Load(s) == Load(s.(cooldown := cooldown));
  }

  /** `main.py:159-162`: a live session ticket only chains to `connect(True)`. */
  lemma ConnectWithLiveSessionTicket(s: State, cfg: Config, env: Env, now: int, fuel: nat)
    requires Load(s).cooldown <= now && TicketLive(Load(s).creds, false, now, env.parse) == Ok(true)
    ensures Connect(s, cfg, env, false, now, fuel) ==
      if fuel == 0 then (Load(s), Some(OutOfFuel)) else Connect(Load(s), cfg, env, true, now, fuel - 1)
  {
  }

  /** `main.py:156-158`: a live bearer ticket makes `connect(True)` return at once. */
  lemma ConnectWithLiveBearerTicket(s: State, cfg: Config, env: Env, now: int, fuel: nat)
    requires Load(s).cooldown <= now && TicketLive(Load(s).creds, true, now, env.parse) == Ok(true)
    ensures Connect(s, cfg, env, true, now, fuel) == (Load(s), None)
  {
  }

  /** With both tickets live, `connect()` succeeds without a POST and without
      writing the file. */
  lemma ConnectBothLiveIsQuiet(s: State, cfg: Config, env: Env, now: int, fuel: nat)
    requires Load(s).cooldown <= now && StoredTicketsLive(Load(s).creds, now, env.parse)
    requires fuel >= 1
    ensures Connect(s, cfg, env, false, now, fuel) == (Load(s), None)
  {
    assert Load(Load(s)) == Load(s);
  }

  predicate PostsOnly(rs: seq<Request>) {
    forall i :: 0 <= i < |rs| ==> rs[i].Post?
  }

  /** What `connect` can do: append POSTs (at most one per re-entry), and,
      while a credentials file exists, leave the fields equal to it; what it
      raises is never `InvalidRequest`. */
  lemma {:induction false} ConnectEffects(s: State, cfg: Config, env: Env, isNew: bool, now: int, fuel: nat)
    ensures var e := Connect(s, cfg, env, isNew, now, fuel).1; e.Some? ==> !e.value.InvalidRequest?
    ensures var r := Connect(s, cfg, env, isNew, now, fuel).0;
      s.sent <= r.sent && |r.sent| <= |s.sent| + fuel + 1 && PostsOnly(r.sent[|s.sent|..])
      && (s.store.Some? ==> r.store == Some(r.creds))
    decreases fuel, 1
  {
    var s1 := Load(s);
    assert s1.sent == s.sent && s1.store == s.store;
    if s1.cooldown <= now {
      match TicketLive(s1.creds, isNew, now, env.parse)
      case Err(_) =>
      case Ok(true) =>
        if !isNew && fuel > 0 {
          ConnectEffects(s1, cfg, env, true, now, fuel - 1);
        }
      case Ok(false) =>
        HandshakeEffects(s1, cfg, env, isNew, now, fuel);
    }
  }

  lemma {:induction false} HandshakeEffects(s: State, cfg: Config, env: Env, isNew: bool, now: int, fuel: nat)
    requires s.store.Some? ==> s.store == Some(s.creds)
    ensures var e := Handshake(s, cfg, env, isNew, now, fuel).1; e.Some? ==> !e.value.InvalidRequest?
    ensures var r := Handshake(s, cfg, env, isNew, now, fuel).0;
      s.sent <= r.sent && |r.sent| <= |s.sent| + fuel + 1 && PostsOnly(r.sent[|s.sent|..])
      && (s.store.Some? ==> r.store == Some(r.creds))
    decreases fuel, 0
  {
    var s2 := EnsureSessionValid(s, cfg, now);
    match PostHeaders(cfg, s2.creds, isNew)
    case Err(_) =>
      assert s2.sent[|s.sent|..] == [];
    case Ok(headers) =>
      var reply := env.server(|s2.sent|);
      var s3 := s2.(sent := s2.sent + [Post(headers)]);
      assert s3.sent[|s.sent|..] == [Post(headers)];
      match reply.json
      case None =>
      case Some(b) =>
        if b.ticket.Some? {
          var s4 := Save(StoreTicket(s3, isNew, b));
          if fuel > 0 {
            ConnectEffects(s4, cfg, env, true, now, fuel - 1);
            var r := Connect(s4, cfg, env, true, now, fuel - 1).0;
            assert r.sent[|s.sent|..] == [Post(headers)] + r.sent[|s4.sent|..];
          }
        }
  }

  /** The bearer step never touches the session ticket when the fields are
      the file's record, or when there is no file. */
  lemma {:induction false} BearerStepKeepsSessionTicket(s: State, cfg: Config, env: Env, now: int, fuel: nat)
    requires s.store.None? || s.store == Some(s.creds)
    ensures var r := Connect(s, cfg, env, true, now, fuel).0;
      r.creds.key == s.creds.key && r.creds.expiration == s.creds.expiration
    decreases fuel, 1
  {
    var s1 := Load(s);
    if s1.cooldown <= now && TicketLive(s1.creds, true, now, env.parse) == Ok(false) {
      BearerHandshakeKeepsSessionTicket(s1, cfg, env, now, fuel);
    }
  }

  lemma {:induction false} BearerHandshakeKeepsSessionTicket(s: State, cfg: Config, env: Env, now: int, fuel: nat)
    requires s.store.None? || s.store == Some(s.creds)
    ensures var r := Handshake(s, cfg, env, true, now, fuel).0;
      r.creds.key == s.creds.key && r.creds.expiration == s.creds.expiration
    decreases fuel, 0
  {
    var s2 := EnsureSessionValid(s, cfg, now);
    if s2.creds.key.Some? {
      var headers := PostHeaders(cfg, s2.creds, true).value;
      var reply := env.server(|s2.sent|);
      var s3 := s2.(sent := s2.sent + [Post(headers)]);
      if reply.json.Some? && reply.json.value.ticket.Some? && fuel > 0 {
        var s4 := Save(StoreTicket(s3, true, reply.json.value));
        BearerStepKeepsSessionTicket(s4, cfg, env, now, fuel - 1);
      }
    }
  }

  /** `main.py:184-194,205-206` for the session ticket: a login reply with a
      ticket ends with that ticket and its expiry in `key`/`expiration` and in
      the file, whatever the bearer step that follows does. */
  lemma SessionLoginStoresTicket(s: State, cfg: Config, env: Env, now: int, fuel: nat)
    requires fuel > 0
    requires var b := env.server(|EnsureSessionValid(s, cfg, now).sent|).json; b.Some? && b.value.ticket.Some?
    ensures var b := env.server(|EnsureSessionValid(s, cfg, now).sent|).json.value;
      var r := Handshake(s, cfg, env, false, now, fuel).0;
      r.creds.key == b.ticket && r.creds.expiration == b.expiration && r.store == Some(r.creds)
  {
    var s2 := EnsureSessionValid(s, cfg, now);
    var headers := PostHeaders(cfg, s2.creds, false).value;
    var b := env.server(|s2.sent|).json.value;
    var s3 := s2.(sent := s2.sent + [Post(headers)]);
    var s4 := Save(StoreTicket(s3, false, b));
    BearerStepKeepsSessionTicket(s4, cfg, env, now, fuel - 1);
    ConnectEffects(s4, cfg, env, true, now, fuel - 1);
  }

  /** `main.py:184-187,205-206` for the bearer ticket: when the ticket received
      is live, the re-entered `connect(True)` returns at once, leaving it in
      `new_key`/`new_expiration` and in the file after exactly one POST. */
  lemma BearerLoginStoresTicket(s: State, cfg: Config, env: Env, now: int, fuel: nat)
    requires fuel > 0 && now >= 0 && s.creds.key.Some?
    requires var b := env.server(|EnsureSessionValid(s, cfg, now).sent|).json;
      b.Some? && b.value.ticket.Some? && Live(b.value.ticket, b.value.expiration, now, env.parse) == Ok(true)
    ensures var b := env.server(|EnsureSessionValid(s, cfg, now).sent|).json.value;
      var (r, e) := Handshake(s, cfg, env, true, now, fuel);
      e.None? && r.creds.newKey == b.ticket && r.creds.newExpiration == b.expiration
      && r.store == Some(r.creds) && |r.sent| == |s.sent| + 1
  {
    var s2 := EnsureSessionValid(s, cfg, now);
    var headers := PostHeaders(cfg, s2.creds, true).value;
    var b := env.server(|s2.sent|).json.value;
    var s3 := s2.(sent := s2.sent + [Post(headers)]);
    var s4 := Save(StoreTicket(s3, true, b));
    assert Load(s4) == s4.(cooldown := 0);
  }

  /** `main.py:195-203`: a login reply without a ticket raises
      `FailedToConnect` with `FailureMessage`, after the one POST, with the
      fields and the file as they were. */
  lemma LoginReplyWithoutTicket(s: State, cfg: Config, env: Env, isNew: bool, now: int, fuel: nat)
    requires !isNew || s.creds.key.Some?
    requires var b := env.server(|EnsureSessionValid(s, cfg, now).sent|).json; b.Some? && b.value.ticket.None?
    ensures var b := env.server(|EnsureSessionValid(s, cfg, now).sent|).json.value;
      var (r, e) := Handshake(s, cfg, env, isNew, now, fuel);
      e == Some(FailedToConnect(FailureMessage(b))) && r.creds == s.creds && r.store == s.store
      && |r.sent| == |s.sent| + 1 && r.sent[|s.sent|].Post?
  {
  }

  // ---------------------------------------------------------------------
  // The login loop of get

  /** `main.py:216,222-229` with `max_connect_retries <= 0`: no attempt, then
      `close` and "Unknown Error". */
  lemma LoginWithoutAttempts(s: State, cfg: Config, env: Env, now: int, fuel: nat)
    requires cfg.maxConnectRetries <= 0
    ensures LoginFrom(s, cfg, env, now, fuel, 0, None) == LoginOutcome(Close(s), Some(FailedToConnect("Unknown Error")), 0)
  {
  }

  /** Without a credentials file the cooldown holds: every attempt fails with
      "Login on cooldown" and no POST, and the loop ends with `close`. */
  lemma {:induction false} LoginOnCooldownWithoutFile(s: State, cfg: Config, env: Env, now: int, fuel: nat, i: int, last: Option<Error>)
    requires s.store.None? && s.cooldown > now && i < cfg.maxConnectRetries
    ensures LoginFrom(s, cfg, env, now, fuel, i, last) ==
      LoginOutcome(Close(s), Some(FailedToConnect("Login on cooldown")), cfg.maxConnectRetries - i)
    decreases cfg.maxConnectRetries - i
  {
    var e := Some(FailedToConnect("Login on cooldown"));
    assert Connect(s, cfg, env, false, now, fuel) == (s, e);
    if i + 1 < cfg.maxConnectRetries {
      LoginOnCooldownWithoutFile(s, cfg, env, now, fuel, i + 1, e);
    }
  }

  /** `main.py:218-219`: the loop leaves at the first `connect()` that
      succeeds, after one attempt and with nothing raised. */
  lemma LoginStopsAtFirstSuccess(s: State, cfg: Config, env: Env, now: int, fuel: nat, i: int, last: Option<Error>)
    requires i < cfg.maxConnectRetries && Connect(s, cfg, env, false, now, fuel).1.None?
    ensures LoginFrom(s, cfg, env, now, fuel, i, last) == LoginOutcome(Connect(s, cfg, env, false, now, fuel).0, None, 1)
  {
  }

  /** `main.py:220-221`: an error caught by an earlier attempt is forgotten as
      long as attempts remain; only the one caught last can be raised. */
  lemma LoginForgetsEarlierErrors(s: State, cfg: Config, env: Env, now: int, fuel: nat, i: int, last: Option<Error>, last': Option<Error>)
    requires i < cfg.maxConnectRetries
    ensures LoginFrom(s, cfg, env, now, fuel, i, last) == LoginFrom(s, cfg, env, now, fuel, i, last')
  {
  }

  /** `main.py:220-227`: when the final attempt fails with `FailedToConnect`,
      the loop closes the object (saving the fields) and raises that error. */
  lemma LoginRaisesLastError(s: State, cfg: Config, env: Env, now: int, fuel: nat, last: Option<Error>, s1: State, m: string)
    requires Connect(s, cfg, env, false, now, fuel) == (s1, Some(FailedToConnect(m)))
    ensures LoginFrom(s, cfg, env, now, fuel, cfg.maxConnectRetries - 1, last) ==
      LoginOutcome(Close(s1), Some(FailedToConnect(m)), 1)
  {
  }

  /** The login loop issues POSTs only, and never raises `InvalidRequest`. */
  lemma {:induction false} LoginEffects(s: State, cfg: Config, env: Env, now: int, fuel: nat, i: int, last: Option<Error>)
    requires last.Some? ==> !last.value.InvalidRequest?
    ensures var e := LoginFrom(s, cfg, env, now, fuel, i, last).error; e.Some? ==> !e.value.InvalidRequest?
    ensures var r := LoginFrom(s, cfg, env, now, fuel, i, last).state;
      s.sent <= r.sent && PostsOnly(r.sent[|s.sent|..])
    decreases cfg.maxConnectRetries - i
  {
    if i >= cfg.maxConnectRetries {
      assert Close(s).sent[|s.sent|..] == [];
    } else {
      var (s1, e) := Connect(s, cfg, env, false, now, fuel);
      ConnectEffects(s, cfg, env, false, now, fuel);
      if e.Some? && e.value.FailedToConnect? {
        LoginEffects(s1, cfg, env, now, fuel, i + 1, e);
        var r := LoginFrom(s1, cfg, env, now, fuel, i + 1, e).state;
        assert r.sent[|s.sent|..] == s1.sent[|s.sent|..] + r.sent[|s1.sent|..];
      }
    }
  }

  // ---------------------------------------------------------------------
  // Which states the object can reach

  /** A ticket or a nonzero cooldown is only ever held while the credentials
      file exists. Nothing in the class removes the file, so only a removal
      from outside the process can break this. */
  predicate FileBacked(s: State) {
    (Truthy(s.creds.key) || Truthy(s.creds.newKey) || s.cooldown != 0) ==> s.store.Some?
  }

  /** `main.py:56-81`: a new object holds empty fields and no cooldown, so it
      is file-backed whether or not the file exists. */
  lemma InitialFileBacked(now: int, file: Option<Creds>)
    ensures FileBacked(State(InitialCreds, 0, HttpSession(0, true), now, file, []))
  {
  }

  /** `main.py:148-206`: `connect` keeps the object file-backed (every stored
      ticket is saved at once), never removes the file, and succeeds only
      with a truthy bearer ticket. */
  lemma {:induction false} ConnectFileBacked(s: State, cfg: Config, env: Env, isNew: bool, now: int, fuel: nat)
    requires FileBacked(s)
    ensures var (r, e) := Connect(s, cfg, env, isNew, now, fuel);
      FileBacked(r) && (s.store.Some? ==> r.store.Some?) && (e.None? ==> Truthy(r.creds.newKey))
    decreases fuel, 1
  {
    var s1 := Load(s);
    if s1.cooldown <= now && TicketLive(s1.creds, isNew, now, env.parse) == Ok(false) {
      HandshakeFileBacked(s1, cfg, env, isNew, now, fuel);
    } else if s1.cooldown <= now && TicketLive(s1.creds, isNew, now, env.parse) == Ok(true) && !isNew && fuel > 0 {
      ConnectFileBacked(s1, cfg, env, true, now, fuel - 1);
    }
  }

  lemma {:induction false} HandshakeFileBacked(s: State, cfg: Config, env: Env, isNew: bool, now: int, fuel: nat)
    requires FileBacked(s)
    ensures var (r, e) := Handshake(s, cfg, env, isNew, now, fuel);
      FileBacked(r) && (s.store.Some? ==> r.store.Some?) && (e.None? ==> Truthy(r.creds.newKey))
    decreases fuel, 0
  {
    var s2 := EnsureSessionValid(s, cfg, now);
    var reply := env.server(|s2.sent|);
    if PostHeaders(cfg, s2.creds, isNew).Ok? && reply.json.Some? && reply.json.value.ticket.Some? && fuel > 0 {
      var s3 := s2.(sent := s2.sent + [Post(PostHeaders(cfg, s2.creds, isNew).value)]);
      ConnectFileBacked(Save(StoreTicket(s3, isNew, reply.json.value)), cfg, env, true, now, fuel - 1);
    }
  }

  /** `main.py:214-229`: the login loop keeps the object file-backed, and
      succeeds only with a truthy bearer ticket. */
  lemma {:induction false} LoginFileBacked(s: State, cfg: Config, env: Env, now: int, fuel: nat, i: int, last: Option<Error>)
    requires FileBacked(s)
    ensures var r := LoginFrom(s, cfg, env, now, fuel, i, last);
      FileBacked(r.state) && (r.error.None? ==> Truthy(r.state.creds.newKey))
    decreases cfg.maxConnectRetries - i
  {
    if i < cfg.maxConnectRetries {
      ConnectFileBacked(s, cfg, env, false, now, fuel);
      var (s1, e) := Connect(s, cfg, env, false, now, fuel);
      if e.Some? && e.value.FailedToConnect? {
        LoginFileBacked(s1, cfg, env, now, fuel, i + 1, e);
      }
    }
  }

  /** `main.py:214-246`: from a file-backed state the GET is issued only while
      the file exists. */
  lemma SendFileBacked(s: State, cfg: Config, env: Env, url: string, h: map<string, Str>, isNew: bool, now: int, fuel: nat)
    requires FileBacked(s)
    ensures var snd := Send(s, cfg, env, url, h, isNew, now, fuel);
      FileBacked(snd.state) && (snd.Sent? ==> snd.state.store.Some?)
  {
    if NeedsLogin(s.creds, isNew) {
      LoginFileBacked(s, cfg, env, now, fuel, 0, None);
    }
  }

  /** `main.py:213-274`: `get` keeps the object file-backed; in particular the
      401 branch sets the cooldown only while the file exists. */
  lemma {:induction false} GetFileBacked(s: State, cfg: Config, env: Env, url: string, h: map<string, Str>,
                                         retries: int, json: bool, isNew: bool, now: int, fuel: nat)
    requires FileBacked(s)
    ensures FileBacked(Get(s, cfg, env, url, h, retries, json, isNew, now, fuel).state)
    decreases fuel
  {
    SendFileBacked(s, cfg, env, url, h, isNew, now, fuel);
    var snd := Send(s, cfg, env, url, h, isNew, now, fuel);
    if snd.Sent? && json && snd.reply.json.Some? && snd.reply.json.value.httpCode == Some(401) && fuel > 0 {
      GetFileBacked(Unauthorized(snd.state, cfg, retries, now), cfg, env, url, snd.headers, retries + 1, true, false, now, fuel - 1);
    }
  }

  /** `main.py:146-153`: in a file-backed state the cooldown check of
      `connect` never fires (for a clock past the epoch), since a nonzero
      cooldown means the file exists and `load_creds` zeroes it. */
  lemma CooldownNeverFiresWhenFileBacked(s: State, now: int)
    requires FileBacked(s) && now >= 0
    ensures Load(s).cooldown <= now
  {
  }

  // ---------------------------------------------------------------------
  // Header defaulting

  /** `main.py:231-234`: `TypeError` exactly when neither the caller nor the
      object has the ticket the call uses. */
  lemma HeaderDefaultingFails(h: map<string, Str>, c: Creds, cfg: Config, isNew: bool)
    ensures var ticket := if isNew then c.newKey else c.key;
      DefaultHeaders(h, c, cfg, isNew).Err? <==> !Truthy(Lookup(h, "Authorization")) && ticket.None?
    ensures var d := DefaultHeaders(h, c, cfg, isNew);
      d.Err? ==> d.error == TypeError
  {
  }

  /** `main.py:237-243`: otherwise the seven headers are added, each keeping
      the caller's value when it is truthy and taking its default otherwise,
      and every other header is left as it was. */
  lemma HeaderDefaulting(h: map<string, Str>, c: Creds, cfg: Config, isNew: bool)
    requires DefaultHeaders(h, c, cfg, isNew).Ok?
    ensures var d := DefaultHeaders(h, c, cfg, isNew).value;
      d.Keys == h.Keys + DefaultedHeaders
      && (forall k :: k in DefaultedHeaders && Truthy(Lookup(h, k)) ==> d[k] == h[k])
      && (forall k :: k in DefaultedHeaders && !Truthy(Lookup(h, k)) ==> d[k] == HeaderDefault(k, c, cfg, isNew))
  {
  }

  lemma HeaderDefaultingKeepsOthers(h: map<string, Str>, c: Creds, cfg: Config, isNew: bool)
    requires DefaultHeaders(h, c, cfg, isNew).Ok?
    ensures var d := DefaultHeaders(h, c, cfg, isNew).value;
      forall k :: k in h && k !in DefaultedHeaders ==> k in d && d[k] == h[k]
  {
  }

  /** `main.py:234,265`: the dictionary filled in by one call is passed to the
      retry, so its `Authorization` header, now truthy, is sent again whatever
      the tickets have become. */
  lemma RetryKeepsAuthorization(h: map<string, Str>, c: Creds, c': Creds, cfg: Config, isNew: bool, isNew': bool)
    requires DefaultHeaders(h, c, cfg, isNew).Ok?
    ensures var h1 := DefaultHeaders(h, c, cfg, isNew).value;
      Truthy(Lookup(h1, "Authorization"))
      && DefaultHeaders(h1, c', cfg, isNew').Ok?
      && Lookup(DefaultHeaders(h1, c', cfg, isNew').value, "Authorization") == Lookup(h1, "Authorization")
  {
  }

  // ---------------------------------------------------------------------
  // get: the reply

  /** `main.py:248-255`: a text reply to a JSON request whose heading is
      `<h1>m</h1>` raises `InvalidRequest` (code 0) carrying `m`. */
  lemma RespondHtmlHeading(s: State, h: map<string, Str>, before: string, m: string, after: string,
                           cfg: Config, env: Env, url: string, retries: int, now: int, fuel: nat)
    requires !Text.Contains(before, "h1>") && !Text.Contains(m, "h1>")
    ensures Respond(Sent(s, h, Reply(before + "<h1>" + m + "</h1>" + after, None)), cfg, env, url, retries, true, now, fuel)
         == GetOutcome(s, h, Err(InvalidRequest(NotJsonPrefix + m, 0)))
  {
    Text.HtmlMessageOfHeading(before, m, after);
  }

  /** ... and a text reply without "h1>" is carried whole. */
  lemma RespondPlainText(s: State, h: map<string, Str>, text: string,
                         cfg: Config, env: Env, url: string, retries: int, now: int, fuel: nat)
    requires !Text.Contains(text, "h1>")
    ensures Respond(Sent(s, h, Reply(text, None)), cfg, env, url, retries, true, now, fuel)
         == GetOutcome(s, h, Err(InvalidRequest(NotJsonPrefix + text, 0)))
  {
  }

  /** `main.py:266-270`: any other `httpCode` raises `InvalidRequest` with that
      code and a message "HTTP <code>: ...", with nothing changed. */
  lemma RespondRejectsCode(s: State, h: map<string, Str>, text: string, b: Body,
                           cfg: Config, env: Env, url: string, retries: int, now: int, fuel: nat)
    requires b.httpCode.Some? && b.httpCode.value != 401
    ensures var out := Respond(Sent(s, h, Reply(text, Some(b))), cfg, env, url, retries, true, now, fuel);
      out == GetOutcome(s, h, Err(InvalidRequest(CodeMessage(b, b.httpCode.value, url), b.httpCode.value)))
      && "HTTP " + Text.IntToString(b.httpCode.value) + ": " <= CodeMessage(b, b.httpCode.value, url)
  {
    var code := b.httpCode.value;
    var detail :=
      if code == 404 then "Missing resource " + (if b.resource.Some? then b.resource.value else url)
      else if b.message.Some? then b.message.value else "";
    assert CodeMessage(b, code, url) == "HTTP " + Text.IntToString(code) + ": " + detail;
  }

  /** `main.py:267-269`: the 404 message names the resource, or the URL when
      the body has none; other codes carry the body's message or nothing. */
  lemma CodeMessageDetail(b: Body, code: int, url: string)
    ensures code == 404 ==>
      CodeMessage(b, code, url) == "HTTP 404: Missing resource " + (if b.resource.Some? then b.resource.value else url)
    ensures code != 404 ==>
      CodeMessage(b, code, url) == "HTTP " + Text.IntToString(code) + ": " + (if b.message.Some? then b.message.value else "")
  {
    assert Text.NatToString(4) == "4";
    assert Text.NatToString(40) == "40";
    assert Text.NatToString(404) == "404";
  }

  /** `main.py:257,272`: a JSON body without `httpCode` is returned as it came. */
  lemma RespondPassesBody(s: State, h: map<string, Str>, text: string, b: Body,
                          cfg: Config, env: Env, url: string, retries: int, now: int, fuel: nat)
    requires b.httpCode.None?
    ensures Respond(Sent(s, h, Reply(text, Some(b))), cfg, env, url, retries, true, now, fuel) == GetOutcome(s, h, Ok(Json(b)))
  {
  }

  /** `main.py:258-265`: a 401 clears `key` (for `new` too), sets the cooldown
      when the retries are used up, and calls `get` again with `retries + 1`,
      the same header dictionary, `json_` true and `new` false. */
  lemma RespondUnauthorized(s: State, h: map<string, Str>, text: string, b: Body,
                            cfg: Config, env: Env, url: string, retries: int, json: bool, now: int, fuel: nat)
    requires json && b.httpCode == Some(401) && fuel > 0
    ensures var s2 := s.(creds := s.creds.(key := None),
                         cooldown := if retries >= cfg.maxConnectRetries then now + 30 else s.cooldown);
      Respond(Sent(s, h, Reply(text, Some(b))), cfg, env, url, retries, json, now, fuel)
        == Get(s2, cfg, env, url, h, retries + 1, true, false, now, fuel - 1)
  {
  }

  /** What `get` can return: text only when JSON was not asked for, a JSON body
      only when it has no `httpCode`, and `InvalidRequest` never for 401. */
  lemma {:induction false} GetResultShape(s: State, cfg: Config, env: Env, url: string, h: map<string, Str>,
                                          retries: int, json: bool, isNew: bool, now: int, fuel: nat)
    ensures var r := Get(s, cfg, env, url, h, retries, json, isNew, now, fuel).result;
      (r.Ok? ==> (r.value.Raw? <==> !json))
      && (r.Ok? && r.value.Json? ==> r.value.body.httpCode.None?)
      && (r.Err? && r.error.InvalidRequest? ==> r.error.code != 401)
    decreases fuel
  {
    if NeedsLogin(s.creds, isNew) {
      LoginEffects(s, cfg, env, now, fuel, 0, None);
    }
    var snd := Send(s, cfg, env, url, h, isNew, now, fuel);
    if snd.Sent? && json && snd.reply.json.Some? && snd.reply.json.value.httpCode == Some(401) && fuel > 0 {
      var s2 := Unauthorized(snd.state, cfg, retries, now);
      GetResultShape(s2, cfg, env, url, snd.headers, retries + 1, true, false, now, fuel - 1);
    }
  }

  /** `main.py:214-246`: the first half of `get` appends only POSTs when it
      fails, and otherwise POSTs followed by exactly one GET carrying the
      filled-in dictionary. */
  lemma SendRequests(s: State, cfg: Config, env: Env, url: string, h: map<string, Str>,
                     isNew: bool, now: int, fuel: nat)
    ensures var snd := Send(s, cfg, env, url, h, isNew, now, fuel);
      s.sent <= snd.state.sent
      && (snd.Failed? ==> PostsOnly(snd.state.sent[|s.sent|..]))
      && (snd.Sent? ==> |snd.state.sent| > |s.sent|
                        && PostsOnly(snd.state.sent[|s.sent|..|snd.state.sent| - 1])
                        && snd.state.sent[|snd.state.sent| - 1] == Fetch(url, snd.headers))
  {
    var login := if NeedsLogin(s.creds, isNew) then LoginFrom(s, cfg, env, now, fuel, 0, None) else LoginOutcome(s, None, 0);
    var s1 := login.state;
    if NeedsLogin(s.creds, isNew) {
      LoginEffects(s, cfg, env, now, fuel, 0, None);
    }
    assert s.sent <= s1.sent && PostsOnly(s1.sent[|s.sent|..]);
    var snd := Send(s, cfg, env, url, h, isNew, now, fuel);
    if snd.Sent? {
      var h1 := DefaultHeaders(h, s1.creds, cfg, isNew).value;
      assert snd.headers == h1;
      assert snd.state.sent == s1.sent + [Fetch(url, h1)];
      assert snd.state.sent[|s.sent|..|snd.state.sent| - 1] == s1.sent[|s.sent|..];
    }
  }

  /** ... and the one GET carries the caller's `Authorization` when truthy. */
  lemma SendKeepsAuthorization(s: State, cfg: Config, env: Env, url: string, h: map<string, Str>,
                               isNew: bool, now: int, fuel: nat)
    requires Truthy(Lookup(h, "Authorization"))
    ensures var snd := Send(s, cfg, env, url, h, isNew, now, fuel);
      s.sent <= snd.state.sent
      && Lookup(snd.headers, "Authorization") == Lookup(h, "Authorization")
      && (forall i :: |s.sent| <= i < |snd.state.sent| && snd.state.sent[i].Fetch? ==>
           Lookup(snd.state.sent[i].getHeaders, "Authorization") == Lookup(h, "Authorization"))
  {
    SendRequests(s, cfg, env, url, h, isNew, now, fuel);
  }

  /** Every GET that one call of `get` issues, the retries included, carries
      the `Authorization` header the caller passed, and the dictionary ends
      with it: the ticket the retry logs in for is never sent. */
  lemma {:induction false} GetKeepsAuthorization(s: State, cfg: Config, env: Env, url: string, h: map<string, Str>,
                                                 retries: int, json: bool, isNew: bool, now: int, fuel: nat)
    requires Truthy(Lookup(h, "Authorization"))
    ensures var out := Get(s, cfg, env, url, h, retries, json, isNew, now, fuel);
      s.sent <= out.state.sent
      && Lookup(out.headers, "Authorization") == Lookup(h, "Authorization")
      && forall i :: |s.sent| <= i < |out.state.sent| && out.state.sent[i].Fetch? ==>
           Lookup(out.state.sent[i].getHeaders, "Authorization") == Lookup(h, "Authorization")
    decreases fuel
  {
    var snd := Send(s, cfg, env, url, h, isNew, now, fuel);
    SendKeepsAuthorization(s, cfg, env, url, h, isNew, now, fuel);
    if snd.Sent? && json && snd.reply.json.Some? && snd.reply.json.value.httpCode == Some(401) && fuel > 0 {
      var s3 := Unauthorized(snd.state, cfg, retries, now);
      GetKeepsAuthorization(s3, cfg, env, url, snd.headers, retries + 1, true, false, now, fuel - 1);
    }
  }
}

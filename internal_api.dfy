/** The newer token manager (internal/api): find the configured user and
    app, serve a fresh token from the keyring or mint one with the device
    flow, learn its owner's login, and store it back. */
module InternalApi {
  import opened Common
  import K = InternalKeyring
  import C = InternalConfig
  import DF = InternalDeviceFlow
  import InternalOAuth2

  /** A configured user. `Config.SelectUser` and `User.SelectApp`, which the
      manager calls, are not part of internal/config/config.go; only the
      login of a user is read here, and both lookups are parameters. */
  datatype User = User(login: string)

  /** What the manager depends on. Each field stands for a collaborator:
      - `getenv`: the process environment;
      - `configPath`: `config.GetPath(Getenv, GOOS)`, whose shown signature
        takes an `Env` instead, so its answer is given outright;
      - `loadConfig`: `ConfigReader.Read` for a non-empty path;
      - `selectUser`, `selectApp`: the configuration lookups above;
      - `now`: the clock;
      - `readClientID`: the client-ID prompt's answer;
      - `deviceFlow`: `DeviceFlow.Create` for a client ID;
      - `getUser`: the GitHub user of an access token;
      - `appStore`: `AppStore.Set`, used by `SetApp`; `Input` has no such
        field, so its answer is given outright. */
  datatype Deps = Deps(
    getenv: string -> string,
    configPath: Outcome<string>,
    loadConfig: string -> Outcome<C.Config>,
    selectUser: (C.Config, string) -> Option<User>,
    selectApp: (User, string) -> Option<C.App>,
    now: Time,
    readClientID: Outcome<string>,
    deviceFlow: string -> Outcome<DF.DeviceToken>,
    getUser: string -> Outcome<string>,
    appStore: (string, int, K.App) -> Option<string>)

  /** `InputGet`. `appName` is carried but never read: `Get` passes `user`
      where the app name is expected (internal/api/get.go line 60). */
  datatype InputGet = InputGet(keyringService: string, appName: string, configFilePath: string, user: string, minExpiration: int)

  /** How `Get` ends: the three results of the Go function, or a nil
      dereference inside `Keyring.SetApp`. */
  datatype GetResult = Done(token: Option<K.AccessToken>, app: Option<C.App>, err: Option<string>) | Panicked(login: string)

  /** A step of `getOrCreateToken`: a value, an error, or the nil
      dereference of `Keyring.SetApp`. */
  datatype Step<T> = Next(value: T) | Stop(msg: string) | Crash(login: string)

  const ErrStoreToken := "could not store the token in keyring"

  // ---------------------------------------------------------------------
  // Freshness

  /** `checkExpired`: the token must be renewed when less than
      `minExpiration` seconds of it remain. */
  function CheckExpired(now: Time, exDate: Time, minExpiration: int): (expired: bool)
    ensures expired <==> exDate - now < minExpiration
  {
    now + minExpiration > exDate
  }

  /** At exactly `minExpiration` seconds left a token is still fresh; one
      second less and it is expired; and a token once expired stays
      expired as time passes or as the margin grows. */
  lemma CheckExpiredThreshold(now: Time, exDate: Time, minExpiration: int, later: Time, larger: int)
    requires now <= later && minExpiration <= larger
    ensures !CheckExpired(now, now + minExpiration, minExpiration)
    ensures CheckExpired(now, now + minExpiration - 1, minExpiration)
    ensures CheckExpired(now, exDate, minExpiration) ==> CheckExpired(later, exDate, minExpiration) && CheckExpired(now, exDate, larger)
  {
  }

  // ---------------------------------------------------------------------
  // Configuration

  /** `readConfig`: the given path, or the default one; then read and
      validate. Every configuration returned is valid. */
  function ReadConfig(deps: Deps, configFilePath: string): (r: Outcome<C.Config>)
    ensures r.Ok? ==> C.ValidateConfig(Some(r.value)) == Pass
    ensures configFilePath == "" && deps.configPath.Err? ==> r == Err(Wrap("get config path", deps.configPath.msg))
    ensures configFilePath != "" && deps.loadConfig(configFilePath).Err? ==> r == Err(Wrap("read config", deps.loadConfig(configFilePath).msg))
  {
    var path := if configFilePath == "" then deps.configPath else Ok(configFilePath);
    match path
    case Err(m) => Err(Wrap("get config path", m))
    case Ok(p) =>
      var (err, cfg) := C.Read(C.Config([]), p, deps.loadConfig);
      if err.Some? then Err(Wrap("read config", err.value))
      else match C.ValidateConfig(Some(cfg))
        case Fail(m) => Err(Wrap("validate config", m))
        case Pass => Ok(cfg)
  }

  /** `getUserConfig`: the user named by the argument, else by
      `GHTKN_USER`. */
  function GetUserConfig(deps: Deps, login: string, cfg: C.Config): (r: Outcome<User>)
    ensures var name := if login == "" then deps.getenv("GHTKN_USER") else login;
      && (r.Err? <==> deps.selectUser(cfg, name).None?)
      && (r.Err? ==> r.msg == "user is not found in the config")
      && (r.Ok? ==> deps.selectUser(cfg, name) == Some(r.value))
  {
    var name := if login == "" then deps.getenv("GHTKN_USER") else login;
    match deps.selectUser(cfg, name)
    case None => Err("user is not found in the config")
    case Some(u) => Ok(u)
  }

  /** `getAppConfig`: the user's app named by the argument, else by
      `GHTKN_APP`. */
  function GetAppConfig(deps: Deps, appName: string, user: User): (r: Outcome<C.App>)
    ensures var name := if appName == "" then deps.getenv("GHTKN_APP") else appName;
      && (r.Err? <==> deps.selectApp(user, name).None?)
      && (r.Err? ==> r.msg == "app is not found in the config")
      && (r.Ok? ==> deps.selectApp(user, name) == Some(r.value))
  {
    var name := if appName == "" then deps.getenv("GHTKN_APP") else appName;
    match deps.selectApp(user, name)
    case None => Err("app is not found in the config")
    case Some(a) => Ok(a)
  }

  /** The first three steps of `Get` (and of `SetApp`): configuration,
      user, then app, each failure returned as it is. */
  function Resolve(deps: Deps, input: InputGet): (r: Outcome<(User, C.App)>)
    ensures ReadConfig(deps, input.configFilePath).Err? ==> r == Err(ReadConfig(deps, input.configFilePath).msg)
    ensures r.Ok? ==>
              && ReadConfig(deps, input.configFilePath).Ok?
              && GetUserConfig(deps, input.user, ReadConfig(deps, input.configFilePath).value) == Ok(r.value.0)
              && GetAppConfig(deps, input.user, r.value.0) == Ok(r.value.1)
  {
    match ReadConfig(deps, input.configFilePath)
    case Err(m) => Err(m)
    case Ok(cfg) =>
      match GetUserConfig(deps, input.user, cfg)
      case Err(m) => Err(m)
      case Ok(user) =>
        match GetAppConfig(deps, input.user, user)
        case Err(m) => Err(m)
        case Ok(app) => Ok((user, app))
  }

  /** The keyring service: the given one, or the default. */
  function ServiceName(keyringService: string): (s: string)
    ensures keyringService == "" ==> s == K.DefaultServiceKey
    ensures keyringService != "" ==> s == keyringService
  {
    if keyringService == "" then K.DefaultServiceKey else keyringService
  }

  // ---------------------------------------------------------------------
  // Getting or creating a token, as functions of the keyring's entries

  /** `getAccessTokenFromKeyring`: a valid cached token that is not about
      to expire, or nothing; read errors, absence and expiry all give
      nothing. */
  function CachedToken(e: K.Entries, f: K.Faults, codec: Codec<K.AccessToken>, service: string, key: K.AccessTokenKey, now: Time, minExpiration: int): (r: (Option<K.AccessToken>, K.Entries))
    ensures r.1 == K.GetAccessTokenSpec(e, f, codec, service, key).after
    ensures r.0.Some? <==>
              && K.GetAccessTokenSpec(e, f, codec, service, key).result.Present?
              && !CheckExpired(now, K.GetAccessTokenSpec(e, f, codec, service, key).result.value.expirationDate, minExpiration)
    ensures r.0.Some? ==> r.0 == Some(K.GetAccessTokenSpec(e, f, codec, service, key).result.value) && K.ValidateToken(r.0.value) == Pass
  {
    var fetched := K.GetAccessTokenSpec(e, f, codec, service, key);
    var (tk, after) := (fetched.result, fetched.after);
    if tk.Present? && !CheckExpired(now, tk.value.expirationDate, minExpiration) then (Some(tk.value), after)
    else (None, after)
  }

  /** `getAppFromKeyring`: the stored app, or nothing on a read error or
      absence. */
  function StoredApp(e: K.Entries, f: K.Faults, codec: Codec<K.App>, service: string, appID: int): (r: (Option<K.App>, K.Entries))
    ensures r.1 == K.GetAppSpec(e, f, codec, service, appID).after
    ensures r.0.Some? <==> K.GetAppSpec(e, f, codec, service, appID).result.Present?
    ensures r.0.Some? ==> r.0.value == K.GetAppSpec(e, f, codec, service, appID).result.value && r.0.value.clientID != ""
  {
    var fetched := K.GetAppSpec(e, f, codec, service, appID);
    var (app, after) := (fetched.result, fetched.after);
    if app.Present? then (Some(app.value), after) else (None, after)
  }

  /** `createToken`: the device flow's token for `clientID`, recorded with
      that client ID; its error is returned unchanged. */
  function CreateToken(deps: Deps, clientID: string): (r: Outcome<K.AccessToken>)
    ensures r.Err? <==> deps.deviceFlow(clientID).Err?
    ensures r.Err? ==> r.msg == deps.deviceFlow(clientID).msg
    ensures r.Ok? ==>
              && r.value.clientID == clientID && r.value.login == ""
              && r.value.accessToken == deps.deviceFlow(clientID).value.accessToken
              && r.value.expirationDate == deps.deviceFlow(clientID).value.expirationDate
  {
    match deps.deviceFlow(clientID)
    case Err(m) => Err(m)
    case Ok(tk) => Ok(K.AccessToken(tk.accessToken, tk.expirationDate, "", clientID))
  }

  /** Minting with a known client ID. */
  function Mint(deps: Deps, clientID: string): Step<K.AccessToken>
  {
    match CreateToken(deps, clientID)
    case Err(m) => Stop(Wrap("create a GitHub App User Access Token", m))
    case Ok(t) => Next(t)
  }

  /** The cache-miss half of `getOrCreateToken`: reuse the stored client
      ID, or ask for one, store it with `Keyring.SetApp`, and mint. */
  function MintSpec(e: K.Entries, f: K.Faults, tokenCodec: Codec<K.AccessToken>, appCodec: Codec<K.App>, deps: Deps, service: string, appID: int): (r: (Step<K.AccessToken>, K.Entries))
  {
    var (stored, e1) := StoredApp(e, f, appCodec, service, appID);
    if stored.Some? && stored.value.clientID != "" then (Mint(deps, stored.value.clientID), e1)
    else match deps.readClientID
      case Err(m) => (Stop(Wrap("read client id", m)), e1)
      case Ok(cID) =>
        if cID == "" then (Stop("cancelled"), e1)
        else
          var app := K.App(TrimSpace(cID));
          var (out, e2) := K.SetAppSpec(e1, f, tokenCodec, appCodec, service, appID, app);
          match out
          case Panicked(login) => (Crash(login), e2)
          case Returned(err) =>
            if err.Some? then (Stop(Wrap("store client id in keyring", err.value)), e2)
            else (Mint(deps, app.clientID), e2)
  }

  /** `getOrCreateToken`: the token and whether it is new. */
  function GetOrCreateSpec(e: K.Entries, f: K.Faults, tokenCodec: Codec<K.AccessToken>, appCodec: Codec<K.App>, deps: Deps,
                           service: string, appID: int, key: K.AccessTokenKey, minExpiration: int): (r: (Step<(K.AccessToken, bool)>, K.Entries))
  {
    var (cached, e1) := CachedToken(e, f, tokenCodec, service, key, deps.now, minExpiration);
    if cached.Some? then (Next((cached.value, false)), e1)
    else
      var (minted, e2) := MintSpec(e1, f, tokenCodec, appCodec, deps, service, appID);
      match minted
      case Next(t) => (Next((t, true)), e2)
      case Stop(m) => (Stop(m), e2)
      case Crash(login) => (Crash(login), e2)
  }

  /** `Get`, as a function of the keyring's entries: the result and the
      entries afterwards. Success always comes with a token and its app,
      and the only error that comes with a token is `ErrStoreToken`. */
  function GetSpec(e: K.Entries, f: K.Faults, tokenCodec: Codec<K.AccessToken>, appCodec: Codec<K.App>, deps: Deps, input: InputGet): (r: (GetResult, K.Entries))
    ensures r.0.Done? && r.0.err.None? ==> r.0.token.Some? && r.0.app.Some?
    ensures r.0.Done? && r.0.token.Some? ==> r.0.app.Some?
    ensures r.0.Done? && r.0.token.Some? && r.0.err.Some? ==> r.0.err == Some(ErrStoreToken)
  {
    match Resolve(deps, input)
    case Err(m) => (Done(None, None, Some(m)), e)
    case Ok((user, app)) =>
      var service := ServiceName(input.keyringService);
      var key := K.AccessTokenKey(user.login, app.appID);
      var (step, e1) := GetOrCreateSpec(e, f, tokenCodec, appCodec, deps, service, app.appID, key, input.minExpiration);
      match step
      case Crash(login) => (Panicked(login), e1)
      case Stop(m) => (Done(None, None, Some(Wrap("get or create token", m))), e1)
      case Next((token, changed)) =>
        if changed then
          match deps.getUser(token.accessToken)
          case Err(m) => (Done(None, Some(app), Some(Wrap("get authenticated user", m))), e1)
          case Ok(login) =>
            var t := token.(login := login);
            var (err, e2) := K.SetAccessTokenSpec(e1, f, tokenCodec, service, key.(login := t.login), t);
            if err.Some? then (Done(Some(t), Some(app), Some(ErrStoreToken)), e2)
            else (Done(Some(t), Some(app), None), e2)
        else
          var t := if token.login == "" then token.(login := user.login) else token;
          (Done(Some(t), Some(app), None), e1)
  }

  // ---------------------------------------------------------------------
  // The token manager

  class TokenManager {
    const keyring: K.Keyring
    var deps: Deps

    constructor (keyring: K.Keyring, deps: Deps)
      ensures this.keyring == keyring && this.deps == deps
    {
      this.keyring := keyring;
      this.deps := deps;
    }

    /** `SetClientIDReader`: later prompts are answered by `reader`. */
    method SetClientIDReader(reader: Outcome<string>)
      modifies this
      ensures deps == old(deps).(readClientID := reader)
    {
      deps := deps.(readClientID := reader);
    }

    method GetAccessTokenFromKeyring(service: string, key: K.AccessTokenKey, minExpiration: int) returns (r: Option<K.AccessToken>)
      modifies keyring.api
      ensures (r, keyring.api.entries) == CachedToken(old(keyring.api.entries), keyring.api.faults, keyring.tokenCodec, service, key, deps.now, minExpiration)
    {
      var tk := keyring.GetAccessToken(service, key);
      if tk.Failed? || tk.Missing? {
        return None;
      }
      if CheckExpired(deps.now, tk.value.expirationDate, minExpiration) {
        return None;
      }
      return Some(tk.value);
    }

    method GetAppFromKeyring(service: string, appID: int) returns (r: Option<K.App>)
      modifies keyring.api
      ensures (r, keyring.api.entries) == StoredApp(old(keyring.api.entries), keyring.api.faults, keyring.appCodec, service, appID)
    {
      var app := keyring.GetApp(service, appID);
      if app.Failed? || app.Missing? {
        return None;
      }
      return Some(app.value);
    }

    method GetOrCreateToken(service: string, appID: int, key: K.AccessTokenKey, minExpiration: int) returns (r: Step<(K.AccessToken, bool)>)
      modifies keyring.api
      ensures (r, keyring.api.entries) == GetOrCreateSpec(old(keyring.api.entries), keyring.api.faults, keyring.tokenCodec, keyring.appCodec, deps, service, appID, key, minExpiration)
    {
      var token := GetAccessTokenFromKeyring(service, key, minExpiration);
      if token.Some? {
        return Next((token.value, false));
      }
      ghost var e1 := keyring.api.entries;
      ghost var f := keyring.api.faults;
      ghost var minted := MintSpec(e1, f, keyring.tokenCodec, keyring.appCodec, deps, service, appID);
      assert GetOrCreateSpec(old(keyring.api.entries), f, keyring.tokenCodec, keyring.appCodec, deps, service, appID, key, minExpiration)
          == (match minted.0 case Next(t) => Next((t, true)) case Stop(m) => Stop(m) case Crash(login) => Crash(login), minted.1);
      var app := GetAppFromKeyring(service, appID);
      var clientID: string;
      if app.None? || app.value.clientID == "" {
        match deps.readClientID {
          case Err(m) =>
            return Stop(Wrap("read client id", m));
          case Ok(cID) =>
            if cID == "" {
              return Stop("cancelled");
            }
            var entered := K.App(TrimSpace(cID));
            var out := keyring.SetApp(service, appID, entered);
            if out.Panicked? {
              return Crash(out.login);
            }
            if out.err.Some? {
              return Stop(Wrap("store client id in keyring", out.err.value));
            }
            clientID := entered.clientID;
        }
      } else {
        clientID := app.value.clientID;
      }
      var created := CreateToken(deps, clientID);
      if created.Err? {
        return Stop(Wrap("create a GitHub App User Access Token", created.msg));
      }
      return Next((created.value, true));
    }

    /** `Get`. */
    method Get(input: InputGet) returns (r: GetResult)
      modifies keyring.api
      ensures (r, keyring.api.entries) == GetSpec(old(keyring.api.entries), keyring.api.faults, keyring.tokenCodec, keyring.appCodec, deps, input)
    {
      var resolved := Resolve(deps, input);
      if resolved.Err? {
        return Done(None, None, Some(resolved.msg));
      }
      var (user, app) := resolved.value;
      var service := ServiceName(input.keyringService);
      var atKey := K.AccessTokenKey(user.login, app.appID);
      var step := GetOrCreateToken(service, app.appID, atKey, input.minExpiration);
      if step.Crash? {
        return Panicked(step.login);
      }
      if step.Stop? {
        return Done(None, None, Some(Wrap("get or create token", step.msg)));
      }
      var (token, changed) := step.value;
      if changed {
        var gh := deps.getUser(token.accessToken);
        if gh.Err? {
          return Done(None, Some(app), Some(Wrap("get authenticated user", gh.msg)));
        }
        token := token.(login := gh.value);
      } else if token.login == "" {
        token := token.(login := user.login);
      }
      atKey := atKey.(login := token.login);
      if changed {
        var err := keyring.SetAccessToken(service, atKey, token);
        if err.Some? {
          return Done(Some(token), Some(app), Some(ErrStoreToken));
        }
      }
      return Done(Some(token), Some(app), None);
    }

    /** `TokenManager.TokenSource`: an empty token source whose client is
        this manager with one fixed input. */
    method TokenSource(input: InputGet) returns (ts: InternalOAuth2.TokenSource<TokenSourceClient>)
      ensures fresh(ts) && ts.token == None && ts.client == TokenSourceClient(this, input)
    {
      ts := new InternalOAuth2.TokenSource(TokenSourceClient(this, input));
    }
  }

  /** `tokenSourceClient`: the manager and the input every fetch reuses. */
  datatype TokenSourceClient = TokenSourceClient(tm: TokenManager, input: InputGet)

  /** `tokenSourceClient.Get`: the access token of a result of `Get`, or its
      error alone; with `ErrStoreToken` the token that came with the error
      is dropped. A panic in `Get` never returns here. */
  function ClientAnswer(r: GetResult): (a: Outcome<string>)
    requires r.Done? && (r.err.None? ==> r.token.Some?)
    ensures a.Err? <==> r.err.Some?
    ensures a.Err? ==> a.msg == r.err.value
    ensures a.Ok? ==> a.value == r.token.value.accessToken
  {
    if r.err.Some? then Err(r.err.value) else Ok(r.token.value.accessToken)
  }

  // ---------------------------------------------------------------------
  // Properties of Get

  /** A failure to find the configuration, the user or the app is returned
      before the keyring is touched. */
  lemma ConfigFailureTouchesNothing(e: K.Entries, f: K.Faults, tokenCodec: Codec<K.AccessToken>, appCodec: Codec<K.App>, deps: Deps, input: InputGet)
    requires Resolve(deps, input).Err?
    ensures GetSpec(e, f, tokenCodec, appCodec, deps, input) == (Done(None, None, Some(Resolve(deps, input).msg)), e)
  {
  }

  /** A fresh cached token is returned as it is, with nothing written and
      neither the prompt, the device flow nor GitHub consulted. */
  lemma FreshTokenServed(e: K.Entries, f: K.Faults, tokenCodec: Codec<K.AccessToken>, appCodec: Codec<K.App>, deps: Deps, input: InputGet,
                         readClientID: Outcome<string>, deviceFlow: string -> Outcome<DF.DeviceToken>, getUser: string -> Outcome<string>)
    requires Resolve(deps, input).Ok?
    requires var (user, app) := Resolve(deps, input).value;
      CachedToken(e, f, tokenCodec, ServiceName(input.keyringService), K.AccessTokenKey(user.login, app.appID), deps.now, input.minExpiration).0.Some?
    ensures var (user, app) := Resolve(deps, input).value;
      var slot := (ServiceName(input.keyringService), K.KeyString(K.AccessTokenKey(user.login, app.appID)));
      && slot in e
      && GetSpec(e, f, tokenCodec, appCodec, deps, input) == (Done(Some(tokenCodec.decode(e[slot]).value), Some(app), None), e)
    ensures GetSpec(e, f, tokenCodec, appCodec, deps, input)
         == GetSpec(e, f, tokenCodec, appCodec, deps.(readClientID := readClientID, deviceFlow := deviceFlow, getUser := getUser), input)
  {
    var (user, app) := Resolve(deps, input).value;
    var deps' := deps.(readClientID := readClientID, deviceFlow := deviceFlow, getUser := getUser);
    assert Resolve(deps', input) == Resolve(deps, input);
  }

  /** A keyring read error, an absent or corrupt token and an expired token
      are not errors: all of them go on to mint. */
  lemma MissMints(e: K.Entries, f: K.Faults, tokenCodec: Codec<K.AccessToken>, appCodec: Codec<K.App>, deps: Deps,
                  service: string, appID: int, key: K.AccessTokenKey, minExpiration: int)
    requires var lookup := K.GetAccessTokenSpec(e, f, tokenCodec, service, key).result;
      lookup.Failed? || lookup.Missing? || CheckExpired(deps.now, lookup.value.expirationDate, minExpiration)
    ensures var after := K.GetAccessTokenSpec(e, f, tokenCodec, service, key).after;
      var (minted, e2) := MintSpec(after, f, tokenCodec, appCodec, deps, service, appID);
      GetOrCreateSpec(e, f, tokenCodec, appCodec, deps, service, appID, key, minExpiration)
        == (match minted case Next(t) => Next((t, true)) case Stop(m) => Stop(m) case Crash(l) => Crash(l), e2)
  {
  }

  /** A client ID already stored for the app is reused: the prompt is not
      consulted, nothing is written, and the minted token carries that ID. */
  lemma StoredClientIDReused(e: K.Entries, f: K.Faults, tokenCodec: Codec<K.AccessToken>, appCodec: Codec<K.App>, deps: Deps,
                             service: string, appID: int, readClientID: Outcome<string>)
    requires K.GetAppSpec(e, f, appCodec, service, appID).result.Present?
    ensures var stored := K.GetAppSpec(e, f, appCodec, service, appID).result.value;
      && MintSpec(e, f, tokenCodec, appCodec, deps, service, appID) == (Mint(deps, stored.clientID), e)
      && MintSpec(e, f, tokenCodec, appCodec, deps, service, appID) == MintSpec(e, f, tokenCodec, appCodec, deps.(readClientID := readClientID), service, appID)
      && (Mint(deps, stored.clientID).Next? ==> Mint(deps, stored.clientID).value.clientID == stored.clientID)
  {
  }

  /** Without a stored client ID the prompt decides: a failing prompt or an
      empty answer stops before anything is written; a non-empty answer is
      trimmed, stored with `SetApp`, and minted with; a failed store is
      fatal. */
  lemma PromptedClientID(e: K.Entries, f: K.Faults, tokenCodec: Codec<K.AccessToken>, appCodec: Codec<K.App>, deps: Deps, service: string, appID: int)
    requires !K.GetAppSpec(e, f, appCodec, service, appID).result.Present?
    ensures var e1 := K.GetAppSpec(e, f, appCodec, service, appID).after;
      var r := MintSpec(e, f, tokenCodec, appCodec, deps, service, appID);
      && (deps.readClientID.Err? ==> r == (Stop(Wrap("read client id", deps.readClientID.msg)), e1))
      && (deps.readClientID == Ok("") ==> r == (Stop("cancelled"), e1))
      && (deps.readClientID.Ok? && deps.readClientID.value != "" ==>
            var app := K.App(TrimSpace(deps.readClientID.value));
            && r.1 == K.SetAppSpec(e1, f, tokenCodec, appCodec, service, appID, app).1
            && ((service, K.KeyApp(appID)) in f.write ==>
                  r.0 == Stop(Wrap("store client id in keyring", Wrap("set an App in keyring", BackendFailure))))
            && (r.0.Next? ==> r.0.value.clientID == app.clientID))
  {
    if deps.readClientID.Ok? && deps.readClientID.value != "" {
      var app := K.App(TrimSpace(deps.readClientID.value));
      K.SetAppFailsOnlyOnWrite(K.GetAppSpec(e, f, appCodec, service, appID).after, f, tokenCodec, appCodec, service, appID, app);
    }
  }

  /** A newly minted token gets its login from GitHub and is stored under
      that login; a failed store still returns the token and app, with
      `ErrStoreToken`; a failed lookup of the user returns the app alone. */
  lemma NewTokenStored(e: K.Entries, f: K.Faults, tokenCodec: Codec<K.AccessToken>, appCodec: Codec<K.App>, deps: Deps, input: InputGet)
    requires Resolve(deps, input).Ok?
    requires var (user, app) := Resolve(deps, input).value;
      var step := GetOrCreateSpec(e, f, tokenCodec, appCodec, deps, ServiceName(input.keyringService), app.appID, K.AccessTokenKey(user.login, app.appID), input.minExpiration).0;
      step.Next? && step.value.1
    ensures var (user, app) := Resolve(deps, input).value;
      var service := ServiceName(input.keyringService);
      var (step, e1) := GetOrCreateSpec(e, f, tokenCodec, appCodec, deps, service, app.appID, K.AccessTokenKey(user.login, app.appID), input.minExpiration);
      var token := step.value.0;
      var r := GetSpec(e, f, tokenCodec, appCodec, deps, input);
      && (deps.getUser(token.accessToken).Err? ==>
            r == (Done(None, Some(app), Some(Wrap("get authenticated user", deps.getUser(token.accessToken).msg))), e1))
      && (deps.getUser(token.accessToken).Ok? ==>
            var t := token.(login := deps.getUser(token.accessToken).value);
            var slot := (service, K.KeyString(K.AccessTokenKey(t.login, app.appID)));
            && r.0 == Done(Some(t), Some(app), if slot in f.write then Some(ErrStoreToken) else None)
            && (slot !in f.write ==> slot in r.1 && r.1[slot] == tokenCodec.encode(t))
            && (slot in f.write ==> r.1 == e1))
  {
  }

  /** A token served from the cache is never written back, and a cached
      token always has a login already. */
  lemma CachedNotWritten(e: K.Entries, f: K.Faults, tokenCodec: Codec<K.AccessToken>, appCodec: Codec<K.App>, deps: Deps, input: InputGet)
    requires Resolve(deps, input).Ok?
    requires var (user, app) := Resolve(deps, input).value;
      var step := GetOrCreateSpec(e, f, tokenCodec, appCodec, deps, ServiceName(input.keyringService), app.appID, K.AccessTokenKey(user.login, app.appID), input.minExpiration).0;
      step.Next? && !step.value.1
    ensures var (user, app) := Resolve(deps, input).value;
      var (step, e1) := GetOrCreateSpec(e, f, tokenCodec, appCodec, deps, ServiceName(input.keyringService), app.appID, K.AccessTokenKey(user.login, app.appID), input.minExpiration);
      GetSpec(e, f, tokenCodec, appCodec, deps, input) == (Done(Some(step.value.0), Some(app), None), e1)
  {
  }

  // ---------------------------------------------------------------------
  // SetApp

  /** `InputSetApp`. */
  datatype InputSetApp = InputSetApp(appName: string, configFilePath: string, user: string, keyringService: string)

  /** What `SetApp` hands to the app store: service, app ID and app. */
  datatype StoreRequest = StoreRequest(service: string, appID: int, app: K.App)

  /** The error `SetApp` returns and the store request it made, if any. */
  datatype SetAppRun = SetAppRun(err: Option<string>, stored: Option<StoreRequest>)

  /** `TokenManager.SetApp`: resolve the app as `Get` does, ask for its
      client ID, and store it trimmed under the app's ID. */
  function SetApp(deps: Deps, input: InputSetApp): (r: SetAppRun)
    ensures var resolved := Resolve(deps, InputGet(input.keyringService, input.appName, input.configFilePath, input.user, 0));
      && (resolved.Err? ==> r == SetAppRun(Some(resolved.msg), None))
      && (resolved.Ok? && deps.readClientID.Err? ==> r == SetAppRun(Some(Wrap("read client id", deps.readClientID.msg)), None))
      && (resolved.Ok? && deps.readClientID == Ok("") ==> r == SetAppRun(Some("cancelled"), None))
      && (r.stored.Some? <==> resolved.Ok? && deps.readClientID.Ok? && deps.readClientID.value != "")
      && (r.stored.Some? ==>
            && r.stored.value == StoreRequest(ServiceName(input.keyringService), resolved.value.1.appID, K.App(TrimSpace(deps.readClientID.value)))
            && (r.err.Some? <==> deps.appStore(r.stored.value.service, r.stored.value.appID, r.stored.value.app).Some?))
  {
    match Resolve(deps, InputGet(input.keyringService, input.appName, input.configFilePath, input.user, 0))
    case Err(m) => SetAppRun(Some(m), None)
    case Ok((_, appConfig)) =>
      var service := ServiceName(input.keyringService);
      match deps.readClientID
      case Err(m) => SetAppRun(Some(Wrap("read client id", m)), None)
      case Ok(cID) =>
        if cID == "" then SetAppRun(Some("cancelled"), None)
        else
          var request := StoreRequest(service, appConfig.appID, K.App(TrimSpace(cID)));
          match deps.appStore(request.service, request.appID, request.app)
          case Some(m) => SetAppRun(Some(Wrap("store client id in keyring", m)), Some(request))
          case None => SetAppRun(None, Some(request))
  }

  // ---------------------------------------------------------------------
  // The token source over Get

  /** Served through a token source, `Get` runs once per call until one
      succeeds and never afterwards: a result that carries `ErrStoreToken`
      counts as a failure, so the token minted with it is not cached. */
  lemma TokenSourceOverGet(results: seq<GetResult>, k: nat)
    requires forall i :: 0 <= i < |results| ==> results[i].Done? && (results[i].err.None? ==> results[i].token.Some?)
    requires k < |results| && results[k].err.None?
    requires forall j :: 0 <= j < k ==> results[j].err.Some?
    ensures var answers := seq(|results|, i requires 0 <= i < |results| => ClientAnswer(results[i]));
      && InternalOAuth2.SuccessfulFetches(None, answers) <= 1
      && (forall j :: 0 <= j <= k ==> InternalOAuth2.Asked(None, answers)[j])
      && (forall i :: k < i < |results| ==>
            && !InternalOAuth2.Asked(None, answers)[i]
            && InternalOAuth2.Results(None, answers)[i] == Ok(results[k].token.value.accessToken))
  {
    var answers := seq(|results|, i requires 0 <= i < |results| => ClientAnswer(results[i]));
    InternalOAuth2.AtMostOneSuccessfulFetch(None, answers);
    InternalOAuth2.FirstSuccessIsServed(answers, k);
    InternalOAuth2.FailuresAreRetried(answers[..k]);
    forall j | 0 <= j < k ensures InternalOAuth2.Asked(None, answers)[j] {
      AskedPrefix(None, answers, k, j);
    }
  }

  /** A call's verdict depends only on the calls before it. */
  lemma {:induction false} AskedPrefix(cache: Option<string>, answers: seq<Outcome<string>>, k: nat, j: nat)
    requires j < k <= |answers|
    ensures InternalOAuth2.Asked(cache, answers)[j] == InternalOAuth2.Asked(cache, answers[..k])[j]
    decreases j
  {
    var (_, next, _) := InternalOAuth2.TokenStep(cache, answers[0]);
    if j > 0 {
      assert answers[..k][1..] == answers[1..][..k - 1];
      AskedPrefix(next, answers[1..], k - 1, j - 1);
    }
  }
}

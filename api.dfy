/** The older token manager (api): take the client ID from the caller or
    from the configuration, serve a fresh token from the keyring when asked
    to, otherwise mint one with the device flow, and store it back. */
module Api {
  import opened Common
  import Cfg = Config

  /** The token the manager's `Keyring` interface stores. The manager
      compares its expiration date with the clock, so the date is a time
      here. */
  datatype AccessToken = AccessToken(accessToken: string, expirationDate: Time, login: string)

  /** What `DeviceFlow.Create` returns that the manager reads. */
  datatype DeviceToken = DeviceToken(accessToken: string, expirationDate: Time)

  /** The manager's `Keyring` interface: tokens by (service, key). A key
      with no token reads as `None`, not as an error. */
  class TokenStore {
    var tokens: map<Slot, AccessToken>
    const failGet: set<Slot>
    const failSet: set<Slot>

    constructor (tokens0: map<Slot, AccessToken>, failGet0: set<Slot>, failSet0: set<Slot>)
      ensures tokens == tokens0 && failGet == failGet0 && failSet == failSet0
    {
      tokens := tokens0;
      failGet := failGet0;
      failSet := failSet0;
    }

    method Get(service: string, key: string) returns (r: Outcome<Option<AccessToken>>)
      ensures r.Err? <==> (service, key) in failGet
      ensures r.Err? ==> r.msg == BackendFailure
      ensures r.Ok? ==> r.value == if (service, key) in tokens then Some(tokens[(service, key)]) else None
    {
      if (service, key) in failGet {
        return Err(BackendFailure);
      }
      if (service, key) in tokens {
        return Ok(Some(tokens[(service, key)]));
      }
      return Ok(None);
    }

    method Set(service: string, key: string, token: AccessToken) returns (err: Option<string>)
      modifies this
      ensures err.Some? <==> (service, key) in failSet
      ensures tokens == if err.Some? then old(tokens) else old(tokens)[(service, key) := token]
    {
      if (service, key) in failSet {
        return Some(BackendFailure);
      }
      tokens := tokens[(service, key) := token];
      return None;
    }
  }

  /** What the manager depends on besides its keyring:
      - `now`: the clock;
      - `loadConfig`: `ConfigReader.Read` for a non-empty path;
      - `selectApp`: `Config.SelectApp`, which config/config.go does not
        define; `None` is a nil app;
      - `deviceFlow`: `DeviceFlow.Create` for a client ID. */
  datatype Deps = Deps(
    now: Time,
    loadConfig: string -> Outcome<Cfg.Config>,
    selectApp: (Cfg.Config, string) -> Option<Cfg.App>,
    deviceFlow: string -> Outcome<DeviceToken>)

  datatype InputGet = InputGet(
    clientID: string,
    useKeyring: bool,
    keyringService: string,
    useConfig: bool,
    appName: string,
    configFilePath: string,
    minExpiration: int)

  /** How `Get` ends: the three results of the Go function, or the nil
      dereference of `app.Name` when the configuration selects no app. */
  datatype GetResult = Done(token: Option<AccessToken>, app: Option<Cfg.App>, err: Option<string>) | Panicked

  const ErrStoreToken := "could not store the token in keyring"

  const ErrClientIDRequired := "ClientID is required when not using config"

  /** `checkExpired`: it never fails, and a token must be renewed when less
      than `minExpiration` seconds of it remain. */
  function CheckExpired(now: Time, exDate: Time, minExpiration: int): (r: Outcome<bool>)
    ensures r.Ok?
    ensures r.value <==> exDate - now < minExpiration
  {
    Ok(now + minExpiration > exDate)
  }

  /** `getAccessTokenFromKeyring`: a backend error is reported; a missing
      or expired token is no token; only a fresh one is returned. */
  function CachedToken(tokens: map<Slot, AccessToken>, failGet: set<Slot>, service: string, clientID: string, now: Time, minExpiration: int): (r: Outcome<Option<AccessToken>>)
    ensures r.Err? <==> (service, clientID) in failGet
    ensures r.Ok? && r.value.Some? <==>
              && (service, clientID) !in failGet
              && (service, clientID) in tokens
              && tokens[(service, clientID)].expirationDate - now >= minExpiration
    ensures r.Ok? && r.value.Some? ==> r.value.value == tokens[(service, clientID)]
  {
    if (service, clientID) in failGet then Err(BackendFailure)
    else if (service, clientID) !in tokens then Ok(None)
    else
      var tk := tokens[(service, clientID)];
      match CheckExpired(now, tk.expirationDate, minExpiration)
      case Err(m) => Err(Wrap("check if the access token is expired", m))
      case Ok(expired) => if expired then Ok(None) else Ok(Some(tk))
  }

  /** `createToken`: a device-flow error is passed on unchanged; a minted
      token carries the device flow's access token and expiration date and
      no login. */
  function CreateToken(deps: Deps, clientID: string): (r: Outcome<AccessToken>)
    ensures deps.deviceFlow(clientID).Err? ==> r == Err(deps.deviceFlow(clientID).msg)
    ensures r.Ok? <==> deps.deviceFlow(clientID).Ok?
    ensures r.Ok? ==>
              && r.value.accessToken == deps.deviceFlow(clientID).value.accessToken
              && r.value.expirationDate == deps.deviceFlow(clientID).value.expirationDate
              && r.value.login == ""
  {
    match deps.deviceFlow(clientID)
    case Err(m) => Err(m)
    case Ok(tk) => Ok(AccessToken(tk.accessToken, tk.expirationDate, ""))
  }

  /** `getOrCreateToken`: the token and whether it is new. With the keyring
      in use, a fresh cached token is served as not new; a backend error, a
      missing and an expired token all lead to minting. The cache key is
      always `input.clientID`. */
  function GetOrCreateSpec(tokens: map<Slot, AccessToken>, failGet: set<Slot>, deps: Deps, input: InputGet): (r: Outcome<(AccessToken, bool)>)
    ensures r.Ok? && !r.value.1 <==>
              && input.useKeyring
              && (input.keyringService, input.clientID) !in failGet
              && (input.keyringService, input.clientID) in tokens
              && tokens[(input.keyringService, input.clientID)].expirationDate - deps.now >= input.minExpiration
    ensures r.Ok? && !r.value.1 ==> r.value.0 == tokens[(input.keyringService, input.clientID)]
    ensures r.Ok? && r.value.1 ==> Ok(r.value.0) == CreateToken(deps, input.clientID)
    ensures r.Err? ==> CreateToken(deps, input.clientID).Err? && r.msg == Wrap("create a GitHub App User Access Token", CreateToken(deps, input.clientID).msg)
  {
    var cached := if input.useKeyring then CachedToken(tokens, failGet, input.keyringService, input.clientID, deps.now, input.minExpiration) else Ok(None);
    if cached.Ok? && cached.value.Some? then Ok((cached.value.value, false))
    else match CreateToken(deps, input.clientID)
      case Err(m) => Err(Wrap("create a GitHub App User Access Token", m))
      case Ok(t) => Ok((t, true))
  }

  /** `Get`: the result and the keyring's tokens afterwards. */
  function GetSpec(tokens: map<Slot, AccessToken>, failGet: set<Slot>, failSet: set<Slot>, deps: Deps, input: InputGet): (r: (GetResult, map<Slot, AccessToken>))
    ensures !input.useConfig && input.clientID == "" ==> r == (Done(None, None, Some(ErrClientIDRequired)), tokens)
    ensures r.0.Panicked? ==> input.useConfig
    ensures r.0.Done? && r.0.err.None? ==> r.0.token.Some? && r.0.app.Some?
    ensures r.0.Done? && r.0.token.Some? ==> r.0.app.Some? && (r.0.err.None? || r.0.err == Some(ErrStoreToken))
    ensures r.1 == tokens || (
              && input.useKeyring
              && (input.keyringService, input.clientID) !in failSet
              && r.0.Done? && r.0.err.None?
              && r.0.token.Some?
              && r.1 == tokens[(input.keyringService, input.clientID) := r.0.token.value])
  {
    var app :=
      if input.useConfig then
        match Cfg.ReadAndValidate(input.configFilePath, deps.loadConfig)
        case Err(m) => Err(m)
        case Ok(cfg) => Ok(deps.selectApp(cfg, input.appName))
      else if input.clientID == "" then Err(ErrClientIDRequired)
      else Ok(Some(Cfg.App(input.appName, input.clientID, false)));
    if app.Err? then (Done(None, None, Some(app.msg)), tokens)
    else if app.value.None? then (Panicked, tokens)
    else match GetOrCreateSpec(tokens, failGet, deps, input)
      case Err(m) => (Done(None, None, Some(Wrap("get or create token", m))), tokens)
      case Ok(step) =>
        var (token, changed) := step;
        if input.useKeyring && changed then
          if (input.keyringService, input.clientID) in failSet then (Done(Some(token), app.value, Some(ErrStoreToken)), tokens)
          else (Done(Some(token), app.value, None), tokens[(input.keyringService, input.clientID) := token])
        else (Done(Some(token), app.value, None), tokens)
  }

  class TokenManager {
    const store: TokenStore
    const deps: Deps

    constructor (store: TokenStore, deps: Deps)
      ensures this.store == store && this.deps == deps
    {
      this.store := store;
      this.deps := deps;
    }

    method GetAccessTokenFromKeyring(service: string, clientID: string, minExpiration: int) returns (r: Outcome<Option<AccessToken>>)
      ensures r == CachedToken(store.tokens, store.failGet, service, clientID, deps.now, minExpiration)
    {
      var tk := store.Get(service, clientID);
      if tk.Err? {
        return Err(tk.msg);
      }
      if tk.value.None? {
        return Ok(None);
      }
      // `checkExpired` never fails, so its error branch is not taken.
      var expired := CheckExpired(deps.now, tk.value.value.expirationDate, minExpiration);
      if expired.value {
        return Ok(None);
      }
      return Ok(tk.value);
    }

    method GetOrCreateToken(input: InputGet) returns (r: Outcome<(AccessToken, bool)>)
      ensures r == GetOrCreateSpec(store.tokens, store.failGet, deps, input)
    {
      if input.useKeyring {
        var token := GetAccessTokenFromKeyring(input.keyringService, input.clientID, input.minExpiration);
        if token.Ok? && token.value.Some? {
          return Ok((token.value.value, false));
        }
      }
      var token := CreateToken(deps, input.clientID);
      if token.Err? {
        return Err(Wrap("create a GitHub App User Access Token", token.msg));
      }
      return Ok((token.value, true));
    }

    /** `Get`. */
    method Get(input: InputGet) returns (r: GetResult)
      modifies store
      ensures (r, store.tokens) == GetSpec(old(store.tokens), store.failGet, store.failSet, deps, input)
    {
      var app: Cfg.App;
      if input.useConfig {
        var cfg := Cfg.ReadAndValidate(input.configFilePath, deps.loadConfig);
        if cfg.Err? {
          return Done(None, None, Some(cfg.msg));
        }
        var selected := deps.selectApp(cfg.value, input.appName);
        if selected.None? {
          return Panicked;
        }
        app := selected.value;
      } else {
        if input.clientID == "" {
          return Done(None, None, Some(ErrClientIDRequired));
        }
        app := Cfg.App(input.appName, input.clientID, false);
      }
      var step := GetOrCreateToken(input);
      if step.Err? {
        return Done(None, None, Some(Wrap("get or create token", step.msg)));
      }
      var (token, changed) := step.value;
      if input.useKeyring && changed {
        var err := store.Set(input.keyringService, input.clientID, token);
        if err.Some? {
          return Done(Some(token), Some(app), Some(ErrStoreToken));
        }
      }
      return Done(Some(token), Some(app), None);
    }
  }

  // ---------------------------------------------------------------------
  // Properties of `Get`

  /** Without the keyring, the store is neither read nor written: the
      result does not depend on what it holds or how it fails, and it is
      left as it was. */
  lemma WithoutKeyring(tokens1: map<Slot, AccessToken>, failGet1: set<Slot>, failSet1: set<Slot>, tokens2: map<Slot, AccessToken>, failGet2: set<Slot>, failSet2: set<Slot>, deps: Deps, input: InputGet)
    requires !input.useKeyring
    ensures GetSpec(tokens1, failGet1, failSet1, deps, input).0 == GetSpec(tokens2, failGet2, failSet2, deps, input).0
    ensures GetSpec(tokens1, failGet1, failSet1, deps, input).1 == tokens1
  {
    assert GetOrCreateSpec(tokens1, failGet1, deps, input) == GetOrCreateSpec(tokens2, failGet2, deps, input);
  }

  /** With the keyring, a fresh cached token is served as it is stored:
      nothing is written and the device flow is not consulted. */
  lemma FreshTokenServed(tokens: map<Slot, AccessToken>, failGet: set<Slot>, failSet: set<Slot>, deps: Deps, input: InputGet, otherFlow: string -> Outcome<DeviceToken>)
    requires input.useKeyring && (input.useConfig || input.clientID != "")
    requires (input.keyringService, input.clientID) !in failGet && (input.keyringService, input.clientID) in tokens
    requires tokens[(input.keyringService, input.clientID)].expirationDate - deps.now >= input.minExpiration
    requires input.useConfig ==> Cfg.ReadAndValidate(input.configFilePath, deps.loadConfig).Ok?
    requires input.useConfig ==> deps.selectApp(Cfg.ReadAndValidate(input.configFilePath, deps.loadConfig).value, input.appName).Some?
    ensures GetSpec(tokens, failGet, failSet, deps, input).1 == tokens
    ensures GetSpec(tokens, failGet, failSet, deps, input).0.Done?
    ensures GetSpec(tokens, failGet, failSet, deps, input).0.token == Some(tokens[(input.keyringService, input.clientID)])
    ensures GetSpec(tokens, failGet, failSet, deps, input).0.err == None
    ensures GetSpec(tokens, failGet, failSet, deps, input) == GetSpec(tokens, failGet, failSet, deps.(deviceFlow := otherFlow), input)
  {
    var cached := CachedToken(tokens, failGet, input.keyringService, input.clientID, deps.now, input.minExpiration);
    assert cached == Ok(Some(tokens[(input.keyringService, input.clientID)]));
    assert GetOrCreateSpec(tokens, failGet, deps, input) == Ok((tokens[(input.keyringService, input.clientID)], false));
    assert GetOrCreateSpec(tokens, failGet, deps.(deviceFlow := otherFlow), input) == Ok((tokens[(input.keyringService, input.clientID)], false));
  }

  /** A keyring read error is not an error of `getOrCreateToken`: it mints
      exactly as if there were no keyring. */
  lemma ReadErrorMints(tokens: map<Slot, AccessToken>, failGet: set<Slot>, deps: Deps, input: InputGet)
    requires input.useKeyring && (input.keyringService, input.clientID) in failGet
    ensures GetOrCreateSpec(tokens, failGet, deps, input) == GetOrCreateSpec(tokens, failGet, deps, input.(useKeyring := false))
    ensures GetOrCreateSpec(tokens, failGet, deps, input).Ok? ==> GetOrCreateSpec(tokens, failGet, deps, input).value.1
  {
  }

  /** A token minted while the keyring is in use is stored under
      (`KeyringService`, `ClientID`); when the write fails, the token and
      the app still come back, with `ErrStoreToken`. */
  lemma NewTokenStored(tokens: map<Slot, AccessToken>, failGet: set<Slot>, failSet: set<Slot>, deps: Deps, input: InputGet)
    requires input.useKeyring && !input.useConfig && input.clientID != ""
    requires (input.keyringService, input.clientID) in failGet || (input.keyringService, input.clientID) !in tokens
    requires deps.deviceFlow(input.clientID).Ok?
    ensures var minted := AccessToken(deps.deviceFlow(input.clientID).value.accessToken, deps.deviceFlow(input.clientID).value.expirationDate, "");
            var app := Cfg.App(input.appName, input.clientID, false);
            GetSpec(tokens, failGet, failSet, deps, input) ==
              if (input.keyringService, input.clientID) in failSet then (Done(Some(minted), Some(app), Some(ErrStoreToken)), tokens)
              else (Done(Some(minted), Some(app), None), tokens[(input.keyringService, input.clientID) := minted])
  {
    var minted := AccessToken(deps.deviceFlow(input.clientID).value.accessToken, deps.deviceFlow(input.clientID).value.expirationDate, "");
    assert GetOrCreateSpec(tokens, failGet, deps, input) == Ok((minted, true));
  }

  /** With the configuration in use, the client ID of the selected app is
      ignored: the cache key and the device flow use `input.clientID`. */
  lemma ConfigClientIDIgnored(tokens: map<Slot, AccessToken>, failGet: set<Slot>, failSet: set<Slot>, deps: Deps, input: InputGet, other: Cfg.App)
    requires input.useConfig
    requires Cfg.ReadAndValidate(input.configFilePath, deps.loadConfig).Ok?
    requires deps.selectApp(Cfg.ReadAndValidate(input.configFilePath, deps.loadConfig).value, input.appName).Some?
    ensures var selectOther := (c: Cfg.Config, name: string) => Some(other);
            GetSpec(tokens, failGet, failSet, deps, input).0.Done? &&
            GetSpec(tokens, failGet, failSet, deps.(selectApp := selectOther), input).0 ==
              GetSpec(tokens, failGet, failSet, deps, input).0.(app := if GetSpec(tokens, failGet, failSet, deps, input).0.app.Some? then Some(other) else None) &&
            GetSpec(tokens, failGet, failSet, deps.(selectApp := selectOther), input).1 == GetSpec(tokens, failGet, failSet, deps, input).1
  {
  }
}

/** The older client entry point (ghtkn): read the configuration, select
    the app named by `GHTKN_APP`, and ask the token manager for its token. */
module Ghtkn {
  import opened Common
  import Cfg = Config
  import Api
  import Keyring

  /** How `Client.Get` ends: its three results, or the nil dereference of
      `app.Name` when no app is selected. */
  datatype GetResult = Done(token: Option<Keyring.AccessToken>, app: Option<Cfg.App>, err: Option<string>) | Panicked

  /** The request sent to the token manager for an app: its client ID, and
      the keyring in use exactly when the configuration persists tokens.
      Every other field is left at its zero value. */
  function Request(cfg: Cfg.Config, app: Cfg.App): (req: Api.InputGet)
    ensures req.clientID == app.clientID && req.useKeyring == cfg.persist
    ensures !req.useConfig && req.keyringService == "" && req.minExpiration == 0
  {
    Api.InputGet(app.clientID, cfg.persist, "", false, "", "", 0)
  }

  /** `Client.Get`. `load` stands for `ConfigReader.Read`, `selectApp` for
      `Config.SelectApp`, and `tokenManager` for `TokenManager.Get`. */
  function Get(configFilePath: string, envApp: string, load: string -> Outcome<Cfg.Config>,
               selectApp: (Cfg.Config, string) -> Option<Cfg.App>,
               tokenManager: Api.InputGet -> Outcome<Keyring.AccessToken>): (r: GetResult)
    ensures Cfg.ReadAndValidate(configFilePath, load).Err? ==> r == Done(None, None, Some(Cfg.ReadAndValidate(configFilePath, load).msg))
    ensures r.Panicked? <==> Cfg.ReadAndValidate(configFilePath, load).Ok? && selectApp(Cfg.ReadAndValidate(configFilePath, load).value, envApp).None?
    ensures r.Done? && r.err.None? ==> r.token.Some? && r.app.Some?
    ensures r.Done? && r.app.Some? ==>
              var cfg := Cfg.ReadAndValidate(configFilePath, load).value;
              && Cfg.ReadAndValidate(configFilePath, load).Ok?
              && r.app == selectApp(cfg, envApp)
              && match tokenManager(Request(cfg, r.app.value))
                 case Ok(t) => r.token == Some(t) && r.err == None
                 case Err(m) => r.token == None && r.err == Some(Wrap("get access token", m))
  {
    match Cfg.ReadAndValidate(configFilePath, load)
    case Err(m) => Done(None, None, Some(m))
    case Ok(cfg) =>
      match selectApp(cfg, envApp)
      case None => Panicked
      case Some(app) =>
        match tokenManager(Request(cfg, app))
        case Err(m) => Done(None, Some(app), Some(Wrap("get access token", m)))
        case Ok(t) => Done(Some(t), Some(app), None)
  }

  /** The token manager is asked about one request only: two managers that
      agree on the selected app's request give the same result, and with a
      configuration that cannot be read or is invalid none is consulted. */
  lemma GetAsksOnce(configFilePath: string, envApp: string, load: string -> Outcome<Cfg.Config>,
                    selectApp: (Cfg.Config, string) -> Option<Cfg.App>,
                    tm1: Api.InputGet -> Outcome<Keyring.AccessToken>, tm2: Api.InputGet -> Outcome<Keyring.AccessToken>)
    requires Cfg.ReadAndValidate(configFilePath, load).Ok? && selectApp(Cfg.ReadAndValidate(configFilePath, load).value, envApp).Some? ==>
               var cfg := Cfg.ReadAndValidate(configFilePath, load).value;
               tm1(Request(cfg, selectApp(cfg, envApp).value)) == tm2(Request(cfg, selectApp(cfg, envApp).value))
    ensures Get(configFilePath, envApp, load, selectApp, tm1) == Get(configFilePath, envApp, load, selectApp, tm2)
  {
  }

  /** An empty configuration path never reaches the token manager: the
      empty configuration it leaves behind has no apps. */
  lemma EmptyPathFails(envApp: string, load: string -> Outcome<Cfg.Config>,
                       selectApp: (Cfg.Config, string) -> Option<Cfg.App>,
                       tokenManager: Api.InputGet -> Outcome<Keyring.AccessToken>)
    ensures Get("", envApp, load, selectApp, tokenManager) == Done(None, None, Some(Wrap("validate config", "apps is required")))
  {
  }
}

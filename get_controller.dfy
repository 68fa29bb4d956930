/** The older `get` and `git-credential` commands (controller/get): fetch
    the token for the configured app and print it, as a Git credential, as
    JSON, or bare. */
module GetController {
  import opened Common
  import Cfg = Config
  import Api
  import Keyring

  /** The parts of `Input` the command reads; `envApp` is `Env.App`. */
  datatype Input = Input(configFilePath: string, outputFormat: string, isGitCredential: bool, envApp: string)

  /** The collaborators of `Input`: `ConfigReader.Read` for a non-empty
      path, `Config.SelectApp` (not defined in config/config.go; `None` is
      a nil app), `TokenManager.Get`, and the JSON encoder's rendering of a
      token (two-space indent, no trailing newline). */
  datatype Deps = Deps(
    load: string -> Outcome<Cfg.Config>,
    selectApp: (Cfg.Config, string) -> Option<Cfg.App>,
    tokenManager: Api.InputGet -> Outcome<Keyring.AccessToken>,
    encodeJSON: Keyring.AccessToken -> Outcome<string>)

  const ErrOutputFormat := "output format must be empty or 'json'"

  /** `Input.IsJSON`. */
  function IsJSON(input: Input): (b: bool)
    ensures b <==> input.outputFormat == "json"
  {
    input.outputFormat == "json"
  }

  /** `Input.Validate`: only the empty format and "json" are accepted. */
  function Validate(input: Input): (c: Check)
    ensures c.Pass? <==> input.outputFormat in {"", "json"}
    ensures c.Fail? ==> c.msg == ErrOutputFormat
  {
    if input.outputFormat != "" && !IsJSON(input) then Fail(ErrOutputFormat) else Pass
  }

  /** What `output` writes for a Git credential helper. */
  function GitCredential(token: Keyring.AccessToken): string
  {
    "username=" + token.login + "\n" + "password=" + token.accessToken + "\n\n"
  }

  /** `output`: the text written to standard output, or the error; when
      JSON encoding fails nothing is written. The Git-credential and plain
      modes never fail. */
  function Rendered(input: Input, encodeJSON: Keyring.AccessToken -> Outcome<string>, token: Keyring.AccessToken): (r: Outcome<string>)
    ensures input.isGitCredential ==> r == Ok(GitCredential(token))
    ensures !input.isGitCredential && !IsJSON(input) ==> r == Ok(token.accessToken + "\n")
    ensures r.Err? <==> !input.isGitCredential && IsJSON(input) && encodeJSON(token).Err?
    ensures r.Err? ==> r.msg == Wrap("output access token", Wrap("encode as JSON", encodeJSON(token).msg))
    ensures !input.isGitCredential && IsJSON(input) && r.Ok? ==> r.value == encodeJSON(token).value + "\n"
  {
    if input.isGitCredential then Ok(GitCredential(token))
    else if IsJSON(input) then
      match encodeJSON(token)
      case Err(m) => Err(Wrap("output access token", Wrap("encode as JSON", m)))
      case Ok(s) => Ok(s + "\n")
    else Ok(token.accessToken + "\n")
  }

  /** How `Run` ends: its error, or the nil dereference of `app.Name`. */
  datatype RunResult = Returned(err: Option<string>) | Panicked

  /** `Run`: the result and what it writes. */
  function RunSpec(input: Input, deps: Deps): (r: (RunResult, string))
    ensures Cfg.ReadAndValidate(input.configFilePath, deps.load).Err? ==>
              r == (Returned(Some(Cfg.ReadAndValidate(input.configFilePath, deps.load).msg)), "")
    ensures r.1 != "" ==> r.0 == Returned(None)
    ensures r.0 == Returned(None) ==>
              && Cfg.ReadAndValidate(input.configFilePath, deps.load).Ok?
              && deps.selectApp(Cfg.ReadAndValidate(input.configFilePath, deps.load).value, input.envApp).Some?
    ensures r.0 == Returned(None) ==>
              var cfg := Cfg.ReadAndValidate(input.configFilePath, deps.load).value;
              var app := deps.selectApp(cfg, input.envApp).value;
              && deps.tokenManager(Api.InputGet(app.clientID, cfg.persist, "", false, "", "", 0)).Ok?
              && Ok(r.1) == Rendered(input, deps.encodeJSON, deps.tokenManager(Api.InputGet(app.clientID, cfg.persist, "", false, "", "", 0)).value)
  {
    match Cfg.ReadAndValidate(input.configFilePath, deps.load)
    case Err(m) => (Returned(Some(m)), "")
    case Ok(cfg) =>
      match deps.selectApp(cfg, input.envApp)
      case None => (Panicked, "")
      case Some(app) =>
        match deps.tokenManager(Api.InputGet(app.clientID, cfg.persist, "", false, "", "", 0))
        case Err(m) => (Returned(Some(Wrap("get access token", m))), "")
        case Ok(token) =>
          match Rendered(input, deps.encodeJSON, token)
          case Err(m) => (Returned(Some(m)), "")
          case Ok(text) => (Returned(None), text)
  }

  class Controller {
    const input: Input
    const deps: Deps
    /** Everything written to `Stdout` so far. */
    var stdout: string

    constructor (input: Input, deps: Deps)
      ensures this.input == input && this.deps == deps && stdout == ""
    {
      this.input := input;
      this.deps := deps;
      stdout := "";
    }

    /** `output`. */
    method Output(token: Keyring.AccessToken) returns (err: Option<string>)
      modifies this
      ensures err.Some? <==> Rendered(input, deps.encodeJSON, token).Err?
      ensures err.Some? ==> err.value == Rendered(input, deps.encodeJSON, token).msg && stdout == old(stdout)
      ensures err.None? ==> stdout == old(stdout) + Rendered(input, deps.encodeJSON, token).value
    {
      if input.isGitCredential {
        stdout := stdout + "username=" + token.login + "\n";
        stdout := stdout + "password=" + token.accessToken + "\n\n";
        return None;
      }
      if IsJSON(input) {
        var encoded := deps.encodeJSON(token);
        if encoded.Err? {
          return Some(Wrap("output access token", Wrap("encode as JSON", encoded.msg)));
        }
        stdout := stdout + encoded.value + "\n";
        return None;
      }
      stdout := stdout + token.accessToken + "\n";
      return None;
    }

    /** `Run`. */
    method Run() returns (r: RunResult)
      modifies this
      ensures (r, stdout) == (RunSpec(input, deps).0, old(stdout) + RunSpec(input, deps).1)
    {
      var cfg := Cfg.ReadAndValidate(input.configFilePath, deps.load);
      if cfg.Err? {
        return Returned(Some(cfg.msg));
      }
      var app := deps.selectApp(cfg.value, input.envApp);
      if app.None? {
        assert RunSpec(input, deps) == (Panicked, "");
        assert stdout + "" == stdout;
        return Panicked;
      }
      var token := deps.tokenManager(Api.InputGet(app.value.clientID, cfg.value.persist, "", false, "", "", 0));
      if token.Err? {
        return Returned(Some(Wrap("get access token", token.msg)));
      }
      var err := Output(token.value);
      if err.Some? {
        return Returned(err);
      }
      return Returned(None);
    }
  }

  // ---------------------------------------------------------------------
  // Properties of the output

  /** A Git credential helper reads the output back line by line: the
      username line, the password line, and the blank line ending the
      record, whatever the output format says. */
  lemma GitCredentialParses(input: Input, encodeJSON: Keyring.AccessToken -> Outcome<string>, token: Keyring.AccessToken)
    requires input.isGitCredential
    requires '\n' !in token.login && '\n' !in token.accessToken
    ensures Rendered(input, encodeJSON, token).Ok?
    ensures Split(Rendered(input, encodeJSON, token).value, '\n') == ["username=" + token.login, "password=" + token.accessToken, "", ""]
  {
    var lines := ["username=" + token.login, "password=" + token.accessToken, "", ""];
    forall i | 0 <= i < |lines|
      ensures '\n' !in lines[i]
    {
      if i == 0 {
        assert forall k :: 0 <= k < |lines[0]| ==> lines[0][k] == ("username=" + token.login)[k];
        assert forall k :: 9 <= k < |lines[0]| ==> lines[0][k] == token.login[k - 9];
      } else if i == 1 {
        assert forall k :: 9 <= k < |lines[1]| ==> lines[1][k] == token.accessToken[k - 9];
      }
    }
    assert JoinWith(lines[2..], '\n') == "\n";
    assert JoinWith(lines[1..], '\n') == "password=" + token.accessToken + "\n\n";
    assert JoinWith(lines, '\n') == GitCredential(token);
    SplitJoin(lines, '\n');
  }

  /** Plain output is the token on a line of its own. */
  lemma PlainParses(input: Input, encodeJSON: Keyring.AccessToken -> Outcome<string>, token: Keyring.AccessToken)
    requires !input.isGitCredential && input.outputFormat != "json"
    requires '\n' !in token.accessToken
    ensures Rendered(input, encodeJSON, token).Ok?
    ensures Split(Rendered(input, encodeJSON, token).value, '\n') == [token.accessToken, ""]
  {
    assert JoinWith([token.accessToken, ""], '\n') == token.accessToken + "\n";
    SplitJoin([token.accessToken, ""], '\n');
  }
}

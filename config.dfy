/** The older configuration (config): whether tokens persist, the list of
    GitHub Apps, its validation, the template written by `init`, and the
    environment the command reads. */
module Config {
  import opened Common

  datatype App = App(name: string, clientID: string, isDefault: bool)

  datatype Config = Config(persist: bool, apps: seq<App>)

  /** `App.Validate`: the name is checked before the client ID. */
  function ValidateApp(a: App): (c: Check)
    ensures c.Pass? <==> a.name != "" && a.clientID != ""
    ensures a.name == "" ==> c == Fail("name is required")
    ensures a.name != "" && a.clientID == "" ==> c == Fail("client_id is required")
  {
    if a.name == "" then Fail("name is required")
    else if a.clientID == "" then Fail("client_id is required")
    else Pass
  }

  /** Index of the first app that fails validation, or `|apps|`. */
  function FirstInvalid(apps: seq<App>): (k: nat)
    ensures k <= |apps|
    ensures k < |apps| ==> ValidateApp(apps[k]).Fail?
    ensures forall j :: 0 <= j < k ==> ValidateApp(apps[j]).Pass?
  {
    if apps == [] then 0
    else if ValidateApp(apps[0]).Fail? then 0
    else 1 + FirstInvalid(apps[1..])
  }

  /** `Config.Validate`; `None` is a nil config. */
  function ValidateConfig(c: Option<Config>): (r: Check)
    ensures c.None? ==> r == Fail("config is required")
    ensures c.Some? && c.value.apps == [] ==> r == Fail("apps is required")
    ensures r.Pass? <==> c.Some? && c.value.apps != [] && forall a :: a in c.value.apps ==> ValidateApp(a).Pass?
    ensures c.Some? && c.value.apps != [] && r.Fail? ==>
              exists k :: 0 <= k < |c.value.apps| && ValidateApp(c.value.apps[k]).Fail?
                && r.msg == Wrap("app is invalid", ValidateApp(c.value.apps[k]).msg)
  {
    if c.None? then Fail("config is required")
    else if c.value.apps == [] then Fail("apps is required")
    else
      var k := FirstInvalid(c.value.apps);
      if k < |c.value.apps| then Fail(Wrap("app is invalid", ValidateApp(c.value.apps[k]).msg))
      else Pass
  }

  /** `Reader.Read`: the error, if any, and the new value of the config it
      fills in. For a non-empty path, `load` stands for opening the file and
      decoding its YAML. */
  function Read(cfg: Config, path: string, load: string -> Outcome<Config>): (r: (Option<string>, Config))
    ensures path == "" ==> r == (None, cfg)
  {
    if path == "" then (None, cfg)
    else match load(path)
      case Err(m) => (Some(m), cfg)
      case Ok(c) => (None, c)
  }

  /** The `readConfig` step shared by the older callers: read into an empty
      config, then validate. Every configuration returned is valid, and an
      empty path always fails validation. */
  function ReadAndValidate(path: string, load: string -> Outcome<Config>): (r: Outcome<Config>)
    ensures r.Ok? ==> ValidateConfig(Some(r.value)) == Pass && r.value.apps != []
    ensures path == "" ==> r == Err(Wrap("validate config", "apps is required"))
    ensures path != "" && load(path).Err? ==> r == Err(Wrap("read config", load(path).msg))
  {
    var (err, cfg) := Read(Config(false, []), path, load);
    if err.Some? then Err(Wrap("read config", err.value))
    else match ValidateConfig(Some(cfg))
      case Fail(m) => Err(Wrap("validate config", m))
      case Pass => Ok(cfg)
  }

  // ---------------------------------------------------------------------
  // The template

  /** `Default`, line by line. */
  const Default: string := SchemaLine + HomeLine + PersistLine + AppsLine + NameLine + ClientIDLine + DefaultLine

  const SchemaLine := "# yaml-language-server: $schema=https://raw.githubusercontent.com/suzuki-shunsuke/ghtkn/refs/heads/main/json-schema/ghtkn.json\n"
  const HomeLine := "# ghtkn - https://github.com/suzuki-shunsuke/ghtkn\n"
  const PersistLine := "persist: true\n"
  const AppsLine := "apps:\n"
  const NameLine := "  - name: suzuki-shunsuke/write (The name to identify the app)\n"
  const ClientIDLine := "    " + "client_id:" + " <Your GitHub App Client ID>\n"
  const DefaultLine := "    default: true\n"

  /** `strings.Contains`. */
  ghost predicate Contains(s: string, sub: string)
  {
    exists i :: OccursAt(s, sub, i)
  }

  predicate OccursAt(s: string, sub: string, i: int)
  {
    0 <= i <= |s| - |sub| && s[i..i + |sub|] == sub
  }

  /** What occurs in a line occurs in any text that has the line in it. */
  lemma OccursInLine(before: string, line: string, after: string, sub: string, k: nat)
    requires OccursAt(line, sub, k)
    ensures Contains(before + line + after, sub)
  {
    assert (before + line + after)[|before| + k..|before| + k + |sub|] == line[k..k + |sub|];
    assert OccursAt(before + line + after, sub, |before| + k);
  }

  /** The template turns persistence on and lists one default app with a
      client ID to fill in. */
  lemma DefaultTemplate()
    ensures Contains(Default, "persist: true")
    ensures Contains(Default, "apps:")
    ensures Contains(Default, "client_id:")
    ensures Contains(Default, "default: true")
  {
    TemplatePersist();
    TemplateApps();
    TemplateClientID();
    TemplateDefault();
  }

  lemma TemplatePersist()
    ensures Contains(Default, "persist: true")
  {
    assert OccursAt(PersistLine, "persist: true", 0);
    var before, after := SchemaLine + HomeLine, AppsLine + NameLine + ClientIDLine + DefaultLine;
    OccursInLine(before, PersistLine, after, "persist: true", 0);
    assert Default == before + PersistLine + after;
  }

  lemma TemplateApps()
    ensures Contains(Default, "apps:")
  {
    assert OccursAt(AppsLine, "apps:", 0);
    var before, after := SchemaLine + HomeLine + PersistLine, NameLine + ClientIDLine + DefaultLine;
    OccursInLine(before, AppsLine, after, "apps:", 0);
    assert Default == before + AppsLine + after;
  }

  lemma TemplateClientID()
    ensures Contains(Default, "client_id:")
  {
    assert OccursAt(ClientIDLine, "client_id:", 4);
    var before, after := SchemaLine + HomeLine + PersistLine + AppsLine + NameLine, DefaultLine;
    OccursInLine(before, ClientIDLine, after, "client_id:", 4);
    assert Default == before + ClientIDLine + after;
  }

  lemma TemplateDefault()
    ensures Contains(Default, "default: true")
  {
    assert OccursAt(DefaultLine, "default: true", 4);
    var before := SchemaLine + HomeLine + PersistLine + AppsLine + NameLine + ClientIDLine;
    OccursInLine(before, DefaultLine, "", "default: true", 4);
    assert Default == before + DefaultLine + "";
  }

  // ---------------------------------------------------------------------
  // The environment

  datatype Env = Env(xdgConfigHome: string, app: string, home: string, appData: string, userProfile: string, goos: string)

  /** `NewEnv`: every variable is read whatever the platform. */
  function NewEnv(getEnv: string -> string, goos: string): (env: Env)
    ensures env.goos == goos
    ensures env.xdgConfigHome == getEnv("XDG_CONFIG_HOME") && env.app == getEnv("GHTKN_APP") && env.home == getEnv("HOME")
    ensures env.appData == getEnv("APPDATA") && env.userProfile == getEnv("USERPROFILE")
  {
    Env(getEnv("XDG_CONFIG_HOME"), getEnv("GHTKN_APP"), getEnv("HOME"), getEnv("APPDATA"), getEnv("USERPROFILE"), goos)
  }

  /** The platform only fills in `goos`: the variables read are the same on
      every platform, Windows ones included; with nothing set, every field
      but `goos` is empty. */
  lemma NewEnvPlatformBlind(getEnv: string -> string, goos: string, other: string)
    ensures NewEnv(getEnv, goos).(goos := other) == NewEnv(getEnv, other)
    ensures (forall v :: getEnv(v) == "") ==> NewEnv(getEnv, goos) == Env("", "", "", "", "", goos)
  {
  }
}

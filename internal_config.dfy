/** The newer configuration (internal/config): the list of GitHub Apps, its
    validation, choosing an app by name, and where the file lives. */
module InternalConfig {
  import opened Common

  /** A configured GitHub App. `isDefault` is read by `SelectApp` and
      `appID` by the token manager; the declaration of `App` shown in
      internal/config/config.go has neither field, so both are carried here
      as the callers use them. */
  datatype App = App(name: string, clientID: string, gitOwner: string, isDefault: bool, appID: int)

  datatype Config = Config(apps: seq<App>)

  // ---------------------------------------------------------------------
  // Validation

  /** `App.Validate`: the name is checked before the client ID. */
  function ValidateApp(a: App): (c: Check)
    ensures c.Pass? <==> a.name != "" && a.clientID != ""
    ensures a.name == "" ==> c == Fail("name is required")
    ensures a.name != "" && a.clientID == "" ==> c == Fail("client_id is required")
  {
    if a.name == "" then Fail("name is required")
    else if a.clientID == "" then Fail("client_id is required")
    else Pass
  }

  /** Index of the first app that fails validation, or `|apps|`. */
  function FirstInvalid(apps: seq<App>): (k: nat)
    ensures k <= |apps|
    ensures k < |apps| ==> ValidateApp(apps[k]).Fail?
    ensures forall j :: 0 <= j < k ==> ValidateApp(apps[j]).Pass?
  {
    if apps == [] then 0
    else if ValidateApp(apps[0]).Fail? then 0
    else 1 + FirstInvalid(apps[1..])
  }

  /** `Config.Validate`; `None` is a nil config. */
  function ValidateConfig(c: Option<Config>): (r: Check)
    ensures c.None? ==> r == Fail("config is required")
    ensures c.Some? && c.value.apps == [] ==> r == Fail("apps is required")
    ensures r.Pass? <==> c.Some? && c.value.apps != [] && forall a :: a in c.value.apps ==> ValidateApp(a).Pass?
    ensures c.Some? && c.value.apps != [] && r.Fail? ==>
              exists k :: 0 <= k < |c.value.apps| && ValidateApp(c.value.apps[k]).Fail?
                && r.msg == Wrap("app is invalid", ValidateApp(c.value.apps[k]).msg)
                && forall j :: 0 <= j < k ==> ValidateApp(c.value.apps[j]).Pass?
  {
    if c.None? then Fail("config is required")
    else if c.value.apps == [] then Fail("apps is required")
    else
      var k := FirstInvalid(c.value.apps);
      if k < |c.value.apps| then Fail(Wrap("app is invalid", ValidateApp(c.value.apps[k]).msg))
      else Pass
  }

  /** `Reader.Read`: returns the error, if any, and the new value of the
      config it fills in. Only the empty-path branch is part of this
      model; for any other path, `load` stands for opening the file and
      decoding its YAML. */
  function Read(cfg: Config, path: string, load: string -> Outcome<Config>): (r: (Option<string>, Config))
    ensures path == "" ==> r == (None, cfg)
  {
    if path == "" then (None, cfg)
    else match load(path)
      case Err(m) => (Some(m), cfg)
      case Ok(c) => (None, c)
  }

  // ---------------------------------------------------------------------
  // Selection

  /** Index of the first app whose name is the non-empty `key`, or `|apps|`. */
  function NameIndex(apps: seq<App>, key: string): (i: nat)
    ensures i <= |apps|
    ensures i < |apps| ==> key != "" && apps[i].name == key
    ensures forall j :: 0 <= j < i ==> !(key != "" && apps[j].name == key)
  {
    if apps == [] then 0
    else if key != "" && apps[0].name == key then 0
    else 1 + NameIndex(apps[1..], key)
  }

  /** Index of the first app marked default, or `|apps|`. */
  function DefaultIndex(apps: seq<App>): (i: nat)
    ensures i <= |apps|
    ensures i < |apps| ==> apps[i].isDefault
    ensures forall j :: 0 <= j < i ==> !apps[j].isDefault
  {
    if apps == [] then 0
    else if apps[0].isDefault then 0
    else 1 + DefaultIndex(apps[1..])
  }

  /** `Config.SelectApp`: the first app named `key`; failing that, the first
      default app; failing that, the first app; nothing for a nil or empty
      config. */
  method SelectApp(c: Option<Config>, key: string) returns (r: Option<App>)
    ensures c.None? || c.value.apps == [] <==> r.None?
    ensures r.Some? ==> r.value in c.value.apps
    ensures c.Some? && NameIndex(c.value.apps, key) < |c.value.apps| ==>
              r == Some(c.value.apps[NameIndex(c.value.apps, key)])
    ensures c.Some? && NameIndex(c.value.apps, key) == |c.value.apps| && DefaultIndex(c.value.apps) < |c.value.apps| ==>
              r == Some(c.value.apps[DefaultIndex(c.value.apps)])
    ensures c.Some? && c.value.apps != [] && NameIndex(c.value.apps, key) == |c.value.apps| && DefaultIndex(c.value.apps) == |c.value.apps| ==>
              r == Some(c.value.apps[0])
  {
    if c.None? || |c.value.apps| == 0 {
      return None;
    }
    var apps := c.value.apps;
    var chosen: Option<App> := None;
    var i := 0;
    while i < |apps|
      invariant 0 <= i <= |apps|
      invariant forall j :: 0 <= j < i ==> !(key != "" && apps[j].name == key)
      invariant chosen.None? <==> forall j :: 0 <= j < i ==> !apps[j].isDefault
      invariant chosen.Some? ==> DefaultIndex(apps) < i && chosen.value == apps[DefaultIndex(apps)]
    {
      var a := apps[i];
      if key != "" && a.name == key {
        return Some(a);
      }
      if chosen.None? && a.isDefault {
        chosen := Some(a);
      }
      i := i + 1;
    }
    if chosen.Some? {
      return chosen;
    }
    return Some(apps[0]);
  }

  /** An empty key never selects by name. */
  lemma {:induction false} EmptyKeyNeverMatches(apps: seq<App>)
    ensures NameIndex(apps, "") == |apps|
  {
    if apps != [] {
      EmptyKeyNeverMatches(apps[1..]);
    }
  }

  /** A name match wins over a default app listed before it. */
  lemma NameBeatsEarlierDefault(apps: seq<App>, key: string, d: nat, m: nat)
    requires d < m < |apps| && apps[d].isDefault
    requires key != "" && apps[m].name == key
    requires forall j :: 0 <= j < m ==> apps[j].name != key
    ensures NameIndex(apps, key) == m && DefaultIndex(apps) <= d
  {
  }

  // ---------------------------------------------------------------------
  // Where the configuration file lives

  /** The environment the path is computed from. */
  datatype Env = Env(xdgConfigHome: string, home: string, appData: string, goos: string)

  /** `filepath.Join`: the non-empty elements, separated by `sep` (the
      host's path separator). */
  function JoinPath(elems: seq<string>, sep: char): (p: string)
    ensures (forall i :: 0 <= i < |elems| ==> elems[i] == "") <==> p == ""
  {
    if elems == [] then ""
    else
      var rest := JoinPath(elems[1..], sep);
      if elems[0] == "" then rest
      else if rest == "" then elems[0]
      else elems[0] + [sep] + rest
  }

  /** Joining non-empty elements keeps every element and puts one separator
      between neighbours. */
  lemma JoinPathNonEmpty(a: string, b: string, c: string, sep: char)
    requires a != "" && b != "" && c != ""
    ensures JoinPath([a, b, c], sep) == a + [sep] + b + [sep] + c
    ensures JoinPath([a, b], sep) == a + [sep] + b
  {
    assert [a, b, c][1..] == [b, c];
    assert [b, c][1..] == [c];
    assert [a, b][1..] == [b];
    assert [c][1..] == [];
    assert [b][1..] == [];
    assert JoinPath([c], sep) == c;
    assert JoinPath([b, c], sep) == b + [sep] + c;
    assert JoinPath([a, b, c], sep) == a + [sep] + (b + [sep] + c);
  }

  const ErrAppData := "APPDATA is required on Windows"
  const ErrHome := "XDG_CONFIG_HOME or HOME is required on Linux and macOS"

  /** `GetPath`. */
  function GetPath(env: Env, sep: char): (r: Outcome<string>)
    ensures r.Err? <==> (if env.goos == "windows" then env.appData == "" else env.xdgConfigHome == "" && env.home == "")
  {
    if env.goos == "windows" then
      if env.appData != "" then Ok(JoinPath([env.appData, "ghtkn", "ghtkn.yaml"], sep))
      else Err(ErrAppData)
    else if env.xdgConfigHome != "" then Ok(JoinPath([env.xdgConfigHome, "ghtkn", "ghtkn.yaml"], sep))
    else if env.home != "" then Ok(JoinPath([env.home, ".config", "ghtkn", "ghtkn.yaml"], sep))
    else Err(ErrHome)
  }

  /** A path under `base` starts with `base`. */
  lemma PrefixOfPath(base: string, sep: char, path: string)
    requires path == base + [sep] + "ghtkn" + [sep] + "ghtkn.yaml"
    ensures base != "" ==> exists b :: b != "" && path == b + [sep] + "ghtkn" + [sep] + "ghtkn.yaml"
    ensures |base| <= |path| && path[..|base|] == base
  {
  }

  /** Every path found starts at the directory chosen for the platform and
      ends in `ghtkn/ghtkn.yaml`; every failure names what was missing. */
  lemma GetPathShape(env: Env, sep: char)
    ensures var r := GetPath(env, sep);
      && (r.Ok? ==> exists base :: base != "" && r.value == base + [sep] + "ghtkn" + [sep] + "ghtkn.yaml")
      && (r.Ok? && env.goos == "windows" ==> r.value[..|env.appData|] == env.appData)
      && (r.Ok? && env.goos != "windows" && env.xdgConfigHome != "" ==> r.value[..|env.xdgConfigHome|] == env.xdgConfigHome)
      && (r.Ok? && env.goos != "windows" && env.xdgConfigHome == "" ==> r.value == env.home + [sep] + ".config" + [sep] + "ghtkn" + [sep] + "ghtkn.yaml")
      && (r.Err? && env.goos == "windows" ==> r.msg == ErrAppData)
      && (r.Err? && env.goos != "windows" ==> r.msg == ErrHome)
  {
    if env.goos == "windows" {
      if env.appData != "" {
        JoinPathNonEmpty(env.appData, "ghtkn", "ghtkn.yaml", sep);
        PrefixOfPath(env.appData, sep, GetPath(env, sep).value);
      }
    } else if env.xdgConfigHome != "" {
      JoinPathNonEmpty(env.xdgConfigHome, "ghtkn", "ghtkn.yaml", sep);
      PrefixOfPath(env.xdgConfigHome, sep, GetPath(env, sep).value);
    } else if env.home != "" {
      var tail := [".config", "ghtkn", "ghtkn.yaml"];
      JoinPathNonEmpty(".config", "ghtkn", "ghtkn.yaml", sep);
      assert [env.home] + tail == [env.home, ".config", "ghtkn", "ghtkn.yaml"];
      assert [env.home, ".config", "ghtkn", "ghtkn.yaml"][1..] == tail;
      var base := env.home + [sep] + ".config";
      assert GetPath(env, sep).value == base + [sep] + "ghtkn" + [sep] + "ghtkn.yaml";
    }
  }

  /** On Windows only `APPDATA` matters; elsewhere `APPDATA` never does, and
      a set `XDG_CONFIG_HOME` makes `HOME` irrelevant. */
  lemma GetPathIgnores(env: Env, sep: char, other: string)
    ensures env.goos == "windows" ==>
              GetPath(env, sep) == GetPath(env.(xdgConfigHome := other), sep) == GetPath(env.(home := other), sep)
    ensures env.goos != "windows" ==> GetPath(env, sep) == GetPath(env.(appData := other), sep)
    ensures env.goos != "windows" && env.xdgConfigHome != "" ==> GetPath(env, sep) == GetPath(env.(home := other), sep)
  {
  }
}

/** The newer credential store (internal/keyring): access tokens and per-app
    client IDs kept as JSON strings in the OS keyring, addressed by
    (service, key). */
module InternalKeyring {
  import opened Common

  const DefaultServiceKey := "github.com/suzuki-shunsuke/ghtkn"
  const LoginsKey := "logins"

  // ---------------------------------------------------------------------
  // The OS keyring behind Get/Set/Delete

  type Entries = map<Slot, string>

  /** The slots on which each backend operation fails. */
  datatype Faults = Faults(read: set<Slot>, write: set<Slot>, delete: set<Slot>)

  /** A read: a backend error, no entry, or the stored string. */
  datatype Lookup<T> = Failed(msg: string) | Missing | Present(value: T)

  /** `Backend.Get`: not-found is a normal "absent" answer, not an error. */
  function Read(e: Entries, f: Faults, slot: Slot): (r: Lookup<string>)
    ensures r.Failed? <==> slot in f.read
    ensures r.Missing? <==> slot !in f.read && slot !in e
    ensures r.Present? ==> slot in e && r.value == e[slot]
  {
    if slot in f.read then Failed(BackendFailure)
    else if slot in e then Present(e[slot])
    else Missing
  }

  /** `Backend.Set`: the error, if any, and the entries afterwards. */
  function Write(e: Entries, f: Faults, slot: Slot, value: string): (r: (Option<string>, Entries))
    ensures r.0.Some? <==> slot in f.write
    ensures r.0.None? ==> r.1 == e[slot := value]
    ensures r.0.Some? ==> r.1 == e
  {
    if slot in f.write then (Some(BackendFailure), e) else (None, e[slot := value])
  }

  /** `Backend.Delete`: whether an entry was removed, and the entries
      afterwards; deleting an absent entry is `(false, nil)`. */
  function Remove(e: Entries, f: Faults, slot: Slot): (r: (Outcome<bool>, Entries))
    ensures r.0.Err? <==> slot in f.delete
    ensures r.0.Ok? ==> r.0.value == (slot in e) && r.1 == e - {slot}
    ensures r.0.Err? ==> r.1 == e
  {
    if slot in f.delete then (Err(BackendFailure), e) else (Ok(slot in e), e - {slot})
  }

  class Backend {
    var entries: Entries
    const faults: Faults

    constructor (entries0: Entries, faults0: Faults)
      ensures entries == entries0 && faults == faults0
    {
      entries := entries0;
      faults := faults0;
    }

    method Get(service: string, key: string) returns (r: Lookup<string>)
      ensures r == Read(entries, faults, (service, key))
    {
      var slot := (service, key);
      if slot in faults.read {
        r := Failed(BackendFailure);
      } else if slot in entries {
        r := Present(entries[slot]);
      } else {
        r := Missing;
      }
    }

    method Set(service: string, key: string, value: string) returns (err: Option<string>)
      modifies this
      ensures (err, entries) == Write(old(entries), faults, (service, key), value)
    {
      if (service, key) in faults.write {
        err := Some(BackendFailure);
      } else {
        entries := entries[(service, key) := value];
        err := None;
      }
    }

    method Delete(service: string, key: string) returns (r: Outcome<bool>)
      modifies this
      ensures (r, entries) == Remove(old(entries), faults, (service, key))
    {
      var slot := (service, key);
      if slot in faults.delete {
        r := Err(BackendFailure);
      } else {
        r := Ok(slot in entries);
        entries := entries - {slot};
      }
    }
  }

  // ---------------------------------------------------------------------
  // Records and keys

  /** A cached GitHub App user access token. */
  datatype AccessToken = AccessToken(accessToken: string, expirationDate: Time, login: string, clientID: string)

  /** `AccessToken.Validate`: every field must be set; the first missing
      one, in declaration order, is reported. */
  function ValidateToken(t: AccessToken): (c: Check)
    ensures c == Pass <==> t.accessToken != "" && t.expirationDate != ZeroTime && t.login != "" && t.clientID != ""
    ensures t.accessToken == "" ==> c == Fail("access token is required")
    ensures t.accessToken != "" && t.expirationDate == ZeroTime ==> c == Fail("expiration date is required")
    ensures c == Fail("client id is required") <==> t.accessToken != "" && t.expirationDate != ZeroTime && t.login != "" && t.clientID == ""
  {
    if t.accessToken == "" then Fail("access token is required")
    else if t.expirationDate == ZeroTime then Fail("expiration date is required")
    else if t.login == "" then Fail("login is required")
    else if t.clientID == "" then Fail("client id is required")
    else Pass
  }

  /** Where a user's token for one GitHub App is stored. */
  datatype AccessTokenKey = AccessTokenKey(login: string, appID: int)

  /** `AccessTokenKey.String`: `access_tokens/<login>/<app id>`. */
  function KeyString(k: AccessTokenKey): (s: string)
    ensures |s| > 14 && s[..14] == "access_tokens/"
  {
    "access_tokens/" + k.login + "/" + Decimal(k.appID)
  }

  /** Distinct (login, app id) pairs never share a keyring entry. */
  lemma KeyStringInjective(a: AccessTokenKey, b: AccessTokenKey)
    ensures KeyString(a) == KeyString(b) <==> a == b
  {
    if KeyString(a) == KeyString(b) {
      KeyStringsEqual(a, b);
    }
  }

  lemma KeyStringsEqual(a: AccessTokenKey, b: AccessTokenKey)
    requires KeyString(a) == KeyString(b)
    ensures a == b
  {
    var pa, pb := "access_tokens/" + a.login, "access_tokens/" + b.login;
    assert KeyString(a) == pa + "/" + Decimal(a.appID);
    assert KeyString(b) == pb + "/" + Decimal(b.appID);
    SplitAtLastSlash(pa, Decimal(a.appID), pb, Decimal(b.appID));
    assert a.login == pa[14..] == pb[14..] == b.login;
    DecimalInjective(a.appID, b.appID);
  }

  /** The app record of a GitHub App: the client ID the user entered. */
  datatype App = App(clientID: string)

  /** `App.Validate`. */
  function ValidateApp(a: App): (c: Check)
    ensures c.Pass? <==> a.clientID != ""
    ensures c.Fail? ==> c.msg == "client id is required"
  {
    if a.clientID == "" then Fail("client id is required") else Pass
  }

  /** `keyApp`: `apps/<app id>`. */
  function KeyApp(appID: int): (s: string)
    ensures |s| > 5 && s[..5] == "apps/"
  {
    "apps/" + Decimal(appID)
  }

  lemma KeyAppInjective(a: int, b: int)
    ensures KeyApp(a) == KeyApp(b) <==> a == b
  {
    if KeyApp(a) == KeyApp(b) {
      assert Decimal(a) == KeyApp(a)[5..] == KeyApp(b)[5..] == Decimal(b);
      DecimalInjective(a, b);
    }
  }

  /** The three kinds of key never collide: tokens, apps and the login list
      live in separate entries of a service. */
  lemma KeysDistinct(k: AccessTokenKey, appID: int)
    ensures KeyString(k) != KeyApp(appID)
    ensures KeyString(k) != LoginsKey
    ensures KeyApp(appID) != LoginsKey
  {
    assert KeyString(k)[0] == 'a' && KeyString(k)[1] == 'c';
    assert KeyApp(appID)[1] == 'p';
    assert LoginsKey[0] == 'l';
  }

  // ---------------------------------------------------------------------
  // Specification of the keyring operations

  /** What a keyring read returns and what it leaves in the store. */
  datatype Fetched<T> = Fetched(result: Lookup<T>, after: Entries)

  /** `Keyring.GetAccessToken`. */
  function GetAccessTokenSpec(e: Entries, f: Faults, codec: Codec<AccessToken>, service: string, key: AccessTokenKey): (r: Fetched<AccessToken>)
    ensures r.result.Failed? <==> (service, KeyString(key)) in f.read
    ensures r.result.Failed? ==> r.result.msg == Wrap("get a GitHub Access token in keyring", BackendFailure)
    ensures r.result.Present? ==> ValidateToken(r.result.value) == Pass
    ensures r.result.Present? ==> (service, KeyString(key)) in e && Some(r.result.value) == codec.decode(e[(service, KeyString(key))])
  {
    var slot := (service, KeyString(key));
    match Read(e, f, slot)
    case Failed(m) => Fetched(Failed(Wrap("get a GitHub Access token in keyring", m)), e)
    case Missing => Fetched(Missing, e)
    case Present(s) =>
      match codec.decode(s)
      case None => Fetched(Missing, Remove(e, f, slot).1)
      case Some(t) =>
        if ValidateToken(t).Fail? then Fetched(Missing, Remove(e, f, slot).1)
        else Fetched(Present(t), e)
  }

  /** A stored entry that does not decode to a valid token is reported
      absent, and a delete of that very entry is attempted; a failing
      delete is not reported. */
  lemma GetAccessTokenDropsCorrupt(e: Entries, f: Faults, codec: Codec<AccessToken>, service: string, key: AccessTokenKey)
    requires (service, KeyString(key)) !in f.read && (service, KeyString(key)) in e
    requires codec.decode(e[(service, KeyString(key))]).None?
          || ValidateToken(codec.decode(e[(service, KeyString(key))]).value).Fail?
    ensures GetAccessTokenSpec(e, f, codec, service, key).result == Missing
    ensures GetAccessTokenSpec(e, f, codec, service, key).after
         == if (service, KeyString(key)) in f.delete then e else e - {(service, KeyString(key))}
  {
  }

  /** Reading a token only ever removes the entry it read. */
  lemma GetAccessTokenOnlyDropsItsEntry(e: Entries, f: Faults, codec: Codec<AccessToken>, service: string, key: AccessTokenKey)
    ensures GetAccessTokenSpec(e, f, codec, service, key).after.Keys <= e.Keys
    ensures forall s :: s in GetAccessTokenSpec(e, f, codec, service, key).after ==> GetAccessTokenSpec(e, f, codec, service, key).after[s] == e[s]
    ensures forall s :: s in e && s != (service, KeyString(key)) ==> s in GetAccessTokenSpec(e, f, codec, service, key).after
  {
  }

  /** `getLogins`: the comma-separated "logins" entry; a missing or empty
      entry is an empty list. */
  function LoginsSpec(e: Entries, f: Faults, service: string): (r: Outcome<seq<string>>)
    ensures r.Err? <==> (service, LoginsKey) in f.read
    ensures r.Err? ==> r.msg == Wrap("get logins from keyring", BackendFailure)
  {
    match Read(e, f, (service, LoginsKey))
    case Failed(m) => Err(Wrap("get logins from keyring", m))
    case Missing => Ok([])
    case Present(s) => if s == "" then Ok([]) else Ok(Split(s, ','))
  }

  /** The list is exactly the entry cut at its commas: joining it back gives
      the stored text, and no login contains a comma. */
  lemma LoginsSplitEntry(e: Entries, f: Faults, service: string)
    requires (service, LoginsKey) !in f.read
    ensures LoginsSpec(e, f, service).Ok?
    ensures (service, LoginsKey) !in e || e[(service, LoginsKey)] == "" <==> LoginsSpec(e, f, service).value == []
    ensures (service, LoginsKey) in e && e[(service, LoginsKey)] != "" ==>
              JoinWith(LoginsSpec(e, f, service).value, ',') == e[(service, LoginsKey)]
    ensures forall i :: 0 <= i < |LoginsSpec(e, f, service).value| ==> ',' !in LoginsSpec(e, f, service).value[i]
  {
    if (service, LoginsKey) in e && e[(service, LoginsKey)] != "" {
      JoinSplit(e[(service, LoginsKey)], ',');
    }
  }

  /** `Keyring.SetAccessToken`: the encoded token is written under the
      key's entry. Reading the login list afterwards changes nothing: the
      set of known logins built there starts empty, so the function always
      returns before it would rewrite "logins". */
  function SetAccessTokenSpec(e: Entries, f: Faults, codec: Codec<AccessToken>, service: string, key: AccessTokenKey, t: AccessToken): (r: (Option<string>, Entries))
    ensures r.0.Some? <==> (service, KeyString(key)) in f.write
    ensures r.0.Some? ==> r.0.value == Wrap("set a GitHub Access token in keyring", BackendFailure)
    ensures forall s :: s != (service, KeyString(key)) ==> (s in r.1 <==> s in e) && (s in e ==> r.1[s] == e[s])
  {
    var (err, after) := Write(e, f, (service, KeyString(key)), codec.encode(t));
    if err.Some? then (Some(Wrap("set a GitHub Access token in keyring", err.value)), after) else (None, after)
  }

  /** Writing a token never touches the login list, an app record, or
      another user's or app's token. */
  lemma SetAccessTokenKeepsOthers(e: Entries, f: Faults, codec: Codec<AccessToken>, service: string, key: AccessTokenKey, t: AccessToken,
                                  other: AccessTokenKey, appID: int)
    requires other != key
    ensures var after := SetAccessTokenSpec(e, f, codec, service, key, t).1;
      && ((service, LoginsKey) in after <==> (service, LoginsKey) in e)
      && ((service, LoginsKey) in e ==> after[(service, LoginsKey)] == e[(service, LoginsKey)])
      && ((service, KeyApp(appID)) in after <==> (service, KeyApp(appID)) in e)
      && ((service, KeyString(other)) in after <==> (service, KeyString(other)) in e)
  {
    KeysDistinct(key, appID);
    KeyStringInjective(other, key);
  }

  /** A valid token that was written is read back unchanged. */
  lemma SetThenGetAccessToken(e: Entries, f: Faults, codec: Codec<AccessToken>, service: string, key: AccessTokenKey, t: AccessToken)
    requires RoundTrips(codec)
    requires (service, KeyString(key)) !in f.write && (service, KeyString(key)) !in f.read
    requires ValidateToken(t) == Pass
    ensures SetAccessTokenSpec(e, f, codec, service, key, t).0 == None
    ensures GetAccessTokenSpec(SetAccessTokenSpec(e, f, codec, service, key, t).1, f, codec, service, key) == Fetched(Present(t), SetAccessTokenSpec(e, f, codec, service, key, t).1)
  {
    assert codec.decode(codec.encode(t)) == Some(t);
  }

  /** `Keyring.GetApp`. */
  function GetAppSpec(e: Entries, f: Faults, codec: Codec<App>, service: string, appID: int): (r: Fetched<App>)
    ensures r.result.Failed? <==> (service, KeyApp(appID)) in f.read
    ensures r.result.Failed? ==> r.result.msg == Wrap("get an App in keyring", BackendFailure)
    ensures r.result.Present? ==> r.result.value.clientID != "" && r.after == e
  {
    var slot := (service, KeyApp(appID));
    match Read(e, f, slot)
    case Failed(m) => Fetched(Failed(Wrap("get an App in keyring", m)), e)
    case Missing => Fetched(Missing, e)
    case Present(s) =>
      match codec.decode(s)
      case None => Fetched(Missing, Remove(e, f, slot).1)
      case Some(a) =>
        if ValidateApp(a).Fail? then Fetched(Missing, Remove(e, f, slot).1)
        else Fetched(Present(a), e)
  }

  /** A missing app entry is absent without error; an undecodable or
      invalid one is absent too, after an attempted delete. */
  lemma GetAppAbsentCases(e: Entries, f: Faults, codec: Codec<App>, service: string, appID: int)
    requires (service, KeyApp(appID)) !in f.read
    ensures (service, KeyApp(appID)) !in e ==> GetAppSpec(e, f, codec, service, appID) == Fetched(Missing, e)
    ensures (service, KeyApp(appID)) in e && (codec.decode(e[(service, KeyApp(appID))]).None? || codec.decode(e[(service, KeyApp(appID))]).value.clientID == "")
            ==> GetAppSpec(e, f, codec, service, appID) == Fetched(Missing, Remove(e, f, (service, KeyApp(appID))).1)
  {
  }

  /** How `Keyring.SetApp` ends: with its error result, or in a nil
      dereference at app.go line 89 when a listed login has no valid
      token for the app. */
  datatype SetAppOutcome = Returned(err: Option<string>) | Panicked(login: string)

  /** The token slot of `login` for `appID` in `service`. */
  function TokenSlot(service: string, login: string, appID: int): Slot
  {
    (service, KeyString(AccessTokenKey(login, appID)))
  }

  /** The loop of `SetApp` over the listed logins, from the front: each
      token whose client ID differs from `clientID` is deleted; a read
      error skips the login; a missing or invalid token is dereferenced. */
  function Sweep(e: Entries, f: Faults, codec: Codec<AccessToken>, service: string, appID: int, clientID: string, logins: seq<string>): (r: (SetAppOutcome, Entries))
    ensures r.0 != Returned(None) ==> r.0.Panicked?
    decreases |logins|
  {
    if logins == [] then (Returned(None), e)
    else
      var key := AccessTokenKey(logins[0], appID);
      var Fetched(token, e1) := GetAccessTokenSpec(e, f, codec, service, key);
      match token
      case Failed(_) => Sweep(e1, f, codec, service, appID, clientID, logins[1..])
      case Missing => (Panicked(logins[0]), e1)
      case Present(t) =>
        if t.clientID == clientID then Sweep(e1, f, codec, service, appID, clientID, logins[1..])
        else Sweep(Remove(e1, f, (service, KeyString(key))).1, f, codec, service, appID, clientID, logins[1..])
  }

  /** `Keyring.SetApp`. */
  function SetAppSpec(e: Entries, f: Faults, tokenCodec: Codec<AccessToken>, appCodec: Codec<App>, service: string, appID: int, app: App): (r: (SetAppOutcome, Entries))
  {
    var (err, e1) := Write(e, f, (service, KeyApp(appID)), appCodec.encode(app));
    if err.Some? then (Returned(Some(Wrap("set an App in keyring", err.value))), e1)
    else
      match LoginsSpec(e1, f, service)
      case Err(_) => (Returned(None), e1)
      case Ok(logins) => Sweep(e1, f, tokenCodec, service, appID, app.clientID, logins)
  }

  /** The only error `SetApp` reports is a failed write of the app record:
      per-login read and delete failures, and a failed read of the login
      list, are swallowed. */
  lemma SetAppFailsOnlyOnWrite(e: Entries, f: Faults, tokenCodec: Codec<AccessToken>, appCodec: Codec<App>, service: string, appID: int, app: App)
    ensures SetAppSpec(e, f, tokenCodec, appCodec, service, appID, app).0.Returned?
            && SetAppSpec(e, f, tokenCodec, appCodec, service, appID, app).0.err.Some?
            <==> (service, KeyApp(appID)) in f.write
    ensures (service, KeyApp(appID)) in f.write ==>
            SetAppSpec(e, f, tokenCodec, appCodec, service, appID, app) == (Returned(Some(Wrap("set an App in keyring", BackendFailure))), e)
  {
  }

  /** `s` is the token slot of one of `logins` for `appID` in `service`. */
  ghost predicate SweptSlot(s: Slot, service: string, appID: int, logins: seq<string>)
  {
    exists i :: 0 <= i < |logins| && s == TokenSlot(service, logins[i], appID)
  }

  /** The sweep only deletes, and only the tokens of the listed logins for
      this app. */
  lemma {:induction false} SweepOnlyDeletes(e: Entries, f: Faults, codec: Codec<AccessToken>, service: string, appID: int, clientID: string, logins: seq<string>)
    ensures var after := Sweep(e, f, codec, service, appID, clientID, logins).1;
      && after.Keys <= e.Keys
      && (forall s :: s in after ==> after[s] == e[s])
      && (forall s :: s in e && !SweptSlot(s, service, appID, logins) ==> s in after)
    decreases |logins|
  {
    if logins != [] {
      var key := AccessTokenKey(logins[0], appID);
      var slot := (service, KeyString(key));
      var Fetched(token, e1) := GetAccessTokenSpec(e, f, codec, service, key);
      GetAccessTokenOnlyDropsItsEntry(e, f, codec, service, key);
      var rest := logins[1..];
      SweepOnlyDeletes(e1, f, codec, service, appID, clientID, rest);
      var e2 := Remove(e1, f, slot).1;
      SweepOnlyDeletes(e2, f, codec, service, appID, clientID, rest);
      forall s | SweptSlot(s, service, appID, rest)
        ensures SweptSlot(s, service, appID, logins)
      {
        var i :| 0 <= i < |rest| && s == TokenSlot(service, rest[i], appID);
        assert s == TokenSlot(service, logins[i + 1], appID);
      }
      assert slot == TokenSlot(service, logins[0], appID);
    }
  }

  /** Per listed login, the sweep decides by client ID: a valid token for
      the new client ID is kept as it was, and one for another client ID is
      gone afterwards (unless the backend refuses the delete). */
  lemma {:induction false} SweepVerdict(e: Entries, f: Faults, codec: Codec<AccessToken>, service: string, appID: int, clientID: string, logins: seq<string>,
                                        login: string, t: AccessToken)
    requires login in logins
    requires Sweep(e, f, codec, service, appID, clientID, logins).0 == Returned(None)
    requires TokenSlot(service, login, appID) !in f.read && TokenSlot(service, login, appID) in e
    requires codec.decode(e[TokenSlot(service, login, appID)]) == Some(t) && ValidateToken(t) == Pass
    ensures var after := Sweep(e, f, codec, service, appID, clientID, logins).1;
      && (t.clientID == clientID ==> TokenSlot(service, login, appID) in after && after[TokenSlot(service, login, appID)] == e[TokenSlot(service, login, appID)])
      && (t.clientID != clientID && TokenSlot(service, login, appID) !in f.delete ==> TokenSlot(service, login, appID) !in after)
    decreases |logins|
  {
    var slot := TokenSlot(service, login, appID);
    var key := AccessTokenKey(logins[0], appID);
    var head := (service, KeyString(key));
    var rest := logins[1..];
    var e1 := GetAccessTokenSpec(e, f, codec, service, key).after;
    GetAccessTokenOnlyDropsItsEntry(e, f, codec, service, key);
    if logins[0] == login {
      assert head == slot;
      assert GetAccessTokenSpec(e, f, codec, service, key).result == Present(t) && e1 == e;
      if t.clientID == clientID {
        assert Sweep(e, f, codec, service, appID, clientID, logins) == Sweep(e, f, codec, service, appID, clientID, rest);
        if login in rest {
          SweepVerdict(e, f, codec, service, appID, clientID, rest, login, t);
        } else {
          SweepOnlyDeletes(e, f, codec, service, appID, clientID, rest);
          NotSwept(service, appID, rest, login);
        }
      } else {
        var e2 := Remove(e, f, slot).1;
        assert Sweep(e, f, codec, service, appID, clientID, logins) == Sweep(e2, f, codec, service, appID, clientID, rest);
        SweepOnlyDeletes(e2, f, codec, service, appID, clientID, rest);
      }
    } else {
      assert login in rest;
      KeyStringInjective(key, AccessTokenKey(login, appID));
      assert slot in e1 && e1[slot] == e[slot];
      var token := GetAccessTokenSpec(e, f, codec, service, key).result;
      if token.Failed? || (token.Present? && token.value.clientID == clientID) {
        SweepVerdict(e1, f, codec, service, appID, clientID, rest, login, t);
      } else {
        var e2 := Remove(e1, f, head).1;
        assert slot in e2 && e2[slot] == e[slot];
        SweepVerdict(e2, f, codec, service, appID, clientID, rest, login, t);
      }
    }
  }

  /** A login that is not listed has no slot among the swept ones. */
  lemma NotSwept(service: string, appID: int, logins: seq<string>, login: string)
    requires login !in logins
    ensures !SweptSlot(TokenSlot(service, login, appID), service, appID, logins)
  {
    forall i | 0 <= i < |logins|
      ensures TokenSlot(service, login, appID) != TokenSlot(service, logins[i], appID)
    {
      KeyStringInjective(AccessTokenKey(login, appID), AccessTokenKey(logins[i], appID));
    }
  }

  /** Tokens of other GitHub Apps and other services are never touched by
      `SetApp`, and neither is the login list. */
  lemma SetAppKeepsOtherEntries(e: Entries, f: Faults, tokenCodec: Codec<AccessToken>, appCodec: Codec<App>, service: string, appID: int, app: App, s: Slot)
    requires s.0 != service || s.1 == LoginsKey || exists login, id :: id != appID && s.1 == KeyString(AccessTokenKey(login, id))
    ensures var after := SetAppSpec(e, f, tokenCodec, appCodec, service, appID, app).1;
      (s in after <==> s in e) && (s in e ==> after[s] == e[s])
  {
    var (err, e1) := Write(e, f, (service, KeyApp(appID)), appCodec.encode(app));
    if s.0 == service && s.1 != LoginsKey {
      var login, id :| id != appID && s.1 == KeyString(AccessTokenKey(login, id));
      KeysDistinct(AccessTokenKey(login, id), appID);
      forall l ensures s != TokenSlot(service, l, appID) {
        KeyStringInjective(AccessTokenKey(login, id), AccessTokenKey(l, appID));
      }
    } else {
      KeysDistinct(AccessTokenKey("", 0), appID);
    }
    assert s != (service, KeyApp(appID));
    if err.None? {
      match LoginsSpec(e1, f, service)
      case Err(_) =>
      case Ok(logins) =>
        SweepOnlyDeletes(e1, f, tokenCodec, service, appID, app.clientID, logins);
        forall i | 0 <= i < |logins| ensures s != TokenSlot(service, logins[i], appID) {
          if s.0 == service {
            KeysDistinct(AccessTokenKey(logins[i], appID), appID);
          }
        }
    }
  }

  /** After a `SetApp` that returns, `GetApp` of the same app reads the
      client ID back. */
  lemma SetAppThenGetApp(e: Entries, f: Faults, tokenCodec: Codec<AccessToken>, appCodec: Codec<App>, service: string, appID: int, app: App)
    requires RoundTrips(appCodec)
    requires app.clientID != ""
    requires (service, KeyApp(appID)) !in f.read
    requires SetAppSpec(e, f, tokenCodec, appCodec, service, appID, app).0 == Returned(None)
    ensures GetAppSpec(SetAppSpec(e, f, tokenCodec, appCodec, service, appID, app).1, f, appCodec, service, appID).result == Present(app)
  {
    var slot := (service, KeyApp(appID));
    var e1 := Write(e, f, slot, appCodec.encode(app)).1;
    assert slot !in f.write;
    assert e1[slot] == appCodec.encode(app);
    var after := SetAppSpec(e, f, tokenCodec, appCodec, service, appID, app).1;
    match LoginsSpec(e1, f, service)
    case Err(_) =>
    case Ok(logins) =>
      SweepOnlyDeletes(e1, f, tokenCodec, service, appID, app.clientID, logins);
      forall i | 0 <= i < |logins| ensures slot != TokenSlot(service, logins[i], appID) {
        KeysDistinct(AccessTokenKey(logins[i], appID), appID);
      }
      assert slot in after && after[slot] == appCodec.encode(app);
    assert appCodec.decode(appCodec.encode(app)) == Some(app);
  }

  /** A listed login without a stored token for the app reaches the nil
      dereference: `GetAccessToken` reports it absent without an error. */
  lemma SetAppPanicsOnAbsentToken(e: Entries, f: Faults, tokenCodec: Codec<AccessToken>, appCodec: Codec<App>, service: string, appID: int, app: App, login: string)
    requires (service, KeyApp(appID)) !in f.write
    requires (service, LoginsKey) !in f.read && (service, LoginsKey) in e && e[(service, LoginsKey)] == login
    requires login != "" && ',' !in login
    requires TokenSlot(service, login, appID) !in f.read && TokenSlot(service, login, appID) !in e
    ensures SetAppSpec(e, f, tokenCodec, appCodec, service, appID, app).0 == Panicked(login)
  {
    var e1 := Write(e, f, (service, KeyApp(appID)), appCodec.encode(app)).1;
    KeysDistinct(AccessTokenKey(login, appID), appID);
    assert e1[(service, LoginsKey)] == login;
    SplitWhole(login, ',');
    assert LoginsSpec(e1, f, service) == Ok([login]);
    assert TokenSlot(service, login, appID) !in e1;
  }

  // ---------------------------------------------------------------------
  // The keyring object

  /** `Keyring`: the operations above, run against a backend. */
  class Keyring {
    const api: Backend
    const tokenCodec: Codec<AccessToken>
    const appCodec: Codec<App>

    constructor (api: Backend, tokenCodec: Codec<AccessToken>, appCodec: Codec<App>)
      ensures this.api == api && this.tokenCodec == tokenCodec && this.appCodec == appCodec
    {
      this.api := api;
      this.tokenCodec := tokenCodec;
      this.appCodec := appCodec;
    }

    method GetAccessToken(service: string, key: AccessTokenKey) returns (r: Lookup<AccessToken>)
      modifies api
      ensures Fetched(r, api.entries) == GetAccessTokenSpec(old(api.entries), api.faults, tokenCodec, service, key)
    {
      var s := api.Get(service, KeyString(key));
      match s {
        case Failed(m) =>
          return Failed(Wrap("get a GitHub Access token in keyring", m));
        case Missing =>
          return Missing;
        case Present(text) =>
          var decoded := tokenCodec.decode(text);
          if decoded.None? {
            var _ := DeleteAccessToken(service, key);
            return Missing;
          }
          if ValidateToken(decoded.value).Fail? {
            var _ := api.Delete(service, KeyString(key));
            return Missing;
          }
          return Present(decoded.value);
      }
    }

    method GetLogins(service: string) returns (r: Outcome<seq<string>>)
      ensures r == LoginsSpec(api.entries, api.faults, service)
    {
      var s := api.Get(service, LoginsKey);
      match s {
        case Failed(m) => r := Err(Wrap("get logins from keyring", m));
        case Missing => r := Ok([]);
        case Present(text) => r := if text == "" then Ok([]) else Ok(Split(text, ','));
      }
    }

    method SetAccessToken(service: string, key: AccessTokenKey, token: AccessToken) returns (err: Option<string>)
      modifies api
      ensures (err, api.entries) == SetAccessTokenSpec(old(api.entries), api.faults, tokenCodec, service, key, token)
    {
      var e := api.Set(service, KeyString(key), tokenCodec.encode(token));
      if e.Some? {
        return Some(Wrap("set a GitHub Access token in keyring", e.value));
      }
      var _ := GetLogins(service);
      return None;
    }

    method DeleteAccessToken(service: string, key: AccessTokenKey) returns (r: Outcome<bool>)
      modifies api
      ensures (r, api.entries) == Remove(old(api.entries), api.faults, (service, KeyString(key)))
    {
      r := api.Delete(service, KeyString(key));
    }

    method GetApp(service: string, appID: int) returns (r: Lookup<App>)
      modifies api
      ensures Fetched(r, api.entries) == GetAppSpec(old(api.entries), api.faults, appCodec, service, appID)
    {
      var s := api.Get(service, KeyApp(appID));
      match s {
        case Failed(m) =>
          return Failed(Wrap("get an App in keyring", m));
        case Missing =>
          return Missing;
        case Present(text) =>
          var decoded := appCodec.decode(text);
          if decoded.None? || ValidateApp(decoded.value).Fail? {
            var _ := api.Delete(service, KeyApp(appID));
            return Missing;
          }
          return Present(decoded.value);
      }
    }

    method SetApp(service: string, appID: int, app: App) returns (r: SetAppOutcome)
      modifies api
      ensures (r, api.entries) == SetAppSpec(old(api.entries), api.faults, tokenCodec, appCodec, service, appID, app)
    {
      var e := api.Set(service, KeyApp(appID), appCodec.encode(app));
      if e.Some? {
        return Returned(Some(Wrap("set an App in keyring", e.value)));
      }
      var listed := GetLogins(service);
      if listed.Err? {
        return Returned(None);
      }
      var logins := listed.value;
      var i := 0;
      while i < |logins|
        invariant 0 <= i <= |logins|
        invariant SetAppSpec(old(api.entries), api.faults, tokenCodec, appCodec, service, appID, app)
               == Sweep(api.entries, api.faults, tokenCodec, service, appID, app.clientID, logins[i..])
      {
        ghost var before := api.entries;
        assert logins[i..][0] == logins[i] && logins[i..][1..] == logins[i + 1..];
        var key := AccessTokenKey(logins[i], appID);
        var token := GetAccessToken(service, key);
        ghost var fetched := api.entries;
        if token.Missing? {
          return Panicked(logins[i]);
        }
        if token.Present? && token.value.clientID != app.clientID {
          var _ := DeleteAccessToken(service, key);
          assert api.entries == Remove(fetched, api.faults, (service, KeyString(key))).1;
        }
        i := i + 1;
      }
      return Returned(None);
    }
  }
}

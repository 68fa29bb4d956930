/** The older credential store (keyring): one JSON-encoded token per key,
    with an RFC 3339 string for its expiry. */
module Keyring {
  import opened Common

  /** The not-found error of the OS keyring library. */
  const ErrNotFound := "secret not found in keyring"

  /** The error of a stored value that is not a JSON-encoded token. */
  const UndecodableToken := "the value is not a JSON-encoded token"

  /** The stored token. The expiry is kept as the RFC 3339 string that
      `FormatDate` produces; `ParseDate` and `FormatDate` themselves are not
      part of this model. */
  datatype AccessToken = AccessToken(app: string, accessToken: string, expirationDate: string, login: string)

  /** The `API` the keyring writes through: the OS keyring, where a missing
      secret is an error, and the slots on which reads or writes fail. */
  class Store {
    var entries: map<Slot, string>
    const failGet: set<Slot>
    const failSet: set<Slot>

    constructor (entries0: map<Slot, string>, failGet0: set<Slot>, failSet0: set<Slot>)
      ensures entries == entries0 && failGet == failGet0 && failSet == failSet0
    {
      entries := entries0;
      failGet := failGet0;
      failSet := failSet0;
    }

    method Get(service: string, user: string) returns (r: Outcome<string>)
      ensures r == StoreGet(entries, failGet, (service, user))
    {
      if (service, user) in failGet {
        return Err(BackendFailure);
      }
      if (service, user) in entries {
        return Ok(entries[(service, user)]);
      }
      return Err(ErrNotFound);
    }

    method Set(service: string, user: string, password: string) returns (err: Option<string>)
      modifies this
      ensures err == if (service, user) in failSet then Some(BackendFailure) else None
      ensures entries == if err.Some? then old(entries) else old(entries)[(service, user) := password]
    {
      if (service, user) in failSet {
        return Some(BackendFailure);
      }
      entries := entries[(service, user) := password];
      return None;
    }
  }

  /** `API.Get` on the entries. */
  function StoreGet(e: map<Slot, string>, failGet: set<Slot>, slot: Slot): (r: Outcome<string>)
    ensures r.Ok? <==> slot !in failGet && slot in e
    ensures r.Ok? ==> r.value == e[slot]
    ensures slot !in failGet && slot !in e ==> r == Err(ErrNotFound)
  {
    if slot in failGet then Err(BackendFailure)
    else if slot in e then Ok(e[slot])
    else Err(ErrNotFound)
  }

  /** `Keyring.Get`: every failure is an error, a missing key included. */
  function GetSpec(e: map<Slot, string>, failGet: set<Slot>, codec: Codec<AccessToken>, keyService: string, key: string): (r: Outcome<AccessToken>)
    ensures r.Ok? <==> (keyService, key) !in failGet && (keyService, key) in e && codec.decode(e[(keyService, key)]).Some?
    ensures r.Ok? ==> Some(r.value) == codec.decode(e[(keyService, key)])
    ensures (keyService, key) !in failGet && (keyService, key) !in e ==> r == Err(Wrap("get a GitHub Access token in keyring", ErrNotFound))
    ensures (keyService, key) !in failGet && (keyService, key) in e && codec.decode(e[(keyService, key)]).None? ==>
              r == Err(Wrap("unmarshal the token as JSON", UndecodableToken))
  {
    match StoreGet(e, failGet, (keyService, key))
    case Err(m) => Err(Wrap("get a GitHub Access token in keyring", m))
    case Ok(s) =>
      match codec.decode(s)
      case None => Err(Wrap("unmarshal the token as JSON", UndecodableToken))
      case Some(t) => Ok(t)
  }

  /** `Keyring.Set`: the error, if any, and the entries afterwards. Nothing
      about the token is checked. */
  function SetSpec(e: map<Slot, string>, failSet: set<Slot>, codec: Codec<AccessToken>, keyService: string, key: string, token: AccessToken): (r: (Option<string>, map<Slot, string>))
    ensures r.0.Some? <==> (keyService, key) in failSet
    ensures r.0.Some? ==> r.0.value == Wrap("set a GitHub Access token in keyring", BackendFailure) && r.1 == e
    ensures r.0.None? ==> r.1 == e[(keyService, key) := codec.encode(token)]
  {
    if (keyService, key) in failSet then (Some(Wrap("set a GitHub Access token in keyring", BackendFailure)), e)
    else (None, e[(keyService, key) := codec.encode(token)])
  }

  class Keyring {
    const keyService: string
    const api: Store
    const codec: Codec<AccessToken>

    constructor (keyService: string, api: Store, codec: Codec<AccessToken>)
      ensures this.keyService == keyService && this.api == api && this.codec == codec
    {
      this.keyService := keyService;
      this.api := api;
      this.codec := codec;
    }

    method Get(key: string) returns (r: Outcome<AccessToken>)
      ensures r == GetSpec(api.entries, api.failGet, codec, keyService, key)
    {
      var s := api.Get(keyService, key);
      if s.Err? {
        return Err(Wrap("get a GitHub Access token in keyring", s.msg));
      }
      var token := codec.decode(s.value);
      if token.None? {
        return Err(Wrap("unmarshal the token as JSON", UndecodableToken));
      }
      return Ok(token.value);
    }

    method Set(key: string, token: AccessToken) returns (err: Option<string>)
      modifies api
      ensures (err, api.entries) == SetSpec(old(api.entries), api.failSet, codec, keyService, key, token)
    {
      var e := api.Set(keyService, key, codec.encode(token));
      if e.Some? {
        return Some(Wrap("set a GitHub Access token in keyring", e.value));
      }
      return None;
    }
  }

  /** Whatever token is written, empty fields and all, reading the key back
      gives it unchanged; other keys are not affected. */
  lemma SetThenGet(e: map<Slot, string>, failGet: set<Slot>, failSet: set<Slot>, codec: Codec<AccessToken>, keyService: string, key: string, token: AccessToken, other: string)
    requires RoundTrips(codec)
    requires (keyService, key) !in failSet && (keyService, key) !in failGet
    requires other != key
    ensures SetSpec(e, failSet, codec, keyService, key, token).0 == None
    ensures GetSpec(SetSpec(e, failSet, codec, keyService, key, token).1, failGet, codec, keyService, key) == Ok(token)
    ensures GetSpec(SetSpec(e, failSet, codec, keyService, key, token).1, failGet, codec, keyService, other) == GetSpec(e, failGet, codec, keyService, other)
  {
    assert codec.decode(codec.encode(token)) == Some(token);
  }
}

# ghtkn-go-sdk token lifecycle in Dafny

This project models how ghtkn-go-sdk obtains a GitHub App user access token. A token is minted with the OAuth 2.0 Device Authorization Grant (RFC 8628). It is cached in the operating system's keyring, behind a string store with get, set and delete. Small helpers choose and validate the configuration.

The repository holds two generations of this logic. They are modelled side by side and never merged:

- **Newer generation**, under `ghtkn/internal/...`:
  - timestamps are native times, here whole seconds;
  - keyring keys are per user and per app, `access_tokens/<login>/<app id>` and `apps/<app id>`;
  - a corrupt cache entry is deleted.

  The modules are `InternalKeyring`, `InternalConfig`, `InternalDeviceFlow`, `InternalOAuth2` and `InternalApi`.
- **Older generation**, under `ghtkn/api`, `ghtkn/apptoken`, `ghtkn/keyring`, `ghtkn/config`, `ghtkn/log`, `ghtkn/get.go` and `ghtkn/controller/get`:
  - expiry dates are RFC 3339 strings;
  - there is a single app, and its client ID is the cache key.

  The modules are `Api`, `AppToken`, `Keyring`, `Config`, `Log`, `Ghtkn` and `GetController`.

Both device-flow clients share `DeviceFlowWire`. It holds the wire records, the polling automaton `Poll` (a walk over a sequence of ticker events) and the loop `PollLoop`, which is proved equal to `Poll`. `Common` holds the result types, error wrapping (`Wrap(ctx, cause) == ctx + ": " + cause`, as `fmt.Errorf("%s: %w")` prints it), decimal formatting, `strings.Split`, `strings.Join` and `strings.TrimSpace`, and an abstract JSON codec whose round trip is a hypothesis (`RoundTrips`).

Imperative code is modelled imperatively:

- the keyring backends, `Keyring`, `TokenManager`, `TokenSource` and the `get` controller are classes whose methods change fields;
- the polling loop, the app selection loop and the sweep in `SetApp` are loops.

Each such method is proved equal to a specification function of the old state. The properties the source promises are lemmas about those functions.

Collaborators that the model cannot see are parameters:

- the clock;
- HTTP replies;
- the device-code UI and the browser;
- the client-ID prompt;
- the GitHub user lookup;
- the YAML reader;
- collaborators that the shown sources call but do not define: `Config.SelectUser`, `User.SelectApp`, the `AppStore` of `SetApp`, and the older `Config.SelectApp`.

## Model

| member | source | states |
|---|---|---|
| DeviceFlowWire.InitialPeriod | ghtkn/internal/deviceflow/create.go:118-121 | The first poll period is the server's interval, raised to at least 5 seconds. |
| DeviceFlowWire.PollLoop | ghtkn/internal/deviceflow/create.go:123-155 | The ticker loop of `pollForAccessToken`, with its period held in a variable, returns exactly the run that `Poll` defines for the same events. |
| DeviceFlowWire.PollRequestsBeforeDeadline | ghtkn/internal/deviceflow/create.go:126-135 | No token request is ever sent at a time after the deadline. |
| DeviceFlowWire.PollPeriodNotCumulative | ghtkn/internal/deviceflow/create.go:143-146 | `slow_down` resets the ticker to initial+5 s. However many arrive, the period is only ever the starting one or initial+5 s, unlike the additive back-off of section 3.5 of RFC 8628. |
| DeviceFlowWire.TwoSlowDowns | ghtkn/internal/deviceflow/create.go:143-146 | Two consecutive `slow_down` replies leave the period at initial+5 s, not initial+10 s, with two requests sent. |
| DeviceFlowWire.PendingKeepsPeriod | ghtkn/internal/deviceflow/create.go:139-142 | While every reply is `authorization_pending`, polling continues at an unchanged period and sends one request per tick. |
| DeviceFlowWire.PollStopReasons | ghtkn/internal/deviceflow/create.go:130-148 | Polling never stops on `authorization_pending` or `slow_down`. It stops only on an expired deadline, on a cancellation (with that cause) or on another error reported verbatim by the classification. |
| DeviceFlowWire.PollGrantsChecked | ghtkn/internal/deviceflow/create.go:137-153 | A granted token is one the classification accepted on a tick before the deadline. |
| DeviceFlowWire.PollFirstEventStops | ghtkn/internal/deviceflow/create.go:130-135 | A cancellation, or a first tick after the deadline, ends polling with "context was cancelled: …" or "device code expired" and sends no request. |
| DeviceFlowWire.PollSameCheck | ghtkn/apptoken/create.go:103-140 | Polling depends on the classification only through its verdicts, so the older and the newer loop, which share the same algorithm, poll alike. |
| InternalDeviceFlow.GetDeviceCode | ghtkn/internal/deviceflow/create.go:66-109 | An empty client ID fails with "client id is required" before any request. Success happens exactly for status 200 with a decodable body, whose value is returned. Any other status gives "error from GitHub". An undecodable body is a decode error. |
| InternalDeviceFlow.CheckAccessToken | ghtkn/internal/deviceflow/create.go:160-204 | A non-empty `error` field is the error, verbatim. Otherwise an empty `access_token` gives "unexpected response: <body>". A token is accepted exactly when neither happens. |
| InternalDeviceFlow.PendingOnlyFromErrorField | ghtkn/internal/deviceflow/create.go:139-147 | The texts `authorization_pending` and `slow_down` can only come from the response's `error` field, never from a transport or decoding error. |
| InternalDeviceFlow.PollForAccessToken | ghtkn/internal/deviceflow/create.go:117-156 | Polling starts at max(interval, 5 s) with the deadline at start + ExpiresIn. A granted token is non-empty, and every request falls before the deadline. |
| InternalDeviceFlow.TokenRequests | ghtkn/internal/deviceflow/create.go:137 | Each request time of a poll run becomes one token-request effect, in order. |
| InternalDeviceFlow.Launch | ghtkn/internal/deviceflow/create.go:46-61 | After the device code is shown: a finished flow carries a non-empty access token and no app name. |
| InternalDeviceFlow.Create | ghtkn/internal/deviceflow/create.go:33-62 | An empty client ID aborts with no effect. Otherwise the device-code request comes first. A finished flow carries a non-empty access token and no app name. |
| InternalDeviceFlow.CreateStopsOnBadDeviceCode | ghtkn/internal/deviceflow/create.go:37-40 | A device-code status other than 200, or an undecodable body, aborts after that one request, before anything is shown. |
| InternalDeviceFlow.CreateStopsOnShowError | ghtkn/internal/deviceflow/create.go:43-46 | A failing device-code UI aborts the flow before the browser opens or any token request is made. The expiry it was shown is `now` + ExpiresIn. |
| InternalDeviceFlow.CreateIgnoresBrowser | ghtkn/internal/deviceflow/create.go:47-50 | The browser's result never changes the outcome. Only a failure other than "no command found" is logged. |
| InternalDeviceFlow.CreateExpiry | ghtkn/internal/deviceflow/create.go:52-61 | A finished flow carries the polled token, with expiry = the clock read after polling + `expires_in`. |
| InternalDeviceFlow.CreateRequestsBeforeDeadline | ghtkn/internal/deviceflow/create.go:52-55 | Every token request of a whole flow is sent by poll start + ExpiresIn. |
| AppToken.GetDeviceCode | ghtkn/apptoken/create.go:52-95 | An empty client ID fails before any request. Success requires status 200 and a decodable body. Any other status gives "error from GitHub". |
| AppToken.CheckAccessToken | ghtkn/apptoken/create.go:144-188 | The `error` field's text is the error. Otherwise an empty token is "unexpected response: <body>". |
| AppToken.ExchangesAgree | ghtkn/apptoken/token.go:171-214 | The older request and classification (identical in create.go and token.go) agree reply for reply with the newer client's. |
| AppToken.PollForAccessToken | ghtkn/apptoken/token.go:222-259 | Same automaton as the newer loop: the period starts at max(interval, 5 s), `slow_down` resets it to initial+5 s, a granted token is non-empty, and no request is sent after the deadline. |
| AppToken.Launch | ghtkn/apptoken/create.go:32-47 | After the device code is shown: a finished flow carries a non-empty access token. |
| AppToken.Create | ghtkn/apptoken/create.go:21-48 | An empty client ID aborts with no effect. A finished flow carries a non-empty token. Showing the device code cannot fail. |
| AppToken.CreateMatchesNewer | ghtkn/apptoken/token.go:116-143 | The older flow is the newer flow whose UI never fails: the same effects, the same aborts and messages, and the same token, with its expiry formatted as a string (`FormatDate` of post-poll `now` + ExpiresIn). |
| InternalKeyring.Read | ghtkn/internal/keyring/backend.go:22-32 | Backend `Get`: a missing entry is "absent", not an error. Only a backend failure is an error. |
| InternalKeyring.Write | ghtkn/internal/keyring/backend.go:35-40 | Backend `Set`: it fails exactly on a backend failure. Otherwise it writes only that entry. |
| InternalKeyring.Remove | ghtkn/internal/keyring/backend.go:42-50 | Backend `Delete`: deleting an absent entry is `(false, nil)`. Only that entry is removed. |
| InternalKeyring.Backend.Get | ghtkn/internal/keyring/backend.go:22-32 | Answers as `Read` on the current entries. |
| InternalKeyring.Backend.Set | ghtkn/internal/keyring/backend.go:35-40 | The new entries and the error are those of `Write`. |
| InternalKeyring.Backend.Delete | ghtkn/internal/keyring/backend.go:42-50 | The new entries and the answer are those of `Remove`. |
| InternalKeyring.ValidateToken | ghtkn/internal/keyring/keyring.go:45-59 | Passes exactly when the access token, the (non-zero) expiration date, the login and the client ID are all set. The first missing one is reported. |
| InternalKeyring.KeyString | ghtkn/internal/keyring/keyring.go:66-68 | The key is "access_tokens/" + login + "/" + decimal(appID). |
| InternalKeyring.KeyStringInjective | ghtkn/internal/keyring/keyring.go:66-68 | Distinct (login, appID) pairs give distinct keys, for every login, "/" included: the last "/" always comes before the decimal app ID. |
| InternalKeyring.KeyStringsEqual | ghtkn/internal/keyring/keyring.go:66-68 | Equal keys come from equal (login, appID) pairs. |
| InternalKeyring.ValidateApp | ghtkn/internal/keyring/app.go:16-21 | Fails exactly when the client ID is empty. |
| InternalKeyring.KeyApp | ghtkn/internal/keyring/app.go:25-27 | The key is "apps/" + decimal(appID). |
| InternalKeyring.KeyAppInjective | ghtkn/internal/keyring/app.go:25-27 | Distinct app IDs give distinct app keys. |
| InternalKeyring.KeysDistinct | ghtkn/internal/keyring/keyring.go:66-68 | Token keys, app keys and the "logins" key never collide. |
| InternalKeyring.GetAccessTokenSpec | ghtkn/internal/keyring/keyring.go:103-131 | A missing entry is absent without error. A backend read failure is the only error. A present entry that fails to decode or validate is absent, and a delete of it is attempted. Any token returned is valid. |
| InternalKeyring.GetAccessTokenDropsCorrupt | ghtkn/internal/keyring/keyring.go:111-129 | An undecodable or invalid entry is reported absent and removed unless the delete fails. A failed delete is swallowed. |
| InternalKeyring.GetAccessTokenOnlyDropsItsEntry | ghtkn/internal/keyring/keyring.go:111-129 | Reading a token never changes any entry other than the one read. |
| InternalKeyring.LoginsSpec | ghtkn/internal/keyring/keyring.go:133-142 | A missing or empty "logins" entry is the empty list. Otherwise it is the comma-split entry. |
| Common.Split | ghtkn/internal/keyring/keyring.go:141 | `strings.Split` gives at least one piece, and no piece contains the separator. |
| Common.JoinSplit | ghtkn/internal/keyring/keyring.go:141 | Joining the pieces with the separator gives the input back. |
| Common.SplitJoin | ghtkn/internal/keyring/keyring.go:141 | Pieces free of the separator are split back out of their join, one for one. |
| InternalKeyring.LoginsSplitEntry | ghtkn/internal/keyring/keyring.go:133-142 | Joining the list with commas gives the stored text back, and no login contains a comma. |
| InternalKeyring.SetAccessTokenSpec | ghtkn/internal/keyring/keyring.go:147-174 | The encoded token is written under (service, key). A write failure is returned. The "logins" entry is never rewritten, because the login set built at line 160 starts empty, so the guard always returns. |
| InternalKeyring.SetAccessTokenKeepsOthers | ghtkn/internal/keyring/keyring.go:147-174 | Writing a token changes no other token, no app record and not the login list. |
| InternalKeyring.SetThenGetAccessToken | ghtkn/internal/keyring/keyring.go:103-131 | With a round-tripping codec, a valid token that was written is read back unchanged. |
| InternalKeyring.GetAppSpec | ghtkn/internal/keyring/app.go:32-63 | A missing entry is absent. An undecodable or invalid entry is absent after an attempted delete. Only a read failure is an error. A present app has a non-empty client ID. |
| InternalKeyring.GetAppAbsentCases | ghtkn/internal/keyring/app.go:37-61 | The absent cases of `GetApp`, one by one, and what each leaves in the store. |
| InternalKeyring.Sweep | ghtkn/internal/keyring/app.go:81-96 | For each listed login, a token whose client ID differs is deleted, while read and delete failures are skipped. A missing or invalid token reaches the nil dereference at line 89. |
| InternalKeyring.SetAppFailsOnlyOnWrite | ghtkn/internal/keyring/app.go:68-80 | The only error `SetApp` returns is a failed write of the app record. A failed read of "logins" and per-login failures are swallowed. |
| InternalKeyring.SweepOnlyDeletes | ghtkn/internal/keyring/app.go:81-96 | The sweep only deletes, and only the listed logins' tokens for this app. |
| InternalKeyring.SweepVerdict | ghtkn/internal/keyring/app.go:85-95 | A valid token with the new client ID is kept. One with another client ID is gone afterwards, unless its delete fails. |
| InternalKeyring.NotSwept | ghtkn/internal/keyring/app.go:81-96 | An unlisted login's token is not among the swept slots. |
| InternalKeyring.SetAppKeepsOtherEntries | ghtkn/internal/keyring/app.go:68-98 | Tokens for other app IDs and other services, and the login list, are untouched by `SetApp`. |
| InternalKeyring.SetAppThenGetApp | ghtkn/internal/keyring/app.go:68-75 | After a `SetApp` that returns without error, `GetApp` of the same service and app ID reads the same client ID. |
| InternalKeyring.SetAppPanicsOnAbsentToken | ghtkn/internal/keyring/app.go:84-89 | A listed login with no stored token makes `GetAccessToken` answer `(nil, nil)`, and `SetApp` reaches the nil dereference, modelled as `Panicked`. |
| InternalKeyring.Keyring.GetAccessToken | ghtkn/internal/keyring/keyring.go:103-131 | Result and new entries equal `GetAccessTokenSpec` of the old entries. |
| InternalKeyring.Keyring.GetLogins | ghtkn/internal/keyring/keyring.go:133-142 | Equal to `LoginsSpec`. |
| InternalKeyring.Keyring.SetAccessToken | ghtkn/internal/keyring/keyring.go:147-174 | Error and new entries equal `SetAccessTokenSpec`. |
| InternalKeyring.Keyring.DeleteAccessToken | ghtkn/internal/keyring/keyring.go:176-178 | Deletes exactly the token's entry, as backend `Delete` does. |
| InternalKeyring.Keyring.GetApp | ghtkn/internal/keyring/app.go:32-63 | Result and new entries equal `GetAppSpec`. |
| InternalKeyring.Keyring.SetApp | ghtkn/internal/keyring/app.go:68-98 | The write-then-sweep loop leaves the outcome and entries that `SetAppSpec` defines. |
| InternalConfig.ValidateApp | ghtkn/internal/config/config.go:48-56 | The name is checked before the client ID, so an empty app reports "name is required". It passes exactly when both are set. |
| InternalConfig.FirstInvalid | ghtkn/internal/config/config.go:30-35 | Index of the first invalid app, with every earlier app valid. |
| InternalConfig.ValidateConfig | ghtkn/internal/config/config.go:23-36 | A nil config gives "config is required". Empty apps give "apps is required". It is valid exactly when non-nil, non-empty and every app is valid. Otherwise the first invalid app's error is reported. |
| InternalConfig.Read | ghtkn/internal/config/config.go:71-84 | An empty path returns no error and leaves the config unchanged. |
| InternalConfig.NameIndex | ghtkn/internal/config/select.go:14-17 | First app whose name equals a non-empty key, by case-sensitive equality. |
| InternalConfig.DefaultIndex | ghtkn/internal/config/select.go:18-24 | First app marked default. |
| InternalConfig.SelectApp | ghtkn/internal/config/select.go:9-26 | Nil or empty config gives nil. Otherwise the first name match, else the first default, else `Apps[0]`. A result is always an element of `Apps`. |
| InternalConfig.EmptyKeyNeverMatches | ghtkn/internal/config/select.go:15 | An empty key never selects by name. |
| InternalConfig.NameBeatsEarlierDefault | ghtkn/internal/config/select.go:14-24 | A name match wins over a default app listed before it. |
| InternalConfig.JoinPath | ghtkn/internal/config/find.go:14-22 | `filepath.Join` of non-empty elements keeps them in order, with one separator between. |
| InternalConfig.JoinPathNonEmpty | ghtkn/internal/config/find.go:14-22 | Each element appears in the joined path, separated by exactly one separator. |
| InternalConfig.GetPath | ghtkn/internal/config/find.go:11-25 | Windows: `AppData/ghtkn/ghtkn.yaml`, or an error. Elsewhere: `XDG/ghtkn/ghtkn.yaml`, else `Home/.config/ghtkn/ghtkn.yaml`, else an error. |
| InternalConfig.GetPathShape | ghtkn/internal/config/find.go:11-25 | Every path found starts at the platform's directory and ends in `ghtkn/ghtkn.yaml`. Every failure names what is missing. |
| InternalConfig.GetPathIgnores | ghtkn/internal/config/find.go:12-24 | On Windows only `AppData` matters. Elsewhere `AppData` never does, and a set XDG directory makes `Home` irrelevant. |
| InternalOAuth2.TokenSource.constructor | ghtkn/internal/oauth2/oauth2.go:28-33 | A new token source holds the given client and an empty cache. |
| InternalOAuth2.TokenStep | ghtkn/internal/oauth2/oauth2.go:38-59 | A cached token is served without asking the client. With an empty cache the client is asked once. Success, even an empty string, is cached and returned. An error is wrapped and the cache stays empty. |
| InternalOAuth2.TokenSource.Token | ghtkn/internal/oauth2/oauth2.go:38-59 | Result, new cache and whether the client was asked are those of `TokenStep`. |
| InternalOAuth2.Results | ghtkn/internal/oauth2/oauth2.go:38-59 | One result per call of a run of calls. |
| InternalOAuth2.Asked | ghtkn/internal/oauth2/oauth2.go:42-48 | One flag per call, saying whether the client was asked. |
| InternalOAuth2.CachedServesAll | ghtkn/internal/oauth2/oauth2.go:42-45 | Once a token is cached, every later call returns it and none asks the client. |
| InternalOAuth2.AtMostOneSuccessfulFetch | ghtkn/internal/oauth2/oauth2.go:40-58 | Over any number of sequential calls, the client answers successfully at most once. |
| InternalOAuth2.FirstSuccessIsServed | ghtkn/internal/oauth2/oauth2.go:42-58 | After the first successful fetch, every later call returns exactly that token without asking. |
| InternalOAuth2.FailuresAreRetried | ghtkn/internal/oauth2/oauth2.go:48-51 | While the client keeps failing, every call asks it again. |
| InternalApi.CheckExpired | ghtkn/internal/api/get.go:226-230 | Expired exactly when exDate − now < minExpiration, that is when now + min is strictly after exDate. |
| InternalApi.CheckExpiredThreshold | ghtkn/internal/api/get.go:226-230 | At exactly `min` left the token is fresh, and one second less makes it expired. Expiry is monotone in time and in the margin. |
| InternalApi.ReadConfig | ghtkn/internal/api/get.go:234-251 | An empty path uses the default path, and its error gives "get config path". A read error gives "read config". A returned config is valid. |
| InternalApi.GetUserConfig | ghtkn/internal/api/get.go:253-265 | The user named by the argument, else by `GHTKN_USER`. Not found gives "user is not found in the config". |
| InternalApi.GetAppConfig | ghtkn/internal/api/get.go:267-280 | The app named by the argument, else by `GHTKN_APP`. Not found gives "app is not found in the config". |
| InternalApi.Resolve | ghtkn/internal/api/get.go:49-63 | Config, then user, then app. Each failure is returned unchanged. The app name passed is `input.User`, as line 60 does. |
| InternalApi.ServiceName | ghtkn/internal/api/get.go:66-69 | An empty service becomes `DefaultServiceKey`. |
| InternalApi.CachedToken | ghtkn/internal/api/get.go:190-208 | A valid, non-expiring cached token, or nothing. Read errors, absence and expiry all give nothing. The keyring changes only as `GetAccessToken` changes it. |
| InternalApi.StoredApp | ghtkn/internal/api/get.go:210-221 | The stored app, which has a non-empty client ID, or nothing on error or absence. |
| InternalApi.CreateToken | ghtkn/internal/api/get.go:176-186 | A device-flow error is returned unchanged. A minted token records the client ID it was minted for, has no login, and keeps the flow's token and expiry. |
| InternalApi.GetSpec | ghtkn/internal/api/get.go:46-125 | Success always comes with a token and its app. The only error that comes with a token is `ErrStoreToken`. |
| InternalApi.TokenManager.SetClientIDReader | ghtkn/internal/api/get.go:39-41 | Only the prompt dependency is replaced. |
| InternalApi.TokenManager.GetAccessTokenFromKeyring | ghtkn/internal/api/get.go:190-208 | Result and new entries equal `CachedToken`. |
| InternalApi.TokenManager.GetAppFromKeyring | ghtkn/internal/api/get.go:210-221 | Result and new entries equal `StoredApp`. |
| InternalApi.TokenManager.GetOrCreateToken | ghtkn/internal/api/get.go:141-172 | Result and new entries equal `GetOrCreateSpec`: the cache first, then the stored or prompted client ID, then minting. |
| InternalApi.TokenManager.Get | ghtkn/internal/api/get.go:46-125 | Result and new entries equal `GetSpec`. |
| InternalApi.TokenManager.TokenSource | ghtkn/internal/api/oauth2.go:31-38 | A fresh token source with an empty cache, bound to this manager and one fixed input. |
| InternalApi.ClientAnswer | ghtkn/internal/api/oauth2.go:20-26 | The access token of `Get`'s result, or its error alone. With `ErrStoreToken` the valid token is dropped. |
| InternalApi.ConfigFailureTouchesNothing | ghtkn/internal/api/get.go:49-63 | A config, user or app failure is returned before the keyring is touched. |
| InternalApi.FreshTokenServed | ghtkn/internal/api/get.go:141-145 | A fresh cached token is returned as stored, with no write. The prompt, the device flow and GitHub are not consulted: the result does not depend on them. |
| InternalApi.MissMints | ghtkn/internal/api/get.go:192-205 | A read error, an absent token and an expired token all fall through to minting. None is an error. |
| InternalApi.StoredClientIDReused | ghtkn/internal/api/get.go:147-152 | A stored client ID is reused, the prompt is not consulted, nothing is written, and the token carries that ID. |
| InternalApi.PromptedClientID | ghtkn/internal/api/get.go:153-165 | Without a stored ID: a prompt error or empty answer stops before any write. A non-empty answer is trimmed and stored with `SetApp` before minting. A store failure is fatal. |
| InternalApi.NewTokenStored | ghtkn/internal/api/get.go:95-122 | A minted token's login comes from GitHub, and a lookup failure returns the app alone. The token is stored under that login, and a failed write returns the token and app with `ErrStoreToken`. |
| InternalApi.CachedNotWritten | ghtkn/internal/api/get.go:105-112 | A cached token is returned without a write, with its login filled from the user only when empty. |
| Common.TrimSpace | ghtkn/internal/api/set_app.go:61 | `strings.TrimSpace` keeps a contiguous infix that neither starts nor ends with white space, and cuts off only white space. |
| InternalApi.SetApp | ghtkn/internal/api/set_app.go:21-68 | Config, user or app failures come before the prompt. A prompt error or empty answer stores nothing. Otherwise the trimmed answer is stored under the default-or-given service and the app's ID, and a store failure is returned. |
| InternalApi.TokenSourceOverGet | ghtkn/internal/api/oauth2.go:20-26 | Through a token source, `Get` runs once per call until it first succeeds and never afterwards. Every later call returns that token. A result with `ErrStoreToken` counts as a failure. |
| InternalApi.AskedPrefix | ghtkn/internal/oauth2/oauth2.go:38-59 | Whether a call asks the client depends only on the calls before it. |
| Keyring.Store.Get | ghtkn/keyring/keyring.go:82 | Fails on a backend failure. Otherwise it returns the entry, or "secret not found in keyring". |
| Keyring.Store.Set | ghtkn/keyring/keyring.go:101 | Fails exactly on a backend failure. Otherwise it writes only that entry. |
| Keyring.StoreGet | ghtkn/keyring/keyring.go:82-85 | The store's answer: missing is an error, not "absent". |
| Keyring.GetSpec | ghtkn/keyring/keyring.go:81-91 | Reads (KeyService, key). Any backend error, including not-found, is returned wrapped. An undecodable value fails at unmarshal. |
| Keyring.SetSpec | ghtkn/keyring/keyring.go:96-105 | Writes the encoded token at (KeyService, key), with no validation. A backend failure is returned wrapped, and nothing is written. |
| Keyring.Keyring.constructor | ghtkn/keyring/keyring.go:24-28 | A new keyring holds its service key, backend and codec, and nothing else. |
| Keyring.Keyring.Get | ghtkn/keyring/keyring.go:81-91 | Equal to `GetSpec` on the store's entries. |
| Keyring.Keyring.Set | ghtkn/keyring/keyring.go:96-105 | Error and new entries equal `SetSpec`. |
| Keyring.SetThenGet | ghtkn/keyring/keyring.go:96-105 | Any token, empty fields included, reads back unchanged after `Set`, and other keys are unaffected. |
| Config.ValidateApp | ghtkn/config/config.go:49-57 | The name is checked before the client ID, and it passes exactly when both are set. |
| Config.FirstInvalid | ghtkn/config/config.go:31-36 | Index of the first invalid app. |
| Config.ValidateConfig | ghtkn/config/config.go:24-37 | "config is required", then "apps is required". Any invalid app makes the config invalid. |
| Config.Read | ghtkn/config/config.go:83-96 | An empty path returns no error and leaves the config unchanged. |
| Config.ReadAndValidate | ghtkn/api/get.go:148-156 | Read into an empty config, then validate. The same steps appear in ghtkn/get.go:41-49 and ghtkn/controller/get/get.go:46-54. A returned config is valid with apps. An empty path always fails validation. A read error gives "read config". |
| Config.DefaultTemplate | ghtkn/config/config.go:61-68 | The template contains "persist: true", "apps:", "client_id:" and "default: true". |
| Config.NewEnv | ghtkn/config/env.go:16-25 | Each field is `getEnv` of its variable, and GOOS is copied verbatim. |
| Config.NewEnvPlatformBlind | ghtkn/config/env.go:16-25 | The variables read do not depend on GOOS. |
| Log.ParseLevel | ghtkn/log/log.go:30-43 | "debug", "info", "warn" and "error" map to -4, 0, 4 and 8. Any other string gives (0, "unknown log level"). |
| Log.ParseLevelExact | ghtkn/log/log.go:25-43 | Matching is case-sensitive and untrimmed ("DEBUG", "Info", " info " and "" are rejected), and the levels are ordered. |
| Api.TokenStore.Get | ghtkn/api/manager.go:71 | A backend failure is an error. A missing key is no token, not an error. |
| Api.TokenStore.Set | ghtkn/api/manager.go:72 | Fails exactly on a backend failure. Otherwise it writes only that key. |
| Api.CheckExpired | ghtkn/api/get.go:140-144 | Never errors. Expired exactly when exDate − now < minExpiration. |
| Api.CachedToken | ghtkn/api/get.go:115-135 | A backend error is reported. A missing or expired token is no token. Only a fresh stored token is returned. |
| Api.CreateToken | ghtkn/api/get.go:102-111 | A device-flow error is returned unchanged. A minted token carries only the access token and expiry, with an empty login. |
| Api.GetOrCreateSpec | ghtkn/api/get.go:81-98 | The token is served as not changed exactly when the keyring is in use and the token under `ClientID` is fresh. Otherwise it is minted, with the error wrapped as "create a GitHub App User Access Token". |
| Api.GetSpec | ghtkn/api/get.go:34-73 | Without config, an empty ClientID fails with nothing touched. Success has a token and app. An error with a token is only `ErrStoreToken`. The store changes only by writing a new token at (KeyringService, ClientID) when the keyring is in use. |
| Api.TokenManager.constructor | ghtkn/api/manager.go:26-30 | A new manager holds its store and dependencies unchanged. |
| Api.TokenManager.GetAccessTokenFromKeyring | ghtkn/api/get.go:115-135 | Equal to `CachedToken`. |
| Api.TokenManager.GetOrCreateToken | ghtkn/api/get.go:81-98 | Equal to `GetOrCreateSpec`. |
| Api.TokenManager.Get | ghtkn/api/get.go:34-73 | Result and new tokens equal `GetSpec`. |
| Api.WithoutKeyring | ghtkn/api/get.go:61 | With `UseKeyring = false` the keyring is neither read (the result is independent of its contents) nor written. |
| Api.FreshTokenServed | ghtkn/api/get.go:83-90 | A fresh cached token is returned as stored, with no write, and independently of the device flow. |
| Api.ReadErrorMints | ghtkn/api/get.go:84-87 | A keyring read error is only logged: minting proceeds exactly as without the keyring. |
| Api.NewTokenStored | ghtkn/api/get.go:61-72 | A minted token is stored under (KeyringService, ClientID). A failed write returns the token and app with `ErrStoreToken`. |
| Api.ConfigClientIDIgnored | ghtkn/api/get.go:42-59 | With `UseConfig`, the selected app's client ID is never used: changing the selected app changes only the returned app. |
| Ghtkn.Request | ghtkn/get.go:28-31 | The token manager receives the app's client ID and `UseKeyring = cfg.Persist`, with every other field zero. |
| Ghtkn.Get | ghtkn/get.go:17-37 | A config read or validation failure returns before the token manager is asked. A missing app is the nil dereference. An error returns (nil, app, "get access token: …"). Success returns (token, app, nil). |
| Ghtkn.GetAsksOnce | ghtkn/get.go:28-31 | The result depends on the token manager only through its answer to the one request. |
| Ghtkn.EmptyPathFails | ghtkn/get.go:41-47 | An empty configuration path fails validation with "validate config: apps is required". |
| GetController.IsJSON | ghtkn/controller/get/controller.go:66-68 | True exactly when the output format is "json". |
| GetController.Validate | ghtkn/controller/get/controller.go:72-77 | Accepts exactly "" and "json". Anything else gives "output format must be empty or 'json'". The input is a value, so it is unchanged. |
| GetController.Rendered | ghtkn/controller/get/output.go:17-33 | Git-credential mode writes `username=<login>\npassword=<token>\n\n` whatever the format. "json" writes the encoding plus a newline, or an error with nothing written. Otherwise it writes the token and a newline. Only JSON can fail. |
| GetController.RunSpec | ghtkn/controller/get/get.go:17-41 | A config failure returns before any token request. Output happens only on success, and then exactly once, with the manager's token for the selected app's request. |
| GetController.Controller.constructor | ghtkn/controller/get/controller.go:27-31 | A new controller has its input and has written nothing. |
| GetController.Controller.Output | ghtkn/controller/get/output.go:17-33 | Appends exactly the rendered text to stdout, or returns the error and writes nothing. |
| GetController.Controller.Run | ghtkn/controller/get/get.go:17-41 | Result and stdout equal `RunSpec`. |
| GetController.GitCredentialParses | ghtkn/controller/get/output.go:18-22 | Split into lines, the Git-credential output is the username line, the password line and the blank line ending the record. |
| GetController.PlainParses | ghtkn/controller/get/output.go:31 | Plain output is the token on a line of its own. |

## Left out

- HTTP transport: request building, headers and `io.ReadAll` in the device-flow clients. A reply is a status, a body and the outcome of decoding it.
- JSON and YAML encoding and decoding: JSON is an abstract codec, and its round trip is a hypothesis of the lemmas that need it. A failing `json.Marshal` in the keyring writers is not modelled. For the newer token, `SetAccessToken` returns "marshal the token as JSON: …" when `time.Time` cannot be marshalled, which happens for an expiry year outside 0–9999 (ghtkn/internal/keyring/keyring.go:148-151). The model's unbounded `Time` does not exclude such years, so it writes those tokens without error.
- InternalConfig.ValidateConfig, InternalConfig.SelectApp, Config.ValidateConfig: a configuration's apps are `seq<App>`, so an app list item that YAML decodes to a nil `*App` cannot be represented. In the source such an element panics, in `Validate` on `app.Name` (ghtkn/internal/config/config.go:30-31, ghtkn/config/config.go:31-32) and in `SelectApp` on `a.Default` (ghtkn/internal/config/select.go:14-18). The model promises nothing about that panic.
- Real time, tickers and timers, goroutines and channels. Time is whole seconds, and the polling loop walks an explicit sequence of ticks and cancellations. Tick times are arbitrary: the reported period does not constrain them, so "at least interval + 5 s between requests after `slow_down`" is not stated. The mutex of `TokenSource` becomes the sequential order of calls.
- Go's `time.Duration` arithmetic and its overflow: durations are unbounded integers of seconds.
- Terminal UI, password prompting and browser launching: their results are parameters.
- The keyring backends' calls into zalando/go-keyring. Only their contract is kept, with backend failures given as sets of failing slots.
- `ParseDate` and `FormatDate` (RFC 3339, section 5.6): the older `Create` takes the formatting function as a parameter.
- The GitHub REST client: the user lookup is a parameter.
- Logging, and the logger, UI and browser setters (`SetLogger`, `SetDeviceCodeUI`, `SetBrowser`): they only replace collaborators that are parameters here. `slogerr.With` only attaches log attributes, so error texts are modelled without them.
- `filepath.Clean` inside `filepath.Join`: `JoinPath` assumes clean, non-empty elements.
- `config.GetPath(Getenv, GOOS)`, as internal/api/get.go calls it, does not match the `GetPath(env)` signature of internal/config/find.go. The manager receives its answer as a parameter.
- `Config.SelectUser`, `User.SelectApp`, the `AppStore` field used by `SetApp`, and the older `Config.SelectApp` are not part of the shown sources. Each is a parameter, and a nil answer is `None`.
- Api.AccessToken: the older manager compares `ExpirationDate` with the clock as a time, while ghtkn/keyring/keyring.go declares it a string. The older manager's token and `Keyring.AccessToken` are therefore kept as separate types.
- Api.TokenManager.Get: the older `Input` has no `AppTokenClient` field (ghtkn/api/manager.go:35-42). The device flow of `Deps` stands for whichever client is used.
- Api.CachedToken: the error of `checkExpired` cannot happen, so `TokenManager.GetAccessTokenFromKeyring` has no branch for it.
- ghtkn/client.go, ghtkn/set_app.go, the CLI, the `init` scaffolding and the test doubles are not part of this model.

/** The newer device-flow client (internal/deviceflow/create.go): ask
    GitHub for a device code, show it, open the browser, poll for the
    token. */
module InternalDeviceFlow {
  import opened Common
  import opened DeviceFlowWire

  /** The minted token; `app` is never filled in by `Create`. */
  datatype DeviceToken = DeviceToken(app: string, accessToken: string, expirationDate: Time)

  /** `getDeviceCode`, from the moment the request is sent: transport
      failures, a status other than 200 and an undecodable body are
      errors. */
  function GetDeviceCode(clientID: string, reply: Exchange<DeviceCodeResponse>): (r: Outcome<DeviceCodeResponse>)
    ensures clientID == "" ==> r == Err("client id is required")
    ensures r.Ok? <==> clientID != "" && reply.Response? && reply.status == 200 && reply.decoded.Ok?
    ensures r.Ok? ==> r.value == reply.decoded.value
    ensures clientID != "" && reply.Response? && reply.status != 200 ==> r == Err("error from GitHub")
    ensures clientID != "" && reply.Response? && reply.status == 200 && reply.decoded.Err? ==>
              r == Err(Wrap("unmarshal response body as JSON", reply.decoded.msg))
  {
    if clientID == "" then Err("client id is required")
    else match reply
      case SendFailed(c) => Err(Wrap("send a request for device code", c))
      case ReadFailed(c) => Err(Wrap("read response body", c))
      case Response(status, _, decoded) =>
        if status != 200 then Err("error from GitHub")
        else match decoded
          case Err(c) => Err(Wrap("unmarshal response body as JSON", c))
          case Ok(d) => Ok(d)
  }

  /** `checkAccessToken`: a non-empty `error` field is the error, verbatim;
      a reply without a token is "unexpected response"; the status code is
      not looked at. */
  function CheckAccessToken(reply: Exchange<AccessTokenResponse>): (r: Outcome<AccessTokenResponse>)
    ensures r.Ok? <==> reply.Response? && reply.decoded.Ok? && reply.decoded.value.error == "" && reply.decoded.value.accessToken != ""
    ensures r.Ok? ==> r.value == reply.decoded.value
    ensures reply.Response? && reply.decoded.Ok? && reply.decoded.value.error != "" ==> r == Err(reply.decoded.value.error)
    ensures reply.Response? && reply.decoded.Ok? && reply.decoded.value.error == "" && reply.decoded.value.accessToken == "" ==>
              r == Err("unexpected response: " + reply.body)
  {
    match reply
    case SendFailed(c) => Err(Wrap("send a request for access token", c))
    case ReadFailed(c) => Err(Wrap("read response body", c))
    case Response(_, body, decoded) =>
      match decoded
      case Err(c) => Err(Wrap("unmarshal response body as JSON", c))
      case Ok(t) =>
        if t.error != "" then Err(t.error)
        else if t.accessToken == "" then Err("unexpected response: " + body)
        else Ok(t)
  }

  /** Only a reply that carries exactly the text `authorization_pending` or
      `slow_down` in its `error` field is read as that code: no transport
      or decoding error has that text. */
  lemma PendingOnlyFromErrorField(reply: Exchange<AccessTokenResponse>)
    ensures CheckAccessToken(reply) == Err("authorization_pending") ==>
              reply.Response? && reply.decoded.Ok? && reply.decoded.value.error == "authorization_pending"
    ensures CheckAccessToken(reply) == Err("slow_down") ==>
              reply.Response? && reply.decoded.Ok? && reply.decoded.value.error == "slow_down"
  {
    var r := CheckAccessToken(reply);
    match reply
    case SendFailed(c) =>
      assert r.msg[0] == 's' && r.msg[1] == 'e';
    case ReadFailed(c) =>
      assert r.msg[0] == 'r';
    case Response(_, body, decoded) =>
      if decoded.Err? {
        assert r.msg[0] == 'u';
      } else if decoded.value.error == "" && decoded.value.accessToken == "" {
        assert r.msg[0] == 'u';
      }
  }

  /** `pollForAccessToken`: the ticker starts at `max(interval, 5s)` and the
      deadline is `ExpiresIn` seconds after `start`. */
  method PollForAccessToken(events: seq<PollEvent>, deviceCode: DeviceCodeResponse, start: Time) returns (run: PollRun)
    ensures run == Poll(CheckAccessToken, events, start + deviceCode.expiresIn, InitialPeriod(deviceCode.interval), InitialPeriod(deviceCode.interval))
    ensures run.end.Granted? ==> run.end.token.accessToken != "" && run.end.token.error == ""
    ensures forall i :: 0 <= i < |run.requests| ==> run.requests[i] <= start + deviceCode.expiresIn
  {
    var interval := InitialPeriod(deviceCode.interval);
    var deadline := start + deviceCode.expiresIn;
    run := PollLoop(CheckAccessToken, events, deadline, interval);
    PollGrantsChecked(CheckAccessToken, events, deadline, interval, interval);
    PollRequestsBeforeDeadline(CheckAccessToken, events, deadline, interval, interval);
  }

  /** The requests of a poll run as effects. */
  function TokenRequests(times: seq<Time>): (effects: seq<Effect>)
    ensures |effects| == |times|
    ensures forall i :: 0 <= i < |times| ==> effects[i] == RequestedToken(times[i])
  {
    seq(|times|, i requires 0 <= i < |times| => RequestedToken(times[i]))
  }

  /** The effects up to showing the device code. */
  function Shown(dc: DeviceCodeResponse, shownAt: Time): seq<Effect>
  {
    [RequestedDeviceCode, Showed(dc.userCode, dc.verificationURI, shownAt + dc.expiresIn)]
  }

  /** The effects up to opening the browser, with the warning logged when
      it fails. */
  function Launched(dc: DeviceCodeResponse, shownAt: Time, browser: BrowserOpen): seq<Effect>
  {
    Shown(dc, shownAt) + [OpenedBrowser(dc.verificationURI)] + (if browser.OpenFailed? then [WarnedBrowser(browser.msg)] else [])
  }

  /** The rest of `Client.Create` once the device code is shown: open the
      browser, poll, and stamp the token's expiry. */
  function Launch(dc: DeviceCodeResponse, shownAt: Time, browser: BrowserOpen, pollStart: Time,
                  events: seq<PollEvent>, finishedAt: Time): (r: (Flow<DeviceToken>, seq<Effect>))
    ensures r.0.Finished? ==> r.0.value.accessToken != "" && r.0.value.app == ""
  {
    var interval := InitialPeriod(dc.interval);
    var run := Poll(CheckAccessToken, events, pollStart + dc.expiresIn, interval, interval);
    var polled := Launched(dc, shownAt, browser) + TokenRequests(run.requests);
    PollGrantsChecked(CheckAccessToken, events, pollStart + dc.expiresIn, interval, interval);
    match run.end
    case Granted(t) => (Finished(DeviceToken("", t.accessToken, finishedAt + t.expiresIn)), polled)
    case Stopped(m) => (Aborted(Wrap("get access token", m)), polled)
    case Waiting => (Polling, polled)
  }

  /** `Client.Create`. The clock is read three times: `shownAt` for the
      expiry shown to the user, `pollStart` when polling starts (the
      deadline), `finishedAt` after a token arrives (its expiry). `showErr`
      is what the device-code UI reports, `browser` what opening the
      verification page reports. */
  function Create(clientID: string, deviceReply: Exchange<DeviceCodeResponse>, shownAt: Time, showErr: Option<string>,
                  browser: BrowserOpen, pollStart: Time, events: seq<PollEvent>, finishedAt: Time): (r: (Flow<DeviceToken>, seq<Effect>))
    ensures clientID == "" ==> r == (Aborted("client id is required"), [])
    ensures clientID != "" ==> |r.1| >= 1 && r.1[0] == RequestedDeviceCode
    ensures r.0.Finished? ==> r.0.value.accessToken != "" && r.0.value.app == ""
  {
    if clientID == "" then (Aborted("client id is required"), [])
    else match GetDeviceCode(clientID, deviceReply)
      case Err(m) => (Aborted(Wrap("get device code", m)), [RequestedDeviceCode])
      case Ok(dc) =>
        if showErr.Some? then (Aborted(Wrap("show device code", showErr.value)), Shown(dc, shownAt))
        else Launch(dc, shownAt, browser, pollStart, events, finishedAt)
  }


  /** A device-code response other than 200, or an undecodable one, ends
      the flow after the one request and before anything is shown. */
  lemma CreateStopsOnBadDeviceCode(clientID: string, status: int, body: string, decoded: Outcome<DeviceCodeResponse>, shownAt: Time, showErr: Option<string>,
                                   browser: BrowserOpen, pollStart: Time, events: seq<PollEvent>, finishedAt: Time)
    requires clientID != ""
    requires status != 200 || decoded.Err?
    ensures var r := Create(clientID, Response(status, body, decoded), shownAt, showErr, browser, pollStart, events, finishedAt);
      && r.1 == [RequestedDeviceCode]
      && (status != 200 ==> r.0 == Aborted(Wrap("get device code", "error from GitHub")))
      && (status == 200 ==> r.0 == Aborted(Wrap("get device code", Wrap("unmarshal response body as JSON", decoded.msg))))
  {
  }

  /** A failing device-code UI aborts the flow before the browser is opened
      and before any token request. */
  lemma CreateStopsOnShowError(clientID: string, deviceReply: Exchange<DeviceCodeResponse>, shownAt: Time, msg: string,
                               browser: BrowserOpen, pollStart: Time, events: seq<PollEvent>, finishedAt: Time)
    requires GetDeviceCode(clientID, deviceReply).Ok?
    ensures var r := Create(clientID, deviceReply, shownAt, Some(msg), browser, pollStart, events, finishedAt);
      && r.0 == Aborted(Wrap("show device code", msg))
      && |r.1| == 2 && r.1[1].Showed? && r.1[1].expiresAt == shownAt + deviceReply.decoded.value.expiresIn
  {
  }

  /** The browser warning is logged, once, exactly when opening fails. */
  lemma WarnedOnlyOnFailure(dc: DeviceCodeResponse, shownAt: Time, browser: BrowserOpen, times: seq<Time>)
    ensures var effects := Launched(dc, shownAt, browser) + TokenRequests(times);
      (exists i :: 0 <= i < |effects| && effects[i].WarnedBrowser?) <==> browser.OpenFailed?
  {
    var effects := Launched(dc, shownAt, browser) + TokenRequests(times);
    if browser.OpenFailed? {
      assert effects[3] == WarnedBrowser(browser.msg);
    } else {
      forall i | 0 <= i < |effects| ensures !effects[i].WarnedBrowser? {
        if i >= 3 {
          assert effects[i] == TokenRequests(times)[i - 3];
        }
      }
    }
  }

  /** How a flow ends does not depend on the browser. */
  lemma FlowIgnoresBrowser(clientID: string, deviceReply: Exchange<DeviceCodeResponse>, shownAt: Time,
                           b1: BrowserOpen, b2: BrowserOpen, pollStart: Time, events: seq<PollEvent>, finishedAt: Time)
    ensures Create(clientID, deviceReply, shownAt, None, b1, pollStart, events, finishedAt).0
         == Create(clientID, deviceReply, shownAt, None, b2, pollStart, events, finishedAt).0
  {
  }

  /** Opening the browser never decides the outcome: any browser result
      gives the same result, and only a failure other than "no command
      found" is logged. */
  lemma CreateIgnoresBrowser(clientID: string, deviceReply: Exchange<DeviceCodeResponse>, shownAt: Time,
                             b1: BrowserOpen, b2: BrowserOpen, pollStart: Time, events: seq<PollEvent>, finishedAt: Time)
    requires GetDeviceCode(clientID, deviceReply).Ok?
    ensures Create(clientID, deviceReply, shownAt, None, b1, pollStart, events, finishedAt).0
         == Create(clientID, deviceReply, shownAt, None, b2, pollStart, events, finishedAt).0
    ensures var effects := Create(clientID, deviceReply, shownAt, None, b1, pollStart, events, finishedAt).1;
      (exists i :: 0 <= i < |effects| && effects[i].WarnedBrowser?) <==> b1.OpenFailed?
  {
    FlowIgnoresBrowser(clientID, deviceReply, shownAt, b1, b2, pollStart, events, finishedAt);
    var dc := deviceReply.decoded.value;
    var interval := InitialPeriod(dc.interval);
    var run := Poll(CheckAccessToken, events, pollStart + dc.expiresIn, interval, interval);
    assert Create(clientID, deviceReply, shownAt, None, b1, pollStart, events, finishedAt).1
        == Launched(dc, shownAt, b1) + TokenRequests(run.requests);
    WarnedOnlyOnFailure(dc, shownAt, b1, run.requests);
  }

  /** A finished flow carries the granted token, and its expiry is the
      clock read after polling plus the token's `expires_in`. */
  lemma CreateExpiry(clientID: string, deviceReply: Exchange<DeviceCodeResponse>, shownAt: Time, browser: BrowserOpen,
                     pollStart: Time, events: seq<PollEvent>, finishedAt: Time)
    requires Create(clientID, deviceReply, shownAt, None, browser, pollStart, events, finishedAt).0.Finished?
    ensures var dc := deviceReply.decoded.value;
      var token := Create(clientID, deviceReply, shownAt, None, browser, pollStart, events, finishedAt).0.value;
      exists t :: Poll(CheckAccessToken, events, pollStart + dc.expiresIn, InitialPeriod(dc.interval), InitialPeriod(dc.interval)).end == Granted(t)
        && token.accessToken == t.accessToken && token.expirationDate == finishedAt + t.expiresIn
  {
  }

  /** Every token request of a flow is sent no later than `ExpiresIn`
      seconds after polling started. */
  lemma CreateRequestsBeforeDeadline(clientID: string, deviceReply: Exchange<DeviceCodeResponse>, shownAt: Time, showErr: Option<string>,
                                     browser: BrowserOpen, pollStart: Time, events: seq<PollEvent>, finishedAt: Time)
    requires GetDeviceCode(clientID, deviceReply).Ok?
    ensures var effects := Create(clientID, deviceReply, shownAt, showErr, browser, pollStart, events, finishedAt).1;
      forall i :: 0 <= i < |effects| && effects[i].RequestedToken? ==> effects[i].at <= pollStart + deviceReply.decoded.value.expiresIn
  {
    var dc := deviceReply.decoded.value;
    if showErr.None? {
      LaunchRequestsBeforeDeadline(dc, shownAt, browser, pollStart, events, finishedAt);
    }
  }

  /** `CreateRequestsBeforeDeadline` once the device code is shown. */
  lemma LaunchRequestsBeforeDeadline(dc: DeviceCodeResponse, shownAt: Time, browser: BrowserOpen, pollStart: Time,
                                     events: seq<PollEvent>, finishedAt: Time)
    ensures var effects := Launch(dc, shownAt, browser, pollStart, events, finishedAt).1;
      forall i :: 0 <= i < |effects| && effects[i].RequestedToken? ==> effects[i].at <= pollStart + dc.expiresIn
  {
    var interval := InitialPeriod(dc.interval);
    var effects := Launch(dc, shownAt, browser, pollStart, events, finishedAt).1;
    var run := Poll(CheckAccessToken, events, pollStart + dc.expiresIn, interval, interval);
    var head := Launched(dc, shownAt, browser);
    assert effects == head + TokenRequests(run.requests);
    PollRequestsBeforeDeadline(CheckAccessToken, events, pollStart + dc.expiresIn, interval, interval);
    forall i | 0 <= i < |effects|
      ensures effects[i].RequestedToken? ==> effects[i].at <= pollStart + dc.expiresIn
    {
      if i < |head| {
        assert effects[i] == head[i];
      } else {
        assert effects[i] == TokenRequests(run.requests)[i - |head|];
      }
    }
  }

}

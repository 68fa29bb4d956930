/** The older device-flow client (apptoken/create.go). It differs from the
    newer one in three ways: showing the device code cannot fail, no logger
    is passed down, and the expiry is returned as an RFC 3339 string. */
module AppToken {
  import opened Common
  import opened DeviceFlowWire
  import InternalDeviceFlow

  /** The minted token, with its expiry already formatted. */
  datatype AccessToken = AccessToken(app: string, accessToken: string, expirationDate: string)

  /** `getDeviceCode` of apptoken/create.go. */
  function GetDeviceCode(clientID: string, reply: Exchange<DeviceCodeResponse>): (r: Outcome<DeviceCodeResponse>)
    ensures clientID == "" ==> r == Err("client id is required")
    ensures r.Ok? <==> clientID != "" && reply.Response? && reply.status == 200 && reply.decoded.Ok?
    ensures clientID != "" && reply.Response? && reply.status != 200 ==> r == Err("error from GitHub")
  {
    if clientID == "" then Err("client id is required")
    else match reply
      case SendFailed(c) => Err(Wrap("send a request for device code", c))
      case ReadFailed(c) => Err(Wrap("read response body", c))
      case Response(status, _, decoded) =>
        if status != 200 then Err("error from GitHub")
        else match decoded
          case Err(c) => Err(Wrap("unmarshal response body as JSON", c))
          case Ok(d) => Ok(d)
  }

  /** `checkAccessToken` of apptoken/create.go. */
  function CheckAccessToken(reply: Exchange<AccessTokenResponse>): (r: Outcome<AccessTokenResponse>)
    ensures r.Ok? <==> reply.Response? && reply.decoded.Ok? && reply.decoded.value.error == "" && reply.decoded.value.accessToken != ""
    ensures reply.Response? && reply.decoded.Ok? && reply.decoded.value.error != "" ==> r == Err(reply.decoded.value.error)
    ensures reply.Response? && reply.decoded.Ok? && reply.decoded.value.error == "" && reply.decoded.value.accessToken == "" ==>
              r == Err("unexpected response: " + reply.body)
  {
    match reply
    case SendFailed(c) => Err(Wrap("send a request for access token", c))
    case ReadFailed(c) => Err(Wrap("read response body", c))
    case Response(_, body, decoded) =>
      match decoded
      case Err(c) => Err(Wrap("unmarshal response body as JSON", c))
      case Ok(t) =>
        if t.error != "" then Err(t.error)
        else if t.accessToken == "" then Err("unexpected response: " + body)
        else Ok(t)
  }

  /** The older requests and classification are those of the newer client,
      reply for reply. */
  lemma ExchangesAgree(clientID: string, dreply: Exchange<DeviceCodeResponse>, treply: Exchange<AccessTokenResponse>)
    ensures GetDeviceCode(clientID, dreply) == InternalDeviceFlow.GetDeviceCode(clientID, dreply)
    ensures CheckAccessToken(treply) == InternalDeviceFlow.CheckAccessToken(treply)
  {
  }

  /** `pollForAccessToken` of apptoken/create.go. */
  method PollForAccessToken(events: seq<PollEvent>, deviceCode: DeviceCodeResponse, start: Time) returns (run: PollRun)
    ensures run == Poll(CheckAccessToken, events, start + deviceCode.expiresIn, InitialPeriod(deviceCode.interval), InitialPeriod(deviceCode.interval))
    ensures run.end.Granted? ==> run.end.token.accessToken != "" && run.end.token.error == ""
    ensures forall i :: 0 <= i < |run.requests| ==> run.requests[i] <= start + deviceCode.expiresIn
  {
    var interval := InitialPeriod(deviceCode.interval);
    var deadline := start + deviceCode.expiresIn;
    run := PollLoop(CheckAccessToken, events, deadline, interval);
    PollGrantsChecked(CheckAccessToken, events, deadline, interval, interval);
    PollRequestsBeforeDeadline(CheckAccessToken, events, deadline, interval, interval);
  }

  /** The rest of `Client.Create` once the device code is shown. */
  function Launch(dc: DeviceCodeResponse, shownAt: Time, browser: BrowserOpen, pollStart: Time,
                  events: seq<PollEvent>, finishedAt: Time, formatDate: Time -> string): (r: (Flow<AccessToken>, seq<Effect>))
    ensures r.0.Finished? ==> r.0.value.accessToken != ""
  {
    var interval := InitialPeriod(dc.interval);
    var run := Poll(CheckAccessToken, events, pollStart + dc.expiresIn, interval, interval);
    var polled := InternalDeviceFlow.Launched(dc, shownAt, browser) + InternalDeviceFlow.TokenRequests(run.requests);
    PollGrantsChecked(CheckAccessToken, events, pollStart + dc.expiresIn, interval, interval);
    match run.end
    case Granted(t) => (Finished(AccessToken("", t.accessToken, formatDate(finishedAt + t.expiresIn))), polled)
    case Stopped(m) => (Aborted(Wrap("get access token", m)), polled)
    case Waiting => (Polling, polled)
  }

  /** `Client.Create` of apptoken/create.go; `formatDate` is
      `keyring.FormatDate`, RFC 3339 formatting, which this model leaves
      abstract. */
  function Create(clientID: string, deviceReply: Exchange<DeviceCodeResponse>, shownAt: Time, browser: BrowserOpen,
                  pollStart: Time, events: seq<PollEvent>, finishedAt: Time, formatDate: Time -> string): (r: (Flow<AccessToken>, seq<Effect>))
    ensures clientID == "" ==> r == (Aborted("client id is required"), [])
    ensures r.0.Finished? ==> r.0.value.accessToken != ""
  {
    if clientID == "" then (Aborted("client id is required"), [])
    else match GetDeviceCode(clientID, deviceReply)
      case Err(m) => (Aborted(Wrap("get device code", m)), [RequestedDeviceCode])
      case Ok(dc) => Launch(dc, shownAt, browser, pollStart, events, finishedAt, formatDate)
  }


  /** Both clients poll alike once the device code is granted. */
  lemma SamePoll(events: seq<PollEvent>, deadline: Time, interval: int)
    ensures Poll(CheckAccessToken, events, deadline, interval, interval)
         == Poll(InternalDeviceFlow.CheckAccessToken, events, deadline, interval, interval)
  {
    forall reply ensures CheckAccessToken(reply) == InternalDeviceFlow.CheckAccessToken(reply) {
      ExchangesAgree("", SendFailed(""), reply);
    }
    PollSameCheck(CheckAccessToken, InternalDeviceFlow.CheckAccessToken, events, deadline, interval, interval);
  }

  /** The older flow is the newer flow with a device-code UI that never
      fails, the same effects, and the expiry formatted by `formatDate`. */
  lemma CreateMatchesNewer(clientID: string, deviceReply: Exchange<DeviceCodeResponse>, shownAt: Time, browser: BrowserOpen,
                           pollStart: Time, events: seq<PollEvent>, finishedAt: Time, formatDate: Time -> string)
    ensures var older := Create(clientID, deviceReply, shownAt, browser, pollStart, events, finishedAt, formatDate);
      var newer := InternalDeviceFlow.Create(clientID, deviceReply, shownAt, None, browser, pollStart, events, finishedAt);
      && older.1 == newer.1
      && (older.0.Aborted? <==> newer.0.Aborted?) && (older.0.Aborted? ==> older.0.msg == newer.0.msg)
      && (older.0.Polling? <==> newer.0.Polling?)
      && (older.0.Finished? <==> newer.0.Finished?)
      && (older.0.Finished? ==> older.0.value == AccessToken(newer.0.value.app, newer.0.value.accessToken, formatDate(newer.0.value.expirationDate)))
  {
    ExchangesAgree(clientID, deviceReply, SendFailed(""));
    if clientID != "" && GetDeviceCode(clientID, deviceReply).Ok? {
      var dc := GetDeviceCode(clientID, deviceReply).value;
      LaunchMatchesNewer(dc, shownAt, browser, pollStart, events, finishedAt, formatDate);
    }
  }

  /** `CreateMatchesNewer` once the device code is shown. */
  lemma LaunchMatchesNewer(dc: DeviceCodeResponse, shownAt: Time, browser: BrowserOpen,
                           pollStart: Time, events: seq<PollEvent>, finishedAt: Time, formatDate: Time -> string)
    ensures var older := Launch(dc, shownAt, browser, pollStart, events, finishedAt, formatDate);
      var newer := InternalDeviceFlow.Launch(dc, shownAt, browser, pollStart, events, finishedAt);
      && older.1 == newer.1
      && (older.0.Aborted? <==> newer.0.Aborted?) && (older.0.Aborted? ==> older.0.msg == newer.0.msg)
      && (older.0.Polling? <==> newer.0.Polling?)
      && (older.0.Finished? <==> newer.0.Finished?)
      && (older.0.Finished? ==> older.0.value == AccessToken(newer.0.value.app, newer.0.value.accessToken, formatDate(newer.0.value.expirationDate)))
  {
    var interval := InitialPeriod(dc.interval);
    SamePoll(events, pollStart + dc.expiresIn, interval);
  }
}

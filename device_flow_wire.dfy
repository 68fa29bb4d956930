/** What the three copies of the OAuth 2.0 Device Authorization Grant
    client (RFC 8628) exchange with GitHub, and the polling automaton of
    section 3.4 and 3.5 of RFC 8628 as their loops implement it. */
module DeviceFlowWire {
  import opened Common

  /** The device authorization response (section 3.2 of RFC 8628). */
  datatype DeviceCodeResponse = DeviceCodeResponse(deviceCode: string, userCode: string, verificationURI: string, expiresIn: int, interval: int)

  /** The token endpoint's answer: a token, or an `error` code. */
  datatype AccessTokenResponse = AccessTokenResponse(accessToken: string, expiresIn: int, error: string)

  /** One HTTP round trip as the client sees it: the request could not be
      sent, the body could not be read, or a response with its status, its
      raw body and the outcome of decoding that body as JSON. */
  datatype Exchange<T> = SendFailed(cause: string) | ReadFailed(cause: string) | Response(status: int, body: string, decoded: Outcome<T>)

  /** What wakes the polling loop: the ticker fires at `now` (and, if the
      loop asks, GitHub answers `reply`), or the context is cancelled. */
  datatype PollEvent = Tick(now: Time, reply: Exchange<AccessTokenResponse>) | Cancel(cause: string)

  /** How polling ends: a token, an error, or still waiting when the events
      run out. */
  datatype PollEnd = Granted(token: AccessTokenResponse) | Stopped(msg: string) | Waiting

  /** The end of polling, the ticker period at that point, and the times at
      which a token request was sent. The period is only reported: the
      spacing of the `Tick` times is given by the events and is not tied to
      it, so no lemma here says that ticks are a period apart. */
  datatype PollRun = PollRun(end: PollEnd, period: int, requests: seq<Time>)

  /** What a browser launch reports: success, no launcher on this system
      (`ErrNoCommandFound`), or another failure. */
  datatype BrowserOpen = Opened | NoCommand | OpenFailed(msg: string)

  /** How a whole device flow ends; `Polling` is a flow still waiting for
      the user when the events run out. */
  datatype Flow<T> = Finished(value: T) | Aborted(msg: string) | Polling

  /** The side effects of a device flow, in order. */
  datatype Effect =
    | RequestedDeviceCode
    | Showed(userCode: string, verificationURI: string, expiresAt: Time)
    | OpenedBrowser(url: string)
    | WarnedBrowser(msg: string)
    | RequestedToken(at: Time)

  /** `additionalInterval`: the shortest poll period, in seconds. */
  const MinInterval := 5

  /** The first poll period: the server's interval, but at least five
      seconds. */
  function InitialPeriod(interval: int): (p: int)
    ensures p >= MinInterval && p >= interval
    ensures p == interval || p == MinInterval
  {
    if interval < MinInterval then MinInterval else interval
  }

  /** The polling loop, walked over its events. `check` classifies a token
      reply; `period` is the ticker's current period. An
      `authorization_pending` error keeps polling at the same period; a
      `slow_down` error resets the ticker to `initial + 5` seconds; any
      other error, a tick after the deadline or a cancellation ends it. */
  function Poll(check: Exchange<AccessTokenResponse> -> Outcome<AccessTokenResponse>, events: seq<PollEvent>, deadline: Time, initial: int, period: int): (run: PollRun)
    decreases |events|
  {
    if events == [] then PollRun(Waiting, period, [])
    else match events[0]
      case Cancel(cause) => PollRun(Stopped(Wrap("context was cancelled", cause)), period, [])
      case Tick(now, reply) =>
        if now > deadline then PollRun(Stopped("device code expired"), period, [])
        else match check(reply)
          case Ok(t) => PollRun(Granted(t), period, [now])
          case Err(m) =>
            if m == "authorization_pending" then SentAt(now, Poll(check, events[1..], deadline, initial, period))
            else if m == "slow_down" then SentAt(now, Poll(check, events[1..], deadline, initial, initial + 5))
            else PollRun(Stopped(m), period, [now])
  }

  function SentAt(now: Time, run: PollRun): PollRun
  {
    run.(requests := [now] + run.requests)
  }

  /** Polling depends on the classification only through its verdicts:
      two classifications that agree on every reply poll alike. */
  lemma {:induction false} PollSameCheck(c1: Exchange<AccessTokenResponse> -> Outcome<AccessTokenResponse>, c2: Exchange<AccessTokenResponse> -> Outcome<AccessTokenResponse>,
                                         events: seq<PollEvent>, deadline: Time, initial: int, period: int)
    requires forall reply :: c1(reply) == c2(reply)
    ensures Poll(c1, events, deadline, initial, period) == Poll(c2, events, deadline, initial, period)
    decreases |events|
  {
    if events != [] && events[0].Tick? && events[0].now <= deadline {
      PollSameCheck(c1, c2, events[1..], deadline, initial, period);
      PollSameCheck(c1, c2, events[1..], deadline, initial, initial + 5);
    }
  }

  /** No token request is ever sent after the deadline. */
  lemma {:induction false} PollRequestsBeforeDeadline(check: Exchange<AccessTokenResponse> -> Outcome<AccessTokenResponse>, events: seq<PollEvent>, deadline: Time, initial: int, period: int)
    ensures forall i :: 0 <= i < |Poll(check, events, deadline, initial, period).requests| ==> Poll(check, events, deadline, initial, period).requests[i] <= deadline
    decreases |events|
  {
    if events != [] && events[0].Tick? && events[0].now <= deadline {
      PollRequestsBeforeDeadline(check, events[1..], deadline, initial, period);
      PollRequestsBeforeDeadline(check, events[1..], deadline, initial, initial + 5);
    }
  }

  /** Backing off is not cumulative: the period is only ever the one
      polling started with or `initial + 5`, however many `slow_down`
      replies arrive. */
  lemma {:induction false} PollPeriodNotCumulative(check: Exchange<AccessTokenResponse> -> Outcome<AccessTokenResponse>, events: seq<PollEvent>, deadline: Time, initial: int, period: int)
    ensures Poll(check, events, deadline, initial, period).period in {period, initial + 5}
    decreases |events|
  {
    if events != [] && events[0].Tick? && events[0].now <= deadline {
      PollPeriodNotCumulative(check, events[1..], deadline, initial, period);
      PollPeriodNotCumulative(check, events[1..], deadline, initial, initial + 5);
    }
  }

  /** Two `slow_down` replies in a row leave the period at `initial + 5`,
      where section 3.5 of RFC 8628 would have it at `initial + 10`. */
  lemma TwoSlowDowns(check: Exchange<AccessTokenResponse> -> Outcome<AccessTokenResponse>, t1: Time, r1: Exchange<AccessTokenResponse>, t2: Time, r2: Exchange<AccessTokenResponse>, deadline: Time, initial: int)
    requires t1 <= deadline && t2 <= deadline
    requires check(r1) == Err("slow_down") && check(r2) == Err("slow_down")
    ensures Poll(check, [Tick(t1, r1), Tick(t2, r2)], deadline, initial, initial) == PollRun(Waiting, initial + 5, [t1, t2])
  {
    assert [Tick(t1, r1), Tick(t2, r2)][1..] == [Tick(t2, r2)];
    assert [Tick(t2, r2)][1..] == [];
    var last := Poll(check, [Tick(t2, r2)], deadline, initial, initial + 5);
    assert last == SentAt(t2, Poll(check, [], deadline, initial, initial + 5)) == PollRun(Waiting, initial + 5, [t2]);
    assert Poll(check, [Tick(t1, r1), Tick(t2, r2)], deadline, initial, initial) == SentAt(t1, last);
  }

  /** While every tick before the deadline is answered with
      `authorization_pending`, the period stays as it was and each tick sends
      one request. */
  lemma {:induction false} PendingKeepsPeriod(check: Exchange<AccessTokenResponse> -> Outcome<AccessTokenResponse>, events: seq<PollEvent>, deadline: Time, initial: int, period: int)
    requires forall i :: 0 <= i < |events| ==> events[i].Tick? && events[i].now <= deadline && check(events[i].reply) == Err("authorization_pending")
    ensures Poll(check, events, deadline, initial, period).end == Waiting
    ensures Poll(check, events, deadline, initial, period).period == period
    ensures |Poll(check, events, deadline, initial, period).requests| == |events|
    decreases |events|
  {
    if events != [] {
      PendingKeepsPeriod(check, events[1..], deadline, initial, period);
    }
  }

  /** Polling never stops on `authorization_pending` or `slow_down`; it
      stops on a cancellation, an expired deadline, or another error that
      `check` reported as it is. */
  lemma {:induction false} PollStopReasons(check: Exchange<AccessTokenResponse> -> Outcome<AccessTokenResponse>, events: seq<PollEvent>, deadline: Time, initial: int, period: int)
    ensures var end := Poll(check, events, deadline, initial, period).end;
      end.Stopped? ==>
        (&& end.msg != "authorization_pending" && end.msg != "slow_down"
         && (|| end.msg == "device code expired"
             || (exists i :: 0 <= i < |events| && events[i].Cancel? && end.msg == Wrap("context was cancelled", events[i].cause))
             || (exists i :: 0 <= i < |events| && events[i].Tick? && check(events[i].reply) == Err(end.msg))))
    decreases |events|
  {
    if events != [] && events[0].Tick? && events[0].now <= deadline {
      var rest := events[1..];
      PollStopReasons(check, rest, deadline, initial, period);
      PollStopReasons(check, rest, deadline, initial, initial + 5);
      var end := Poll(check, events, deadline, initial, period).end;
      if end.Stopped? && end.msg != "device code expired" {
        if check(events[0].reply) == Err(end.msg) {
        } else if exists i :: 0 <= i < |rest| && rest[i].Cancel? && end.msg == Wrap("context was cancelled", rest[i].cause) {
          var i :| 0 <= i < |rest| && rest[i].Cancel? && end.msg == Wrap("context was cancelled", rest[i].cause);
          assert events[i + 1] == rest[i];
        } else {
          var i :| 0 <= i < |rest| && rest[i].Tick? && check(rest[i].reply) == Err(end.msg);
          assert events[i + 1] == rest[i];
        }
      }
    }
  }

  /** A granted token is one that `check` accepted on a tick before the
      deadline. */
  lemma {:induction false} PollGrantsChecked(check: Exchange<AccessTokenResponse> -> Outcome<AccessTokenResponse>, events: seq<PollEvent>, deadline: Time, initial: int, period: int)
    ensures var end := Poll(check, events, deadline, initial, period).end;
      end.Granted? ==> exists i :: 0 <= i < |events| && events[i].Tick? && events[i].now <= deadline && check(events[i].reply) == Ok(end.token)
    decreases |events|
  {
    if events != [] && events[0].Tick? && events[0].now <= deadline {
      var rest := events[1..];
      PollGrantsChecked(check, rest, deadline, initial, period);
      PollGrantsChecked(check, rest, deadline, initial, initial + 5);
      var end := Poll(check, events, deadline, initial, period).end;
      if end.Granted? && check(events[0].reply) != Ok(end.token) {
        var i :| 0 <= i < |rest| && rest[i].Tick? && rest[i].now <= deadline && check(rest[i].reply) == Ok(end.token);
        assert events[i + 1] == rest[i];
      }
    }
  }

  /** A cancellation or a tick past the deadline as the first event ends
      polling at once, without any request. */
  lemma PollFirstEventStops(check: Exchange<AccessTokenResponse> -> Outcome<AccessTokenResponse>, events: seq<PollEvent>, deadline: Time, initial: int, period: int)
    requires events != []
    ensures events[0].Cancel? ==> Poll(check, events, deadline, initial, period) == PollRun(Stopped("context was cancelled: " + events[0].cause), period, [])
    ensures events[0].Tick? && events[0].now > deadline ==> Poll(check, events, deadline, initial, period) == PollRun(Stopped("device code expired"), period, [])
  {
    if events[0].Cancel? {
      assert Wrap("context was cancelled", events[0].cause) == "context was cancelled: " + events[0].cause;
    }
  }

  /** The loop that walks the events, as each copy of `pollForAccessToken`
      runs it: the period lives in the ticker, requests are sent one per
      tick. */
  method PollLoop(check: Exchange<AccessTokenResponse> -> Outcome<AccessTokenResponse>, events: seq<PollEvent>, deadline: Time, initial: int) returns (run: PollRun)
    ensures run == Poll(check, events, deadline, initial, initial)
  {
    var period := initial;
    var sent: seq<Time> := [];
    var i := 0;
    while i < |events|
      invariant 0 <= i <= |events|
      invariant Poll(check, events, deadline, initial, initial) == Resume(sent, Poll(check, events[i..], deadline, initial, period))
    {
      assert events[i..][0] == events[i] && events[i..][1..] == events[i + 1..];
      match events[i] {
        case Cancel(cause) =>
          return PollRun(Stopped(Wrap("context was cancelled", cause)), period, sent);
        case Tick(now, reply) =>
          if now > deadline {
            return PollRun(Stopped("device code expired"), period, sent);
          }
          var answer := check(reply);
          ResumeSentAt(sent, now, Poll(check, events[i + 1..], deadline, initial, period));
          ResumeSentAt(sent, now, Poll(check, events[i + 1..], deadline, initial, initial + 5));
          sent := sent + [now];
          match answer {
            case Ok(t) =>
              return PollRun(Granted(t), period, sent);
            case Err(m) =>
              if m == "authorization_pending" {
              } else if m == "slow_down" {
                period := initial + 5;
              } else {
                return PollRun(Stopped(m), period, sent);
              }
          }
      }
      i := i + 1;
    }
    return PollRun(Waiting, period, sent);
  }

  /** A run continued after the requests already `sent`. */
  function Resume(sent: seq<Time>, run: PollRun): PollRun
  {
    run.(requests := sent + run.requests)
  }

  /** Recording one more request before a resumed run. */
  lemma ResumeSentAt(sent: seq<Time>, now: Time, run: PollRun)
    ensures Resume(sent, SentAt(now, run)) == Resume(sent + [now], run)
  {
    assert sent + ([now] + run.requests) == (sent + [now]) + run.requests;
  }
}

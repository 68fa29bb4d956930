/** The cached token source (internal/oauth2): the first token a client
    hands out is kept and served for every later call. */
module InternalOAuth2 {
  import opened Common

  /** One call of `Token`: what the caller gets, the cache afterwards, and
      whether the client was asked. `answer` is what the client's `Get`
      would return on this call. */
  function TokenStep(cache: Option<string>, answer: Outcome<string>): (r: (Outcome<string>, Option<string>, bool))
    ensures cache.Some? ==> r == (Ok(cache.value), cache, false)
    ensures cache.None? ==> r.2
    ensures cache.None? && answer.Ok? ==> r.0 == answer && r.1 == Some(answer.value)
    ensures cache.None? && answer.Err? ==> r.0 == Err(Wrap("get a GitHub Access token from keyring", answer.msg)) && r.1 == None
  {
    if cache.Some? then (Ok(cache.value), cache, false)
    else match answer
      case Err(m) => (Err(Wrap("get a GitHub Access token from keyring", m)), None, true)
      case Ok(s) => (Ok(s), Some(s), true)
  }

  /** `TokenSource`, holding the client it fetches from. The mutex that
      serialises `Token` is the sequential order of calls here. */
  class TokenSource<C> {
    var token: Option<string>
    const client: C

    /** `NewTokenSource`: nothing is cached yet. */
    constructor (client: C)
      ensures token == None && this.client == client
    {
      token := None;
      this.client := client;
    }

    /** `Token`: the cached token if there is one; otherwise the client's
        answer, cached only when it is a success. */
    method Token(answer: Outcome<string>) returns (r: Outcome<string>, asked: bool)
      modifies this
      ensures (r, token, asked) == TokenStep(old(token), answer)
    {
      if token.Some? {
        return Ok(token.value), false;
      }
      asked := true;
      match answer {
        case Err(m) =>
          r := Err(Wrap("get a GitHub Access token from keyring", m));
        case Ok(s) =>
          token := Some(s);
          r := Ok(s);
      }
    }
  }

  /** What a run of calls returns, call by call, when `answers[i]` is what
      the client would answer on call `i`. */
  function Results(cache: Option<string>, answers: seq<Outcome<string>>): (rs: seq<Outcome<string>>)
    ensures |rs| == |answers|
    decreases |answers|
  {
    if answers == [] then []
    else var (r, next, _) := TokenStep(cache, answers[0]); [r] + Results(next, answers[1..])
  }

  /** The calls of a run on which the client was asked. */
  function Asked(cache: Option<string>, answers: seq<Outcome<string>>): (asked: seq<bool>)
    ensures |asked| == |answers|
    decreases |answers|
  {
    if answers == [] then []
    else var (_, next, a) := TokenStep(cache, answers[0]); [a] + Asked(next, answers[1..])
  }

  /** How many of the calls the client answered successfully when asked. */
  function SuccessfulFetches(cache: Option<string>, answers: seq<Outcome<string>>): nat
    decreases |answers|
  {
    if answers == [] then 0
    else
      var (_, next, a) := TokenStep(cache, answers[0]);
      (if a && answers[0].Ok? then 1 else 0) + SuccessfulFetches(next, answers[1..])
  }

  /** Once something is cached, no call asks the client again and every
      call returns the cached token. */
  lemma {:induction false} CachedServesAll(t: string, answers: seq<Outcome<string>>)
    ensures forall i :: 0 <= i < |answers| ==> Results(Some(t), answers)[i] == Ok(t) && !Asked(Some(t), answers)[i]
    ensures SuccessfulFetches(Some(t), answers) == 0
    decreases |answers|
  {
    if answers != [] {
      CachedServesAll(t, answers[1..]);
    }
  }

  /** However many calls are made, the client is successfully asked at most
      once, and a start with a cached token never asks it. */
  lemma {:induction false} AtMostOneSuccessfulFetch(cache: Option<string>, answers: seq<Outcome<string>>)
    ensures SuccessfulFetches(cache, answers) <= 1
    ensures cache.Some? ==> SuccessfulFetches(cache, answers) == 0
    decreases |answers|
  {
    if answers != [] {
      var (_, next, _) := TokenStep(cache, answers[0]);
      if next.Some? {
        CachedServesAll(next.value, answers[1..]);
      } else {
        AtMostOneSuccessfulFetch(next, answers[1..]);
      }
    }
  }

  /** The first successful answer is served from then on: every later call
      returns it without asking the client. */
  lemma {:induction false} FirstSuccessIsServed(answers: seq<Outcome<string>>, k: nat)
    requires k < |answers| && answers[k].Ok?
    requires forall j :: 0 <= j < k ==> answers[j].Err?
    ensures Asked(None, answers)[k] && Results(None, answers)[k] == answers[k]
    ensures forall i :: k < i < |answers| ==> Results(None, answers)[i] == answers[k] && !Asked(None, answers)[i]
    decreases k
  {
    if k == 0 {
      CachedServesAll(answers[0].value, answers[1..]);
    } else {
      FirstSuccessIsServed(answers[1..], k - 1);
    }
  }

  /** A failure is not cached: while the client keeps failing, every call
      asks it again and reports its error wrapped. */
  lemma {:induction false} FailuresAreRetried(answers: seq<Outcome<string>>)
    requires forall j :: 0 <= j < |answers| ==> answers[j].Err?
    ensures forall i :: 0 <= i < |answers| ==>
              Asked(None, answers)[i] && Results(None, answers)[i] == Err(Wrap("get a GitHub Access token from keyring", answers[i].msg))
    decreases |answers|
  {
    if answers != [] {
      FailuresAreRetried(answers[1..]);
    }
  }
}

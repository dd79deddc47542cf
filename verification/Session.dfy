/** The session: tokens, an epoch that counts logouts, and refreshes that many requests may wait for. */
module Sessions {
  import opened Common

  /** A running `doRefresh`: at the fetch, at the body, settled, or past its `finally`. */
  datatype Progress = Posting | Reading | Settled(result: Option<string>) | Over(result: Option<string>)

  datatype Refresh = Refresh(epoch: nat, progress: Progress)

  /** `accessSince` and `storedSince` record the epoch in which the call that brought the token began. */
  datatype Tokens = Tokens(
    epoch: nat, access: Option<string>, stored: Option<string>, inFlight: Option<nat>, refreshes: seq<Refresh>,
    accessSince: nat, storedSince: nat)

  function SetTokens(t: Tokens, access: string, refresh: Option<string>, since: nat): Tokens {
    var t' := t.(access := Some(access), accessSince := since);
    if refresh.Some? then t'.(stored := refresh, storedSince := since) else t'
  }

  function Clear(t: Tokens): Tokens {
    t.(epoch := t.epoch + 1, inFlight := None, access := None, stored := None)
  }

  /** Join the refresh in flight, or start one. */
  function StartRefresh(t: Tokens): Tokens {
    if t.inFlight.Some? then t
    else
      var first := if t.stored.None? then Settled(None) else Posting;
      t.(inFlight := Some(|t.refreshes|), refreshes := t.refreshes + [Refresh(t.epoch, first)])
  }

  function Progressed(t: Tokens, i: nat, p: Progress): Tokens
    requires i < |t.refreshes|
  {
    t.(refreshes := t.refreshes[i := t.refreshes[i].(progress := p)])
  }

  function OnStatus(t: Tokens, i: nat, ok: bool): Tokens
    requires i < |t.refreshes| && t.refreshes[i].progress.Posting?
  {
    if t.refreshes[i].epoch != t.epoch then Progressed(t, i, Settled(None))
    else if !ok then Progressed(Clear(t), i, Settled(None))
    else Progressed(t, i, Reading)
  }

  function OnBody(t: Tokens, i: nat, access: string, refresh: Option<string>): Tokens
    requires i < |t.refreshes| && t.refreshes[i].progress.Reading?
  {
    if t.refreshes[i].epoch != t.epoch then Progressed(t, i, Settled(None))
    else Progressed(SetTokens(t, access, refresh, t.refreshes[i].epoch), i, Settled(Some(access)))
  }

  /** The fetch or the body threw. */
  function OnThrow(t: Tokens, i: nat): Tokens
    requires i < |t.refreshes| && (t.refreshes[i].progress.Posting? || t.refreshes[i].progress.Reading?)
  {
    Progressed(t, i, Settled(None))
  }

  function Finally(t: Tokens, i: nat): Tokens
    requires i < |t.refreshes| && t.refreshes[i].progress.Settled?
  {
    var t' := Progressed(t, i, Over(t.refreshes[i].progress.result));
    if t.inFlight == Some(i) then t'.(inFlight := None) else t'
  }

  class TokenManager {
    var epoch: nat
    var accessToken: Option<string>
    var refreshToken: Option<string>
    var refreshInFlight: Option<nat>
    var refreshes: seq<Refresh>
    var accessSince: nat
    var storedSince: nat

    function Model(): Tokens
      reads this
    {
      Tokens(epoch, accessToken, refreshToken, refreshInFlight, refreshes, accessSince, storedSince)
    }

    /** The refresh token may be left over from an earlier page load. */
    constructor (stored: Option<string>)
      ensures Model() == Tokens(0, None, stored, None, [], 0, 0)
    {
      epoch, accessToken, refreshToken, refreshInFlight, refreshes := 0, None, stored, None, [];
      accessSince, storedSince := 0, 0;
    }

    method Install(access: string, refresh: Option<string>, since: nat)
      modifies this
      ensures Model() == SetTokens(old(Model()), access, refresh, since)
    {
      accessToken, accessSince := Some(access), since;
      if refresh.Some? {
        refreshToken, storedSince := refresh, since;
      }
    }

    method ClearSession()
      modifies this
      ensures Model() == Clear(old(Model()))
    {
      epoch := epoch + 1;
      refreshInFlight := None;
      accessToken := None;
      refreshToken := None;
    }

    /** The promise handed to the caller is the refresh with this number. */
    method RefreshSession() returns (promise: nat)
      modifies this
      ensures Model() == StartRefresh(old(Model()))
      ensures Model().inFlight == Some(promise)
    {
      if refreshInFlight.None? {
        var first := if refreshToken.None? then Settled(None) else Posting;
        refreshInFlight := Some(|refreshes|);
        refreshes := refreshes + [Refresh(epoch, first)];
      }
      promise := refreshInFlight.value;
    }

    method ResponseArrived(i: nat, ok: bool)
      requires i < |refreshes| && refreshes[i].progress.Posting?
      modifies this
      ensures Model() == OnStatus(old(Model()), i, ok)
    {
      if refreshes[i].epoch != epoch {
        refreshes := refreshes[i := refreshes[i].(progress := Settled(None))];
      } else if !ok {
        ClearSession();
        refreshes := refreshes[i := refreshes[i].(progress := Settled(None))];
      } else {
        refreshes := refreshes[i := refreshes[i].(progress := Reading)];
      }
    }

    method BodyArrived(i: nat, access: string, refresh: Option<string>)
      requires i < |refreshes| && refreshes[i].progress.Reading?
      modifies this
      ensures Model() == OnBody(old(Model()), i, access, refresh)
    {
      if refreshes[i].epoch != epoch {
        refreshes := refreshes[i := refreshes[i].(progress := Settled(None))];
        return;
      }
      Install(access, refresh, refreshes[i].epoch);
      refreshes := refreshes[i := refreshes[i].(progress := Settled(Some(access)))];
    }

    method RunFinally(i: nat)
      requires i < |refreshes| && refreshes[i].progress.Settled?
      modifies this
      ensures Model() == Finally(old(Model()), i)
    {
      if refreshInFlight == Some(i) {
        refreshInFlight := None;
      }
      refreshes := refreshes[i := refreshes[i].(progress := Over(refreshes[i].progress.result))];
    }
  }

  // ---- requests ----

  datatype Answer = Success(value: string) | Unauthorized | Failure(error: string)

  datatype Outcome = Value(value: string) | SessionChanged | Error(answer: Answer)

  datatype Stage = Fetching(retry: bool) | Waiting(refresh: nat) | Done(outcome: Outcome)

  /** `fetches` counts the calls of `fetch` for the request's own path. */
  datatype Request = Request(epoch: nat, isRetry: bool, fetches: nat, stage: Stage)

  datatype Client = Client(tokens: Tokens, requests: seq<Request>)

  function Begin(c: Client, isRetry: bool): Client {
    c.(requests := c.requests + [Request(c.tokens.epoch, isRetry, 1, Fetching(false))])
  }

  function Staged(c: Client, i: nat, s: Stage): Client
    requires i < |c.requests|
  {
    c.(requests := c.requests[i := c.requests[i].(stage := s)])
  }

  predicate Stale(c: Client, i: nat)
    requires i < |c.requests|
  {
    c.requests[i].epoch != c.tokens.epoch
  }

  /** The path's response. Only a first 401 of an unchanged session leads to a refresh. */
  function OnAnswer(c: Client, i: nat, a: Answer): Client
    requires i < |c.requests| && c.requests[i].stage.Fetching?
  {
    if c.requests[i].stage.retry then
      if !a.Success? then Staged(c, i, Done(Error(a)))
      else if Stale(c, i) then Staged(c, i, Done(SessionChanged))
      else Staged(c, i, Done(Value(a.value)))
    else if Stale(c, i) then Staged(c, i, Done(SessionChanged))
    else match a
      case Success(v) => Staged(c, i, Done(Value(v)))
      case Failure(_) => Staged(c, i, Done(Error(a)))
      case Unauthorized =>
        if c.requests[i].isRetry then Staged(c, i, Done(Error(a)))
        else
          var t := StartRefresh(c.tokens);
          Staged(c.(tokens := t), i, Waiting(t.inFlight.value))
  }

  /** The awaited refresh is over. */
  function OnRefreshed(c: Client, i: nat): Client
    requires i < |c.requests| && c.requests[i].stage.Waiting? && c.requests[i].stage.refresh < |c.tokens.refreshes|
    requires c.tokens.refreshes[c.requests[i].stage.refresh].progress.Over?
  {
    var result := c.tokens.refreshes[c.requests[i].stage.refresh].progress.result;
    if result.None? then Staged(c, i, Done(Error(Unauthorized)))
    else if Stale(c, i) then Staged(c, i, Done(SessionChanged))
    else
      var r := c.requests[i];
      c.(requests := c.requests[i := r.(stage := Fetching(true), fetches := r.fetches + 1)])
  }

  class ApiClient {
    const tokens: TokenManager
    var requests: seq<Request>

    function Model(): Client
      reads this, tokens
    {
      Client(tokens.Model(), requests)
    }

    constructor (tokens: TokenManager)
      ensures this.tokens == tokens && Model() == Client(tokens.Model(), [])
    {
      this.tokens := tokens;
      requests := [];
    }

    method BeginRequest(isRetry: bool) returns (i: nat)
      modifies this
      ensures i == old(|requests|) && Model() == Begin(old(Model()), isRetry)
    {
      i := |requests|;
      requests := requests + [Request(tokens.epoch, isRetry, 1, Fetching(false))];
    }

    method AnswerArrived(i: nat, a: Answer)
      requires i < |requests| && requests[i].stage.Fetching?
      modifies this, tokens
      ensures Model() == OnAnswer(old(Model()), i, a)
    {
      var r := requests[i];
      if r.stage.retry && !a.Success? {
        requests := requests[i := r.(stage := Done(Error(a)))];
      } else if r.epoch != tokens.epoch {
        requests := requests[i := r.(stage := Done(SessionChanged))];
      } else if a.Success? {
        requests := requests[i := r.(stage := Done(Value(a.value)))];
      } else if a.Unauthorized? && !r.isRetry {
        var promise := tokens.RefreshSession();
        requests := requests[i := r.(stage := Waiting(promise))];
      } else {
        requests := requests[i := r.(stage := Done(Error(a)))];
      }
    }

    method RefreshArrived(i: nat)
      requires i < |requests| && requests[i].stage.Waiting? && requests[i].stage.refresh < |tokens.refreshes|
      requires tokens.refreshes[requests[i].stage.refresh].progress.Over?
      modifies this
      ensures Model() == OnRefreshed(old(Model()), i)
    {
      var r := requests[i];
      if tokens.refreshes[r.stage.refresh].progress.result.None? {
        requests := requests[i := r.(stage := Done(Error(Unauthorized)))];
      } else if r.epoch != tokens.epoch {
        requests := requests[i := r.(stage := Done(SessionChanged))];
      } else {
        requests := requests[i := r.(stage := Fetching(true), fetches := r.fetches + 1)];
      }
    }
  }
}

/** Every interleaving of requests, refreshes, logins and logouts. */
module SessionRuns {
  import opened Common
  import opened Sessions

  /** `since` is the epoch in which the login whose tokens are installed was begun. */
  datatype Event =
    | LoggedIn(since: nat, access: string, refresh: Option<string>)
    | LoggedOut
    | RefreshAsked
    | StatusCame(i: nat, ok: bool)
    | BodyCame(i: nat, access: string, refresh: Option<string>)
    | RefreshThrew(i: nat)
    | FinallyRan(i: nat)
    | Requested(isRetry: bool)
    | AnswerCame(i: nat, a: Answer)
    | RefreshCame(i: nat)

  /** One step; an event that is not due leaves everything as it is. */
  function Step(c: Client, e: Event): Client {
    var t := c.tokens;
    match e
    case LoggedIn(since, access, refresh) => if since <= t.epoch then c.(tokens := SetTokens(t, access, refresh, since)) else c
    case LoggedOut => c.(tokens := Clear(t))
    case RefreshAsked => c.(tokens := StartRefresh(t))
    case StatusCame(i, ok) =>
      if i < |t.refreshes| && t.refreshes[i].progress.Posting? then c.(tokens := OnStatus(t, i, ok)) else c
    case BodyCame(i, access, refresh) =>
      if i < |t.refreshes| && t.refreshes[i].progress.Reading? then c.(tokens := OnBody(t, i, access, refresh)) else c
    case RefreshThrew(i) =>
      if i < |t.refreshes| && (t.refreshes[i].progress.Posting? || t.refreshes[i].progress.Reading?)
      then c.(tokens := OnThrow(t, i)) else c
    case FinallyRan(i) =>
      if i < |t.refreshes| && t.refreshes[i].progress.Settled? then c.(tokens := Finally(t, i)) else c
    case Requested(isRetry) => Begin(c, isRetry)
    case AnswerCame(i, a) => if i < |c.requests| && c.requests[i].stage.Fetching? then OnAnswer(c, i, a) else c
    case RefreshCame(i) =>
      if i < |c.requests| && c.requests[i].stage.Waiting? && c.requests[i].stage.refresh < |t.refreshes|
         && t.refreshes[c.requests[i].stage.refresh].progress.Over?
      then OnRefreshed(c, i) else c
  }

  function Start(stored: Option<string>): Client { Client(Tokens(0, None, stored, None, [], 0, 0), []) }

  function Run(stored: Option<string>, es: seq<Event>): Client {
    if es == [] then Start(stored) else Step(Run(stored, es[..|es| - 1]), es[|es| - 1])
  }

  // ---- tokens ----

  /**
    * The refresh in flight is one of this session that is not over, and any refresh of this session that is not over
    * is the one in flight.
    */
  ghost predicate Coherent(t: Tokens) {
    && (t.inFlight.Some? ==>
          && t.inFlight.value < |t.refreshes|
          && t.refreshes[t.inFlight.value].epoch == t.epoch && !t.refreshes[t.inFlight.value].progress.Over?)
    && (forall i | 0 <= i < |t.refreshes| :: t.refreshes[i].epoch <= t.epoch)
    && (forall i | 0 <= i < |t.refreshes| && t.refreshes[i].epoch == t.epoch && !t.refreshes[i].progress.Over? ::
          t.inFlight == Some(i))
  }

  lemma ClearCoherent(t: Tokens)
    requires Coherent(t)
    ensures Coherent(Clear(t))
  {
  }

  lemma ProgressCoherent(t: Tokens, i: nat, p: Progress)
    requires Coherent(t) && i < |t.refreshes| && !t.refreshes[i].progress.Over? && !p.Over?
    ensures Coherent(Progressed(t, i, p))
  {
  }

  lemma StatusCoherent(t: Tokens, i: nat, ok: bool)
    requires Coherent(t) && i < |t.refreshes| && t.refreshes[i].progress.Posting?
    ensures Coherent(OnStatus(t, i, ok))
  {
    if t.refreshes[i].epoch == t.epoch && !ok {
      ClearCoherent(t);
      ProgressCoherent(Clear(t), i, Settled(None));
    } else {
      ProgressCoherent(t, i, Settled(None));
      ProgressCoherent(t, i, Reading);
    }
  }

  lemma BodyCoherent(t: Tokens, i: nat, access: string, refresh: Option<string>)
    requires Coherent(t) && i < |t.refreshes| && t.refreshes[i].progress.Reading?
    ensures Coherent(OnBody(t, i, access, refresh))
  {
    if t.refreshes[i].epoch == t.epoch {
      ProgressCoherent(SetTokens(t, access, refresh, t.refreshes[i].epoch), i, Settled(Some(access)));
    } else {
      ProgressCoherent(t, i, Settled(None));
    }
  }

  lemma FinallyCoherent(t: Tokens, i: nat)
    requires Coherent(t) && i < |t.refreshes| && t.refreshes[i].progress.Settled?
    ensures Coherent(Finally(t, i))
  {
  }

  lemma StartCoherent(t: Tokens)
    requires Coherent(t)
    ensures Coherent(StartRefresh(t)) && StartRefresh(t).inFlight.Some?
  {
  }

  lemma AnswerCoherent(c: Client, i: nat, a: Answer)
    requires Coherent(c.tokens) && i < |c.requests| && c.requests[i].stage.Fetching?
    ensures Coherent(OnAnswer(c, i, a).tokens)
  {
    StartCoherent(c.tokens);
  }

  lemma StepCoherent(c: Client, e: Event)
    requires Coherent(c.tokens)
    ensures Coherent(Step(c, e).tokens)
  {
    var t := c.tokens;
    match e {
      case LoggedIn(_, _, _) =>
      case LoggedOut => ClearCoherent(t);
      case RefreshAsked => StartCoherent(t);
      case StatusCame(i, ok) => if i < |t.refreshes| && t.refreshes[i].progress.Posting? { StatusCoherent(t, i, ok); }
      case BodyCame(i, access, refresh) =>
        if i < |t.refreshes| && t.refreshes[i].progress.Reading? { BodyCoherent(t, i, access, refresh); }
      case RefreshThrew(i) =>
        if i < |t.refreshes| && (t.refreshes[i].progress.Posting? || t.refreshes[i].progress.Reading?) {
          ProgressCoherent(t, i, Settled(None));
        }
      case FinallyRan(i) => if i < |t.refreshes| && t.refreshes[i].progress.Settled? { FinallyCoherent(t, i); }
      case Requested(_) =>
      case AnswerCame(i, a) => if i < |c.requests| && c.requests[i].stage.Fetching? { AnswerCoherent(c, i, a); }
      case RefreshCame(_) =>
    }
  }

  lemma {:induction false} RunCoherent(stored: Option<string>, es: seq<Event>)
    ensures Coherent(Run(stored, es).tokens)
  {
    if es != [] {
      RunCoherent(stored, es[..|es| - 1]);
      StepCoherent(Run(stored, es[..|es| - 1]), es[|es| - 1]);
    }
  }

  /** The tokens in use were brought by calls begun in this session. */
  predicate OfThisSession(t: Tokens) {
    && (t.access.Some? ==> t.accessSince == t.epoch)
    && (t.stored.Some? ==> t.storedSince == t.epoch)
  }

  /** A login's tokens are installed in the session in which it was begun. */
  predicate Prompt(c: Client, e: Event) { e.LoggedIn? ==> e.since == c.tokens.epoch }

  lemma StepOfThisSession(c: Client, e: Event)
    requires OfThisSession(c.tokens) && Prompt(c, e)
    ensures OfThisSession(Step(c, e).tokens)
  {
  }

  /**
    * In every run in which no login is overtaken by a logout, a token in use was brought by a call begun after the last
    * logout. Refreshes need no such condition.
    */
  lemma {:induction false} TokensAreOfThisSession(stored: Option<string>, es: seq<Event>)
    requires forall i | 0 <= i < |es| :: Prompt(Run(stored, es[..i]), es[i])
    ensures OfThisSession(Run(stored, es).tokens)
  {
    if es != [] {
      var n := |es| - 1;
      forall i | 0 <= i < n ensures es[..n][..i] == es[..i] {}
      TokensAreOfThisSession(stored, es[..n]);
      StepOfThisSession(Run(stored, es[..n]), es[n]);
    }
  }

  /** The condition on logins is exact: nothing in `setTokens` itself turns an overtaken login away. */
  lemma LoginDecides(c: Client, since: nat, access: string, refresh: Option<string>)
    requires OfThisSession(c.tokens) && since <= c.tokens.epoch
    ensures OfThisSession(Step(c, LoggedIn(since, access, refresh)).tokens) <==> since == c.tokens.epoch
  {
  }

  /** A refresh begun before a logout settles without touching the tokens or the epoch, however the server answers. */
  lemma StaleRefreshIsInert(c: Client, e: Event, i: nat)
    requires i < |c.tokens.refreshes| && c.tokens.refreshes[i].epoch != c.tokens.epoch
    requires e == RefreshThrew(i) || e == FinallyRan(i) || (e.StatusCame? && e.i == i) || (e.BodyCame? && e.i == i)
    ensures var t, t' := c.tokens, Step(c, e).tokens;
            t'.access == t.access && t'.stored == t.stored && t'.epoch == t.epoch
            && (t'.refreshes[i].progress.Settled? && !t.refreshes[i].progress.Settled? ==> t'.refreshes[i].progress.result == None)
  {
  }

  /** At most one refresh of the session is outstanding, so its refresh token is never posted twice at once. */
  lemma OneRefreshPerSession(stored: Option<string>, es: seq<Event>, i: nat, j: nat)
    requires var t := Run(stored, es).tokens;
             && i < |t.refreshes| && j < |t.refreshes|
             && t.refreshes[i].epoch == t.epoch && t.refreshes[j].epoch == t.epoch
             && !t.refreshes[i].progress.Over? && !t.refreshes[j].progress.Over?
    ensures i == j
  {
    RunCoherent(stored, es);
  }

  // ---- requests ----

  ghost predicate Tracked(c: Client, r: Request) {
    && r.epoch <= c.tokens.epoch && 1 <= r.fetches <= 2
    && (r.stage == Fetching(false) || r.stage.Waiting? ==> r.fetches == 1)
    && (r.stage.Waiting? ==>
          && r.stage.refresh < |c.tokens.refreshes| && c.tokens.refreshes[r.stage.refresh].epoch == r.epoch && !r.isRetry)
  }

  ghost predicate AllTracked(c: Client) {
    forall i | 0 <= i < |c.requests| :: Tracked(c, c.requests[i])
  }

  /** Refreshes are only ever added, keep their epoch, and the session's epoch never goes back. */
  ghost predicate Onward(t: Tokens, t': Tokens) {
    && t.epoch <= t'.epoch && |t.refreshes| <= |t'.refreshes|
    && forall i | 0 <= i < |t.refreshes| :: t'.refreshes[i].epoch == t.refreshes[i].epoch
  }

  lemma StepOnward(c: Client, e: Event)
    ensures Onward(c.tokens, Step(c, e).tokens)
  {
  }

  lemma StepTracked(c: Client, e: Event)
    requires Coherent(c.tokens) && AllTracked(c)
    ensures AllTracked(Step(c, e))
  {
    var c' := Step(c, e);
    StepOnward(c, e);
    forall k | 0 <= k < |c'.requests| ensures Tracked(c', c'.requests[k]) {
      if k < |c.requests| {
        assert Tracked(c, c.requests[k]);
        StepTracksOne(c, e, k);
      } else {
        assert e.Requested?;
      }
    }
  }

  lemma StepTracksOne(c: Client, e: Event, k: nat)
    requires Coherent(c.tokens) && k < |c.requests| && Tracked(c, c.requests[k]) && Onward(c.tokens, Step(c, e).tokens)
    ensures k < |Step(c, e).requests| && Tracked(Step(c, e), Step(c, e).requests[k])
  {
    if e.AnswerCame? && e.i == k {
      AnswerTracks(c, e.a, k);
    } else if !(e.RefreshCame? && e.i == k) {
      assert Step(c, e).requests[k] == c.requests[k];
    }
  }

  lemma AnswerTracks(c: Client, a: Answer, k: nat)
    requires Coherent(c.tokens) && k < |c.requests| && Tracked(c, c.requests[k])
    requires Onward(c.tokens, Step(c, AnswerCame(k, a)).tokens)
    ensures var c' := Step(c, AnswerCame(k, a)); k < |c'.requests| && Tracked(c', c'.requests[k])
  {
    StartCoherent(c.tokens);
  }

  lemma {:induction false} RunTracked(stored: Option<string>, es: seq<Event>)
    ensures AllTracked(Run(stored, es)) && Coherent(Run(stored, es).tokens)
  {
    if es != [] {
      RunTracked(stored, es[..|es| - 1]);
      StepTracked(Run(stored, es[..|es| - 1]), es[|es| - 1]);
      StepCoherent(Run(stored, es[..|es| - 1]), es[|es| - 1]);
    }
  }

  /** No request fetches its path more than twice, and all that wait in one session wait for the same refresh. */
  lemma TwoFetchesAtMost(stored: Option<string>, es: seq<Event>, i: nat)
    requires i < |Run(stored, es).requests|
    ensures Run(stored, es).requests[i].fetches <= 2
    ensures var c := Run(stored, es);
            c.requests[i].stage.Waiting? ==>
              && c.requests[i].stage.refresh < |c.tokens.refreshes|
              && c.tokens.refreshes[c.requests[i].stage.refresh].epoch == c.requests[i].epoch
  {
    RunTracked(stored, es);
    assert Tracked(Run(stored, es), Run(stored, es).requests[i]);
  }

  /** What never goes back: the epoch, and the epoch a request was begun in. */
  ghost predicate Later(c: Client, c': Client) {
    && c.tokens.epoch <= c'.tokens.epoch && |c.requests| <= |c'.requests|
    && forall i | 0 <= i < |c.requests| :: c'.requests[i].epoch == c.requests[i].epoch
  }

  lemma StepIsLater(c: Client, e: Event)
    ensures Later(c, Step(c, e))
  {
    StepOnward(c, e);
  }

  lemma LaterChains(a: Client, b: Client, c: Client)
    requires Later(a, b) && Later(b, c)
    ensures Later(a, c)
  {
  }

  lemma {:induction false} RunIsLater(stored: Option<string>, es: seq<Event>, k: nat)
    requires k <= |es|
    ensures Later(Run(stored, es[..k]), Run(stored, es))
  {
    if k < |es| {
      var n := |es| - 1;
      assert es[..n][..k] == es[..k];
      RunIsLater(stored, es[..n], k);
      StepIsLater(Run(stored, es[..n]), es[n]);
      LaterChains(Run(stored, es[..k]), Run(stored, es[..n]), Run(stored, es));
    } else {
      assert es[..k] == es;
    }
  }

  lemma ValueNeedsTheEpoch(c: Client, e: Event, i: nat)
    requires i < |c.requests| && !c.requests[i].stage.Done?
    requires i < |Step(c, e).requests| && Step(c, e).requests[i].stage.Done? && Step(c, e).requests[i].stage.outcome.Value?
    ensures c.requests[i].epoch == c.tokens.epoch && Step(c, e).tokens.epoch == c.tokens.epoch
  {
  }

  /** A request that yields a value ran inside one session: from its start to that moment nobody was logged out. */
  lemma ValuesStayInTheirSession(stored: Option<string>, es: seq<Event>, e: Event, k: nat, i: nat)
    requires k <= |es| && i < |Run(stored, es[..k]).requests|
    requires var c, c' := Run(stored, es), Step(Run(stored, es), e);
             && i < |c.requests| && i < |c'.requests|
             && !c.requests[i].stage.Done? && c'.requests[i].stage.Done? && c'.requests[i].stage.outcome.Value?
    ensures Run(stored, es[..k]).tokens.epoch == Run(stored, es).tokens.epoch == Step(Run(stored, es), e).tokens.epoch
  {
    RunIsLater(stored, es, k);
    ValueNeedsTheEpoch(Run(stored, es), e, i);
    RunTracked(stored, es[..k]);
    assert Tracked(Run(stored, es[..k]), Run(stored, es[..k]).requests[i]);
  }

  /** Every logout, including the one a refused refresh causes, moves the epoch on; nothing else does. */
  lemma EpochCountsLogouts(c: Client, e: Event)
    ensures var t := c.tokens;
            var loggedOut := e.LoggedOut? || (e.StatusCame? && !e.ok && e.i < |t.refreshes| && t.refreshes[e.i].progress.Posting?
                                              && t.refreshes[e.i].epoch == t.epoch);
            && Step(c, e).tokens.epoch == t.epoch + (if loggedOut then 1 else 0)
            && (loggedOut ==> Step(c, e).tokens.access == None && Step(c, e).tokens.stored == None && Step(c, e).tokens.inFlight == None)
  {
  }
}

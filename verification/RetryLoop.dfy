/**
 The retry loop around one image request: acquire an account that has not been tried, run, release,
 and go on to the next account while the failure is retryable.

 What other requests do to the store, and how the attempts end, is given by a script, one turn for each
 attempt.  The store's choice among equally good accounts is left open, so a run is told by the picks:
 `IsRun` says which lists of picks are runs, and the views of the store and the answer follow from them.
 */
module RetryLoop {
  import opened Basics
  import R = AccountRouting

  const MAX_ATTEMPTS := 64

  datatype AttemptResult = Served(images: nat) | FailedAttempt(retryable: bool, error: string)

  predicate Retryable(r: AttemptResult) { r.FailedAttempt? && r.retryable }

  datatype Answer =
    | FromAttempt(result: AttemptResult)
    | SelectedGroupsExhausted
    | LastRetryable(error: string)
    | NoImageAccount

  /** One request: its policy, its filters, and its name as a lease holder. */
  datatype Request = Request(p: R.Policy, ask: R.Ask, me: nat)

  /** What somebody else does to the store: take a free account, give one of theirs back, change the accounts. */
  datatype Event = Take(token: string, other: nat) | GiveBack(token: string) | Load(accounts: seq<R.Account>)

  /** What others do before an acquisition and during the attempt that follows, and how that attempt ends. */
  datatype Turn = Turn(before: seq<Event>, during: seq<Event>, result: AttemptResult)

  /** One turn for each attempt, and silence afterwards. */
  type Script = seq<Turn>

  const SILENCE := Turn([], [], Served(0))

  function TurnAt(script: Script, k: int): Turn { if 0 <= k < |script| then script[k] else SILENCE }

  // --------------------------------------------------------------------------------------------
  // The store over a run

  function AfterEvent(v: R.View, e: Event, me: nat): R.View {
    match e
    case Take(token, other) =>
      if other != me && token != "" && token !in v.leases then R.View(v.accounts, v.leases[token := other]) else v
    case GiveBack(token) =>
      if token in v.leases && v.leases[token] != me then R.View(v.accounts, v.leases - {token}) else v
    case Load(accounts) => R.View(accounts, v.leases)
  }

  function Play(v: R.View, events: seq<Event>, me: nat): R.View
    decreases |events|
  {
    if events == [] then v else Play(AfterEvent(v, events[0], me), events[1..], me)
  }

  function Leased(v: R.View, token: string, me: nat): R.View { R.View(v.accounts, v.leases[token := me]) }

  function Released(v: R.View, token: string): R.View { R.View(v.accounts, v.leases - {token}) }

  /** An attempt: others act while the account is leased, then the lease is given back. */
  function Attempted(v: R.View, token: string, turn: Turn, me: nat): R.View {
    Released(Play(Leased(v, token, me), turn.during, me), token)
  }

  /** The store after attempts with these picks. */
  function Between(v: R.View, script: Script, picks: seq<R.Pick>, me: nat): R.View
    decreases |picks|, 0
  {
    if picks == [] then v
    else
      var n := |picks| - 1;
      Attempted(Seen(v, script, picks[..n], me), picks[n].account.token, TurnAt(script, n), me)
  }

  /** The store as the acquisition after them finds it. */
  function Seen(v: R.View, script: Script, picks: seq<R.Pick>, me: nat): R.View
    decreases |picks|, 1
  {
    Play(Between(v, script, picks, me), TurnAt(script, |picks|).before, me)
  }

  /** The tokens of the picks. */
  function Tried(picks: seq<R.Pick>): set<string> {
    if picks == [] then {} else Tried(picks[..|picks| - 1]) + {picks[|picks| - 1].account.token}
  }

  /** Pick `k` is one that the store grants at its turn, with the earlier ones excluded, after a retryable failure. */
  ghost predicate Picks(q: Request, v: R.View, script: Script, picks: seq<R.Pick>, k: nat)
    requires q.p.groupSize >= 1 && k < |picks|
  {
    && R.Grants(Seen(v, script, picks[..k], q.me), q.p, Tried(picks[..k]), q.ask, picks[k])
    && k < MAX_ATTEMPTS && (k > 0 ==> Retryable(TurnAt(script, k - 1).result))
  }

  ghost predicate IsRun(q: Request, v: R.View, script: Script, picks: seq<R.Pick>)
    requires q.p.groupSize >= 1
  {
    forall k :: 0 <= k < |picks| ==> Picks(q, v, script, picks, k)
  }

  /** `resolveImageAcquireError`. */
  function Resolved(error: R.RoutingError, lastError: Option<string>): Answer {
    if error.GroupsExhausted? then SelectedGroupsExhausted
    else if lastError.Some? then LastRetryable(lastError.value) else NoImageAccount
  }

  /** The error of the last of `n` attempts, if it is retryable. */
  function LastError(script: Script, n: nat): Option<string> {
    if n == 0 || !Retryable(TurnAt(script, n - 1).result) then None else Some(TurnAt(script, n - 1).result.error)
  }

  /**
   The run is over: the last attempt was not to be retried, or was the last one allowed, or the store
   has nobody left for a request that has tried these.
   */
  ghost predicate Ends(q: Request, v: R.View, script: Script, picks: seq<R.Pick>, rejected: Option<R.RoutingError>,
                       answer: Answer)
    requires q.p.groupSize >= 1
  {
    match rejected
    case None =>
      && picks != [] && answer == FromAttempt(TurnAt(script, |picks| - 1).result)
      && (!Retryable(TurnAt(script, |picks| - 1).result) || |picks| == MAX_ATTEMPTS)
    case Some(error) =>
      && (picks != [] ==> Retryable(TurnAt(script, |picks| - 1).result)) && |picks| < MAX_ATTEMPTS
      && R.Refuses(Seen(v, script, picks, q.me), q.p, Tried(picks), q.ask, error)
      && answer == Resolved(error, LastError(script, |picks|))
  }

  function Final(q: Request, v: R.View, script: Script, picks: seq<R.Pick>, rejected: Option<R.RoutingError>): R.View {
    if rejected.None? then Between(v, script, picks, q.me) else Seen(v, script, picks, q.me)
  }

  /** A routing policy with groups has somebody to route to. */
  ghost predicate Routable(v: R.View, p: R.Policy) {
    p.groups != [] && exists a :: a in v.accounts && R.Loaded(a)
  }

  /**
   Which error a rejected request reports: that the groups are exhausted, if the policy has groups and
   accounts for them; otherwise the error of the last attempt, if there was one.
   */
  lemma {:induction false} RejectionSays(q: Request, v: R.View, script: Script, picks: seq<R.Pick>,
      error: R.RoutingError, answer: Answer)
    requires q.p.groupSize >= 1 && R.Ascending(q.p.groups) && Ends(q, v, script, picks, Some(error), answer)
    ensures var last := TurnAt(script, |picks| - 1).result;
            if Routable(Seen(v, script, picks, q.me), q.p) then answer == SelectedGroupsExhausted
            else if picks != [] then last.FailedAttempt? && last.retryable && answer == LastRetryable(last.error)
            else answer == NoImageAccount
  {
    R.ServedIff(Seen(v, script, picks, q.me), q.p, Tried(picks), q.ask);
  }

  // --------------------------------------------------------------------------------------------
  // No account twice

  lemma GrantedIsFree(v: R.View, p: R.Policy, excluded: set<string>, ask: R.Ask, pick: R.Pick)
    requires p.groupSize >= 1 && R.Grants(v, p, excluded, ask, pick)
    ensures pick.account.token !in excluded && pick.account.token !in v.leases
  {
    assert R.FreeAmong(v.leases.Keys, ask, p, excluded)(pick.account);
  }

  predicate Untried(picks: seq<R.Pick>, k: nat)
    requires k < |picks|
  {
    picks[k].account.token !in Tried(picks[..k])
  }

  lemma UntriedDiffer(picks: seq<R.Pick>, n: nat)
    requires n <= |picks| && forall k :: 0 <= k < n ==> Untried(picks, k)
    ensures |Tried(picks[..n])| == n
    ensures forall i :: 0 <= i < n ==> picks[i].account.token in Tried(picks[..n])
    ensures forall i, j :: 0 <= i < j < n ==> picks[i].account.token != picks[j].account.token
    decreases n
  {
    if n > 0 {
      UntriedDiffer(picks, n - 1);
      assert picks[..n][..n - 1] == picks[..n - 1];
      assert Untried(picks, n - 1);
    }
  }

  /** The attempts of a run are all by different accounts, and there are at most 64. */
  lemma {:induction false} TokensDiffer(q: Request, v: R.View, script: Script, picks: seq<R.Pick>)
    requires q.p.groupSize >= 1 && IsRun(q, v, script, picks)
    ensures |Tried(picks)| == |picks| <= 64
    ensures forall i, j :: 0 <= i < j < |picks| ==> picks[i].account.token != picks[j].account.token
  {
    forall k | 0 <= k < |picks| ensures Untried(picks, k) {
      assert Picks(q, v, script, picks, k);
      GrantedIsFree(Seen(v, script, picks[..k], q.me), q.p, Tried(picks[..k]), q.ask, picks[k]);
    }
    assert picks[..|picks|] == picks;
    UntriedDiffer(picks, |picks|);
    if picks != [] { assert Picks(q, v, script, picks, |picks| - 1); }
  }

  // --------------------------------------------------------------------------------------------
  // One lease at a time

  predicate HoldsNothing(v: R.View, me: nat) { R.Owned(v.leases, me) == {} }

  lemma {:induction false} OthersKeepMine(v: R.View, events: seq<Event>, me: nat)
    ensures R.Owned(Play(v, events, me).leases, me) == R.Owned(v.leases, me)
    decreases |events|
  {
    if events != [] { OthersKeepMine(AfterEvent(v, events[0], me), events[1..], me); }
  }

  /** During an attempt exactly its own account is leased, and after it none. */
  lemma {:induction false} AttemptHoldsOne(v: R.View, token: string, turn: Turn, me: nat)
    requires HoldsNothing(v, me)
    ensures R.Owned(Play(Leased(v, token, me), turn.during, me).leases, me) == {token}
    ensures HoldsNothing(Attempted(v, token, turn, me), me)
  {
    OthersKeepMine(Leased(v, token, me), turn.during, me);
    assert R.Owned(Leased(v, token, me).leases, me) == {token};
    var later := Play(Leased(v, token, me), turn.during, me);
    assert R.Owned(later.leases - {token}, me) == R.Owned(later.leases, me) - {token};
  }

  /** Every lease is given back before the next acquisition: whenever the store is asked, the request holds nothing. */
  lemma {:induction false} NothingHeldBetween(v: R.View, script: Script, picks: seq<R.Pick>, me: nat)
    requires HoldsNothing(v, me)
    ensures HoldsNothing(Between(v, script, picks, me), me) && HoldsNothing(Seen(v, script, picks, me), me)
    decreases |picks|
  {
    if picks != [] {
      var n := |picks| - 1;
      NothingHeldBetween(v, script, picks[..n], me);
      AttemptHoldsOne(Seen(v, script, picks[..n], me), picks[n].account.token, TurnAt(script, n), me);
    }
    OthersKeepMine(Between(v, script, picks, me), TurnAt(script, |picks|).before, me);
  }

  // --------------------------------------------------------------------------------------------
  // A request that runs alone

  predicate Alone(script: Script) { forall k :: 0 <= k < |script| ==> script[k].before == [] && script[k].during == [] }

  /** It finds the same store at every acquisition. */
  lemma {:induction false} AloneSeesTheSame(q: Request, v: R.View, script: Script, picks: seq<R.Pick>)
    requires q.p.groupSize >= 1 && Alone(script) && IsRun(q, v, script, picks)
    ensures Between(v, script, picks, q.me) == v && Seen(v, script, picks, q.me) == v
    decreases |picks|
  {
    assert TurnAt(script, |picks|).before == [];
    if picks != [] {
      var n := |picks| - 1;
      EarlierRun(q, v, script, picks);
      AloneSeesTheSame(q, v, script, picks[..n]);
      AloneAttempt(v, picks[n].account.token, TurnAt(script, n), q.me);
    }
  }

  /** A run without its last pick is a run, and that pick was free. */
  lemma {:induction false} EarlierRun(q: Request, v: R.View, script: Script, picks: seq<R.Pick>)
    requires q.p.groupSize >= 1 && picks != [] && IsRun(q, v, script, picks)
    ensures IsRun(q, v, script, picks[..|picks| - 1])
    ensures picks[|picks| - 1].account.token !in Seen(v, script, picks[..|picks| - 1], q.me).leases
  {
    var n := |picks| - 1;
    forall k | 0 <= k < n ensures Picks(q, v, script, picks[..n], k) { FewerPicks(q, v, script, picks, n, k); }
    assert Picks(q, v, script, picks, n);
    GrantedIsFree(Seen(v, script, picks[..n], q.me), q.p, Tried(picks[..n]), q.ask, picks[n]);
  }

  lemma FewerPicks(q: Request, v: R.View, script: Script, picks: seq<R.Pick>, n: nat, k: nat)
    requires q.p.groupSize >= 1 && k < n <= |picks| && Picks(q, v, script, picks, k)
    ensures Picks(q, v, script, picks[..n], k)
  {
    assert picks[..n][..k] == picks[..k];
  }

  lemma AloneAttempt(v: R.View, token: string, turn: Turn, me: nat)
    requires turn.during == [] && token !in v.leases
    ensures Attempted(v, token, turn, me) == v
  {
    assert v.leases[token := me] - {token} == v.leases;
  }

  /** It gets an account at all if and only if the available count of the store is positive. */
  lemma AloneIsServedIff(q: Request, v: R.View, script: Script, picks: seq<R.Pick>,
      rejected: Option<R.RoutingError>, answer: Answer)
    requires q.p.groupSize >= 1 && Alone(script) && IsRun(q, v, script, picks)
             && Ends(q, v, script, picks, rejected, answer)
    ensures var all := R.SortedLoaded(v.accounts, q.p);
            var free := R.FreeAmong(v.leases.Keys, q.ask, q.p, {});
            picks != [] <==> R.Counted(all, q.p.groupSize, R.Groups(v, q.p), q.ask.filtered, free) > 0
  {
    var all, free := R.SortedLoaded(v.accounts, q.p), R.FreeAmong(v.leases.Keys, q.ask, q.p, {});
    R.ServableIffCounted(all, q.p.groupSize, R.Groups(v, q.p), q.ask.filtered, free);
    if picks == [] {
      AloneSeesTheSame(q, v, script, picks);
    } else {
      assert Picks(q, v, script, picks, 0) && picks[..0] == [];
      AloneSeesTheSame(q, v, script, []);
    }
  }

  /** If it is turned away, it has tried every free account that it could have been served by. */
  lemma {:induction false} AloneTriesAll(q: Request, v: R.View, script: Script, picks: seq<R.Pick>,
      error: R.RoutingError, answer: Answer, a: R.Account)
    requires q.p.groupSize >= 1 && Alone(script) && IsRun(q, v, script, picks)
             && Ends(q, v, script, picks, Some(error), answer)
    requires var all := R.SortedLoaded(v.accounts, q.p);
             a in R.Members(R.Cut(all, q.p.groupSize), R.Groups(v, q.p))
                 || (q.ask.filtered && R.Groups(v, q.p) != [] && a in all)
    requires R.Suitable(a, q.ask, q.p) && a.token !in v.leases
    ensures a.token in Tried(picks)
  {
    AloneSeesTheSame(q, v, script, picks);
    var free := R.FreeAmong(v.leases.Keys, q.ask, q.p, Tried(picks));
    assert a.token !in Tried(picks) ==> free(a);
  }

  // --------------------------------------------------------------------------------------------
  // One more attempt

  lemma {:induction false} OneMoreTried(picks: seq<R.Pick>, pick: R.Pick)
    ensures Tried(picks + [pick]) == Tried(picks) + {pick.account.token}
  {
    assert (picks + [pick])[..|picks|] == picks;
  }

  lemma {:induction false} OneMoreBetween(v: R.View, script: Script, picks: seq<R.Pick>, pick: R.Pick, me: nat)
    ensures Between(v, script, picks + [pick], me)
            == Attempted(Seen(v, script, picks, me), pick.account.token, TurnAt(script, |picks|), me)
  {
    assert (picks + [pick])[..|picks|] == picks;
  }

  lemma {:induction false} OneMorePick(q: Request, v: R.View, script: Script, picks: seq<R.Pick>, pick: R.Pick)
    requires q.p.groupSize >= 1 && IsRun(q, v, script, picks) && |picks| < MAX_ATTEMPTS
    requires R.Grants(Seen(v, script, picks, q.me), q.p, Tried(picks), q.ask, pick)
    requires picks != [] ==> Retryable(TurnAt(script, |picks| - 1).result)
    ensures IsRun(q, v, script, picks + [pick])
  {
    var more := picks + [pick];
    forall k | 0 <= k < |more| ensures Picks(q, v, script, more, k) {
      if k < |picks| { StillPicks(q, v, script, picks, more, k); } else { LatestPicks(q, v, script, picks, pick); }
    }
  }

  lemma StillPicks(q: Request, v: R.View, script: Script, picks: seq<R.Pick>, more: seq<R.Pick>, k: nat)
    requires q.p.groupSize >= 1 && k < |picks| && picks <= more && Picks(q, v, script, picks, k)
    ensures Picks(q, v, script, more, k)
  {
    assert more[..k] == picks[..k];
  }

  lemma {:induction false} LatestPicks(q: Request, v: R.View, script: Script, picks: seq<R.Pick>, pick: R.Pick)
    requires q.p.groupSize >= 1 && |picks| < MAX_ATTEMPTS
    requires R.Grants(Seen(v, script, picks, q.me), q.p, Tried(picks), q.ask, pick)
    requires picks != [] ==> Retryable(TurnAt(script, |picks| - 1).result)
    ensures Picks(q, v, script, picks + [pick], |picks|)
  {
    assert (picks + [pick])[..|picks|] == picks;
  }

  // --------------------------------------------------------------------------------------------
  // The loop

  method OthersRun(store: R.Store, events: seq<Event>, me: nat)
    modifies store
    ensures store.Seen() == Play(old(store.Seen()), events, me)
  {
    assert events[0..] == events;
    for k := 0 to |events|
      invariant Play(store.Seen(), events[k..], me) == Play(old(store.Seen()), events, me)
    {
      assert events[k..][0] == events[k] && events[k..][1..] == events[k + 1..];
      match events[k]
      case Take(token, other) =>
        if other != me { var ok := store.AcquireLease(token, other); }
      case GiveBack(token) =>
        if token in store.leases && store.leases[token] != me { store.ReleaseLease(token); }
      case Load(accounts) =>
        store.accounts := accounts;
    }
  }

  /** `runImageRequest`: others act meanwhile, and the deferred release gives the lease back on every path. */
  method RunOnce(store: R.Store, token: string, turn: Turn, me: nat) returns (result: AttemptResult)
    modifies store
    ensures store.Seen() == Released(Play(old(store.Seen()), turn.during, me), token) && result == turn.result
  {
    OthersRun(store, turn.during, me);
    result := turn.result;
    store.ReleaseLease(token);
  }

  /** An acquisition with the tried accounts excluded leases one that is neither tried nor leased. */
  method AcquireUntried(store: R.Store, p: R.Policy, attempted: set<string>, ask: R.Ask, me: nat)
    returns (acquired: R.Acquired)
    requires p.groupSize >= 1
    modifies store
    ensures acquired.Leased? ==>
              && R.Grants(old(store.Seen()), p, attempted, ask, acquired.pick)
              && acquired.pick.account.token !in attempted && acquired.pick.account.token !in old(store.leases)
              && store.Seen() == Leased(old(store.Seen()), acquired.pick.account.token, me)
    ensures acquired.Failed? ==>
              R.Refuses(old(store.Seen()), p, attempted, ask, acquired.error) && store.Seen() == old(store.Seen())
  {
    acquired := store.Acquire(p, attempted, ask, me);
    if acquired.Leased? { GrantedIsFree(old(store.Seen()), p, attempted, ask, acquired.pick); }
  }

  /** What is true whenever the loop begins another round. */
  ghost predicate GoesOn(q: Request, v: R.View, script: Script, picks: seq<R.Pick>, attempted: set<string>)
    requires q.p.groupSize >= 1
  {
    && IsRun(q, v, script, picks) && attempted == Tried(picks) && |attempted| == |picks| < MAX_ATTEMPTS
    && (picks != [] ==> Retryable(TurnAt(script, |picks| - 1).result))
  }

  lemma {:induction false} RoundGoesOn(q: Request, v: R.View, script: Script, picks: seq<R.Pick>,
      attempted: set<string>, pick: R.Pick)
    requires q.p.groupSize >= 1 && IsRun(q, v, script, picks + [pick])
    requires attempted == Tried(picks) && |attempted| == |picks| < MAX_ATTEMPTS && pick.account.token !in attempted
    ensures var more, tried := picks + [pick], attempted + {pick.account.token};
            if Retryable(TurnAt(script, |picks|).result) && |tried| < MAX_ATTEMPTS
            then GoesOn(q, v, script, more, tried)
            else Ends(q, v, script, more, None, FromAttempt(TurnAt(script, |picks|).result))
  {
    OneMoreTried(picks, pick);
    MoreGoesOn(q, v, script, picks + [pick], attempted + {pick.account.token});
  }

  lemma {:induction false} MoreGoesOn(q: Request, v: R.View, script: Script, more: seq<R.Pick>, tried: set<string>)
    requires q.p.groupSize >= 1 && IsRun(q, v, script, more) && tried == Tried(more)
    requires 0 < |more| == |tried| <= MAX_ATTEMPTS
    ensures if Retryable(TurnAt(script, |more| - 1).result) && |tried| < MAX_ATTEMPTS
            then GoesOn(q, v, script, more, tried)
            else Ends(q, v, script, more, None, FromAttempt(TurnAt(script, |more| - 1).result))
  {
  }

  /** One round: an attempt with a new account, unless the store has none; the loop goes on or ends. */
  method Round(store: R.Store, q: Request, script: Script, picks: seq<R.Pick>, attempted: set<string>, ghost v: R.View)
    returns (acquired: R.Acquired, result: AttemptResult)
    requires q.p.groupSize >= 1 && GoesOn(q, v, script, picks, attempted)
    requires store.Seen() == Between(v, script, picks, q.me)
    modifies store
    ensures acquired.Failed? ==>
              && Ends(q, v, script, picks, Some(acquired.error), Resolved(acquired.error, LastError(script, |picks|)))
              && store.Seen() == Seen(v, script, picks, q.me)
    ensures acquired.Leased? ==>
              var more, tried := picks + [acquired.pick], attempted + {acquired.pick.account.token};
              && IsRun(q, v, script, more) && store.Seen() == Between(v, script, more, q.me)
              && result == TurnAt(script, |picks|).result
              && if Retryable(result) && |tried| < MAX_ATTEMPTS then GoesOn(q, v, script, more, tried)
                 else Ends(q, v, script, more, None, FromAttempt(result))
  {
    var turn := TurnAt(script, |picks|);
    result := turn.result;
    OthersRun(store, turn.before, q.me);
    acquired := AcquireUntried(store, q.p, attempted, q.ask, q.me);
    if acquired.Leased? {
      result := RunOnce(store, acquired.pick.account.token, turn, q.me);
      OneMorePick(q, v, script, picks, acquired.pick);
      RoundGoesOn(q, v, script, picks, attempted, acquired.pick);
      OneMoreBetween(v, script, picks, acquired.pick, q.me);
    }
  }

  /** The loop makes a run of the specification, for every store and script, and leaves the store as that run does. */
  method RunRequest(store: R.Store, q: Request, script: Script)
    returns (answer: Answer, picks: seq<R.Pick>, rejected: Option<R.RoutingError>)
    requires q.p.groupSize >= 1
    modifies store
    ensures IsRun(q, old(store.Seen()), script, picks)
    ensures Ends(q, old(store.Seen()), script, picks, rejected, answer)
    ensures store.Seen() == Final(q, old(store.Seen()), script, picks, rejected)
  {
    ghost var v := store.Seen();
    var attempted: set<string> := {};
    var lastError: Option<string> := None;
    picks, rejected := [], None;
    while true
      invariant GoesOn(q, v, script, picks, attempted) && rejected.None?
      invariant store.Seen() == Between(v, script, picks, q.me) && lastError == LastError(script, |picks|)
      decreases MAX_ATTEMPTS - |picks|
    {
      var acquired, result := Round(store, q, script, picks, attempted, v);
      if acquired.Failed? {
        answer := if acquired.error.GroupsExhausted? then SelectedGroupsExhausted
                  else if lastError.Some? then LastRetryable(lastError.value) else NoImageAccount;
        rejected := Some(acquired.error);
        return;
      }
      attempted := attempted + {acquired.pick.account.token};
      picks := picks + [acquired.pick];
      if !(Retryable(result) && |attempted| < MAX_ATTEMPTS) { return FromAttempt(result), picks, None; }
      lastError := Some(result.error);
    }
  }
}

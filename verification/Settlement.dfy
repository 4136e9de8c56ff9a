/**
 One image job from the moment its credits are reserved to its end.

 This is the second half of `executeProviderImageGenerate`.  Before each of its store calls
 the cancel handler, the stale-job reconciler and any other generation may act, any number of times,
 and every credit store call may fail: both are given by a script, one turn for each call, so that a
 run is a function of the state and the script (`Executed`).  The laws are lemmas about that function,
 for all scripts; the worker itself, proved to compute it, is in `SettlementWorker`.
 */
module Settlement {
  import opened Basics
  import opened CreditLedger
  import opened JobRecords
  import opened RefundRoutines
  import opened Reservations
  import opened Text

  // --------------------------------------------------------------------------------------------
  // Responses and prices

  datatype Item = Item(url: string, b64: string)

  predicate Usable(i: Item) { Trim(i.url) != "" || Trim(i.b64) != "" }

  /** `countProviderImageItems`; a body that does not decode is an empty list. */
  function Count(items: seq<Item>): nat {
    if items == [] then 0 else Count(items[..|items| - 1]) + (if Usable(items[|items| - 1]) then 1 else 0)
  }

  /** `limitProviderImageResponseItems` keeps the first items, usable or not. */
  function Limit(items: seq<Item>, limit: int): seq<Item> {
    var n := Max(0, limit);
    if |items| <= n then items else items[..n]
  }

  /** The answer, cut to the configured maximum. */
  function Capped(items: seq<Item>, maxCount: int): seq<Item> {
    if maxCount > 0 && Count(items) > maxCount then Limit(items, maxCount) else items
  }

  predicate AllUsable(items: seq<Item>) { forall i :: 0 <= i < |items| ==> Usable(items[i]) }

  lemma {:induction false} CountBounds(items: seq<Item>)
    ensures Count(items) <= |items|
    ensures AllUsable(items) ==> Count(items) == |items|
  {
    if items != [] { CountBounds(items[..|items| - 1]); }
  }

  /** The images of an answer: the positions at which the URL or the data is not just white space. */
  function ImagesAt(items: seq<Item>): set<int> {
    set i | 0 <= i < |items| && (!AllSpace(items[i].url) || !AllSpace(items[i].b64))
  }

  lemma UsableIff(i: Item)
    ensures Usable(i) <==> !AllSpace(i.url) || !AllSpace(i.b64)
  {
    BlankIff(i.url);
    BlankIff(i.b64);
  }

  /** The count is the number of images. */
  lemma {:induction false} CountIs(items: seq<Item>)
    ensures Count(items) == |ImagesAt(items)|
  {
    if items != [] {
      var n := |items| - 1;
      CountIs(items[..n]);
      UsableIff(items[n]);
      assert ImagesAt(items) == ImagesAt(items[..n]) + if Usable(items[n]) then {n} else {};
    }
  }

  /** What is kept of an answer: the first `maxCount` items, usable or not, if it holds more images than that. */
  function KeptOf(items: seq<Item>, maxCount: int): seq<Item> {
    if 0 < maxCount < |ImagesAt(items)| then items[..Min(maxCount, |items|)] else items
  }

  lemma CappedIs(items: seq<Item>, maxCount: int)
    ensures Capped(items, maxCount) == KeptOf(items, maxCount)
    ensures 0 < maxCount < |ImagesAt(items)| ==> maxCount < |items|
  {
    CountIs(items);
    CountBounds(items);
  }

  /** A truncated response never holds more usable images than the limit, and none is made usable by it. */
  lemma {:induction false} LimitBounds(items: seq<Item>, limit: int)
    ensures Limit(items, limit) <= items
    ensures Count(Limit(items, limit)) <= Max(0, limit)
    ensures AllUsable(items) ==> AllUsable(Limit(items, limit))
    ensures AllUsable(items) && 0 <= limit <= Count(items) ==> Count(Limit(items, limit)) == limit
  {
    CountBounds(items);
    CountBounds(Limit(items, limit));
  }

  /** A cut answer is empty exactly when no item that was kept is usable, however many came after them. */
  lemma CutAnswerIsEmptyIff(items: seq<Item>, limit: nat)
    ensures Count(Limit(items, limit)) == 0 <==> (forall i :: 0 <= i < |items| && i < limit ==> !Usable(items[i]))
  {
    NoneCounted(Limit(items, limit));
    assert forall i :: 0 <= i < |Limit(items, limit)| ==> Limit(items, limit)[i] == items[i];
  }

  lemma {:induction false} NoneCounted(items: seq<Item>)
    ensures Count(items) == 0 <==> (forall i :: 0 <= i < |items| ==> !Usable(items[i]))
  {
    if items != [] {
      var n := |items| - 1;
      NoneCounted(items[..n]);
      assert items == items[..n] + [items[n]];
    }
  }

  /** `CreditCostForModel` with the unit cost already resolved: at least one image is always charged. */
  function Cost(unit: nat, count: int): nat { unit * Max(1, count) }

  lemma CostStep(unit: nat, count: int)
    requires count >= 1
    ensures Cost(unit, count + 1) - Cost(unit, count) == unit
  {
    assert unit * (count + 1) == unit * count + unit;
  }

  lemma CostIs(unit: nat, count: int)
    ensures count >= 1 ==> Cost(unit, count) == unit * count
    ensures count <= 1 ==> Cost(unit, count) == unit
  {
    assert unit * 1 == unit;
  }

  lemma CostMonotone(unit: nat, a: int, b: int)
    requires a <= b
    ensures Cost(unit, a) <= Cost(unit, b)
  {
    var x, y := Max(1, a), Max(1, b);
    assert unit * y - unit * x == unit * (y - x);
    assert 0 <= unit * (y - x);
  }

  datatype Settings = Settings(unit: nat, refundOnFailure: bool, refundPartial: bool, maxCount: int)

  /** What came back from the provider, retries and fallback included; `stopped`: the job's context was cancelled. */
  datatype Dispatch = Answered(items: seq<Item>) | Unanswered(sent: bool, stopped: bool)

  predicate Sent(d: Dispatch) { d.Answered? || d.sent }

  datatype Outcome =
    | SubscriptionStoreFailed | InsufficientCredits | WalletStoreFailed
    | CancelledBeforeUpstream | CancelledAfterUpstream | FinishedElsewhere
    | UpstreamFailed | EmptyResponse | BillingFailed | Delivered

  // --------------------------------------------------------------------------------------------
  // One job and its surroundings

  /** Whose job it is, which generation pays for it, and what was asked for. */
  datatype Case = Case(user: string, generation: string, settings: Settings, requested: nat)

  /** What somebody else does: a cancel call or a reconciler pass for this job, or a transaction elsewhere. */
  datatype Action = OnJob(routine: Routine) | Apart(step: Step)

  /** What others do before the next store calls of the worker, and how those calls fare. */
  datatype Turn = Turn(actions: seq<Action>, luck: Luck)

  /** Everything that happens around a run: one turn for each of its store calls, and silence afterwards. */
  type Script = seq<Turn>

  const QUIET := Turn([], FINE)

  function Coming(script: Script): Turn { if script == [] then QUIET else script[0] }

  function Later(script: Script): Script { if script == [] then [] else script[1..] }

  /**
   The books, the stored row, the worker's copy of it and its refund total; what others have refunded
   since the run began; what is still to happen.
   */
  datatype World = World(books: Books, row: Job, job: Job, refunded: int, outside: int, script: Script)

  function Act(c: Case, w: World, a: Action): World {
    match a
    case Apart(step) => if Elsewhere(step, c.user, c.generation) then w.(books := Apply(w.books, step)) else w
    case OnJob(r) =>
      var d := Called(Desk(w.books, w.row), c.user, c.generation, r);
      w.(books := d.books, row := d.row,
         outside := w.outside + Refunded(d.books, c.user, c.generation) - Refunded(w.books, c.user, c.generation))
  }

  function Play(c: Case, w: World, actions: seq<Action>): World
    decreases |actions|
  {
    if actions == [] then w else Play(c, Act(c, w, actions[0]), actions[1..])
  }

  /** The others have acted, and the store calls of this turn are next. */
  function Turned(c: Case, w: World): World { Play(c, w.(script := Later(w.script)), Coming(w.script).actions) }

  /** The credits the generation holds. */
  function Holding(c: Case, w: World): int { Held(w.books, c.user, c.generation) }

  // What may be relied on, for the rest of the script.

  /** No totals read and no refund fails. */
  predicate Reliable(script: Script) { forall k :: 0 <= k < |script| ==> script[k].luck.refund == NONE }

  /** Nobody else touches this job. */
  predicate Alone(script: Script) {
    forall k :: 0 <= k < |script| ==> LeavesJob(script[k].actions)
  }

  predicate LeavesJob(actions: seq<Action>) { forall k :: 0 <= k < |actions| ==> actions[k].Apart? }

  /** Nobody else acts, and no store call fails. */
  predicate Calm(script: Script) { forall k :: 0 <= k < |script| ==> script[k] == QUIET }

  /** A run may rely on these, if they hold when it begins; `single`: the user has at most one subscription. */
  datatype Trust = Trust(reliable: bool, single: bool, alone: bool, calm: bool)

  ghost predicate Trusts(c: Case, w: World, e: Trust) {
    && (e.reliable ==> Reliable(w.script)) && (e.single ==> Single(w.books, c.user))
    && (e.alone ==> Alone(w.script)) && (e.calm ==> Calm(w.script) && e.reliable && e.alone)
  }

  /** What the program keeps at every step of a run. */
  ghost predicate Valid(c: Case, w: World, e: Trust) {
    && c.user != "" && c.requested >= 1 && Sound(w.books) && Trusts(c, w, e)
    && w.refunded <= Refunded(w.books, c.user, c.generation)
  }

  /** The books of a newcomer allow every trust, in a quiet run. */
  lemma NewcomerIsValid(c: Case, row: Job, job: Job)
    requires c.user != "" && c.requested >= 1
    ensures Valid(c, World(Books([], map[], []), row, job, 0, 0, []), Trust(true, true, true, true))
  {
    forall u, g ensures Covered(Books([], map[], []), u, g) {}
  }

  /** Others reserve nothing, and what they give back is counted. */
  ghost predicate GivenBack(c: Case, w: World, w': World, e: Trust) {
    && Reserved(w'.books, c.user, c.generation) == Reserved(w.books, c.user, c.generation)
    && Refunded(w'.books, c.user, c.generation) >= Refunded(w.books, c.user, c.generation)
    && Holding(c, w') + w'.outside == Holding(c, w) + w.outside && w.outside <= w'.outside && Holding(c, w') >= 0
    && (e.alone ==> w'.outside == w.outside)
  }

  /** They leave the worker's own variables alone. */
  predicate SameWorker(w: World, w': World) { w'.job == w.job && w'.refunded == w.refunded }

  lemma ApartGivesNothing(c: Case, w: World, e: Trust, step: Step)
    requires Valid(c, w, e)
    ensures Valid(c, Act(c, w, Apart(step)), e) && GivenBack(c, w, Act(c, w, Apart(step)), e)
  {
    HeldIsNonNegative(w.books, c.user, c.generation);
    if Elsewhere(step, c.user, c.generation) {
      StepStaysSound(w.books, step, c.user);
      OtherGenerationsUntouched(w.books, step, c.user, c.generation, WalletReserve);
      OtherGenerationsUntouched(w.books, step, c.user, c.generation, WalletRefund);
      OtherGenerationsUntouched(w.books, step, c.user, c.generation, SubscriptionReserve);
      OtherGenerationsUntouched(w.books, step, c.user, c.generation, SubscriptionRefund);
    }
  }

  lemma CallStaysSound(d: Desk, user: string, g: string, r: Routine)
    requires Sound(d.books) && user != ""
    ensures StaysSound(d.books, Called(d, user, g, r).books, user)
    ensures Reserved(Called(d, user, g, r).books, user, g) == Reserved(d.books, user, g)
    ensures Refunded(Called(d, user, g, r).books, user, g) >= Refunded(d.books, user, g)
  {
    if Single(d.books, user) { CalledKeepsSingle(d, user, g, r); }
    if g != "" {
      RoutinesOnlyGiveBack(d, user, g, [r]);
      assert [r][1..] == [];
      assert AfterCalls(d, user, g, [r]) == Called(d, user, g, r);
    } else {
      BlankHoldsNothing(d.books, user);
    }
  }

  lemma CallGivesBack(c: Case, w: World, e: Trust, r: Routine)
    requires Valid(c, w, e) && !e.alone
    ensures Valid(c, Act(c, w, OnJob(r)), e) && GivenBack(c, w, Act(c, w, OnJob(r)), e)
  {
    CallStaysSound(Desk(w.books, w.row), c.user, c.generation, r);
    HeldIsNonNegative(Act(c, w, OnJob(r)).books, c.user, c.generation);
  }

  lemma GivenBackTrans(c: Case, w: World, m: World, w': World, e: Trust)
    requires GivenBack(c, w, m, e) && GivenBack(c, m, w', e)
    ensures GivenBack(c, w, w', e)
  {
  }

  lemma {:induction false} PlayGivesBack(c: Case, w: World, e: Trust, actions: seq<Action>)
    requires Valid(c, w, e) && (e.alone ==> LeavesJob(actions))
    ensures Valid(c, Play(c, w, actions), e) && GivenBack(c, w, Play(c, w, actions), e)
    ensures SameWorker(w, Play(c, w, actions)) && Play(c, w, actions).script == w.script
    decreases |actions|
  {
    HeldIsNonNegative(w.books, c.user, c.generation);
    if actions != [] {
      var m := Act(c, w, actions[0]);
      match actions[0] {
        case Apart(step) => ApartGivesNothing(c, w, e, step);
        case OnJob(r) => CallGivesBack(c, w, e, r);
      }
      PlayGivesBack(c, m, e, actions[1..]);
      GivenBackTrans(c, w, m, Play(c, w, actions), e);
    }
  }

  /** A turn of a trusted script. */
  ghost predicate TurnIs(c: Case, w: World, t: World, luck: Luck, e: Trust) {
    && Valid(c, t, e) && GivenBack(c, w, t, e) && SameWorker(w, t)
    && (e.reliable ==> luck.refund == NONE)
    && (e.calm ==> luck == FINE && t.books == w.books && t.row == w.row)
  }

  lemma TurnGivesBack(c: Case, w: World, e: Trust)
    requires Valid(c, w, e)
    ensures TurnIs(c, w, Turned(c, w), Coming(w.script).luck, e)
  {
    var turn, rest := Coming(w.script), Later(w.script);
    assert w.script != [] ==> turn == w.script[0];
    assert forall k :: 0 <= k < |rest| ==> rest[k] == w.script[k + 1];
    PlayGivesBack(c, w.(script := rest), e, turn.actions);
    assert e.calm ==> turn == QUIET && Play(c, w.(script := rest), []) == w.(script := rest);
  }

  // --------------------------------------------------------------------------------------------
  // The closures

  /** `saveJob`. */
  function Saved(w: World): World { w.(row := WorkerSave(w.row, w.job), job := WorkerCopy(w.row, w.job)) }

  /** `finishJob`. */
  function Finished(w: World, status: Status, stage: string, errorCode: string): World {
    Saved(w.(job := w.job.(status := status, stage := stage, errorCode := errorCode)))
  }

  /** A final status is written, whatever the row held before. */
  lemma FinishedRow(w: World, status: Status, stage: string, errorCode: string)
    requires status == Cancelled || status == Succeeded || status == Status.Failed
    ensures var row := Finished(w, status, stage, errorCode).row;
            && row.status == status && row.stage == stage && row.errorCode == errorCode
            && row.actualCount == AtLeast(0, w.job.actualCount) && row.creditReserved == w.job.creditReserved
            && row.creditRefunded == Max(w.row.creditRefunded, w.job.creditRefunded)
  {
  }

  /** A totals query that fails counts as nothing. */
  function Read(b: Books, user: string, g: string, wallet: Reason, subscription: Reason, f: Faults): int {
    (if f.walletUnread then 0 else Total(b, user, g, wallet))
    + (if f.subscriptionUnread then 0 else Total(b, user, g, subscription))
  }

  function WithRefunds(w: World, total: int): World {
    if total > w.refunded then w.(refunded := total, job := w.job.(creditRefunded := total)) else w
  }

  /** `syncRefundedCredits`. */
  function RefundsSynced(c: Case, w: World): World {
    var t := Turned(c, w);
    WithRefunds(t, Read(t.books, c.user, c.generation, WalletRefund, SubscriptionRefund, Coming(w.script).luck.refund))
  }

  /** What `syncReservedCredits` reads, returns and writes on the job. */
  function ReservedRead(c: Case, w: World): int {
    Read(Turned(c, w).books, c.user, c.generation, WalletReserve, SubscriptionReserve, Coming(w.script).luck.refund)
  }

  /** `syncReservedCredits`. */
  function ReservedSynced(c: Case, w: World): World {
    var s := RefundsSynced(c, Turned(c, w));
    s.(job := s.job.(creditReserved := ReservedRead(c, w)))
  }

  predicate SameButCredits(job: Job, later: Job) {
    later == job.(creditRefunded := later.creditRefunded, creditReserved := later.creditReserved)
  }

  /**
   A synchronisation: others may have given something back; the refund total never falls and, if the
   ledgers can be read, is theirs.
   */
  ghost predicate InStep(c: Case, w: World, w': World, e: Trust) {
    && Valid(c, w', e) && GivenBack(c, w, w', e) && w'.refunded >= w.refunded && SameButCredits(w.job, w'.job)
    && (e.reliable ==> w'.refunded == Refunded(w'.books, c.user, c.generation))
    && (w.job.creditRefunded == w.refunded ==> w'.job.creditRefunded == w'.refunded)
    && (e.calm ==> w'.books == w.books && w'.row == w.row)
  }

  lemma RefundTotalInStep(c: Case, w: World, t: World, luck: Luck, e: Trust)
    requires TurnIs(c, w, t, luck, e)
    ensures InStep(c, w,
                   WithRefunds(t, Read(t.books, c.user, c.generation, WalletRefund, SubscriptionRefund, luck.refund)),
                   e)
  {
  }

  lemma RefundsInStep(c: Case, w: World, e: Trust)
    requires Valid(c, w, e)
    ensures InStep(c, w, RefundsSynced(c, w), e)
    ensures RefundsSynced(c, w).job.creditReserved == w.job.creditReserved
  {
    TurnGivesBack(c, w, e);
    RefundTotalInStep(c, w, Turned(c, w), Coming(w.script).luck, e);
  }

  lemma InStepTrans(c: Case, w: World, t: World, luck: Luck, s: World, total: int, e: Trust)
    requires TurnIs(c, w, t, luck, e) && InStep(c, t, s, e)
    ensures InStep(c, w, s.(job := s.job.(creditReserved := total)), e)
  {
  }

  /** If the ledgers can be read, the job's reserved figure becomes theirs. */
  lemma ReservedInStep(c: Case, w: World, e: Trust)
    requires Valid(c, w, e)
    ensures InStep(c, w, ReservedSynced(c, w), e)
    ensures ReservedSynced(c, w).job.creditReserved == ReservedRead(c, w)
    ensures e.reliable ==> ReservedRead(c, w) == Reserved(ReservedSynced(c, w).books, c.user, c.generation)
  {
    TurnGivesBack(c, w, e);
    RefundsInStep(c, Turned(c, w), e);
    InStepTrans(c, w, Turned(c, w), Coming(w.script).luck, RefundsSynced(c, Turned(c, w)), ReservedRead(c, w), e);
  }

  /** `refundReservedCredits`. */
  function Repaid(c: Case, w: World, amount: int): World {
    if amount <= 0 then w
    else
      var t := Turned(c, w);
      RefundsSynced(c, t.(books := SplitRefund(t.books, c.user, c.generation, amount, Coming(w.script).luck.refund)))
  }

  /** `refundCredits`. */
  function RepaidOnFailure(c: Case, w: World, amount: int): World {
    if c.settings.refundOnFailure then Repaid(c, w, amount) else RefundsSynced(c, w)
  }

  /**
   `amount` or less of what was held has been given back, in addition to what others gave back; all of
   it, if nothing fails and the subscription that the refund goes to covers its share.
   */
  ghost predicate PaidBack(c: Case, w: World, w': World, amount: int, exact: bool, e: Trust) {
    var before, after := Holding(c, w) + w.outside, Holding(c, w') + w'.outside;
    && Valid(c, w', e) && w.outside <= w'.outside && (e.alone ==> w'.outside == w.outside)
    && w'.refunded >= w.refunded && SameButCredits(w.job, w'.job)
    && 0 <= Holding(c, w') && after <= before
    && Reserved(w'.books, c.user, c.generation) == Reserved(w.books, c.user, c.generation)
    && (e.reliable ==> after >= before - Max(amount, 0))
    && (exact ==> Holding(c, w') == Max(0, before - Max(amount, 0) - w'.outside))
    && (e.calm ==> w'.row == w.row)
  }

  /** When a refund is sure to be exact. */
  predicate Exact(c: Case, w: World, amount: int, e: Trust) {
    e.reliable && (e.single || (e.calm && Covers(w.books, c.user, c.generation, amount)))
  }

  lemma RefundPays(c: Case, w: World, e: Trust, t: World, luck: Luck, amount: int)
    requires Valid(c, w, e) && TurnIs(c, w, t, luck, e) && amount > 0
    ensures var b := SplitRefund(t.books, c.user, c.generation, amount, luck.refund);
            PaidBack(c, w, t.(books := b), amount, Exact(c, w, amount, e), e)
  {
    SplitRefundGivesBack(t.books, c.user, c.generation, amount, luck.refund);
    HeldIsNonNegative(t.books, c.user, c.generation);
    if e.single { SingleCovers(t.books, c.user, c.generation, amount); }
  }

  lemma PaidBackInStep(c: Case, w: World, m: World, w': World, amount: int, exact: bool, e: Trust)
    requires PaidBack(c, w, m, amount, exact, e) && InStep(c, m, w', e)
    ensures PaidBack(c, w, w', amount, exact, e)
  {
  }

  lemma RepaidPays(c: Case, w: World, e: Trust, amount: int)
    requires Valid(c, w, e)
    ensures PaidBack(c, w, Repaid(c, w, amount), amount, Exact(c, w, amount, e), e)
    ensures e.reliable && amount > 0 ==>
              Repaid(c, w, amount).refunded == Refunded(Repaid(c, w, amount).books, c.user, c.generation)
  {
    HeldIsNonNegative(w.books, c.user, c.generation);
    if amount > 0 {
      TurnGivesBack(c, w, e);
      var t, luck := Turned(c, w), Coming(w.script).luck;
      RefundPays(c, w, e, t, luck, amount);
      var m := t.(books := SplitRefund(t.books, c.user, c.generation, amount, luck.refund));
      RefundsInStep(c, m, e);
      PaidBackInStep(c, w, m, Repaid(c, w, amount), amount, Exact(c, w, amount, e), e);
    }
  }

  lemma NothingPaidBack(c: Case, w: World, w': World, e: Trust)
    requires InStep(c, w, w', e)
    ensures PaidBack(c, w, w', 0, true, e)
  {
  }

  /** Nothing at all is given back if failures are not refunded. */
  lemma RepaidOnFailurePays(c: Case, w: World, e: Trust, amount: int)
    requires Valid(c, w, e)
    ensures var due := if c.settings.refundOnFailure then amount else 0;
            PaidBack(c, w, RepaidOnFailure(c, w, amount), due, Exact(c, w, amount, e) || due == 0, e)
    ensures e.reliable && (amount > 0 || !c.settings.refundOnFailure) ==>
              RepaidOnFailure(c, w, amount).refunded
              == Refunded(RepaidOnFailure(c, w, amount).books, c.user, c.generation)
  {
    RepaidPays(c, w, e, amount);
    if !c.settings.refundOnFailure {
      RefundsInStep(c, w, e);
      NothingPaidBack(c, w, RefundsSynced(c, w), e);
    } else if amount == 0 {
      HeldIsNonNegative(w.books, c.user, c.generation);
    }
  }

  // --------------------------------------------------------------------------------------------
  // Reserving

  function FirstCost(c: Case): nat { Cost(c.settings.unit, c.requested) }

  /** The reservation of this turn. */
  function Drawn(c: Case, w: World, amount: nat): Reservation {
    Reserving(Turned(c, w).books, c.user, c.generation, amount, Coming(w.script).luck)
  }

  function AfterDraw(c: Case, w: World, amount: nat): World {
    Turned(c, w).(books := Drawn(c, w, amount).books)
  }

  /** What a reservation adds to what is held and to what others have given back. */
  ghost predicate Added(c: Case, w: World, w': World, amount: nat, r: Reservation, e: Trust) {
    var before, after := Holding(c, w) + w.outside, Holding(c, w') + w'.outside;
    && Valid(c, w', e) && w.outside <= w'.outside && (e.alone ==> w'.outside == w.outside) && SameWorker(w, w')
    && 0 <= Holding(c, w') && 0 <= r.leaked <= Tracked(c.generation, amount)
    && (r.leaked > 0 ==> r.reply.StoreError? && r.atWallet)
    && (r.reply.Done? ==> after == before + Tracked(c.generation, amount))
    && (!r.reply.Done? ==> after >= before)
    && (!r.reply.Done? && e.reliable ==> after == before + r.leaked)
    && (!r.reply.Done? && !r.atWallet ==> after == before && r.reply.StoreError?)
    && (e.calm ==> CalmlyAdded(c, w, w', amount, r))
  }

  /** In a calm turn it fails exactly if the wallet cannot pay what the subscription leaves. */
  ghost predicate CalmlyAdded(c: Case, w: World, w': World, amount: nat, r: Reservation) {
    && w'.row == w.row && !r.reply.StoreError?
    && (r.reply.Insufficient? <==> Short(w.books, c.user, amount))
    && w'.books == Reserving(w.books, c.user, c.generation, amount, FINE).books
    && (r.reply.Done? ==> Covers(w'.books, c.user, c.generation, amount))
  }

  lemma TakesAdds(c: Case, w: World, e: Trust, t: World, luck: Luck, amount: nat, r: Reservation)
    requires TurnIs(c, w, t, luck, e) && Takes(t.books, c.user, c.generation, amount, luck, r)
    requires e.calm ==> CalmlyAdded(c, w, t.(books := r.books), amount, r)
    ensures Added(c, w, t.(books := r.books), amount, r, e)
  {
    HeldIsNonNegative(r.books, c.user, c.generation);
  }

  lemma DrawnAdds(c: Case, w: World, e: Trust, amount: nat)
    requires Valid(c, w, e)
    ensures Added(c, w, AfterDraw(c, w, amount), amount, Drawn(c, w, amount), e)
  {
    TurnGivesBack(c, w, e);
    var t, luck := Turned(c, w), Coming(w.script).luck;
    ReservingTakes(t.books, c.user, c.generation, amount, luck);
    if e.calm { ReservingFailsIff(t.books, c.user, c.generation, amount); }
    TakesAdds(c, w, e, t, luck, amount, Drawn(c, w, amount));
  }

  /** `reserveAdditionalCredits`. */
  function Extended(c: Case, w: World, amount: int): World {
    ReservedSynced(c, if amount <= 0 then w else AfterDraw(c, w, amount))
  }

  function Extension(c: Case, w: World, amount: int): Reply {
    if amount <= 0 then Done(0) else Drawn(c, w, amount).reply
  }

  /** One more image was paid, or nothing was taken if the undoing works. */
  ghost predicate Grown(c: Case, w: World, w': World, amount: int, reply: Reply, e: Trust) {
    var before, after := Holding(c, w) + w.outside, Holding(c, w') + w'.outside;
    && Valid(c, w', e) && w.outside <= w'.outside && (e.alone ==> w'.outside == w.outside)
    && SameButCredits(w.job, w'.job) && 0 <= Holding(c, w')
    && after >= before && (reply.Done? ==> after == before + Tracked(c.generation, Max(amount, 0)))
    && (reply.Insufficient? && e.reliable ==> after == before)
    && (e.calm ==> w'.row == w.row && !reply.StoreError?)
    && (e.calm && amount >= 0 ==>
        && (reply.Insufficient? <==> Short(w.books, c.user, amount))
        && (reply.Done? ==> w'.books == Reserving(w.books, c.user, c.generation, amount, FINE).books))
  }

  lemma AddedGrows(c: Case, w: World, e: Trust, m: World, w': World, amount: nat, r: Reservation)
    requires Added(c, w, m, amount, r, e) && InStep(c, m, w', e)
    ensures Grown(c, w, w', amount, r.reply, e)
  {
  }

  lemma NothingGrows(c: Case, w: World, e: Trust, w': World, amount: int)
    requires Valid(c, w, e) && InStep(c, w, w', e) && amount <= 0
    ensures Grown(c, w, w', amount, Done(0), e)
  {
    FreeIsAffordable(w.books, c.user, c.generation);
  }

  lemma ExtendedGrows(c: Case, w: World, e: Trust, amount: int)
    requires Valid(c, w, e)
    ensures Grown(c, w, Extended(c, w, amount), amount, Extension(c, w, amount), e)
  {
    if amount <= 0 {
      ReservedInStep(c, w, e);
      NothingGrows(c, w, e, Extended(c, w, amount), amount);
    } else {
      DrawnAdds(c, w, e, amount);
      ReservedInStep(c, AfterDraw(c, w, amount), e);
      AddedGrows(c, w, e, AfterDraw(c, w, amount), Extended(c, w, amount), amount, Drawn(c, w, amount));
    }
  }

  // --------------------------------------------------------------------------------------------
  // From the answer of the provider to the end

  /** What the books must show once `count` images are charged on top of what was held at the start. */
  ghost predicate Charged(c: Case, w: World, start: int, count: int) {
    Holding(c, w) + w.outside == start + Tracked(c.generation, Cost(c.settings.unit, count))
  }

  /** The price of one more image. */
  function NextCost(c: Case, billed: int): int { Cost(c.settings.unit, billed + 1) - Cost(c.settings.unit, billed) }

  /** The books after charging, the last reply, and how many images are charged. */
  datatype Charge = Charge(world: World, reply: Reply, billed: int)

  /** The over-delivery loop: one more image at a time, until all are charged or a reservation fails. */
  function BilledUp(c: Case, w: World, billed: int, actual: int): Charge
    decreases actual - billed, 1
  {
    if billed >= actual then Charge(w, Done(0), billed) else BilledOn(c, w, billed, actual)
  }

  function BilledOn(c: Case, w: World, billed: int, actual: int): Charge
    requires billed < actual
    decreases actual - billed, 0
  {
    var next := Extended(c, w, NextCost(c, billed));
    var reply := Extension(c, w, NextCost(c, billed));
    if reply.Done? then BilledUp(c, next, billed + 1, actual) else Charge(next, reply, billed)
  }

  lemma BilledStep(c: Case, w: World, billed: int, actual: int, next: World, reply: Reply)
    requires billed < actual
    requires next == Extended(c, w, NextCost(c, billed)) && reply == Extension(c, w, NextCost(c, billed))
    ensures BilledUp(c, w, billed, actual)
            == if reply.Done? then BilledUp(c, next, billed + 1, actual) else Charge(next, reply, billed)
  {
  }

  /** How many of the next `n` images the user can pay. */
  function CanPay(c: Case, b: Books, n: nat): (count: nat)
    ensures count <= n
  {
    Affordable(b, c.user, c.generation, c.settings.unit, n)
  }

  /**
   Charging extra images: the increments add up to the price of what is billed; a half-made one leaves no
   net charge if the undoing works; without interference as many are billed as can be paid.
   */
  ghost predicate BillsUp(c: Case, w: World, billed: int, actual: int, start: int, ch: Charge, e: Trust) {
    && Valid(c, ch.world, e) && w.outside <= ch.world.outside && (e.alone ==> ch.world.outside == w.outside)
    && SameButCredits(w.job, ch.world.job) && 0 <= Holding(c, ch.world)
    && billed <= ch.billed <= actual && (ch.reply.Done? <==> ch.billed == actual)
    && Holding(c, ch.world) + ch.world.outside >= start + Tracked(c.generation, Cost(c.settings.unit, ch.billed))
    && (ch.reply.Done? || (ch.reply.Insufficient? && e.reliable) ==> Charged(c, ch.world, start, ch.billed))
    && (e.calm ==> ch.world.row == w.row && !ch.reply.StoreError?
                   && ch.billed == billed + CanPay(c, w.books, actual - billed))
  }

  lemma OneMore(c: Case, w: World, billed: int, start: int, next: World, reply: Reply, e: Trust)
    requires billed >= 1 && Charged(c, w, start, billed)
    requires Grown(c, w, next, NextCost(c, billed), reply, e)
    ensures NextCost(c, billed) == c.settings.unit
    ensures reply.Done? ==> Charged(c, next, start, billed + 1)
    ensures Holding(c, next) + next.outside >= start + Tracked(c.generation, Cost(c.settings.unit, billed))
    ensures reply.Insufficient? && e.reliable ==> Charged(c, next, start, billed)
  {
    CostStep(c.settings.unit, billed);
  }

  lemma {:induction false} BilledUpCharges(c: Case, w: World, e: Trust, billed: int, actual: int, start: int)
    requires Valid(c, w, e) && 1 <= billed <= actual && Charged(c, w, start, billed) && 0 <= Holding(c, w)
    ensures BillsUp(c, w, billed, actual, start, BilledUp(c, w, billed, actual), e)
    decreases actual - billed
  {
    if billed == actual {
      BillsNothing(c, w, billed, start, e);
    } else {
      var next, reply := Extended(c, w, NextCost(c, billed)), Extension(c, w, NextCost(c, billed));
      ExtendedGrows(c, w, e, NextCost(c, billed));
      OneMore(c, w, billed, start, next, reply, e);
      BilledStep(c, w, billed, actual, next, reply);
      if reply.Done? {
        BilledUpCharges(c, next, e, billed + 1, actual, start);
        BillsUpMore(c, w, next, reply, billed, actual, start, BilledUp(c, next, billed + 1, actual), e);
      } else {
        BillsNoMore(c, w, next, reply, billed, actual, start, e);
      }
    }
  }

  lemma BillsNothing(c: Case, w: World, billed: int, start: int, e: Trust)
    requires Valid(c, w, e) && Charged(c, w, start, billed) && 0 <= Holding(c, w)
    ensures BillsUp(c, w, billed, billed, start, Charge(w, Done(0), billed), e)
  {
  }

  lemma BillsUpMore(c: Case, w: World, next: World, reply: Reply, billed: int, actual: int, start: int, ch: Charge,
      e: Trust)
    requires Valid(c, w, e) && Grown(c, w, next, c.settings.unit, reply, e) && reply.Done? && billed < actual
    requires BillsUp(c, next, billed + 1, actual, start, ch, e)
    ensures BillsUp(c, w, billed, actual, start, ch, e)
  {
  }

  lemma BillsNoMore(c: Case, w: World, next: World, reply: Reply, billed: int, actual: int, start: int, e: Trust)
    requires Valid(c, w, e) && Grown(c, w, next, c.settings.unit, reply, e) && !reply.Done? && billed < actual
    requires Holding(c, next) + next.outside >= start + Tracked(c.generation, Cost(c.settings.unit, billed))
    requires reply.Insufficient? && e.reliable ==> Charged(c, next, start, billed)
    ensures BillsUp(c, w, billed, actual, start, Charge(next, reply, billed), e)
  {
  }

  /** Charges for extra images, or gives back what was reserved for those that did not come. */
  function ChargedFor(c: Case, w: World, actual: int): Charge {
    if actual > c.requested then BilledUp(c, w, c.requested, actual) else PartlyCharged(c, w, actual)
  }

  /** The price of the images that did not come. */
  function Missing(c: Case, actual: int): int { FirstCost(c) - Cost(c.settings.unit, actual) }

  function PartlyCharged(c: Case, w: World, actual: int): Charge {
    if actual < c.requested && c.settings.refundPartial
    then Charge(RepaidOnFailure(c, w, Missing(c, actual)), Done(0), PartlyBilled(c, actual))
    else Charge(w, Done(0), c.requested)
  }

  /** How many images are charged when no more than requested came: all of them, unless both settings refund. */
  function PartlyBilled(c: Case, actual: int): int {
    if actual < c.requested && c.settings.refundPartial && c.settings.refundOnFailure then actual else c.requested
  }

  /** The reservation for the requested images is on the books, and can be given back in a calm run. */
  ghost predicate Opened(c: Case, w: World, start: int, e: Trust) {
    && Valid(c, w, e) && 0 <= Holding(c, w) && 0 <= start && (c.generation == "" ==> start == 0)
    && Charged(c, w, start, c.requested)
    && (e.calm ==> Covers(w.books, c.user, c.generation, FirstCost(c)))
  }

  lemma OpenedStays(c: Case, w: World, t: World, start: int, e: Trust)
    requires Opened(c, w, start, e) && Valid(c, t, e) && GivenBack(c, w, t, e) && (e.calm ==> t.books == w.books)
    ensures Opened(c, t, start, e)
  {
  }

  /** When what is held for the images charged is known exactly. */
  predicate Exactly(c: Case, billed: int, e: Trust) { e.reliable && (e.single || e.calm || billed >= c.requested) }

  /** What is held for the images charged is their price, less what others have given back meanwhile. */
  ghost predicate FullyCharged(c: Case, w: World, start: int, billed: int, e: Trust) {
    var due := start + Tracked(c.generation, Cost(c.settings.unit, billed));
    && (e.reliable || billed >= c.requested ==> Holding(c, w) + w.outside >= due)
    && (Exactly(c, billed, e) ==> Holding(c, w) == Max(0, due - w.outside))
  }

  /** Charging for what came. */
  ghost predicate ChargesFor(c: Case, w: World, actual: int, start: int, ch: Charge, e: Trust) {
    && Valid(c, ch.world, e) && w.outside <= ch.world.outside && (e.alone ==> ch.world.outside == w.outside)
    && SameButCredits(w.job, ch.world.job) && 0 <= Holding(c, ch.world)
    && (if actual <= c.requested then ch.reply.Done? && ch.billed == PartlyBilled(c, actual)
        else c.requested <= ch.billed <= actual && (ch.reply.Done? <==> ch.billed == actual))
    && (if ch.reply.StoreError?
        then Holding(c, ch.world) + ch.world.outside
             >= start + Tracked(c.generation, Cost(c.settings.unit, ch.billed))
        else FullyCharged(c, ch.world, start, ch.billed, e))
    && (e.calm ==> ch.world.row == w.row && !ch.reply.StoreError?)
    && (e.calm && actual > c.requested ==> ch.billed == c.requested + CanPay(c, w.books, actual - c.requested))
  }

  lemma BilledUpIsFull(c: Case, w: World, e: Trust, actual: int, start: int, ch: Charge)
    requires Opened(c, w, start, e) && actual > c.requested && BillsUp(c, w, c.requested, actual, start, ch, e)
    ensures ChargesFor(c, w, actual, start, ch, e)
  {
  }

  lemma CoversLess(b: Books, user: string, g: string, less: int, amount: int)
    requires less <= amount && Covers(b, user, g, amount)
    ensures Covers(b, user, g, less)
  {
  }

  lemma PaidBackIsFull(c: Case, w: World, e: Trust, actual: int, start: int, w': World, due: int, exact: bool)
    requires Opened(c, w, start, e) && 1 <= actual < c.requested && c.settings.refundPartial
    requires Cost(c.settings.unit, actual) <= FirstCost(c)
    requires due == if c.settings.refundOnFailure then Missing(c, actual) else 0
    requires PaidBack(c, w, w', due, exact, e) && (due == 0 || (e.reliable && (e.single || e.calm)) ==> exact)
    ensures ChargesFor(c, w, actual, start, Charge(w', Done(0), PartlyBilled(c, actual)), e)
  {
  }

  lemma ChargedForCharges(c: Case, w: World, e: Trust, actual: int, start: int)
    requires Opened(c, w, start, e) && actual >= 1
    ensures ChargesFor(c, w, actual, start, ChargedFor(c, w, actual), e)
  {
    if actual > c.requested {
      BilledUpCharges(c, w, e, c.requested, actual, start);
      BilledUpIsFull(c, w, e, actual, start, BilledUp(c, w, c.requested, actual));
    } else if actual < c.requested && c.settings.refundPartial {
      PartlyCharges(c, w, e, actual, start);
    }
  }

  lemma PartlyCharges(c: Case, w: World, e: Trust, actual: int, start: int)
    requires Opened(c, w, start, e) && 1 <= actual < c.requested && c.settings.refundPartial
    ensures ChargesFor(c, w, actual, start, PartlyCharged(c, w, actual), e)
  {
    var diff := Missing(c, actual);
    CostMonotone(c.settings.unit, actual, c.requested);
    RepaidOnFailurePays(c, w, e, diff);
    if e.calm { CoversLess(w.books, c.user, c.generation, diff, FirstCost(c)); }
    var due := if c.settings.refundOnFailure then diff else 0;
    PaidBackIsFull(c, w, e, actual, start, RepaidOnFailure(c, w, diff), due, Exact(c, w, diff, e) || due == 0);
  }

  /**
   How a run ends: the world then, the outcome, what the client gets, how many images are charged, and
   what the wallet took without admitting it.
   */
  datatype End = End(world: World, outcome: Outcome, delivered: seq<Item>, billed: int, leaked: int)

  /** What was reserved for this run has come back; others may have given it back before. */
  ghost predicate CameBack(c: Case, w: World, start: int, exact: bool, e: Trust) {
    && (e.reliable ==> Holding(c, w) + w.outside >= start)
    && (exact ==> Holding(c, w) == Max(0, start - w.outside))
  }

  /** The outcome, as a statement about the books; `start` is what the generation held before. */
  ghost predicate Accounted(c: Case, start: int, z: End, e: Trust) {
    var w := z.world;
    match z.outcome
    case SubscriptionStoreFailed => Holding(c, w) + w.outside == start
    case InsufficientCredits => e.reliable ==> Holding(c, w) + w.outside == start
    case WalletStoreFailed => e.reliable ==> Holding(c, w) + w.outside == start + z.leaked
    case CancelledBeforeUpstream => CameBack(c, w, start, e.reliable && (e.single || e.calm), e)
    case CancelledAfterUpstream => FullyCharged(c, w, start, z.billed, e)
    case FinishedElsewhere => Charged(c, w, start, c.requested)
    case UpstreamFailed => Settles(c, w, start, e)
    case EmptyResponse => Settles(c, w, start, e)
    case BillingFailed =>
      if c.settings.refundOnFailure then e.reliable && e.single ==> Holding(c, w) == 0
      else Holding(c, w) + w.outside >= start + Tracked(c.generation, Cost(c.settings.unit, z.billed))
    case Delivered => FullyCharged(c, w, start, z.billed, e)
  }

  ghost predicate Settles(c: Case, w: World, start: int, e: Trust) {
    if c.settings.refundOnFailure then CameBack(c, w, start, e.reliable && (e.single || e.calm), e)
    else Charged(c, w, start, c.requested)
  }

  /** The record has left no refund out. */
  ghost predicate RefundsNoted(c: Case, w: World, e: Trust) {
    e.reliable ==> w.row.creditRefunded >= Refunded(w.books, c.user, c.generation)
  }

  /** The record at the end: the final status; for a success the ledger's reserved total; and no refund left out. */
  ghost predicate Recorded(c: Case, z: End, e: Trust) {
    var w := z.world;
    match z.outcome
    case Delivered =>
      && w.row.status == Succeeded && w.row.actualCount == Count(z.delivered) && RefundsNoted(c, w, e)
      && (e.reliable ==> w.row.creditReserved == Reserved(w.books, c.user, c.generation))
    case FinishedElsewhere => Final(w.row) && !CancelledOrAsked(w.row)
    case CancelledBeforeUpstream => w.row.status == Cancelled
    case CancelledAfterUpstream => w.row.status == Cancelled
    case UpstreamFailed => w.row.status == Status.Failed && (c.settings.unit > 0 ==> RefundsNoted(c, w, e))
    case EmptyResponse => w.row.status == Status.Failed && (c.settings.unit > 0 ==> RefundsNoted(c, w, e))
    case BillingFailed => w.row.status == Status.Failed && RefundsNoted(c, w, e)
    case _ => w.row.status == Status.Failed
  }

  /** From `w` the run has come to this end. */
  ghost predicate Ends(c: Case, w: World, start: int, z: End, e: Trust) {
    && Valid(c, z.world, e) && w.outside <= z.world.outside && (e.alone ==> z.world.outside == w.outside)
    && 0 <= Holding(c, z.world) && Accounted(c, start, z, e) && Recorded(c, z, e)
    && (z.leaked == 0 || z.outcome.WalletStoreFailed?) && (z.outcome.Delivered? || z.delivered == [])
  }

  // Failures.

  function FailedWith(w: World, stage: string, errorCode: string): World {
    Finished(w.(job := w.job.(creditRefunded := w.refunded)), Status.Failed, stage, errorCode)
  }

  function UpstreamFailure(c: Case, w: World, errorCode: string): World {
    FailedWith(RepaidOnFailure(c, w, FirstCost(c)), "upstream", errorCode)
  }

  function BillingFailure(c: Case, w: World): World {
    FailedWith(RepaidOnFailure(c, ReservedSynced(c, w), ReservedRead(c, w)), "credit", "credit_reserve_failed")
  }

  lemma SameBooksValid(c: Case, w: World, w': World, e: Trust)
    requires Valid(c, w, e) && w'.books == w.books && w'.script == w.script && w'.refunded == w.refunded
    ensures Valid(c, w', e) && Holding(c, w') == Holding(c, w)
  {
  }

  /** Nothing usable came back: everything reserved for this run is returned, if failures are refunded at all. */
  lemma UpstreamFailureEnds(c: Case, w: World, e: Trust, start: int, outcome: Outcome, errorCode: string)
    requires Opened(c, w, start, e) && (outcome.UpstreamFailed? || outcome.EmptyResponse?)
    ensures Ends(c, w, start, End(UpstreamFailure(c, w, errorCode), outcome, [], c.requested, 0), e)
  {
    var m := RepaidOnFailure(c, w, FirstCost(c));
    RepaidOnFailurePays(c, w, e, FirstCost(c));
    CostMonotone(c.settings.unit, 1, c.requested);
    assert Cost(c.settings.unit, 1) == c.settings.unit;
    FinishedRow(m.(job := m.job.(creditRefunded := m.refunded)), Status.Failed, "upstream", errorCode);
    UpstreamFailureSettles(c, w, e, start, m, FailedWith(m, "upstream", errorCode), outcome);
  }

  lemma UpstreamFailureSettles(c: Case, w: World, e: Trust, start: int, m: World, w': World, outcome: Outcome)
    requires Opened(c, w, start, e) && (outcome.UpstreamFailed? || outcome.EmptyResponse?)
    requires var due := if c.settings.refundOnFailure then FirstCost(c) else 0;
             PaidBack(c, w, m, due, Exact(c, w, FirstCost(c), e) || due == 0, e)
    requires e.reliable && (FirstCost(c) > 0 || !c.settings.refundOnFailure) ==>
               m.refunded == Refunded(m.books, c.user, c.generation)
    requires c.settings.unit <= FirstCost(c)
    requires w' == m.(row := w'.row, job := w'.job)
    requires w'.row.status == Status.Failed && w'.row.creditRefunded >= m.refunded
    ensures Ends(c, w, start, End(w', outcome, [], c.requested, 0), e)
  {
    SameBooksValid(c, m, w', e);
  }

  /** The store failed while extra images were charged: everything the generation holds is returned. */
  lemma BillingFailureEnds(c: Case, w: World, e: Trust, start: int, billed: int)
    requires Valid(c, w, e) && 0 <= Holding(c, w)
    requires Holding(c, w) + w.outside >= start + Tracked(c.generation, Cost(c.settings.unit, billed))
    ensures Ends(c, w, start, End(BillingFailure(c, w), BillingFailed, [], billed, 0), e)
  {
    var s, total := ReservedSynced(c, w), ReservedRead(c, w);
    ReservedInStep(c, w, e);
    RepaidOnFailurePays(c, s, e, total);
    var m := RepaidOnFailure(c, s, total);
    FinishedRow(m.(job := m.job.(creditRefunded := m.refunded)), Status.Failed, "credit", "credit_reserve_failed");
    HeldIsNonNegative(m.books, c.user, c.generation);
    BillingFailureSettles(c, w, e, start, billed, s, total, m, BillingFailure(c, w));
  }

  lemma BillingFailureSettles(c: Case, w: World, e: Trust, start: int, billed: int, s: World, total: int, m: World,
      w': World)
    requires Valid(c, w, e) && 0 <= Holding(c, w)
    requires Holding(c, w) + w.outside >= start + Tracked(c.generation, Cost(c.settings.unit, billed))
    requires InStep(c, w, s, e) && (e.reliable ==> total == Reserved(s.books, c.user, c.generation))
    requires var due := if c.settings.refundOnFailure then total else 0;
             PaidBack(c, s, m, due, Exact(c, s, total, e) || due == 0, e)
    requires e.reliable && (total > 0 || !c.settings.refundOnFailure) ==>
               m.refunded == Refunded(m.books, c.user, c.generation)
    requires Refunded(m.books, c.user, c.generation) <= Reserved(m.books, c.user, c.generation)
    requires w' == m.(row := w'.row, job := w'.job)
    requires w'.row.status == Status.Failed && w'.row.creditRefunded >= m.refunded
    ensures Ends(c, w, start, End(w', BillingFailed, [], billed, 0), e)
  {
    SameBooksValid(c, m, w', e);
  }

  /**
   When it is exact: with failures refunded, the refunds working and nobody else touching the job, the
   generation is empty exactly if the subscription that the refund goes to covers its share.
   */
  lemma BillingFailureEmptiesIff(c: Case, w: World, e: Trust)
    requires Valid(c, w, e) && e.reliable && e.alone && c.settings.refundOnFailure && c.generation != ""
    ensures var b := Turned(c, ReservedSynced(c, w)).books;
            Holding(c, BillingFailure(c, w)) == 0
            <==> SubscriptionHeld(b, c.user, c.generation) <= LatestUsed(b, c.user, c.generation)
  {
    var s, total := ReservedSynced(c, w), ReservedRead(c, w);
    ReservedInStep(c, w, e);
    TurnGivesBack(c, s, e);
    var t := Turned(c, s);
    HeldIsNonNegative(t.books, c.user, c.generation);
    PartIsCovered(t.books, c.user, c.generation);
    assert Covered(t.books, c.user, c.generation);
    if total > 0 {
      SplitRefundGivesBack(t.books, c.user, c.generation, total, NONE);
      var m := t.(books := SplitRefund(t.books, c.user, c.generation, total, NONE));
      RefundPays(c, s, e, t, Coming(s.script).luck, total);
      RefundsInStep(c, m, e);
      EmptiesIff(t.books, m.books, c.user, c.generation, total);
    }
  }

  lemma EmptiesIff(b: Books, b': Books, user: string, g: string, total: int)
    requires total == Reserved(b, user, g) && total >= Held(b, user, g) >= 0 && g != ""
    requires Held(b', user, g) == Held(b, user, g) - Held(b, user, g) <==> Covers(b, user, g, total)
    ensures Held(b', user, g) == 0 <==> SubscriptionHeld(b, user, g) <= LatestUsed(b, user, g)
  {
  }

  // The success.

  function Noted(w: World, actual: int): World { w.(job := w.job.(actualCount := actual)) }

  /** The last check for a cancel decides. */
  function Conclusion(c: Case, w: World): Outcome {
    if CancelledOrAsked(Turned(c, w).row) then CancelledAfterUpstream else Delivered
  }

  function Success(c: Case, w: World): World {
    var s := ReservedSynced(c, w);
    Finished(s.(job := s.job.(creditRefunded := s.refunded)), Succeeded, "finished", "")
  }

  /** The last check for a cancel, and the record. */
  function Concluded(c: Case, w: World, actual: int): World {
    var t := Turned(c, Noted(w, actual));
    if CancelledOrAsked(t.row) then StoppedAfter(c, t)
    else Success(c, t)
  }

  function StoppedAfter(c: Case, w: World): World {
    Finished(RefundsSynced(c, w), Cancelled, "cancelled", "cancelled")
  }

  lemma FullyChargedStays(c: Case, w: World, w': World, start: int, billed: int, e: Trust)
    requires FullyCharged(c, w, start, billed, e) && 0 <= Holding(c, w) && GivenBack(c, w, w', e)
    ensures FullyCharged(c, w', start, billed, e)
  {
  }

  lemma NotedTurn(c: Case, w: World, actual: int)
    ensures Turned(c, Noted(w, actual)) == Noted(Turned(c, w), actual)
  {
    PlayNoted(c, w.(script := Later(w.script)), Coming(w.script).actions, actual);
  }

  lemma {:induction false} PlayNoted(c: Case, w: World, actions: seq<Action>, actual: int)
    ensures Play(c, Noted(w, actual), actions) == Noted(Play(c, w, actions), actual)
    decreases |actions|
  {
    if actions != [] {
      ActNoted(c, w, actions[0], actual);
      PlayNoted(c, Act(c, w, actions[0]), actions[1..], actual);
    }
  }

  lemma ActNoted(c: Case, w: World, a: Action, actual: int)
    ensures Act(c, Noted(w, actual), a) == Noted(Act(c, w, a), actual)
  {
  }

  /** A cancel seen after the call went out: the credits stay as they are. */
  lemma StoppedAfterEnds(c: Case, w: World, e: Trust, start: int, billed: int)
    requires Valid(c, w, e) && 0 <= Holding(c, w) && FullyCharged(c, w, start, billed, e)
    ensures Ends(c, w, start, End(StoppedAfter(c, w), CancelledAfterUpstream, [], billed, 0), e)
  {
    RefundsInStep(c, w, e);
    var s := RefundsSynced(c, w);
    FullyChargedStays(c, w, s, start, billed, e);
    FinishedRow(s, Cancelled, "cancelled", "cancelled");
    StaysCharged(c, w, e, start, billed, s, StoppedAfter(c, w));
  }

  lemma StaysCharged(c: Case, w: World, e: Trust, start: int, billed: int, s: World, w': World)
    requires InStep(c, w, s, e) && FullyCharged(c, s, start, billed, e)
    requires w' == s.(row := w'.row, job := w'.job) && w'.row.status == Cancelled
    ensures Ends(c, w, start, End(w', CancelledAfterUpstream, [], billed, 0), e)
  {
    SameBooksValid(c, s, w', e);
  }

  lemma {:induction false} SucceededEnds(c: Case, w: World, e: Trust, start: int, billed: int,
      delivered: seq<Item>, s: World, w': World)
    requires InStep(c, w, s, e) && FullyCharged(c, s, start, billed, e)
    requires e.reliable ==> s.job.creditReserved == Reserved(s.books, c.user, c.generation)
    requires w' == s.(row := w'.row, job := w'.job) && w'.row.status == Succeeded
    requires w'.row.actualCount == Count(delivered) && w'.row.creditReserved == s.job.creditReserved
    requires w'.row.creditRefunded >= s.refunded
    ensures Ends(c, w, start, End(w', Delivered, delivered, billed, 0), e)
  {
    SameBooksValid(c, s, w', e);
  }

  lemma EndsLater(c: Case, w: World, t: World, start: int, z: End, e: Trust)
    requires GivenBack(c, w, t, e) && Ends(c, t, start, z, e)
    ensures Ends(c, w, start, z, e)
  {
  }

  lemma {:induction false} ConcludedEnds(c: Case, w: World, e: Trust, start: int, billed: int, shown: seq<Item>)
    requires Valid(c, w, e) && 0 <= Holding(c, w) && FullyCharged(c, w, start, billed, e)
    ensures var outcome := Conclusion(c, w);
            var delivered := if outcome.Delivered? then shown else [];
            Ends(c, w, start, End(Concluded(c, w, Count(shown)), outcome, delivered, billed, 0), e)
    ensures e.calm ==> (Conclusion(c, w).Delivered? <==> !CancelledOrAsked(w.row))
  {
    var actual := Count(shown);
    NotedTurn(c, w, actual);
    TurnGivesBack(c, w, e);
    var t := Noted(Turned(c, w), actual);
    SameBooksValid(c, Turned(c, w), t, e);
    FullyChargedStays(c, w, t, start, billed, e);
    if CancelledOrAsked(t.row) {
      StoppedAfterEnds(c, t, e, start, billed);
      EndsLater(c, w, t, start, End(StoppedAfter(c, t), CancelledAfterUpstream, [], billed, 0), e);
    } else {
      SuccessEnds(c, t, e, start, billed, shown);
      EndsLater(c, w, t, start, End(Concluded(c, w, actual), Delivered, shown, billed, 0), e);
    }
  }

  lemma {:induction false} SuccessEnds(c: Case, t: World, e: Trust, start: int, billed: int, shown: seq<Item>)
    requires Valid(c, t, e) && 0 <= Holding(c, t) && FullyCharged(c, t, start, billed, e)
    requires t.job.actualCount == Count(shown)
    ensures Ends(c, t, start, End(Success(c, t), Delivered, shown, billed, 0), e)
  {
    ReservedInStep(c, t, e);
    var s := ReservedSynced(c, t);
    FullyChargedStays(c, t, s, start, billed, e);
    FinishedRow(s.(job := s.job.(creditRefunded := s.refunded)), Succeeded, "finished", "");
    SucceededEnds(c, t, e, start, billed, shown, s, Success(c, t));
  }

  // The answer.

  /** At least one usable image is left: charge for what came, cut it to what was charged, conclude. */
  function Billed(c: Case, w: World, kept: seq<Item>): End { Closed(c, kept, ChargedFor(c, w, Count(kept))) }

  function Closed(c: Case, kept: seq<Item>, ch: Charge): End {
    if ch.reply.StoreError? then End(BillingFailure(c, ch.world), BillingFailed, [], ch.billed, 0)
    else Shown(c, ch.world, if ch.reply.Insufficient? then Limit(kept, ch.billed) else kept, ch.billed)
  }

  function Shown(c: Case, w: World, shown: seq<Item>, billed: int): End {
    var outcome := Conclusion(c, w);
    End(Concluded(c, w, Count(shown)), outcome, if outcome.Delivered? then shown else [], billed, 0)
  }

  function AnswerSettled(c: Case, w: World, items: seq<Item>): End {
    var kept := Capped(items, c.settings.maxCount);
    if Count(kept) <= 0
    then End(UpstreamFailure(c, w, "provider_empty_response"), EmptyResponse, [], c.requested, 0)
    else Billed(c, w, kept)
  }

  /** How many images of an answer are charged. */
  predicate BillsOf(c: Case, count: int, billed: int) {
    if count <= c.requested then billed == PartlyBilled(c, count) else c.requested <= billed <= count
  }

  /** What the client gets of an answer: all that is kept of it, unless not all of it is paid. */
  function Paid(kept: seq<Item>, billed: int): seq<Item> { if billed < Count(kept) then Limit(kept, billed) else kept }

  /** What is charged and delivered, and, in a calm run, which outcome it is. */
  ghost predicate Delivers(c: Case, w: World, kept: seq<Item>, z: End, e: Trust) {
    && z.outcome in {BillingFailed, CancelledAfterUpstream, Delivered}
    && BillsOf(c, Count(kept), z.billed)
    && z.delivered == (if z.outcome.Delivered? then Paid(kept, z.billed) else [])
    && (e.calm ==> z.billed == CalmBill(c, w.books, Count(kept)))
    && (e.calm && !CancelledOrAsked(w.row) ==> z.outcome.Delivered?)
  }

  /** How many images are charged when nothing fails and nobody else acts. */
  function CalmBill(c: Case, b: Books, count: int): int {
    if count <= c.requested then PartlyBilled(c, count) else c.requested + CanPay(c, b, count - c.requested)
  }

  lemma {:induction false} ShownDelivers(c: Case, w: World, kept: seq<Item>, m: World, ch: Charge, start: int,
      z: End, e: Trust)
    requires Count(kept) >= 1 && ChargesFor(c, w, Count(kept), start, ch, e) && !ch.reply.StoreError?
    requires m == ch.world && z.billed == ch.billed && (z.outcome.Delivered? || z.outcome.CancelledAfterUpstream?)
    requires var shown := if ch.reply.Insufficient? then Limit(kept, ch.billed) else kept;
             z.delivered == if z.outcome.Delivered? then shown else []
    requires e.calm ==> (z.outcome.Delivered? <==> !CancelledOrAsked(m.row))
    ensures Delivers(c, w, kept, z, e)
  {
  }

  lemma {:induction false} FailedDelivers(c: Case, w: World, kept: seq<Item>, ch: Charge, start: int, z: End, e: Trust)
    requires Count(kept) >= 1 && ChargesFor(c, w, Count(kept), start, ch, e) && ch.reply.StoreError?
    requires z.billed == ch.billed && z.outcome.BillingFailed? && z.delivered == []
    ensures Delivers(c, w, kept, z, e)
  {
  }

  lemma EndsAfterCharge(c: Case, w: World, actual: int, start: int, ch: Charge, z: End, e: Trust)
    requires ChargesFor(c, w, actual, start, ch, e) && Ends(c, ch.world, start, z, e)
    ensures Ends(c, w, start, z, e)
  {
  }

  lemma {:induction false} BilledEnds(c: Case, w: World, e: Trust, start: int, kept: seq<Item>)
    requires Opened(c, w, start, e) && Count(kept) >= 1
    ensures Ends(c, w, start, Billed(c, w, kept), e) && Delivers(c, w, kept, Billed(c, w, kept), e)
  {
    var ch := ChargedFor(c, w, Count(kept));
    ChargedForCharges(c, w, e, Count(kept), start);
    ChargeEnds(c, w, e, start, kept, ch);
  }

  lemma {:induction false} ChargeEnds(c: Case, w: World, e: Trust, start: int, kept: seq<Item>, ch: Charge)
    requires Count(kept) >= 1 && ChargesFor(c, w, Count(kept), start, ch, e)
    ensures Ends(c, w, start, Closed(c, kept, ch), e) && Delivers(c, w, kept, Closed(c, kept, ch), e)
  {
    if ch.reply.StoreError? {
      BillingFailureEnds(c, ch.world, e, start, ch.billed);
      FailedDelivers(c, w, kept, ch, start, Closed(c, kept, ch), e);
      EndsAfterCharge(c, w, Count(kept), start, ch, Closed(c, kept, ch), e);
    } else {
      ShownEnds(c, w, e, start, kept, ch, if ch.reply.Insufficient? then Limit(kept, ch.billed) else kept);
    }
  }

  lemma {:induction false} ShownEnds(c: Case, w: World, e: Trust, start: int, kept: seq<Item>, ch: Charge,
      shown: seq<Item>)
    requires Count(kept) >= 1 && ChargesFor(c, w, Count(kept), start, ch, e) && !ch.reply.StoreError?
    requires shown == if ch.reply.Insufficient? then Limit(kept, ch.billed) else kept
    ensures var z := Shown(c, ch.world, shown, ch.billed);
            Ends(c, w, start, z, e) && Delivers(c, w, kept, z, e)
  {
    ConcludedEnds(c, ch.world, e, start, ch.billed, shown);
    ShownDelivers(c, w, kept, ch.world, ch, start, Shown(c, ch.world, shown, ch.billed), e);
    EndsAfterCharge(c, w, Count(kept), start, ch, Shown(c, ch.world, shown, ch.billed), e);
  }

  /** What an answer comes to. */
  ghost predicate Answers(c: Case, w: World, items: seq<Item>, z: End, e: Trust) {
    var kept := Capped(items, c.settings.maxCount);
    if Count(kept) == 0 then z.outcome == EmptyResponse && z.delivered == [] && z.billed == c.requested
    else Delivers(c, w, kept, z, e)
  }

  lemma AnswerEnds(c: Case, w: World, e: Trust, start: int, items: seq<Item>)
    requires Opened(c, w, start, e)
    ensures Ends(c, w, start, AnswerSettled(c, w, items), e) && Answers(c, w, items, AnswerSettled(c, w, items), e)
  {
    var kept := Capped(items, c.settings.maxCount);
    if Count(kept) == 0 {
      UpstreamFailureEnds(c, w, e, start, EmptyResponse, "provider_empty_response");
    } else {
      BilledEnds(c, w, e, start, kept);
    }
  }

  /** What the client gets: all that is kept, or as many of the first items as images are charged. */
  predicate Shows(items: seq<Item>, maxCount: int, billed: int, shown: seq<Item>) {
    var kept := KeptOf(items, maxCount);
    shown == if billed < |ImagesAt(kept)| then kept[..Min(Max(0, billed), |kept|)] else kept
  }

  lemma PaidIs(items: seq<Item>, maxCount: int, billed: int)
    ensures Shows(items, maxCount, billed, Paid(Capped(items, maxCount), billed))
  {
    CappedIs(items, maxCount);
    CountIs(KeptOf(items, maxCount));
  }

  /** What is delivered is a prefix of the answer with no more usable images than are charged. */
  lemma DeliveredIsPaid(c: Case, w: World, items: seq<Item>, z: End, e: Trust)
    requires Answers(c, w, items, z, e) && z.outcome.Delivered?
    ensures z.delivered <= items && Count(z.delivered) <= z.billed
    ensures Shows(items, c.settings.maxCount, z.billed, z.delivered)
    ensures z.billed < c.requested ==>
              c.settings.refundOnFailure && c.settings.refundPartial && z.billed == Count(z.delivered)
    ensures c.settings.refundOnFailure && c.settings.refundPartial && AllUsable(items) && c.requested >= 1 ==>
              z.billed == Count(z.delivered) >= 1
  {
    var kept := Capped(items, c.settings.maxCount);
    LimitBounds(items, c.settings.maxCount);
    LimitBounds(kept, z.billed);
    PaidIs(items, c.settings.maxCount, z.billed);
  }

  // --------------------------------------------------------------------------------------------
  // The whole run

  /** A cancel before the upstream call: what this run reserved goes back, whatever the settings say. */
  function StoppedBefore(c: Case, w: World, early: bool): World {
    var s := Repaid(c, w, FirstCost(c));
    Finished(if early then s.(job := s.job.(creditRefunded := s.refunded)) else s, Cancelled, "cancelled", "cancelled")
  }

  lemma StoppedBeforeEnds(c: Case, w: World, e: Trust, start: int, early: bool)
    requires Opened(c, w, start, e)
    ensures Ends(c, w, start, End(StoppedBefore(c, w, early), CancelledBeforeUpstream, [], c.requested, 0), e)
  {
    RepaidPays(c, w, e, FirstCost(c));
    var m := Repaid(c, w, FirstCost(c));
    FinishedRow(if early then m.(job := m.job.(creditRefunded := m.refunded)) else m, Cancelled, "cancelled",
        "cancelled");
    StoppedBeforeSettles(c, w, e, start, m, StoppedBefore(c, w, early));
  }

  lemma StoppedBeforeSettles(c: Case, w: World, e: Trust, start: int, m: World, w': World)
    requires Opened(c, w, start, e) && PaidBack(c, w, m, FirstCost(c), Exact(c, w, FirstCost(c), e), e)
    requires w' == m.(row := w'.row, job := w'.job) && w'.row.status == Cancelled
    ensures Ends(c, w, start, End(w', CancelledBeforeUpstream, [], c.requested, 0), e)
  {
    SameBooksValid(c, m, w', e);
  }

  /** A step leads on, or to an end. */
  datatype Stage = Going(world: World) | Ended(end: End)

  /** Why a reservation failed, and the error on the job. */
  function Refusal(r: Reservation): Outcome {
    if !r.atWallet then SubscriptionStoreFailed else if r.reply.Insufficient? then InsufficientCredits
    else WalletStoreFailed
  }

  function RefusalCode(o: Outcome): string {
    if o.SubscriptionStoreFailed? then "subscription_credit_reserve_failed"
    else if o.InsufficientCredits? then "insufficient_credits" else "credit_reserve_failed"
  }

  /** The first reservation; a failure of it ends the job. */
  function FirstReserved(c: Case, w: World): Stage {
    var r := Drawn(c, w, FirstCost(c));
    var s := AfterDraw(c, w, FirstCost(c));
    if r.reply.Done? then Going(s)
    else
      Ended(End(Finished(s, Status.Failed, "credit", RefusalCode(Refusal(r))), Refusal(r), [], c.requested, r.leaked))
  }

  function CancelledEarly(c: Case, w: World): End {
    End(StoppedBefore(c, w.(job := w.row), true), CancelledBeforeUpstream, [], c.requested, 0)
  }

  /** A look at the job: a cancel ends the run. */
  function Looked(c: Case, w: World): Stage {
    var t := Turned(c, w);
    if CancelledOrAsked(t.row) then Ended(CancelledEarly(c, t)) else Going(t)
  }

  function Dispatching(w: World): World { Saved(w.(job := w.job.(stage := "dispatching"))) }

  /** The two looks at the job before the upstream call. */
  function Approached(c: Case, w: World): Stage { SavedAndLooked(c, Turned(c, w)) }

  function SavedAndLooked(c: Case, w: World): Stage {
    match Looked(c, Saved(Saved(w)))
    case Ended(z) => Ended(z)
    case Going(t) => Looked(c, Dispatching(t))
  }

  /** Reserve, and give up if that fails or if the job is cancelled before the call goes out. */
  function Begun(c: Case, w: World): Stage {
    match FirstReserved(c, w)
    case Ended(z) => Ended(z)
    case Going(s) => Approached(c, s)
  }

  /** The record written when the first attempt goes out. */
  function Marked(w: World): World { Saved(w.(job := w.job.(upstreamSent := true, stage := "upstream"))) }

  /** The provider call, which may go on record on the way. */
  function CallMade(c: Case, w: World, d: Dispatch): World {
    var t := Turned(c, w);
    Turned(c, if Sent(d) then Marked(t) else t)
  }

  predicate StopsAt(row: Job, d: Dispatch) {
    CancelledOrAsked(row) || (!Final(row) && d.Unanswered? && d.stopped)
  }

  /** The job was cancelled, or its context was: what happens to the credits depends on whether the call went out. */
  function DispatchStopped(c: Case, w: World, d: Dispatch): End {
    var s := if CancelledOrAsked(w.row) then w.(job := w.row) else w;
    if Sent(d) then End(StoppedAfter(c, s), CancelledAfterUpstream, [], c.requested, 0)
    else End(StoppedBefore(c, s, false), CancelledBeforeUpstream, [], c.requested, 0)
  }

  /** The job was not cancelled: another writer has finished it, or it is failed or settled here. */
  function Resolved(c: Case, w: World, d: Dispatch): End {
    if Final(w.row) then End(w.(job := w.row), FinishedElsewhere, [], c.requested, 0)
    else match d
      case Unanswered(_, _) => End(UpstreamFailure(c, w, "provider_error"), UpstreamFailed, [], c.requested, 0)
      case Answered(items) => AnswerSettled(c, w, items)
  }

  function AfterDispatch(c: Case, w: World, d: Dispatch): End {
    if StopsAt(w.row, d) then DispatchStopped(c, w, d) else Resolved(c, w, d)
  }

  /** A run, from the reservation to its end. */
  function Executed(c: Case, w: World, d: Dispatch): End {
    match Begun(c, w)
    case Ended(z) => z
    case Going(s) => AfterDispatch(c, CallMade(c, s, d), d)
  }

  // Where a run can go.

  /** The run goes on with the reservation on the books, or has ended well. */
  ghost predicate Leads(c: Case, w: World, start: int, stage: Stage, e: Trust) {
    match stage
    case Going(s) => Opened(c, s, start, e) && w.outside <= s.outside && (e.alone ==> s.outside == w.outside)
    case Ended(z) => Ends(c, w, start, z, e)
  }

  lemma LeadsLater(c: Case, w: World, t: World, start: int, stage: Stage, e: Trust)
    requires w.outside <= t.outside && (e.alone ==> t.outside == w.outside) && Leads(c, t, start, stage, e)
    ensures Leads(c, w, start, stage, e)
  {
  }

  lemma AddedOpens(c: Case, w: World, e: Trust, s: World, r: Reservation)
    requires Valid(c, w, e) && w.outside == 0 && r.reply.Done? && Added(c, w, s, FirstCost(c), r, e)
    ensures Leads(c, w, Holding(c, w), Going(s), e)
  {
    HeldIsNonNegative(w.books, c.user, c.generation);
  }

  lemma RefusedEnds(c: Case, w: World, e: Trust, s: World, r: Reservation, w': World)
    requires Valid(c, w, e) && w.outside == 0 && !r.reply.Done? && Added(c, w, s, FirstCost(c), r, e)
    requires w' == s.(row := w'.row, job := w'.job) && w'.row.status == Status.Failed
    ensures Ends(c, w, Holding(c, w), End(w', Refusal(r), [], c.requested, r.leaked), e)
  {
    SameBooksValid(c, s, w', e);
  }

  /** The first reservation is all there, or the job has failed and, if the undoing works, nothing is held for it. */
  lemma ReservedLeads(c: Case, w: World, e: Trust)
    requires Valid(c, w, e) && w.outside == 0
    ensures Leads(c, w, Holding(c, w), FirstReserved(c, w), e)
    ensures FirstReserved(c, w).Ended? ==>
              FirstReserved(c, w).end.outcome in {SubscriptionStoreFailed, InsufficientCredits, WalletStoreFailed}
  {
    var r, s := Drawn(c, w, FirstCost(c)), AfterDraw(c, w, FirstCost(c));
    DrawnAdds(c, w, e, FirstCost(c));
    if r.reply.Done? {
      AddedOpens(c, w, e, s, r);
    } else {
      FinishedRow(s, Status.Failed, "credit", RefusalCode(Refusal(r)));
      RefusedEnds(c, w, e, s, r, Finished(s, Status.Failed, "credit", RefusalCode(Refusal(r))));
    }
  }

  lemma SameBooksOpened(c: Case, w: World, w': World, start: int, e: Trust)
    requires Opened(c, w, start, e) && w' == w.(row := w'.row, job := w'.job)
    ensures Opened(c, w', start, e)
  {
  }

  lemma LookedLeads(c: Case, w: World, e: Trust, start: int)
    requires Opened(c, w, start, e)
    ensures Leads(c, w, start, Looked(c, w), e)
    ensures Looked(c, w).Ended? ==> Looked(c, w).end.outcome.CancelledBeforeUpstream?
  {
    var t := Turned(c, w);
    TurnGivesBack(c, w, e);
    OpenedStays(c, w, t, start, e);
    if CancelledOrAsked(t.row) {
      SameBooksOpened(c, t, t.(job := t.row), start, e);
      StoppedBeforeEnds(c, t.(job := t.row), e, start, true);
      LeadsLater(c, w, t.(job := t.row), start, Ended(CancelledEarly(c, t)), e);
    }
  }

  lemma ApproachedLeads(c: Case, w: World, e: Trust, start: int)
    requires Opened(c, w, start, e)
    ensures Leads(c, w, start, Approached(c, w), e)
    ensures Approached(c, w).Ended? ==> Approached(c, w).end.outcome.CancelledBeforeUpstream?
  {
    var s := Saved(Saved(Turned(c, w)));
    TurnGivesBack(c, w, e);
    OpenedStays(c, w, Turned(c, w), start, e);
    SameBooksOpened(c, Turned(c, w), s, start, e);
    LookedLeads(c, s, e, start);
    var stage := Looked(c, s);
    if stage.Going? { SecondLookLeads(c, stage.world, e, start); }
    LookLeads(c, w, s, start, stage, e);
  }

  lemma SecondLookLeads(c: Case, t: World, e: Trust, start: int)
    requires Opened(c, t, start, e)
    ensures Leads(c, t, start, Looked(c, Dispatching(t)), e)
    ensures Looked(c, Dispatching(t)).Ended? ==> Looked(c, Dispatching(t)).end.outcome.CancelledBeforeUpstream?
  {
    SameBooksOpened(c, t, Dispatching(t), start, e);
    LookedLeads(c, Dispatching(t), e, start);
    LeadsLater(c, t, Dispatching(t), start, Looked(c, Dispatching(t)), e);
  }

  lemma LookLeads(c: Case, w: World, s: World, start: int, stage: Stage, e: Trust)
    requires w.outside <= s.outside && (e.alone ==> s.outside == w.outside) && Leads(c, s, start, stage, e)
    requires stage.Going? ==> Leads(c, stage.world, start, Looked(c, Dispatching(stage.world)), e)
    ensures Leads(c, w, start, if stage.Going? then Looked(c, Dispatching(stage.world)) else stage, e)
  {
  }

  predicate EndsEarly(o: Outcome) {
    o in {SubscriptionStoreFailed, InsufficientCredits, WalletStoreFailed, CancelledBeforeUpstream}
  }

  lemma BegunLeads(c: Case, w: World, e: Trust)
    requires Valid(c, w, e) && w.outside == 0
    ensures Leads(c, w, Holding(c, w), Begun(c, w), e)
    ensures Begun(c, w).Ended? ==> EndsEarly(Begun(c, w).end.outcome)
  {
    ReservedLeads(c, w, e);
    var first := FirstReserved(c, w);
    if first.Going? {
      ApproachedLeads(c, first.world, e, Holding(c, w));
      LeadsLater(c, w, first.world, Holding(c, w), Approached(c, first.world), e);
    }
  }

  lemma CallStaysOpened(c: Case, w: World, e: Trust, start: int, d: Dispatch)
    requires Opened(c, w, start, e)
    ensures Leads(c, w, start, Going(CallMade(c, w, d)), e)
  {
    var t := Turned(c, w);
    var m := if Sent(d) then Marked(t) else t;
    TurnGivesBack(c, w, e);
    OpenedStays(c, w, t, start, e);
    SameBooksOpened(c, t, m, start, e);
    TurnGivesBack(c, m, e);
    OpenedStays(c, m, Turned(c, m), start, e);
  }

  /** What a provider result leads to when nobody else acts and nothing fails. */
  function ProviderOutcome(c: Case, d: Dispatch): Outcome {
    match d
    case Answered(items) => if ImagesAt(KeptOf(items, c.settings.maxCount)) == {} then EmptyResponse else Delivered
    case Unanswered(sent, stopped) =>
      if !stopped then UpstreamFailed else if sent then CancelledAfterUpstream else CancelledBeforeUpstream
  }

  /** How the outcome follows from the provider's result and from the row that was found. */
  ghost predicate Exits(c: Case, w: World, d: Dispatch, z: End, e: Trust) {
    match z.outcome
    case CancelledBeforeUpstream => StopsAt(w.row, d) && !Sent(d)
    case CancelledAfterUpstream => Sent(d) && (d.Unanswered? ==> z.billed == c.requested)
    case FinishedElsewhere => Final(w.row) && !CancelledOrAsked(w.row) && z.world.row == w.row
    case UpstreamFailed => d.Unanswered?
    case EmptyResponse => d.Answered? && Answers(c, w, d.items, z, e)
    case BillingFailed => d.Answered? && Answers(c, w, d.items, z, e)
    case Delivered => d.Answered? && Answers(c, w, d.items, z, e)
    case _ => false
  }

  lemma DispatchStoppedEnds(c: Case, w: World, e: Trust, start: int, d: Dispatch)
    requires Opened(c, w, start, e) && StopsAt(w.row, d)
    ensures Ends(c, w, start, DispatchStopped(c, w, d), e) && Exits(c, w, d, DispatchStopped(c, w, d), e)
  {
    var s := if CancelledOrAsked(w.row) then w.(job := w.row) else w;
    SameBooksOpened(c, w, s, start, e);
    if Sent(d) {
      OpenedIsFull(c, s, start, e);
      StoppedAfterEnds(c, s, e, start, c.requested);
    } else {
      StoppedBeforeEnds(c, s, e, start, false);
    }
    LeadsLater(c, w, s, start, Ended(DispatchStopped(c, w, d)), e);
  }

  lemma OpenedIsFull(c: Case, w: World, start: int, e: Trust)
    requires Opened(c, w, start, e)
    ensures FullyCharged(c, w, start, c.requested, e)
  {
  }

  lemma ResolvedEnds(c: Case, w: World, e: Trust, start: int, d: Dispatch)
    requires Opened(c, w, start, e) && !StopsAt(w.row, d)
    ensures Ends(c, w, start, Resolved(c, w, d), e) && Exits(c, w, d, Resolved(c, w, d), e)
    ensures e.calm && !Final(w.row) ==>
              && Resolved(c, w, d).outcome == ProviderOutcome(c, d)
              && (d.Answered? ==> Answers(c, w, d.items, Resolved(c, w, d), e))
  {
    if Final(w.row) {
      SameBooksOpened(c, w, w.(job := w.row), start, e);
    } else {
      match d
      case Unanswered(_, _) => UpstreamFailureEnds(c, w, e, start, UpstreamFailed, "provider_error");
      case Answered(items) =>
        AnswerEnds(c, w, e, start, items);
        CappedIs(items, c.settings.maxCount);
        CountIs(KeptOf(items, c.settings.maxCount));
    }
  }

  lemma AfterDispatchEnds(c: Case, w: World, e: Trust, start: int, d: Dispatch)
    requires Opened(c, w, start, e)
    ensures Ends(c, w, start, AfterDispatch(c, w, d), e) && Exits(c, w, d, AfterDispatch(c, w, d), e)
    ensures e.calm && !Final(w.row) && !CancelledOrAsked(w.row) ==>
              && AfterDispatch(c, w, d).outcome == ProviderOutcome(c, d)
              && (d.Answered? ==> Answers(c, w, d.items, AfterDispatch(c, w, d), e))
  {
    if StopsAt(w.row, d) { DispatchStoppedEnds(c, w, e, start, d); } else { ResolvedEnds(c, w, e, start, d); }
  }

  /** Every exit of a run, for every script: the books, the record, and which provider results lead there. */
  lemma RunEnds(c: Case, w: World, e: Trust, d: Dispatch)
    requires Valid(c, w, e) && w.outside == 0
    ensures Ends(c, w, Holding(c, w), Executed(c, w, d), e)
    ensures Begun(c, w).Ended? ==> EndsEarly(Executed(c, w, d).outcome)
    ensures Begun(c, w).Going? ==> Exits(c, CallMade(c, Begun(c, w).world, d), d, Executed(c, w, d), e)
  {
    BegunLeads(c, w, e);
    var begun := Begun(c, w);
    if begun.Going? {
      var s, start := begun.world, Holding(c, w);
      CallStaysOpened(c, s, e, start, d);
      AfterDispatchEnds(c, CallMade(c, s, d), e, start, d);
      LeadsLater(c, s, CallMade(c, s, d), start, Ended(Executed(c, w, d)), e);
      LeadsLater(c, w, s, start, Ended(Executed(c, w, d)), e);
    }
  }

  // --------------------------------------------------------------------------------------------
  // What the record says

  /** Status, stage and error that go with each outcome; a job finished elsewhere keeps what it has. */
  predicate Says(row: Job, o: Outcome) {
    match o
    case SubscriptionStoreFailed => Reads(row, Status.Failed, "credit", "subscription_credit_reserve_failed")
    case InsufficientCredits => Reads(row, Status.Failed, "credit", "insufficient_credits")
    case WalletStoreFailed => Reads(row, Status.Failed, "credit", "credit_reserve_failed")
    case CancelledBeforeUpstream => Reads(row, Cancelled, "cancelled", "cancelled")
    case CancelledAfterUpstream => Reads(row, Cancelled, "cancelled", "cancelled")
    case FinishedElsewhere => row.status in {Succeeded, Status.Failed}
    case UpstreamFailed => row.status == Status.Failed && row.stage == "upstream"
    case EmptyResponse => Reads(row, Status.Failed, "upstream", "provider_empty_response")
    case BillingFailed => Reads(row, Status.Failed, "credit", "credit_reserve_failed")
    case Delivered => Reads(row, Succeeded, "finished", "")
  }

  predicate Reads(row: Job, status: Status, stage: string, errorCode: string) {
    row.status == status && row.stage == stage && row.errorCode == errorCode
  }

  lemma FinishedReads(w: World, status: Status, stage: string, errorCode: string)
    requires status == Cancelled || status == Succeeded || status == Status.Failed
    ensures Reads(Finished(w, status, stage, errorCode).row, status, stage, errorCode)
  {
    FinishedRow(w, status, stage, errorCode);
  }

  lemma StoppedReads(c: Case, w: World, early: bool)
    ensures Reads(StoppedBefore(c, w, early).row, Cancelled, "cancelled", "cancelled")
    ensures Reads(StoppedAfter(c, w).row, Cancelled, "cancelled", "cancelled")
  {
    var s := Repaid(c, w, FirstCost(c));
    FinishedReads(if early then s.(job := s.job.(creditRefunded := s.refunded)) else s, Cancelled, "cancelled",
        "cancelled");
    FinishedReads(RefundsSynced(c, w), Cancelled, "cancelled", "cancelled");
  }

  lemma FailedReads(w: World, stage: string, errorCode: string)
    ensures Reads(FailedWith(w, stage, errorCode).row, Status.Failed, stage, errorCode)
  {
    FinishedReads(w.(job := w.job.(creditRefunded := w.refunded)), Status.Failed, stage, errorCode);
  }

  lemma AnswerSays(c: Case, w: World, items: seq<Item>)
    ensures Says(AnswerSettled(c, w, items).world.row, AnswerSettled(c, w, items).outcome)
  {
    var kept := Capped(items, c.settings.maxCount);
    FailedReads(RepaidOnFailure(c, w, FirstCost(c)), "upstream", "provider_empty_response");
    if Count(kept) > 0 { ClosedSays(c, kept, ChargedFor(c, w, Count(kept))); }
  }

  lemma ClosedSays(c: Case, kept: seq<Item>, ch: Charge)
    ensures Says(Closed(c, kept, ch).world.row, Closed(c, kept, ch).outcome)
  {
    if ch.reply.StoreError? {
      var s := ReservedSynced(c, ch.world);
      FailedReads(RepaidOnFailure(c, s, ReservedRead(c, ch.world)), "credit", "credit_reserve_failed");
    } else {
      ShownSays(c, ch.world, if ch.reply.Insufficient? then Limit(kept, ch.billed) else kept, ch.billed);
    }
  }

  lemma ShownSays(c: Case, w: World, shown: seq<Item>, billed: int)
    ensures Says(Shown(c, w, shown, billed).world.row, Shown(c, w, shown, billed).outcome)
  {
    NotedTurn(c, w, Count(shown));
    var t := Turned(c, Noted(w, Count(shown)));
    StoppedReads(c, t, false);
    var s := ReservedSynced(c, t);
    FinishedReads(s.(job := s.job.(creditRefunded := s.refunded)), Succeeded, "finished", "");
  }

  lemma AfterDispatchSays(c: Case, w: World, d: Dispatch)
    ensures Says(AfterDispatch(c, w, d).world.row, AfterDispatch(c, w, d).outcome)
  {
    if StopsAt(w.row, d) { DispatchStoppedSays(c, w, d); } else { ResolvedSays(c, w, d); }
  }

  lemma DispatchStoppedSays(c: Case, w: World, d: Dispatch)
    ensures Says(DispatchStopped(c, w, d).world.row, DispatchStopped(c, w, d).outcome)
  {
    StoppedReads(c, if CancelledOrAsked(w.row) then w.(job := w.row) else w, false);
  }

  lemma ResolvedSays(c: Case, w: World, d: Dispatch)
    requires !StopsAt(w.row, d)
    ensures Says(Resolved(c, w, d).world.row, Resolved(c, w, d).outcome)
  {
    FailedReads(RepaidOnFailure(c, w, FirstCost(c)), "upstream", "provider_error");
    if d.Answered? { AnswerSays(c, w, d.items); }
  }

  lemma LookedSays(c: Case, w: World)
    ensures Looked(c, w).Ended? ==> Says(Looked(c, w).end.world.row, Looked(c, w).end.outcome)
  {
    var t := Turned(c, w);
    StoppedReads(c, t.(job := t.row), true);
  }

  lemma BegunSays(c: Case, w: World)
    ensures Begun(c, w).Ended? ==> Says(Begun(c, w).end.world.row, Begun(c, w).end.outcome)
  {
    var r, s := Drawn(c, w, FirstCost(c)), AfterDraw(c, w, FirstCost(c));
    FinishedReads(s, Status.Failed, "credit", RefusalCode(Refusal(r)));
    if r.reply.Done? { ApproachedSays(c, s); }
  }

  lemma ApproachedSays(c: Case, w: World)
    ensures Approached(c, w).Ended? ==> Says(Approached(c, w).end.world.row, Approached(c, w).end.outcome)
  {
    var s := Saved(Saved(Turned(c, w)));
    LookedSays(c, s);
    if Looked(c, s).Going? { LookedSays(c, Dispatching(Looked(c, s).world)); }
  }

  /** Whatever others do and whatever fails, the record names the outcome. */
  lemma RecordSays(c: Case, w: World, d: Dispatch)
    ensures Says(Executed(c, w, d).world.row, Executed(c, w, d).outcome)
  {
    BegunSays(c, w);
    if Begun(c, w).Going? { AfterDispatchSays(c, CallMade(c, Begun(c, w).world, d), d); }
  }

  // --------------------------------------------------------------------------------------------
  // What is paid

  /** The price of the images charged, on top of what was held before. */
  function Due(c: Case, w: World, z: End): int {
    Holding(c, w) + Tracked(c.generation, Cost(c.settings.unit, z.billed))
  }

  /**
   If nobody else touches the job, whatever happens elsewhere and whichever reservations fail, delivered
   images are paid for; exactly so unless a partial refund went to the wrong one of several subscriptions.
   */
  lemma DeliveredImagesArePaid(c: Case, w: World, e: Trust, d: Dispatch)
    requires Valid(c, w, e) && w.outside == 0 && e.reliable && e.alone && Executed(c, w, d).outcome.Delivered?
    ensures var z := Executed(c, w, d);
            && Holding(c, z.world) >= Due(c, w, z)
            && (e.single || e.calm || z.billed >= c.requested ==> Holding(c, z.world) == Due(c, w, z))
  {
    RunEnds(c, w, e, d);
    HeldIsNonNegative(w.books, c.user, c.generation);
    EndIsPaid(c, w, e, Executed(c, w, d));
  }

  lemma EndIsPaid(c: Case, w: World, e: Trust, z: End)
    requires Ends(c, w, Holding(c, w), z, e) && 0 <= Holding(c, w) && w.outside == 0 && z.outcome.Delivered?
    ensures e.reliable && e.alone ==> Holding(c, z.world) >= Due(c, w, z)
    ensures Exactly(c, z.billed, e) ==> Holding(c, z.world) == Max(0, Due(c, w, z) - z.world.outside)
    ensures Due(c, w, z) >= 0 && z.world.outside >= 0 && (e.alone ==> z.world.outside == 0)
  {
  }

  /** In general they are paid for exactly if others have given nothing back during the run, or nothing is due. */
  lemma PaidIffNobodyRefunded(c: Case, w: World, e: Trust, d: Dispatch)
    requires Valid(c, w, e) && w.outside == 0 && Executed(c, w, d).outcome.Delivered?
    requires Exactly(c, Executed(c, w, d).billed, e)
    ensures var z := Executed(c, w, d);
            Holding(c, z.world) >= Due(c, w, z) <==> z.world.outside == 0 || Due(c, w, z) == 0
  {
    RunEnds(c, w, e, d);
    HeldIsNonNegative(w.books, c.user, c.generation);
    EndIsPaid(c, w, e, Executed(c, w, d));
  }

  // --------------------------------------------------------------------------------------------
  // Calm runs

  /** A job that runs, in its record and in the worker's copy. */
  predicate Underway(w: World) { w.row.status == Running && w.job.status == Running }

  /** The next `n` turns are quiet. */
  predicate QuietFor(script: Script, n: nat) { forall k :: 0 <= k < n && k < |script| ==> script[k] == QUIET }

  function Past(script: Script, n: nat): Script { if n <= |script| then script[n..] else [] }

  lemma QuietTurn(c: Case, w: World, n: nat)
    requires QuietFor(w.script, n) && n > 0
    ensures Coming(w.script) == QUIET && Turned(c, w) == w.(script := Past(w.script, 1))
    ensures QuietFor(Past(w.script, 1), n - 1)
  {
    assert w.script != [] ==> w.script[0] == QUIET;
    assert Play(c, w.(script := Later(w.script)), []) == w.(script := Later(w.script));
  }

  lemma PastPast(script: Script, m: nat, n: nat)
    ensures Past(Past(script, m), n) == Past(script, m + n)
  {
  }

  /** Four quiet turns leave a running job with its reservation, or end it for want of credits. */
  lemma QuietBegin(c: Case, w: World)
    requires Sound(w.books) && c.user != "" && Underway(w) && QuietFor(w.script, 4)
    ensures var begun := Begun(c, w);
            if Short(w.books, c.user, FirstCost(c))
            then begun.Ended? && begun.end.outcome.InsufficientCredits?
            else begun == Going(Ready(c, w))
    ensures Ready(c, w).row.status == Running && Ready(c, w).job.status == Running
  {
    QuietTurn(c, w, 4);
    ReservingFailsIff(w.books, c.user, c.generation, FirstCost(c));
    ReservingTakes(w.books, c.user, c.generation, FirstCost(c), FINE);
    var s := AfterDraw(c, w, FirstCost(c));
    if !Short(w.books, c.user, FirstCost(c)) { QuietApproach(c, s); PastPast(w.script, 1, 3); }
  }

  /** The worker's saves before the call, on an undisturbed row. */
  function Approaching(w: World): World { Dispatching(Saved(Saved(w))) }

  /** Where four quiet turns lead. */
  function Ready(c: Case, w: World): World {
    Approaching(w.(books := Reserving(w.books, c.user, c.generation, FirstCost(c), FINE).books,
                 script := Past(w.script, 4)))
  }

  lemma QuietApproach(c: Case, w: World)
    requires Underway(w) && QuietFor(w.script, 3)
    ensures Approached(c, w) == Going(Approaching(w.(script := Past(w.script, 3)))) && Underway(Approaching(w))
  {
    QuietTurn(c, w, 3);
    var s := Saved(Saved(w.(script := Past(w.script, 1))));
    QuietTurn(c, s, 2);
    PastPast(w.script, 1, 1);
    var t := Dispatching(s.(script := Past(w.script, 2)));
    QuietTurn(c, t, 1);
    PastPast(w.script, 2, 1);
  }

  /** What a run costs at each of its ends when nobody else acts and nothing fails. */
  function CalmCharge(c: Case, outcome: Outcome, billed: int): int {
    match outcome
    case Delivered => Tracked(c.generation, Cost(c.settings.unit, billed))
    case CancelledAfterUpstream => Tracked(c.generation, FirstCost(c))
    case UpstreamFailed => if c.settings.refundOnFailure then 0 else Tracked(c.generation, FirstCost(c))
    case EmptyResponse => if c.settings.refundOnFailure then 0 else Tracked(c.generation, FirstCost(c))
    case _ => 0
  }

  /** How a calm run ends, told from the balance, the settings and the provider's result. */
  ghost predicate CalmEnd(c: Case, w: World, d: Dispatch, z: End) {
    if Short(w.books, c.user, FirstCost(c))
    then z.outcome == InsufficientCredits && z.delivered == [] && Holding(c, z.world) == Holding(c, w)
    else
      var b := Reserving(w.books, c.user, c.generation, FirstCost(c), FINE).books;
      && z.outcome == ProviderOutcome(c, d)
      && (z.outcome.Delivered? ==>
            && d.Answered? && z.billed == CalmBill(c, b, |ImagesAt(KeptOf(d.items, c.settings.maxCount))|)
            && Shows(d.items, c.settings.maxCount, z.billed, z.delivered))
      && (!z.outcome.Delivered? ==> z.delivered == [])
      && Holding(c, z.world) == Holding(c, w) + CalmCharge(c, z.outcome, z.billed)
  }

  /**
   A calm run of a running job, for any number of subscriptions: the balance and the provider's result
   decide how it ends, what is charged, what is delivered and what is held.
   */
  lemma CalmRun(c: Case, w: World, d: Dispatch)
    requires c.user != "" && c.requested >= 1 && Sound(w.books) && w.outside == 0
             && w.refunded <= Refunded(w.books, c.user, c.generation)
    requires Calm(w.script) && Underway(w)
    ensures CalmEnd(c, w, d, Executed(c, w, d))
  {
    var e := Trust(true, false, true, true);
    HeldIsNonNegative(w.books, c.user, c.generation);
    RunEnds(c, w, e, d);
    QuietBegin(c, w);
    if Short(w.books, c.user, FirstCost(c)) {
      ShortEndFollows(c, w, d, Executed(c, w, d), e);
    } else {
      CalmExit(c, w, d, e);
      CalmEndFollows(c, w, d, CallMade(c, Ready(c, w), d), Executed(c, w, d), e);
    }
  }

  lemma CalmExit(c: Case, w: World, d: Dispatch, e: Trust)
    requires Valid(c, w, e) && e.calm && w.outside == 0 && Underway(w)
    requires !Short(w.books, c.user, FirstCost(c))
    ensures var s, z := CallMade(c, Ready(c, w), d), Executed(c, w, d);
            && s.books == Ready(c, w).books && Exits(c, s, d, z, e) && z.outcome == ProviderOutcome(c, d)
            && (d.Answered? ==> Answers(c, s, d.items, z, e))
  {
    QuietBegin(c, w);
    BegunLeads(c, w, e);
    QuietCall(c, Ready(c, w), d);
    CallStaysOpened(c, Ready(c, w), e, Holding(c, w), d);
    AfterDispatchEnds(c, CallMade(c, Ready(c, w), d), e, Holding(c, w), d);
  }

  lemma QuietCall(c: Case, w: World, d: Dispatch)
    requires QuietFor(w.script, 2) && Underway(w)
    ensures CallMade(c, w, d).books == w.books && CallMade(c, w, d).row.status == Running
  {
    QuietTurn(c, w, 2);
    var t := w.(script := Past(w.script, 1));
    QuietTurn(c, if Sent(d) then Marked(t) else t, 1);
  }

  lemma ShortEndFollows(c: Case, w: World, d: Dispatch, z: End, e: Trust)
    requires Ends(c, w, Holding(c, w), z, e) && w.outside == 0 && e.alone && e.reliable
    requires Short(w.books, c.user, FirstCost(c)) && z.outcome.InsufficientCredits?
    ensures CalmEnd(c, w, d, z)
  {
  }

  lemma CalmEndFollows(c: Case, w: World, d: Dispatch, s: World, z: End, e: Trust)
    requires Ends(c, w, Holding(c, w), z, e) && w.outside == 0 && 0 <= Holding(c, w)
    requires e == Trust(true, false, true, true) && c.requested >= 1
    requires !Short(w.books, c.user, FirstCost(c))
    requires s.books == Reserving(w.books, c.user, c.generation, FirstCost(c), FINE).books
    requires z.outcome == ProviderOutcome(c, d) && (d.Answered? ==> Answers(c, s, d.items, z, e))
    requires Exits(c, s, d, z, e)
    ensures CalmEnd(c, w, d, z)
  {
    if d.Answered? {
      CappedIs(d.items, c.settings.maxCount);
      CountIs(KeptOf(d.items, c.settings.maxCount));
      PaidIs(d.items, c.settings.maxCount, z.billed);
    }
  }

  /** How many images of an answer without blanks are kept. */
  function MostKept(c: Case, items: seq<Item>): nat {
    if c.settings.maxCount > 0 then Min(|items|, c.settings.maxCount) else |items|
  }

  /** The first `n` items are delivered; images that did not come are charged unless both settings refund them. */
  ghost predicate FirstDelivered(c: Case, w: World, items: seq<Item>, n: nat, z: End) {
    var charged := if c.settings.refundOnFailure && c.settings.refundPartial then n else Max(n, c.requested);
    && z.outcome == Delivered && n <= |items| && z.delivered == items[..n]
    && Holding(c, z.world) == Holding(c, w) + Tracked(c.generation, c.settings.unit * charged)
  }

  /** As many images as came and are kept, or, beyond those asked for, as many as can be paid one by one. */
  function CalmCount(c: Case, w: World, items: seq<Item>): nat {
    var most := MostKept(c, items);
    if most <= c.requested then most
    else c.requested + CanPay(c, Reserving(w.books, c.user, c.generation, FirstCost(c), FINE).books, most - c.requested)
  }

  /** The client gets nothing and pays nothing. */
  ghost predicate NothingDelivered(c: Case, w: World, z: End) {
    z.outcome == InsufficientCredits && z.delivered == [] && Holding(c, z.world) == Holding(c, w)
  }

  /** The calm run of an answer in which every item is an image. */
  lemma ImagesCalmRun(c: Case, w: World, items: seq<Item>)
    requires c.user != "" && c.requested >= 1 && Sound(w.books) && w.outside == 0
             && w.refunded <= Refunded(w.books, c.user, c.generation)
    requires Calm(w.script) && Underway(w) && AllUsable(items) && items != []
    requires !Short(w.books, c.user, FirstCost(c))
    ensures FirstDelivered(c, w, items, CalmCount(c, w, items), Executed(c, w, Answered(items)))
  {
    CalmRun(c, w, Answered(items));
    ImagesFollow(c, w, items, Executed(c, w, Answered(items)));
  }

  lemma ImagesFollow(c: Case, w: World, items: seq<Item>, z: End)
    requires CalmEnd(c, w, Answered(items), z) && !Short(w.books, c.user, FirstCost(c))
    requires c.requested >= 1 && AllUsable(items) && items != []
    ensures FirstDelivered(c, w, items, CalmCount(c, w, items), z)
  {
    MostAreKept(c, items);
    CostIs(c.settings.unit, z.billed);
    var most := MostKept(c, items);
    assert items[..most][..CalmCount(c, w, items)] == items[..CalmCount(c, w, items)];
  }

  lemma MostAreKept(c: Case, items: seq<Item>)
    requires AllUsable(items)
    ensures KeptOf(items, c.settings.maxCount) == items[..MostKept(c, items)]
    ensures |ImagesAt(items[..MostKept(c, items)])| == MostKept(c, items)
  {
    CountIs(items);
    CountBounds(items);
    CountIs(items[..MostKept(c, items)]);
    CountBounds(items[..MostKept(c, items)]);
    assert items[..|items|] == items;
  }

  /**
   With one subscription in use the funds alone decide: a run that can pay for what was asked delivers as
   many of the images beyond that as the rest of the funds pays for.
   */
  lemma OneSubscriptionCalmRun(c: Case, w: World, items: seq<Item>)
    requires c.user != "" && c.requested >= 1 && Sound(w.books) && w.outside == 0
             && w.refunded <= Refunded(w.books, c.user, c.generation)
    requires Calm(w.script) && Underway(w) && AllUsable(items) && items != []
    requires c.settings.unit > 0 && OneWithCredits(w.books.subscriptions, c.user)
    ensures var funds, unit, most := Funds(w.books, c.user), c.settings.unit, MostKept(c, items);
            if funds < unit * c.requested then NothingDelivered(c, w, Executed(c, w, Answered(items)))
            else FirstDelivered(c, w, items, if most <= c.requested then most else Min(most, funds / unit),
                                Executed(c, w, Answered(items)))
  {
    CostIs(c.settings.unit, c.requested);
    ShortIff(w.books, c.user, FirstCost(c));
    if Short(w.books, c.user, FirstCost(c)) {
      CalmRun(c, w, Answered(items));
    } else {
      ImagesCalmRun(c, w, items);
      FundsCount(c, w, items);
    }
  }

  lemma FundsCount(c: Case, w: World, items: seq<Item>)
    requires Sound(w.books) && c.user != "" && c.requested >= 1 && c.settings.unit > 0
    requires OneWithCredits(w.books.subscriptions, c.user) && !Short(w.books, c.user, FirstCost(c))
    ensures var most := MostKept(c, items);
            CalmCount(c, w, items)
            == if most <= c.requested then most else Min(most, Funds(w.books, c.user) / c.settings.unit)
  {
    var b := Reserving(w.books, c.user, c.generation, FirstCost(c), FINE).books;
    var most, funds := MostKept(c, items), Funds(w.books, c.user);
    OneSubscriptionPays(w.books, c.user, c.generation, FirstCost(c));
    CostIs(c.settings.unit, c.requested);
    ShortIff(w.books, c.user, FirstCost(c));
    if most > c.requested { CountByFunds(c, b, most, funds); }
  }

  lemma CountByFunds(c: Case, b: Books, most: nat, funds: nat)
    requires Sound(b) && c.user != "" && c.settings.unit > 0 && OneWithCredits(b.subscriptions, c.user)
    requires most > c.requested && Funds(b, c.user) == funds - c.settings.unit * c.requested >= 0
    ensures c.requested + CanPay(c, b, most - c.requested) == Min(most, funds / c.settings.unit)
  {
    OneSubscriptionAffords(b, c.user, c.generation, c.settings.unit, most - c.requested);
    QuotientShift(funds, c.settings.unit, c.requested);
  }

  lemma QuotientShift(funds: nat, unit: nat, count: nat)
    requires unit > 0 && unit * count <= funds
    ensures (funds - unit * count) / unit + count == funds / unit
  {
    var q := (funds - unit * count) / unit;
    assert funds - unit * count == unit * q + (funds - unit * count) % unit;
    assert unit * (q + count) == unit * q + unit * count;
    QuotientBounds(funds - unit * count, unit);
    QuotientIs(funds, unit, q + count);
  }
}

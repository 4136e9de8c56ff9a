/**
 Three runs of `Settlement` that fall short: images that are delivered unpaid although no store call
 fails, after a cancel or a reconciler pass at the wrong moment, and a refund that leaves credits behind.
 */
module SettlementRuns {
  import opened Basics
  import opened CreditLedger
  import opened JobRecords
  import opened RefundRoutines
  import opened Reservations
  import opened Settlement

  // --------------------------------------------------------------------------------------------
  // Runs that fall short

  /** Quiet turns, then this one, then silence. */
  function Late(n: nat, turn: Turn): Script { seq(n, _ => QUIET) + [turn] }

  lemma LateTurns(n: nat, m: nat, turn: Turn)
    requires m <= n
    ensures QuietFor(Late(n, turn), m) && Past(Late(n, turn), m) == Late(n - m, turn)
    ensures Later(Late(0, turn)) == [] && Coming(Late(0, turn)) == turn
  {
  }

  lemma {:induction false} LateTurn(c: Case, w: World, turn: Turn)
    requires w.script == Late(0, turn)
    ensures Turned(c, w) == Play(c, w.(script := []), turn.actions) && Coming(w.script) == turn
  {
    LateTurns(0, 0, turn);
  }

  lemma {:induction false} PlayOne(c: Case, w: World, a: Action)
    ensures Play(c, w, [a]) == Act(c, w, a)
  {
    assert [a][1..] == [] && Play(c, Act(c, w, a), []) == Act(c, w, a);
  }

  /** A running job that has not gone upstream and has its price on record, at the start of its generation. */
  predicate AtStart(c: Case, w: World) {
    && c.user != "" && c.generation != "" && c.requested >= 1 && c.settings.unit > 0
    && w.outside == 0 && w.refunded <= Refunded(w.books, c.user, c.generation) && Holding(c, w) == 0
    && Underway(w) && !HasUpstreamSent(w.row) && !HasUpstreamSent(w.job) && w.job.creditReserved > 0
    && !Short(w.books, c.user, FirstCost(c))
  }

  /** A newcomer with just enough credits, and a job that has just been marked running. */
  lemma NewcomerIsAtStart(c: Case, job: Job, script: Script)
    requires c.user != "" && c.generation != "" && c.requested >= 1 && c.settings.unit > 0
    requires job.status == Running && BeforeUpstream(job) && job.creditReserved > 0
    ensures var w := World(Books([], map[c.user := FirstCost(c)], []), job, job, 0, 0, script);
            Sound(w.books) && AtStart(c, w)
  {
    var b := Books([], map[c.user := FirstCost(c)], []);
    forall u, g ensures Covered(b, u, g) {}
    forall u ensures Balance(b, u) >= 0 {}
  }

  /** The first reservation of a generation is on these books, and can be given back in full. */
  ghost predicate Reserves(c: Case, w: World, b: Books) {
    && Sound(b) && Held(b, c.user, c.generation) == FirstCost(c)
    && SubscriptionHeld(b, c.user, c.generation) <= LatestUsed(b, c.user, c.generation)
    && Refunded(b, c.user, c.generation) >= w.refunded
  }

  lemma FirstReservation(c: Case, w: World)
    requires Sound(w.books) && AtStart(c, w)
    ensures Reserving(w.books, c.user, c.generation, FirstCost(c), FINE).reply.Done?
    ensures Reserves(c, w, Reserving(w.books, c.user, c.generation, FirstCost(c), FINE).books)
  {
    ReservingTakes(w.books, c.user, c.generation, FirstCost(c), FINE);
    ReservingFailsIff(w.books, c.user, c.generation, FirstCost(c));
  }

  lemma ReadyIsCovered(c: Case, w: World)
    requires Sound(w.books) && AtStart(c, w)
    ensures var s := Ready(c, w);
            Reserves(c, w, s.books) && s.outside == 0 && s.refunded == w.refunded && s.script == Past(w.script, 4)
  {
    FirstReservation(c, w);
  }

  lemma ReadyRow(c: Case, w: World)
    requires AtStart(c, w)
    ensures var s := Ready(c, w);
            && s.row.status == Running && s.job.status == Running && BeforeUpstream(s.row) && s.row.creditReserved > 0
  {
  }

  const CALM := Trust(true, false, true, true)

  /** Everything has been given back, and nobody else acts from now on. */
  lemma EmptiedIsOpened(c: Case, s: World, u: World)
    requires c.user != "" && c.generation != "" && c.requested >= 1
    requires Sound(u.books) && u.script == [] && u.refunded <= Refunded(u.books, c.user, c.generation)
    requires Reserved(u.books, c.user, c.generation) == Reserved(s.books, c.user, c.generation)
    requires Holding(c, s) == FirstCost(c) && Holding(c, u) == 0
    requires u.outside == Refunded(u.books, c.user, c.generation) - Refunded(s.books, c.user, c.generation)
    ensures Opened(c, u, 0, CALM) && u.outside == FirstCost(c)
  {
    PartIsCovered(u.books, c.user, c.generation);
  }

  /** Between the last look and the mark a cancel gives everything back, and the mark forgets it. */
  lemma CancelInTheCall(c: Case, s: World, d: Dispatch)
    requires Sound(s.books) && c.user != "" && c.generation != "" && s.outside == 0 && Sent(d)
    requires SubscriptionHeld(s.books, c.user, c.generation) <= LatestUsed(s.books, c.user, c.generation)
    requires s.row.status == Running && s.job.status == Running && BeforeUpstream(s.row) && s.row.creditReserved > 0
    requires s.script == Late(0, Turn([OnJob(CancelCall(false, false, NoFault, NoFault))], FINE))
    ensures var u := CallMade(c, s, d);
            && Sound(u.books) && u.script == [] && Holding(c, u) == 0 && u.row.status == Running
            && Reserved(u.books, c.user, c.generation) == Reserved(s.books, c.user, c.generation)
            && u.outside == Refunded(u.books, c.user, c.generation) - Refunded(s.books, c.user, c.generation) >= 0
            && u.refunded == s.refunded
  {
    var r := CancelCall(false, false, NoFault, NoFault);
    var t := Act(c, s.(script := []), OnJob(r));
    LateTurn(c, s, Turn([OnJob(r)], FINE));
    PlayOne(c, s.(script := []), OnJob(r));
    var desk := Desk(s.books, s.row);
    CallStaysSound(desk, c.user, c.generation, r);
    ForgottenCancelIsDelivered(desk, c.user, c.generation, s.job.(upstreamSent := true, stage := "upstream"),
        s.job.(status := Succeeded));
    QuietTurn(c, Marked(t), 1);
  }

  /**
   A cancel at the wrong moment: between the last look and the upstream mark it gives the whole
   reservation back, the worker's save forgets it, and the images asked for are delivered unpaid.
   */
  lemma ForgottenCancelIsUnpaid(c: Case, w: World, items: seq<Item>)
    requires Sound(w.books) && AtStart(c, w) && Count(Capped(items, c.settings.maxCount)) >= 1
    requires w.script == Late(4, Turn([OnJob(CancelCall(false, false, NoFault, NoFault))], FINE))
    ensures var z := Executed(c, w, Answered(items));
            && z.outcome.Delivered?
            && Holding(c, z.world) == Max(0, Cost(c.settings.unit, z.billed) - FirstCost(c)) < Due(c, w, z)
  {
    var u := ForgottenByTheMark(c, w, Answered(items));
    UnpaidAfterCall(c, w, u, items);
  }

  lemma UnpaidAfterCall(c: Case, w: World, u: World, items: seq<Item>)
    requires AtStart(c, w) && Opened(c, u, 0, CALM) && u.outside == FirstCost(c) && u.row.status == Running
    requires Count(Capped(items, c.settings.maxCount)) >= 1
    ensures var z := AfterDispatch(c, u, Answered(items));
            && z.outcome.Delivered?
            && Holding(c, z.world) == Max(0, Cost(c.settings.unit, z.billed) - FirstCost(c)) < Due(c, w, z)
  {
    AfterDispatchEnds(c, u, CALM, 0, Answered(items));
    FirstCostIsPositive(c);
    UnpaidEnd(c, w, u, AfterDispatch(c, u, Answered(items)));
  }

  lemma ForgottenByTheMark(c: Case, w: World, d: Dispatch) returns (u: World)
    requires Sound(w.books) && AtStart(c, w) && Sent(d)
    requires w.script == Late(4, Turn([OnJob(CancelCall(false, false, NoFault, NoFault))], FINE))
    ensures Executed(c, w, d) == AfterDispatch(c, u, d)
    ensures Opened(c, u, 0, CALM) && u.outside == FirstCost(c) && u.row.status == Running
  {
    LateTurns(4, 4, Turn([OnJob(CancelCall(false, false, NoFault, NoFault))], FINE));
    QuietBegin(c, w);
    ReadyIsCovered(c, w);
    ReadyRow(c, w);
    CancelInTheCall(c, Ready(c, w), d);
    u := CallMade(c, Ready(c, w), d);
    EmptiedIsOpened(c, Ready(c, w), u);
  }

  lemma FirstCostIsPositive(c: Case)
    requires c.settings.unit > 0
    ensures forall n: int {:trigger Cost(c.settings.unit, n)} :: Cost(c.settings.unit, n) > 0
  {
    forall n: int ensures Cost(c.settings.unit, n) > 0 {
      CostMonotone(c.settings.unit, 1, Max(1, n));
      assert Cost(c.settings.unit, 1) == c.settings.unit;
    }
  }

  lemma UnpaidEnd(c: Case, w: World, u: World, z: End)
    requires AtStart(c, w) && Ends(c, u, 0, z, CALM) && z.outcome.Delivered? && u.outside == FirstCost(c) > 0
    requires Cost(c.settings.unit, z.billed) > 0
    ensures Holding(c, z.world) == Max(0, Cost(c.settings.unit, z.billed) - FirstCost(c)) < Due(c, w, z)
  {
  }

  /** A quiet call to the provider. */
  function AtProvider(w: World): World { Marked(w).(script := Past(w.script, 2)) }

  lemma QuietMark(c: Case, w: World, d: Dispatch)
    requires QuietFor(w.script, 2) && Underway(w) && Sent(d)
    ensures CallMade(c, w, d) == AtProvider(w)
    ensures AtProvider(w).row.status == Running && AtProvider(w).job.status == Running
  {
    QuietTurn(c, w, 2);
    var t := w.(script := Past(w.script, 1));
    QuietTurn(c, Marked(t), 1);
    PastPast(w.script, 1, 1);
  }

  /** A reconciler pass gives everything back and fails the row. */
  lemma ReconciledAtTheEnd(c: Case, s: World, r: Routine)
    requires Sound(s.books) && c.user != "" && c.generation != "" && s.outside == 0
    requires SubscriptionHeld(s.books, c.user, c.generation) <= LatestUsed(s.books, c.user, c.generation)
    requires s.row.status == Running && r == ReconcilePass(NoFault, NoFault)
    requires s.script == Late(0, Turn([OnJob(r)], FINE))
    ensures var t := Turned(c, s);
            && Sound(t.books) && t.script == [] && Holding(c, t) == 0 && !CancelledOrAsked(t.row)
            && Reserved(t.books, c.user, c.generation) == Reserved(s.books, c.user, c.generation)
            && t.outside == Refunded(t.books, c.user, c.generation) - Refunded(s.books, c.user, c.generation) >= 0
            && SameWorker(s, t)
  {
    LateTurn(c, s, Turn([OnJob(r)], FINE));
    PlayOne(c, s.(script := []), OnJob(r));
    CallStaysSound(Desk(s.books, s.row), c.user, c.generation, r);
    ReconciledJobIsDelivered(Desk(s.books, s.row), c.user, c.generation, s.job.(status := Succeeded));
  }

  /** As many images as were asked for: nothing is charged or given back, and the last look decides. */
  lemma {:induction false} AllCame(c: Case, w: World, kept: seq<Item>)
    requires Count(kept) == c.requested
    ensures Billed(c, w, kept) == Shown(c, w, kept, c.requested)
  {
  }

  lemma AnswerGoesOn(c: Case, w: World, items: seq<Item>)
    requires w.row.status == Running && Count(Capped(items, c.settings.maxCount)) >= 1
    ensures AfterDispatch(c, w, Answered(items)) == Billed(c, w, Capped(items, c.settings.maxCount))
  {
  }

  lemma {:induction false} ReconciledIsConcluded(c: Case, w: World, s: World, t: World, shown: seq<Item>)
    requires AtStart(c, w) && Opened(c, Noted(t, Count(shown)), 0, CALM)
    requires t == Turned(c, s) && !CancelledOrAsked(t.row) && t.outside == FirstCost(c)
    ensures var z := Shown(c, s, shown, c.requested);
            z.outcome.Delivered? && Holding(c, z.world) == 0 < Due(c, w, z)
  {
    NotedTurn(c, s, Count(shown));
    var n := Noted(t, Count(shown));
    OpenedIsFull(c, n, 0, CALM);
    SuccessEnds(c, n, CALM, 0, c.requested, shown);
    FirstCostIsPositive(c);
    UnpaidEnd(c, w, n, Shown(c, s, shown, c.requested));
  }

  /**
   A reconciler pass before the last look does the same, even though the job had reached the provider:
   the row it has failed is no cancelled one, and the success replaces it.
   */
  lemma ReconciledJobIsUnpaid(c: Case, w: World, items: seq<Item>)
    requires Sound(w.books) && AtStart(c, w) && Count(Capped(items, c.settings.maxCount)) == c.requested
    requires w.script == Late(6, Turn([OnJob(ReconcilePass(NoFault, NoFault))], FINE))
    ensures var z := Executed(c, w, Answered(items));
            z.outcome.Delivered? && Holding(c, z.world) == 0 < Due(c, w, z)
  {
    var kept := Capped(items, c.settings.maxCount);
    var s, t := QuietUntilTheEnd(c, w, Answered(items), Count(kept));
    AnswerGoesOn(c, s, items);
    AllCame(c, s, kept);
    ReconciledIsConcluded(c, w, s, t, kept);
  }

  /** A run has come back from a call that was sent, and nobody has given anything back. */
  ghost predicate CameBackFromCall(c: Case, w: World, d: Dispatch, s: World) {
    && Executed(c, w, d) == AfterDispatch(c, s, d) && s.row.status == Running && s.row.upstreamSent
    && s.outside == w.outside && s.refunded == w.refunded
  }

  /** Two more quiet turns take a run past the call. */
  lemma QuietAtProvider(c: Case, w: World, r: World, d: Dispatch, left: nat, turn: Turn) returns (s: World)
    requires Begun(c, w) == Going(r) && r.script == Late(left + 2, turn) && Underway(r) && Sent(d)
    requires r.outside == w.outside && r.refunded == w.refunded
    ensures CameBackFromCall(c, w, d, s) && s.books == r.books && s.script == Late(left, turn)
  {
    LateTurns(left + 2, 2, turn);
    QuietMark(c, r, d);
    s := AtProvider(r);
    Continues(c, w, r, s, d);
  }

  lemma Continues(c: Case, w: World, r: World, s: World, d: Dispatch)
    requires Begun(c, w) == Going(r) && CallMade(c, r, d) == s
    ensures Executed(c, w, d) == AfterDispatch(c, s, d)
  {
  }

  /** Four quiet turns take it to the call. */
  lemma QuietToCall(c: Case, w: World, left: nat, turn: Turn) returns (r: World)
    requires Sound(w.books) && c.user != "" && Underway(w) && w.script == Late(left + 4, turn)
    requires !Short(w.books, c.user, FirstCost(c))
    ensures Begun(c, w) == Going(r) && r.row.status == Running && r.job.status == Running
    ensures r.books == Reserving(w.books, c.user, c.generation, FirstCost(c), FINE).books
    ensures r.script == Late(left, turn)
    ensures r.outside == w.outside && r.refunded == w.refunded
  {
    LateTurns(left + 4, 4, turn);
    QuietBegin(c, w);
    r := Ready(c, w);
  }

  lemma QuietUntilTheEnd(c: Case, w: World, d: Dispatch, actual: int) returns (s: World, t: World)
    requires Sound(w.books) && AtStart(c, w) && Sent(d)
    requires w.script == Late(6, Turn([OnJob(ReconcilePass(NoFault, NoFault))], FINE))
    ensures CameBackFromCall(c, w, d, s) && t == Turned(c, s)
    ensures !CancelledOrAsked(t.row) && t.outside == FirstCost(c) && Opened(c, Noted(t, actual), 0, CALM)
  {
    s := ThroughTheCall(c, w, d, 0, Turn([OnJob(ReconcilePass(NoFault, NoFault))], FINE));
    t := ReconciledLate(c, w, s, actual);
  }

  lemma ThroughTheCall(c: Case, w: World, d: Dispatch, left: nat, turn: Turn) returns (s: World)
    requires Sound(w.books) && AtStart(c, w) && Sent(d) && w.script == Late(left + 6, turn)
    ensures CameBackFromCall(c, w, d, s) && s.outside == 0
    ensures s.books == Reserving(w.books, c.user, c.generation, FirstCost(c), FINE).books
    ensures s.script == Late(left, turn)
  {
    var r := QuietToCall(c, w, left + 2, turn);
    s := QuietAtProvider(c, w, r, d, left, turn);
  }

  lemma ReconciledLate(c: Case, w: World, s: World, actual: int) returns (t: World)
    requires Sound(w.books) && AtStart(c, w)
    requires s.books == Reserving(w.books, c.user, c.generation, FirstCost(c), FINE).books
    requires s.row.status == Running && s.outside == 0 && s.refunded == w.refunded
    requires s.script == Late(0, Turn([OnJob(ReconcilePass(NoFault, NoFault))], FINE))
    ensures t == Turned(c, s)
    ensures !CancelledOrAsked(t.row) && t.outside == FirstCost(c) && Opened(c, Noted(t, actual), 0, CALM)
  {
    FirstReservation(c, w);
    t := Turned(c, s);
    ReconciledAtTheEnd(c, s, ReconcilePass(NoFault, NoFault));
    EmptiedIsOpened(c, s, Noted(t, actual));
  }

  // A store error with two subscriptions.

  lemma QuietSync(c: Case, w: World)
    requires QuietFor(w.script, 2)
    ensures ReservedSynced(c, w).books == w.books && ReservedSynced(c, w).script == Past(w.script, 2)
    ensures ReservedRead(c, w) == Reserved(w.books, c.user, c.generation)
  {
    QuietTurn(c, w, 2);
    var t := w.(script := Past(w.script, 1));
    QuietTurn(c, t, 1);
    PastPast(w.script, 1, 1);
  }

  lemma QuietExtension(c: Case, w: World, amount: nat, b: Books)
    requires QuietFor(w.script, 3) && amount > 0
    requires ReserveSubscription(w.books, c.user, amount, c.generation, NoFault) == Posted(b, Done(amount))
    ensures Extension(c, w, amount).Done?
    ensures Extended(c, w, amount).books == b && Extended(c, w, amount).script == Past(w.script, 3)
  {
    QuietTurn(c, w, 3);
    QuietSync(c, AfterDraw(c, w, amount));
    PastPast(w.script, 1, 2);
  }

  const BROKEN := Luck(NoFault, BeforeCommit, NONE)

  lemma BrokenExtension(c: Case, w: World, amount: nat)
    requires w.script == Late(0, Turn([], BROKEN)) && amount > 0 && c.user != ""
    ensures Extension(c, w, amount).StoreError?
    ensures Extended(c, w, amount).books == w.books && Extended(c, w, amount).script == []
  {
    LateTurn(c, w, Turn([], BROKEN));
    assert Play(c, w.(script := []), []) == w.(script := []);
    QuietSync(c, AfterDraw(c, w, amount));
  }

  /** Quiet turns, and a generation that has used up one subscription and drawn on another. */
  lemma BothKeepTheFirst(c: Case, w: World, dd: Draw)
    requires Spans(dd) && dd.user == c.user && dd.generation == c.generation && w.books == BothDrawn(dd)
    requires w.script == [] && c.settings.refundOnFailure
    ensures Holding(c, BillingFailure(c, w)) == dd.first
  {
    BothDrawnHolds(dd);
    QuietSync(c, w);
    var s, total := ReservedSynced(c, w), ReservedRead(c, w);
    QuietTurn(c, s, 1);
    SplitRefundPays(s.books, c.user, c.generation, total, NONE);
    QuietTurn(c, s.(books := SplitRefund(s.books, c.user, c.generation, total, NONE)), 1);
  }

  lemma OneExtraThenBroken(c: Case, w: World, dd: Draw, actual: int)
    requires Spans(dd) && dd.user == c.user && dd.generation == c.generation && dd.extra == c.settings.unit
    requires w.books == FirstDrawn(dd) && w.script == Late(3, Turn([], BROKEN))
    requires 1 <= c.requested && c.requested + 2 <= actual
    ensures var ch := ChargedFor(c, w, actual);
            ch.reply.StoreError? && ch.world.books == BothDrawn(dd) && ch.world.script == []
  {
    NextCosts(c);
    var next, reply := OneExtra(c, w, dd, NextCost(c, c.requested));
    var last, refused := NoExtra(c, next, NextCost(c, c.requested + 1));
    TwoSteps(c, w, c.requested, actual, next, reply, last, refused);
  }

  lemma NextCosts(c: Case)
    requires c.requested >= 1
    ensures NextCost(c, c.requested) == c.settings.unit && NextCost(c, c.requested + 1) == c.settings.unit
  {
    CostStep(c.settings.unit, c.requested);
    CostStep(c.settings.unit, c.requested + 1);
  }

  lemma {:induction false} TwoSteps(c: Case, w: World, billed: int, actual: int, next: World, reply: Reply,
      last: World, refused: Reply)
    requires billed + 2 <= actual && reply.Done? && !refused.Done?
    requires next == Extended(c, w, NextCost(c, billed)) && reply == Extension(c, w, NextCost(c, billed))
    requires last == Extended(c, next, NextCost(c, billed + 1))
             && refused == Extension(c, next, NextCost(c, billed + 1))
    ensures BilledUp(c, w, billed, actual) == Charge(last, refused, billed + 1)
  {
    BilledStep(c, w, billed, actual, next, reply);
    BilledStep(c, next, billed + 1, actual, last, refused);
  }

  lemma OneExtra(c: Case, w: World, dd: Draw, price: nat) returns (next: World, reply: Reply)
    requires Spans(dd) && dd.user == c.user && dd.generation == c.generation && dd.extra == price
    requires w.books == FirstDrawn(dd) && w.script == Late(3, Turn([], BROKEN))
    ensures next == Extended(c, w, price) && reply == Extension(c, w, price) && reply.Done?
    ensures next.books == BothDrawn(dd) && next.script == Late(0, Turn([], BROKEN))
  {
    DrawsAreReservations(dd);
    LateTurns(3, 3, Turn([], BROKEN));
    QuietExtension(c, w, price, BothDrawn(dd));
    next, reply := Extended(c, w, price), Extension(c, w, price);
  }

  lemma NoExtra(c: Case, w: World, price: nat) returns (next: World, reply: Reply)
    requires w.script == Late(0, Turn([], BROKEN)) && price > 0 && c.user != ""
    ensures next == Extended(c, w, price) && reply == Extension(c, w, price) && reply.StoreError?
    ensures next.books == w.books && next.script == []
  {
    BrokenExtension(c, w, price);
    next, reply := Extended(c, w, price), Extension(c, w, price);
  }

  lemma PlansPayTheFirst(dd: Draw)
    requires Spans(dd)
    ensures !Short(Plans(dd), dd.user, dd.first)
    ensures Reserving(Plans(dd), dd.user, dd.generation, dd.first, FINE).books == FirstDrawn(dd)
  {
    DrawsAreReservations(dd);
  }

  /** Before the first image is charged beyond those asked for. */
  lemma FirstDrawnAtProvider(c: Case, w: World, d: Dispatch, dd: Draw) returns (s: World)
    requires Spans(dd) && dd.user == c.user && dd.generation == c.generation && dd.first == FirstCost(c)
    requires w.books == Plans(dd) && Underway(w) && w.script == Late(9, Turn([], BROKEN)) && Sent(d)
    ensures Executed(c, w, d) == AfterDispatch(c, s, d) && s.row.status == Running
    ensures s.books == FirstDrawn(dd) && s.script == Late(3, Turn([], BROKEN))
  {
    PlansAreSound(dd);
    PlansPayTheFirst(dd);
    var r := QuietToCall(c, w, 5, Turn([], BROKEN));
    s := QuietAtProvider(c, w, r, d, 3, Turn([], BROKEN));
  }

  /**
   For a user with two subscriptions the refund after a billing failure can fall short, although no
   refund fails: the requested images use up the first subscription, an extra image is paid by the
   second, the store fails at the next one, and the price of all requested images stays behind.
   */
  lemma TwoSubscriptionsKeepCredits(c: Case, w: World, items: seq<Item>, dd: Draw)
    requires c.user != "" && c.generation != "" && c.settings.unit > 0 && c.settings.refundOnFailure
    requires c.requested >= 1 && Count(Capped(items, c.settings.maxCount)) >= c.requested + 2
    requires dd == Draw(c.user, c.generation, FirstCost(c), dd.second, c.settings.unit) && dd.second >= c.settings.unit
    requires w.books == Plans(dd) && Underway(w) && w.script == Late(9, Turn([], BROKEN))
    ensures var z := Executed(c, w, Answered(items));
            z.outcome.BillingFailed? && z.delivered == [] && Holding(c, z.world) == FirstCost(c) > 0
  {
    FirstCostIsPositive(c);
    var s := FirstDrawnAtProvider(c, w, Answered(items), dd);
    var kept := Capped(items, c.settings.maxCount);
    AnswerGoesOn(c, s, items);
    OneExtraThenBroken(c, s, dd, Count(kept));
    BothKeepTheFirst(c, ChargedFor(c, s, Count(kept)).world, dd);
  }
}

/**
 The worker of one image job: the second half of `executeProviderImageGenerate` with its closures.  Every
 method computes the function that specifies it in `Settlement`, for every script of what others do and
 of how the store calls fare.
 */
module SettlementWorker {
  import opened Basics
  import opened CreditLedger
  import opened JobRecords
  import opened RefundRoutines
  import opened Reservations
  import opened Settlement

  // --------------------------------------------------------------------------------------------
  // The worker

  class Worker {
    const user: string
    const generation: string
    const settings: Settings
    const requested: nat

    var books: Books
    var row: Job
    var job: Job
    var refundedCredits: int
    var script: Script
    /** What others have refunded to the generation since the run began. */
    ghost var outside: int

    constructor (user: string, generation: string, settings: Settings, requested: nat, books: Books, row: Job, job: Job,
                 script: Script)
      ensures Mine() == Case(user, generation, settings, requested)
      ensures State() == World(books, row, job, 0, 0, script)
    {
      this.user, this.generation, this.settings, this.requested := user, generation, settings, requested;
      this.books, this.row, this.job, this.script := books, row, job, script;
      refundedCredits, outside := 0, 0;
    }

    function Mine(): Case { Case(user, generation, settings, requested) }

    ghost function State(): World
      reads this
    {
      World(books, row, job, refundedCredits, outside, script)
    }

    // ------------------------------------------------------------------------------------------
    // Everybody else

    /** The others act, and the coming store calls fare in the way of this turn. */
    method NextTurn() returns (luck: Luck)
      modifies `books, `row, `outside, `script
      ensures State() == Turned(Mine(), old(State())) && luck == Coming(old(script)).luck
    {
      var turn := Coming(script);
      script, luck := Later(script), turn.luck;
      assert turn.actions[0..] == turn.actions;
      for k := 0 to |turn.actions|
        invariant job == old(job) && refundedCredits == old(refundedCredits)
        invariant Play(Mine(), State(), turn.actions[k..])
                  == Play(Mine(), old(State()).(script := Later(old(script))), turn.actions)
      {
        assert turn.actions[k..][0] == turn.actions[k] && turn.actions[k..][1..] == turn.actions[k + 1..];
        Interfere(turn.actions[k]);
      }
    }

    /** One step of somebody else. */
    method Interfere(a: Action)
      modifies `books, `row, `outside
      ensures State() == Act(Mine(), old(State()), a)
    {
      match a
      case Apart(step) => if Elsewhere(step, user, generation) { books := Apply(books, step); }
      case OnJob(r) =>
        var after := Called(Desk(books, row), user, generation, r);
        outside := outside + Refunded(after.books, user, generation) - Refunded(books, user, generation);
        books, row := after.books, after.row;
    }

    // ------------------------------------------------------------------------------------------
    // The closures

    method SaveJob()
      modifies `row, `job
      ensures State() == Saved(old(State()))
    {
      row, job := WorkerSave(row, job), WorkerCopy(row, job);
    }

    method FinishJob(status: Status, stage: string, errorCode: string)
      modifies `row, `job
      ensures State() == Finished(old(State()), status, stage, errorCode)
    {
      job := job.(status := status, stage := stage, errorCode := errorCode);
      SaveJob();
    }

    method SyncRefunded()
      modifies `books, `row, `outside, `script, `job, `refundedCredits
      ensures State() == RefundsSynced(Mine(), old(State()))
    {
      var luck := NextTurn();
      var total := Read(books, user, generation, WalletRefund, SubscriptionRefund, luck.refund);
      if total > refundedCredits {
        refundedCredits := total;
        job := job.(creditRefunded := total);
      }
    }

    method SyncReserved() returns (total: int)
      modifies `books, `row, `outside, `script, `job, `refundedCredits
      ensures State() == ReservedSynced(Mine(), old(State())) && total == ReservedRead(Mine(), old(State()))
    {
      var luck := NextTurn();
      total := Read(books, user, generation, WalletReserve, SubscriptionReserve, luck.refund);
      SyncRefunded();
      job := job.(creditReserved := total);
    }

    method RefundReserved(amount: int)
      modifies `books, `row, `outside, `script, `job, `refundedCredits
      ensures State() == Repaid(Mine(), old(State()), amount)
    {
      if amount <= 0 { return; }
      var luck := NextTurn();
      var w := SeenWallet(books, user, generation, luck.refund);
      var s := SeenSubscription(books, user, generation, luck.refund);
      if w + s > 0 {
        var rest := RefundFirst(books, user, generation, Min(amount, w + s), w, luck.refund);
        books := RefundRest(rest, user, generation, s, luck.refund);
      }
      SyncRefunded();
    }

    method RefundCredits(amount: int)
      modifies `books, `row, `outside, `script, `job, `refundedCredits
      ensures State() == RepaidOnFailure(Mine(), old(State()), amount)
    {
      if settings.refundOnFailure { RefundReserved(amount); } else { SyncRefunded(); }
    }

    /** The wallet's part of a reservation; if it cannot be had, the subscription's part is undone. */
    method ReserveRest(rest: nat, taken: int, luck: Luck) returns (reply: Reply, ghost leaked: int)
      modifies `books
      ensures Reservation(books, reply, true, leaked)
              == RestReserved(old(books), user, generation, rest, taken, luck)
    {
      ghost var before := Held(books, user, generation);
      var p := ReserveWallet(books, user, rest, generation, luck.wallet);
      books, reply, leaked := p.books, p.reply, 0;
      if !reply.Done? {
        leaked := Held(books, user, generation) - before;
        if taken > 0 { books := RefundSubscription(books, user, taken, generation, luck.refund.subscription).books; }
      }
    }

    /** One reservation: from a subscription first, the rest from the wallet. */
    method Reserve(amount: nat) returns (reply: Reply, atWallet: bool, ghost leaked: int)
      modifies `books, `row, `outside, `script
      ensures State() == AfterDraw(Mine(), old(State()), amount)
      ensures Reservation(books, reply, atWallet, leaked) == Drawn(Mine(), old(State()), amount)
    {
      var luck := NextTurn();
      var s := ReserveSubscription(books, user, amount, generation, luck.subscription);
      books, reply, atWallet, leaked := s.books, s.reply, false, 0;
      if reply.Done? && amount > reply.amount {
        atWallet := true;
        reply, leaked := ReserveRest(amount - reply.amount, reply.amount, luck);
      }
    }

    method ReserveAdditional(amount: int) returns (reply: Reply)
      modifies `books, `row, `outside, `script, `job, `refundedCredits
      ensures State() == Extended(Mine(), old(State()), amount) && reply == Extension(Mine(), old(State()), amount)
    {
      reply := Done(0);
      if amount > 0 {
        var atWallet;
        ghost var leaked;
        reply, atWallet, leaked := Reserve(amount);
      }
      var total := SyncReserved();
    }

    // ------------------------------------------------------------------------------------------
    // From the answer of the provider to the end

    /** The rest of a charge. */
    ghost predicate Remains(billed: int, actual: int, whole: Charge)
      reads this
    {
      whole == BilledUp(Mine(), State(), billed, actual)
    }

    /** One more image: the difference to the price so far. */
    method BillOne(billed: int, ghost actual: int, ghost whole: Charge) returns (reply: Reply)
      requires billed < actual && Remains(billed, actual, whole)
      modifies `books, `row, `outside, `script, `job, `refundedCredits
      ensures if reply.Done? then Remains(billed + 1, actual, whole) else whole == Charge(State(), reply, billed)
    {
      reply := ReserveAdditional(NextCost(Mine(), billed));
      BilledStep(Mine(), old(State()), billed, actual, State(), reply);
    }

    /** The over-delivery loop. */
    method BillFrom(actual: int, ghost whole: Charge) returns (reply: Reply, billed: int)
      requires requested <= actual && Remains(requested, actual, whole)
      modifies `books, `row, `outside, `script, `job, `refundedCredits
      ensures whole == Charge(State(), reply, billed)
    {
      billed := requested;
      while billed < actual
        invariant requested <= billed <= actual && Remains(billed, actual, whole)
      {
        reply := BillOne(billed, actual, whole);
        if !reply.Done? { return; }
        billed := billed + 1;
      }
      reply := Done(0);
    }

    method BillExtras(actual: int) returns (reply: Reply, billed: int)
      requires requested <= actual
      modifies `books, `row, `outside, `script, `job, `refundedCredits
      ensures Charge(State(), reply, billed) == BilledUp(Mine(), old(State()), requested, actual)
    {
      ghost var whole := BilledUp(Mine(), State(), requested, actual);
      reply, billed := BillFrom(actual, whole);
    }

    /** The partial refund. */
    method RefundMissing(actual: int) returns (billed: int)
      modifies `books, `row, `outside, `script, `job, `refundedCredits
      ensures Charge(State(), Done(0), billed) == PartlyCharged(Mine(), old(State()), actual)
    {
      billed := requested;
      if actual < requested && settings.refundPartial {
        RefundCredits(Missing(Mine(), actual));
        if settings.refundOnFailure { billed := actual; }
      }
    }

    method ChargeFor(actual: int) returns (reply: Reply, billed: int)
      modifies `books, `row, `outside, `script, `job, `refundedCredits
      ensures Charge(State(), reply, billed) == ChargedFor(Mine(), old(State()), actual)
    {
      if actual > requested {
        reply, billed := BillExtras(actual);
      } else {
        billed := RefundMissing(actual);
        reply := Done(0);
      }
    }

    method FinishFailed(stage: string, errorCode: string)
      modifies `row, `job
      ensures State() == FailedWith(old(State()), stage, errorCode)
    {
      job := job.(creditRefunded := refundedCredits);
      FinishJob(Status.Failed, stage, errorCode);
    }

    method FailUpstream(errorCode: string)
      modifies `books, `row, `outside, `script, `job, `refundedCredits
      ensures State() == UpstreamFailure(Mine(), old(State()), errorCode)
    {
      RefundCredits(FirstCost(Mine()));
      FinishFailed("upstream", errorCode);
    }

    method FailBilling()
      modifies `books, `row, `outside, `script, `job, `refundedCredits
      ensures State() == BillingFailure(Mine(), old(State()))
    {
      var total := SyncReserved();
      RefundCredits(total);
      FinishFailed("credit", "credit_reserve_failed");
    }

    /** The last check for a cancel, and the success record. */
    method Conclude(actual: int) returns (outcome: Outcome)
      modifies `books, `row, `outside, `script, `job, `refundedCredits
      ensures State() == Concluded(Mine(), old(State()), actual) && outcome == Conclusion(Mine(), old(State()))
    {
      NotedTurn(Mine(), State(), actual);
      job := job.(actualCount := actual);
      var luck := NextTurn();
      if CancelledOrAsked(row) {
        StopAfterUpstream();
        return CancelledAfterUpstream;
      }
      var total := SyncReserved();
      job := job.(creditRefunded := refundedCredits);
      FinishJob(Succeeded, "finished", "");
      outcome := Delivered;
    }

    method Bill(kept: seq<Item>) returns (outcome: Outcome, delivered: seq<Item>, billed: int)
      modifies `books, `row, `outside, `script, `job, `refundedCredits
      ensures End(State(), outcome, delivered, billed, 0) == Billed(Mine(), old(State()), kept)
    {
      var reply;
      reply, billed := ChargeFor(Count(kept));
      delivered := [];
      if reply.StoreError? {
        FailBilling();
        outcome := BillingFailed;
      } else {
        var shown := if reply.Insufficient? then Limit(kept, billed) else kept;
        outcome := Conclude(Count(shown));
        if outcome.Delivered? { delivered := shown; }
      }
    }

    method Settle(items: seq<Item>) returns (outcome: Outcome, delivered: seq<Item>, billed: int)
      modifies `books, `row, `outside, `script, `job, `refundedCredits
      ensures End(State(), outcome, delivered, billed, 0) == AnswerSettled(Mine(), old(State()), items)
    {
      var kept := items;
      if settings.maxCount > 0 && Count(kept) > settings.maxCount { kept := Limit(kept, settings.maxCount); }
      if Count(kept) <= 0 {
        FailUpstream("provider_empty_response");
        return EmptyResponse, [], requested;
      }
      outcome, delivered, billed := Bill(kept);
    }

    // ------------------------------------------------------------------------------------------
    // The whole run

    method StopBeforeUpstream(early: bool)
      modifies `books, `row, `outside, `script, `job, `refundedCredits
      ensures State() == StoppedBefore(Mine(), old(State()), early)
    {
      RefundReserved(FirstCost(Mine()));
      if early { job := job.(creditRefunded := refundedCredits); }
      FinishJob(Cancelled, "cancelled", "cancelled");
    }

    method StopAfterUpstream()
      modifies `books, `row, `outside, `script, `job, `refundedCredits
      ensures State() == StoppedAfter(Mine(), old(State()))
    {
      SyncRefunded();
      FinishJob(Cancelled, "cancelled", "cancelled");
    }

    method MarkUpstream()
      modifies `row, `job
      ensures State() == Marked(old(State()))
    {
      job := job.(upstreamSent := true, stage := "upstream");
      SaveJob();
    }

    /** The first reservation; a failure of it ends the job. */
    method Open() returns (failed: bool, outcome: Outcome, ghost leaked: int)
      modifies `books, `row, `outside, `script, `job
      ensures FirstReserved(Mine(), old(State()))
              == if failed then Ended(End(State(), outcome, [], requested, leaked)) else Going(State())
    {
      var reply, atWallet;
      reply, atWallet, leaked := Reserve(FirstCost(Mine()));
      failed, outcome := !reply.Done?, InsufficientCredits;
      if failed {
        if !atWallet {
          outcome := SubscriptionStoreFailed;
          FinishJob(Status.Failed, "credit", "subscription_credit_reserve_failed");
        } else if reply.Insufficient? {
          FinishJob(Status.Failed, "credit", "insufficient_credits");
        } else {
          outcome := WalletStoreFailed;
          FinishJob(Status.Failed, "credit", "credit_reserve_failed");
        }
      }
    }

    /** A look at the job before the call: a cancel ends the run. */
    method Look() returns (stopped: bool)
      modifies `books, `row, `outside, `script, `job, `refundedCredits
      ensures Looked(Mine(), old(State())) == if stopped
                then Ended(End(State(), CancelledBeforeUpstream, [], requested, 0)) else Going(State())
    {
      var luck := NextTurn();
      stopped := CancelledOrAsked(row);
      if stopped {
        job := row;
        StopBeforeUpstream(true);
      }
    }

    method Approach() returns (stopped: bool)
      modifies `books, `row, `outside, `script, `job, `refundedCredits
      ensures Approached(Mine(), old(State())) == if stopped
                then Ended(End(State(), CancelledBeforeUpstream, [], requested, 0)) else Going(State())
    {
      var luck := NextTurn();
      SaveJob();
      SaveJob();
      stopped := Look();
      if stopped { return; }
      job := job.(stage := "dispatching");
      SaveJob();
      stopped := Look();
    }

    method Begin() returns (stopped: bool, outcome: Outcome, ghost leaked: int)
      modifies `books, `row, `outside, `script, `job, `refundedCredits
      ensures Begun(Mine(), old(State()))
              == if stopped then Ended(End(State(), outcome, [], requested, leaked)) else Going(State())
    {
      stopped, outcome, leaked := Open();
      if stopped { return; }
      stopped := Approach();
      outcome, leaked := CancelledBeforeUpstream, 0;
    }

    /** The provider call, which may go on record on the way. */
    method Call(d: Dispatch)
      modifies `books, `row, `outside, `script, `job
      ensures State() == CallMade(Mine(), old(State()), d)
    {
      var luck := NextTurn();
      if Sent(d) { MarkUpstream(); }
      luck := NextTurn();
    }

    method StopAtDispatch(d: Dispatch) returns (outcome: Outcome)
      modifies `books, `row, `outside, `script, `job, `refundedCredits
      ensures End(State(), outcome, [], requested, 0) == DispatchStopped(Mine(), old(State()), d)
    {
      if CancelledOrAsked(row) { job := row; }
      if Sent(d) {
        StopAfterUpstream();
        outcome := CancelledAfterUpstream;
      } else {
        StopBeforeUpstream(false);
        outcome := CancelledBeforeUpstream;
      }
    }

    method Resolve(d: Dispatch) returns (outcome: Outcome, delivered: seq<Item>, billed: int)
      modifies `books, `row, `outside, `script, `job, `refundedCredits
      ensures End(State(), outcome, delivered, billed, 0) == Resolved(Mine(), old(State()), d)
    {
      if Final(row) {
        job := row;
        return FinishedElsewhere, [], requested;
      }
      match d
      case Unanswered(_, _) =>
        FailUpstream("provider_error");
        outcome, delivered, billed := UpstreamFailed, [], requested;
      case Answered(items) =>
        outcome, delivered, billed := Settle(items);
    }

    /** The provider is done: look at the job once more, then stop or go on. */
    method Finish(d: Dispatch) returns (outcome: Outcome, delivered: seq<Item>, billed: int)
      modifies `books, `row, `outside, `script, `job, `refundedCredits
      ensures End(State(), outcome, delivered, billed, 0) == AfterDispatch(Mine(), old(State()), d)
    {
      if CancelledOrAsked(row) || (!Final(row) && d.Unanswered? && d.stopped) {
        delivered, billed := [], requested;
        outcome := StopAtDispatch(d);
      } else {
        outcome, delivered, billed := Resolve(d);
      }
    }

    /** The second half of `executeProviderImageGenerate` computes the specified run, for every script. */
    method Execute(d: Dispatch)
      returns (outcome: Outcome, delivered: seq<Item>, billed: int, ghost leaked: int)
      modifies `books, `row, `outside, `script, `job, `refundedCredits
      ensures End(State(), outcome, delivered, billed, leaked) == Executed(Mine(), old(State()), d)
    {
      delivered, billed := [], requested;
      var stopped;
      stopped, outcome, leaked := Begin();
      if stopped { return; }
      leaked := 0;
      Call(d);
      outcome, delivered, billed := Finish(d);
    }
  }
}

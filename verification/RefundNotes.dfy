/**
 The refund total on the record of a job, at the end of a run.

 The worker notes refunds on its copy of the job whenever it reads the ledgers, takes over the stored row
 when it finds it cancelled, and merges both when it saves.  At every end that comes after a reading no
 refund is left out, and if nobody else touches the job the record says what the ledgers say.
 */
module RefundNotes {
  import opened Basics
  import opened CreditLedger
  import opened JobRecords
  import opened RefundRoutines
  import opened Reservations
  import opened Settlement

  function GivenSoFar(c: Case, w: World): int { Refunded(w.books, c.user, c.generation) }

  /** The worker's copy shows what the worker has read; nobody else about, nothing shows more than the ledgers. */
  ghost predicate InLine(c: Case, w: World, e: Trust) {
    && Valid(c, w, e) && e.reliable && w.refunded <= Max(0, w.job.creditRefunded)
    && (e.alone ==> w.job.creditRefunded <= GivenSoFar(c, w) && w.row.creditRefunded <= GivenSoFar(c, w))
  }

  /** The record leaves no refund out; nobody else about, it shows exactly what the ledgers show. */
  ghost predicate Tells(c: Case, w: World, e: Trust) {
    GivenSoFar(c, w) <= Max(0, w.row.creditRefunded) && (e.alone ==> w.row.creditRefunded <= GivenSoFar(c, w))
  }

  // --------------------------------------------------------------------------------------------
  // What keeps the copy in line

  lemma {:induction false} PlayKeepsRow(c: Case, w: World, actions: seq<Action>)
    requires LeavesJob(actions)
    ensures Play(c, w, actions).row == w.row
    decreases |actions|
  {
    if actions != [] {
      assert actions[0].Apart?;
      assert LeavesJob(actions[1..]);
      PlayKeepsRow(c, Act(c, w, actions[0]), actions[1..]);
    }
  }

  lemma TurnKeepsRow(c: Case, w: World)
    requires Alone(w.script)
    ensures Turned(c, w).row == w.row
  {
    assert w.script != [] ==> LeavesJob(w.script[0].actions);
    PlayKeepsRow(c, w.(script := Later(w.script)), Coming(w.script).actions);
  }

  lemma TurnInLine(c: Case, w: World, e: Trust)
    requires InLine(c, w, e)
    ensures InLine(c, Turned(c, w), e) && Turned(c, w).refunded == w.refunded
  {
    TurnGivesBack(c, w, e);
    if e.alone { TurnKeepsRow(c, w); }
    TurnIsInLine(c, w, Turned(c, w), Coming(w.script).luck, e);
  }

  lemma TurnIsInLine(c: Case, w: World, t: World, luck: Luck, e: Trust)
    requires InLine(c, w, e) && TurnIs(c, w, t, luck, e) && (e.alone ==> t.row == w.row)
    ensures InLine(c, t, e)
  {
  }

  /** More may have been refunded meanwhile, with the record and the copy as they were. */
  lemma BooksInLine(c: Case, w: World, b: Books, e: Trust)
    requires InLine(c, w, e) && Valid(c, w.(books := b), e)
    requires Refunded(b, c.user, c.generation) >= GivenSoFar(c, w)
    ensures InLine(c, w.(books := b), e)
  {
  }

  /** A reading of the ledgers. */
  lemma SyncedInLine(c: Case, w: World, e: Trust)
    requires InLine(c, w, e)
    ensures InLine(c, RefundsSynced(c, w), e) && RefundsSynced(c, w).refunded == GivenSoFar(c, RefundsSynced(c, w))
  {
    TurnInLine(c, w, e);
    TurnGivesBack(c, w, e);
    RefundsInStep(c, w, e);
    var t := Turned(c, w);
    ReadInLine(c, t, Read(t.books, c.user, c.generation, WalletRefund, SubscriptionRefund, NONE), e);
  }

  lemma ReadInLine(c: Case, t: World, total: int, e: Trust)
    requires InLine(c, t, e) && total == GivenSoFar(c, t)
    ensures InLine(c, WithRefunds(t, total), e)
  {
  }

  lemma ReservedInLine(c: Case, w: World, e: Trust)
    requires InLine(c, w, e)
    ensures InLine(c, ReservedSynced(c, w), e) && ReservedSynced(c, w).refunded == GivenSoFar(c, ReservedSynced(c, w))
  {
    TurnInLine(c, w, e);
    SyncedInLine(c, Turned(c, w), e);
    ReservedInStep(c, w, e);
    SameNotes(c, RefundsSynced(c, Turned(c, w)), ReservedSynced(c, w), e);
  }

  lemma SameNotes(c: Case, w: World, w': World, e: Trust)
    requires InLine(c, w, e) && Valid(c, w', e) && w'.books == w.books && w'.row == w.row && w'.refunded == w.refunded
    requires w'.job.creditRefunded == w.job.creditRefunded
    ensures InLine(c, w', e)
  {
  }

  /** A refund by the worker. */
  lemma RepaidInLine(c: Case, w: World, e: Trust, amount: int)
    requires InLine(c, w, e)
    ensures InLine(c, Repaid(c, w, amount), e)
    ensures amount > 0 ==> Repaid(c, w, amount).refunded == GivenSoFar(c, Repaid(c, w, amount))
  {
    if amount > 0 {
      TurnInLine(c, w, e);
      TurnGivesBack(c, w, e);
      var t, luck := Turned(c, w), Coming(w.script).luck;
      var b := SplitRefund(t.books, c.user, c.generation, amount, luck.refund);
      SplitRefundGivesBack(t.books, c.user, c.generation, amount, luck.refund);
      RefundPays(c, w, e, t, luck, amount);
      BooksInLine(c, t, b, e);
      SyncedInLine(c, t.(books := b), e);
    }
  }

  lemma RepaidOnFailureInLine(c: Case, w: World, e: Trust, amount: int)
    requires InLine(c, w, e)
    ensures InLine(c, RepaidOnFailure(c, w, amount), e)
    ensures amount > 0 || !c.settings.refundOnFailure || w.refunded == GivenSoFar(c, w) ==>
              RepaidOnFailure(c, w, amount).refunded == GivenSoFar(c, RepaidOnFailure(c, w, amount))
  {
    if c.settings.refundOnFailure { RepaidInLine(c, w, e, amount); } else { SyncedInLine(c, w, e); }
  }

  /** A reservation; undoing a part of it is a refund, too. */
  lemma DrawInLine(c: Case, w: World, e: Trust, amount: nat)
    requires InLine(c, w, e)
    ensures InLine(c, AfterDraw(c, w, amount), e) && AfterDraw(c, w, amount).refunded == w.refunded
  {
    TurnInLine(c, w, e);
    DrawnAdds(c, w, e, amount);
    ReservingTakes(Turned(c, w).books, c.user, c.generation, amount, Coming(w.script).luck);
    BooksInLine(c, Turned(c, w), Drawn(c, w, amount).books, e);
  }

  lemma ExtendedInLine(c: Case, w: World, e: Trust, amount: int)
    requires InLine(c, w, e)
    ensures InLine(c, Extended(c, w, amount), e)
  {
    if amount > 0 {
      DrawInLine(c, w, e, amount);
      ReservedInLine(c, AfterDraw(c, w, amount), e);
    } else {
      ReservedInLine(c, w, e);
    }
  }

  lemma {:induction false} BilledUpInLine(c: Case, w: World, e: Trust, billed: int, actual: int)
    requires InLine(c, w, e)
    ensures InLine(c, BilledUp(c, w, billed, actual).world, e)
    decreases actual - billed
  {
    if billed < actual {
      var next, reply := Extended(c, w, NextCost(c, billed)), Extension(c, w, NextCost(c, billed));
      BilledStep(c, w, billed, actual, next, reply);
      ExtendedInLine(c, w, e, NextCost(c, billed));
      if reply.Done? { BilledUpInLine(c, next, e, billed + 1, actual); }
    }
  }

  lemma ChargedInLine(c: Case, w: World, e: Trust, actual: int)
    requires InLine(c, w, e)
    ensures InLine(c, ChargedFor(c, w, actual).world, e)
  {
    if actual > c.requested {
      BilledUpInLine(c, w, e, c.requested, actual);
    } else {
      RepaidOnFailureInLine(c, w, e, Missing(c, actual));
    }
  }

  // --------------------------------------------------------------------------------------------
  // The ends

  /** The last save. */
  lemma FinishedTells(c: Case, w: World, e: Trust, status: Status, stage: string, errorCode: string)
    requires InLine(c, w, e) && w.refunded == GivenSoFar(c, w)
    requires status == Cancelled || status == Succeeded || status == Status.Failed
    ensures Tells(c, Finished(w, status, stage, errorCode), e)
  {
    FinishedRow(w, status, stage, errorCode);
  }

  /** Before it, the copy may be given the total that the worker has read. */
  lemma NotedInLine(c: Case, w: World, e: Trust)
    requires InLine(c, w, e)
    ensures InLine(c, w.(job := w.job.(creditRefunded := w.refunded)), e)
  {
  }

  lemma FailedTells(c: Case, w: World, e: Trust, stage: string, errorCode: string)
    requires InLine(c, w, e) && w.refunded == GivenSoFar(c, w)
    ensures Tells(c, FailedWith(w, stage, errorCode), e)
  {
    NotedInLine(c, w, e);
    FinishedTells(c, w.(job := w.job.(creditRefunded := w.refunded)), e, Status.Failed, stage, errorCode);
  }

  lemma UpstreamFailureTells(c: Case, w: World, e: Trust, errorCode: string)
    requires InLine(c, w, e) && FirstCost(c) > 0
    ensures Tells(c, UpstreamFailure(c, w, errorCode), e)
  {
    RepaidOnFailureInLine(c, w, e, FirstCost(c));
    FailedTells(c, RepaidOnFailure(c, w, FirstCost(c)), e, "upstream", errorCode);
  }

  lemma BillingFailureTells(c: Case, w: World, e: Trust)
    requires InLine(c, w, e)
    ensures Tells(c, BillingFailure(c, w), e)
  {
    ReservedInLine(c, w, e);
    RepaidOnFailureInLine(c, ReservedSynced(c, w), e, ReservedRead(c, w));
    FailedTells(c, RepaidOnFailure(c, ReservedSynced(c, w), ReservedRead(c, w)), e, "credit", "credit_reserve_failed");
  }

  lemma StoppedAfterTells(c: Case, w: World, e: Trust)
    requires InLine(c, w, e)
    ensures Tells(c, StoppedAfter(c, w), e)
  {
    SyncedInLine(c, w, e);
    FinishedTells(c, RefundsSynced(c, w), e, Cancelled, "cancelled", "cancelled");
  }

  lemma StoppedBeforeTells(c: Case, w: World, e: Trust, early: bool)
    requires InLine(c, w, e) && FirstCost(c) > 0
    ensures Tells(c, StoppedBefore(c, w, early), e)
  {
    var s := Repaid(c, w, FirstCost(c));
    RepaidInLine(c, w, e, FirstCost(c));
    NotedInLine(c, s, e);
    FinishedTells(c, if early then s.(job := s.job.(creditRefunded := s.refunded)) else s, e, Cancelled, "cancelled",
        "cancelled");
  }

  lemma ConcludedTells(c: Case, w: World, e: Trust, actual: int)
    requires InLine(c, w, e)
    ensures Tells(c, Concluded(c, w, actual), e)
  {
    var t := Turned(c, Noted(w, actual));
    SameBooksValid(c, w, Noted(w, actual), e);
    SameNotes(c, w, Noted(w, actual), e);
    TurnInLine(c, Noted(w, actual), e);
    StoppedAfterTells(c, t, e);
    var s := ReservedSynced(c, t);
    ReservedInLine(c, t, e);
    NotedInLine(c, s, e);
    FinishedTells(c, s.(job := s.job.(creditRefunded := s.refunded)), e, Succeeded, "finished", "");
  }

  lemma AnswerTells(c: Case, w: World, e: Trust, items: seq<Item>)
    requires InLine(c, w, e) && FirstCost(c) > 0
    ensures Tells(c, AnswerSettled(c, w, items).world, e)
  {
    var kept := Capped(items, c.settings.maxCount);
    if Count(kept) == 0 {
      UpstreamFailureTells(c, w, e, "provider_empty_response");
    } else {
      var ch := ChargedFor(c, w, Count(kept));
      ChargedInLine(c, w, e, Count(kept));
      ClosedTells(c, kept, ch, e);
    }
  }

  lemma ClosedTells(c: Case, kept: seq<Item>, ch: Charge, e: Trust)
    requires InLine(c, ch.world, e)
    ensures Tells(c, Closed(c, kept, ch).world, e)
  {
    if ch.reply.StoreError? {
      BillingFailureTells(c, ch.world, e);
    } else {
      ConcludedTells(c, ch.world, e, Count(if ch.reply.Insufficient? then Limit(kept, ch.billed) else kept));
    }
  }

  // --------------------------------------------------------------------------------------------
  // From the start

  /** No reading yet. */
  ghost predicate Unread(c: Case, w: World, e: Trust) { InLine(c, w, e) && w.refunded == 0 }

  /** Until then the copy may be merged with the row, or replaced by it. */
  lemma SavedUnread(c: Case, w: World, e: Trust)
    requires Unread(c, w, e)
    ensures Unread(c, Saved(w), e) && Unread(c, w.(job := w.row), e)
  {
    SameBooksValid(c, w, Saved(w), e);
    SameBooksValid(c, w, w.(job := w.row), e);
  }

  lemma StagedUnread(c: Case, w: World, e: Trust, job: Job)
    requires Unread(c, w, e) && job.creditRefunded == w.job.creditRefunded
    ensures Unread(c, w.(job := job), e)
  {
    SameBooksValid(c, w, w.(job := job), e);
  }

  lemma DispatchingUnread(c: Case, w: World, e: Trust)
    requires Unread(c, w, e)
    ensures Unread(c, Dispatching(w), e) && Unread(c, Marked(w), e)
  {
    var staged := w.job.(stage := "dispatching");
    StagedUnread(c, w, e, staged);
    SavedUnread(c, w.(job := staged), e);
    var sent := w.job.(upstreamSent := true, stage := "upstream");
    StagedUnread(c, w, e, sent);
    SavedUnread(c, w.(job := sent), e);
  }

  /** The run goes on without a reading, or its record tells; a refused reservation leaves the record behind. */
  ghost predicate Stays(c: Case, stage: Stage, e: Trust) {
    match stage
    case Going(s) => Unread(c, s, e)
    case Ended(z) => z.outcome.CancelledBeforeUpstream? ==> Tells(c, z.world, e)
  }

  lemma LookedStays(c: Case, w: World, e: Trust)
    requires Unread(c, w, e) && FirstCost(c) > 0
    ensures Stays(c, Looked(c, w), e)
  {
    var t := Turned(c, w);
    TurnInLine(c, w, e);
    SavedUnread(c, t, e);
    StoppedBeforeTells(c, t.(job := t.row), e, true);
  }

  lemma BegunStays(c: Case, w: World, e: Trust)
    requires Unread(c, w, e) && FirstCost(c) > 0
    ensures Stays(c, Begun(c, w), e)
  {
    var first := FirstReserved(c, w);
    DrawInLine(c, w, e, FirstCost(c));
    if first.Going? { ApproachedStays(c, first.world, e); }
  }

  lemma ApproachedStays(c: Case, w: World, e: Trust)
    requires Unread(c, w, e) && FirstCost(c) > 0
    ensures Stays(c, Approached(c, w), e)
  {
    TurnInLine(c, w, e);
    SavedUnread(c, Turned(c, w), e);
    SavedUnread(c, Saved(Turned(c, w)), e);
    var s := Saved(Saved(Turned(c, w)));
    LookedStays(c, s, e);
    var stage := Looked(c, s);
    if stage.Going? {
      DispatchingUnread(c, stage.world, e);
      LookedStays(c, Dispatching(stage.world), e);
    }
  }

  lemma CallStaysUnread(c: Case, w: World, e: Trust, d: Dispatch)
    requires Unread(c, w, e)
    ensures Unread(c, CallMade(c, w, d), e)
  {
    var t := Turned(c, w);
    TurnInLine(c, w, e);
    DispatchingUnread(c, t, e);
    TurnInLine(c, if Sent(d) then Marked(t) else t, e);
  }

  lemma AfterDispatchTells(c: Case, w: World, e: Trust, d: Dispatch)
    requires Unread(c, w, e) && FirstCost(c) > 0 && !AfterDispatch(c, w, d).outcome.FinishedElsewhere?
    ensures Tells(c, AfterDispatch(c, w, d).world, e)
  {
    SavedUnread(c, w, e);
    var s := if CancelledOrAsked(w.row) then w.(job := w.row) else w;
    if StopsAt(w.row, d) {
      if Sent(d) { StoppedAfterTells(c, s, e); } else { StoppedBeforeTells(c, s, e, false); }
    } else {
      match d
      case Unanswered(_, _) => UpstreamFailureTells(c, w, e, "provider_error");
      case Answered(items) => AnswerTells(c, w, e, items);
    }
  }

  /** The ends at which the worker has read the ledgers. */
  predicate EndsRead(o: Outcome) {
    o in {CancelledBeforeUpstream, CancelledAfterUpstream, UpstreamFailed, EmptyResponse, BillingFailed, Delivered}
  }

  /**
   A run that ends for want of credits does not read the ledgers: its record keeps the refund total it had,
   while the ledger shows the undoing of the subscription's part as a refund.
   */
  lemma RefusedRecordFallsBehind(c: Case, w: World, d: Dispatch)
    requires Sound(w.books) && c.user != "" && Calm(w.script) && Underway(w)
    requires Short(w.books, c.user, FirstCost(c))
    ensures var z := Executed(c, w, d);
            && z.outcome == InsufficientCredits
            && z.world.row.creditRefunded == Max(w.row.creditRefunded, w.job.creditRefunded)
            && GivenSoFar(c, z.world)
               == GivenSoFar(c, w) + Tracked(c.generation, Left(w.books.subscriptions, c.user))
  {
    QuietBegin(c, w);
    QuietTurn(c, w, 1);
    ReservingFailsIff(w.books, c.user, c.generation, FirstCost(c));
    InsufficientIsUndone(w.books, c.user, c.generation, FirstCost(c));
    RefusedRunIs(c, w, d, AfterDraw(c, w, FirstCost(c)));
  }

  lemma RefusedRunIs(c: Case, w: World, d: Dispatch, s: World)
    requires !Drawn(c, w, FirstCost(c)).reply.Done? && s == AfterDraw(c, w, FirstCost(c))
    ensures var z := Executed(c, w, d);
            && z.outcome == Refusal(Drawn(c, w, FirstCost(c))) && z.world.books == s.books
            && z.world.row.creditRefunded == Max(s.row.creditRefunded, s.job.creditRefunded)
  {
    FinishedRow(s, Status.Failed, "credit", RefusalCode(Refusal(Drawn(c, w, FirstCost(c)))));
  }

  /**
   Whatever others do, if the refunds can be read the record of a run leaves no refund out; if nobody
   else touches the job its refund total is the ledgers'.
   */
  lemma RecordTells(c: Case, w: World, e: Trust, d: Dispatch)
    requires Valid(c, w, e) && e.reliable && w.outside == 0 && w.refunded == 0 && c.settings.unit > 0
    requires e.alone ==> w.row.creditRefunded <= GivenSoFar(c, w) && w.job.creditRefunded <= GivenSoFar(c, w)
    requires EndsRead(Executed(c, w, d).outcome)
    ensures Tells(c, Executed(c, w, d).world, e)
  {
    CostIs(c.settings.unit, c.requested);
    CostMonotone(c.settings.unit, 1, c.requested);
    CostIs(c.settings.unit, 1);
    BegunStays(c, w, e);
    BegunLeads(c, w, e);
    var begun := Begun(c, w);
    if begun.Going? {
      CallStaysUnread(c, begun.world, e, d);
      AfterDispatchTells(c, CallMade(c, begun.world, d), e, d);
    }
  }
}

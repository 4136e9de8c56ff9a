/**
 The three routines that give credits back: the worker's split refund, the cancel handler and the
 stale-job reconciler.  Each is one step here; the database transactions inside it are those of
 `CreditLedger`, so at the grain of single transactions every interleaving is covered there.
 */
module RefundRoutines {
  import opened Basics
  import opened CreditLedger
  import opened JobRecords

  // --------------------------------------------------------------------------------------------
  // The worker's split refund

  /** What can go wrong: either totals read may fail, and so may either refund. */
  datatype Faults = Faults(walletUnread: bool, subscriptionUnread: bool, wallet: Fault, subscription: Fault)

  const NONE := Faults(false, false, NoFault, NoFault)

  function SeenWallet(b: Books, user: string, g: string, f: Faults): int
  {
    if f.walletUnread then 0 else WalletHeld(b, user, g)
  }

  function SeenSubscription(b: Books, user: string, g: string, f: Faults): int {
    if f.subscriptionUnread then 0 else SubscriptionHeld(b, user, g)
  }

  /** `refundReservedCredits`: up to `amount`, the wallet first, the rest from the subscription. */
  function SplitRefund(b: Books, user: string, g: string, amount: int, f: Faults): Books {
    var w, s := SeenWallet(b, user, g, f), SeenSubscription(b, user, g, f);
    if amount <= 0 || w + s <= 0 then b
    else RefundRest(RefundFirst(b, user, g, Min(amount, w + s), w, f), user, g, s, f)
  }

  /** After the wallet: the books, and what is still to be given back. */
  datatype Rest = Rest(books: Books, amount: int)

  function RefundFirst(b: Books, user: string, g: string, wanted: int, seen: int, f: Faults): Rest {
    if seen <= 0 then Rest(b, wanted)
    else
      var p := RefundWallet(b, user, Min(wanted, seen), g, f.wallet);
      Rest(p.books, if p.reply.Done? then wanted - Min(wanted, seen) else wanted)
  }

  function RefundRest(r: Rest, user: string, g: string, seen: int, f: Faults): Books {
    if seen > 0 && r.amount > 0
    then RefundSubscription(r.books, user, Min(r.amount, seen), g, f.subscription).books else r.books
  }

  function WalletPart(b: Books, user: string, g: string, amount: int, f: Faults): int {
    if f.wallet == BeforeCommit then 0 else Min(Max(amount, 0), SeenWallet(b, user, g, f))
  }

  /** A wallet refund that reports an error is not deducted, whether or not it went through. */
  function SubscriptionPart(b: Books, user: string, g: string, amount: int, f: Faults): int {
    var wanted := Min(Max(amount, 0), SeenWallet(b, user, g, f) + SeenSubscription(b, user, g, f));
    var rest := if f.wallet == NoFault then wanted - Min(wanted, SeenWallet(b, user, g, f)) else wanted;
    if f.subscription != NoFault then 0
    else Min(Min(rest, SeenSubscription(b, user, g, f)), LatestUsed(b, user, g))
  }

  lemma PartBounds(b: Books, user: string, g: string, amount: int, f: Faults)
    requires Sound(b)
    ensures 0 <= WalletPart(b, user, g, amount, f) <= WalletHeld(b, user, g)
    ensures 0 <= SubscriptionPart(b, user, g, amount, f) <= SubscriptionHeld(b, user, g)
  {
    assert Covered(b, user, g);
    LatestUsedIsNonNegative(b, user, g);
  }

  /** For every fault: what each ledger gives back, and that neither gives back more than it held. */
  lemma SplitRefundPays(b: Books, user: string, g: string, amount: int, f: Faults)
    requires Sound(b) && user != "" && g != ""
    ensures var b' := SplitRefund(b, user, g, amount, f);
            && Sound(b')
            && Total(b', user, g, WalletRefund) == Total(b, user, g, WalletRefund) + WalletPart(b, user, g, amount, f)
            && Total(b', user, g, SubscriptionRefund)
                == Total(b, user, g, SubscriptionRefund) + SubscriptionPart(b, user, g, amount, f)
            && Total(b', user, g, WalletReserve) == Total(b, user, g, WalletReserve)
            && Total(b', user, g, SubscriptionReserve) == Total(b, user, g, SubscriptionReserve)
            && Balance(b', user) == Balance(b, user) + WalletPart(b, user, g, amount, f)
            && 0 <= WalletPart(b, user, g, amount, f) <= WalletHeld(b, user, g)
            && 0 <= SubscriptionPart(b, user, g, amount, f) <= SubscriptionHeld(b, user, g)
  {
    PartBounds(b, user, g, amount, f);
    assert Covered(b, user, g);
    var w, s := SeenWallet(b, user, g, f), SeenSubscription(b, user, g, f);
    if amount > 0 && w + s > 0 {
      var r := RefundFirst(b, user, g, Min(amount, w + s), w, f);
      RefundFirstPays(b, user, g, Min(amount, w + s), w, f);
      RefundRestPays(r, user, g, s, f);
    }
  }

  lemma RefundRestPays(r: Rest, user: string, g: string, seen: int, f: Faults)
    requires Sound(r.books) && user != "" && g != "" && r.amount >= 0 && 0 <= seen <= SubscriptionHeld(r.books, user, g)
    ensures var b' := RefundRest(r, user, g, seen, f);
            var paid := if f.subscription != NoFault then 0 else Min(Min(r.amount, seen), LatestUsed(r.books, user, g));
            && Sound(b') && paid >= 0
            && Total(b', user, g, SubscriptionRefund) == Total(r.books, user, g, SubscriptionRefund) + paid
            && Total(b', user, g, WalletReserve) == Total(r.books, user, g, WalletReserve)
            && Total(b', user, g, WalletRefund) == Total(r.books, user, g, WalletRefund)
            && Total(b', user, g, SubscriptionReserve) == Total(r.books, user, g, SubscriptionReserve)
            && b'.balances == r.books.balances
  {
    LatestUsedIsNonNegative(r.books, user, g);
    RefundSubscriptionPays(r.books, user, Min(r.amount, seen), g, f.subscription);
    StepKeepsBooksSound(r.books, RefundSubscriptionStep(user, Min(r.amount, seen), g, f.subscription));
  }

  lemma RefundFirstPays(b: Books, user: string, g: string, wanted: int, seen: int, f: Faults)
    requires Sound(b) && user != "" && g != "" && wanted > 0 && 0 <= seen <= WalletHeld(b, user, g)
    ensures var r := RefundFirst(b, user, g, wanted, seen, f);
            var paid := if f.wallet == BeforeCommit then 0 else Min(wanted, seen);
            && Sound(r.books) && LatestUsed(r.books, user, g) == LatestUsed(b, user, g)
            && r.amount == (if f.wallet == NoFault then wanted - Min(wanted, seen) else wanted)
            && Total(r.books, user, g, WalletRefund) == Total(b, user, g, WalletRefund) + paid
            && Balance(r.books, user) == Balance(b, user) + paid
            && Total(r.books, user, g, WalletReserve) == Total(b, user, g, WalletReserve)
            && Total(r.books, user, g, SubscriptionReserve) == Total(b, user, g, SubscriptionReserve)
            && Total(r.books, user, g, SubscriptionRefund) == Total(b, user, g, SubscriptionRefund)
  {
    RefundWalletPays(b, user, Min(wanted, seen), g, f.wallet);
    StepKeepsBooksSound(b, RefundWalletStep(user, Min(wanted, seen), g, f.wallet));
  }

  /** Without a failure the refund is exact if and only if the subscription it goes to covers its share. */
  lemma SplitRefundExactIff(b: Books, user: string, g: string, amount: int)
    requires Sound(b) && user != "" && g != ""
    ensures var due := Min(Max(amount, 0), Held(b, user, g));
            Refunded(SplitRefund(b, user, g, amount, NONE), user, g) == Refunded(b, user, g) + due
            <==> due - Min(due, WalletHeld(b, user, g)) <= LatestUsed(b, user, g)
  {
    assert Covered(b, user, g);
    SplitRefundPays(b, user, g, amount, NONE);
  }

  /** The wallet refund goes through but its summary query fails: the subscription pays the amount again. */
  lemma LateWalletErrorPaysTwice(b: Books, user: string, g: string, amount: int)
    requires Sound(b) && user != "" && g != "" && amount > 0
    requires amount <= WalletHeld(b, user, g) && amount <= SubscriptionHeld(b, user, g)
             && amount <= LatestUsed(b, user, g)
    ensures Refunded(SplitRefund(b, user, g, amount, Faults(false, false, AfterCommit, NoFault)), user, g)
            == Refunded(b, user, g) + 2 * amount
  {
    SplitRefundPays(b, user, g, amount, Faults(false, false, AfterCommit, NoFault));
  }

  // --------------------------------------------------------------------------------------------
  // The cancel handler and the reconciler

  /** The books and the stored row of one job, as the routines of other requests see them. */
  datatype Desk = Desk(books: Books, row: Job)

  /** The refund total the cancel handler writes on the job: what it asked for, not what was paid. */
  function ClaimedRefund(b: Books, user: string, g: string, wallet: Fault, subscription: Fault): int {
    Refunded(b, user, g) + (if wallet == NoFault then Max(0, WalletHeld(b, user, g)) else 0)
    + (if subscription == NoFault then Max(0, SubscriptionHeld(b, user, g)) else 0)
  }

  /**
   `handleCancelBusinessImageJob`: ask for the cancel, refund if the job had not reached the provider,
   and finish the cancel if a worker of this process was stopped.
   */
  function CancelHandler(d: Desk, user: string, g: string, active: bool, unread: bool, wallet: Fault,
                         subscription: Fault): Desk {
    var item := if Final(d.row) then d.row else CancelItem(d.row);
    var asked := RequestCancel(d.row);
    var refunds := BeforeUpstream(d.row) && CancelledOrAsked(item) && item.creditReserved > 0 && !unread;
    var books := if refunds then RefundAll(d.books, user, g, wallet, subscription) else d.books;
    var noted := if refunds
        then Prepared(item.(creditRefunded := ClaimedRefund(d.books, user, g, wallet, subscription))) else item;
    var saved := if refunds then Save(asked, noted) else asked;
    var row := if active && noted.status == CancelRequested
               then Save(saved, noted.(status := Cancelled, stage := "cancelled", errorCode := "cancelled")) else saved;
    Desk(books, row)
  }

  predicate RefundsStale(row: Job) { row.status == CancelRequested ==> BeforeUpstream(row) }

  /** One stale job in the reconciler's pass. */
  function Reconciler(d: Desk, user: string, g: string, wallet: Fault, subscription: Fault): Desk {
    if Final(d.row) then d
    else
      var books := if RefundsStale(d.row) then RefundAll(d.books, user, g, wallet, subscription) else d.books;
      Desk(books, Reconcile(d.row))
  }

  /** A cancel that comes after the upstream call gives nothing back. */
  lemma CancelAfterUpstreamRefundsNothing(d: Desk, user: string, g: string, active: bool, unread: bool, wallet: Fault,
      subscription: Fault)
    requires HasUpstreamSent(d.row)
    ensures CancelHandler(d, user, g, active, unread, wallet, subscription).books == d.books
  {
  }

  /** A cancel before it empties the generation, if nothing fails and the subscription covers its share. */
  lemma CancelBeforeUpstreamEmpties(d: Desk, user: string, g: string, active: bool)
    requires Sound(d.books) && user != "" && g != "" && BeforeUpstream(d.row) && !Final(d.row)
             && d.row.creditReserved > 0
    ensures Held(CancelHandler(d, user, g, active, false, NoFault, NoFault).books, user, g) == 0
            <==> SubscriptionHeld(d.books, user, g) <= LatestUsed(d.books, user, g)
  {
    RefundAllEmptiesIff(d.books, user, g);
  }

  /** When the handler refunds, told from the row as the cancel finds it. */
  predicate RefundDue(row: Job) {
    && row.status in {Queued, Running, CancelRequested, Cancelled} && row.creditReserved > 0
    && !row.upstreamSent && row.upstreamMillis <= 0
    && row.stage in {"", "queued", "claimed", "running", "credit", "dispatching"}
  }

  /** Otherwise neither the books nor the row's figures change, and the cancel is recorded either way. */
  lemma CancelRefundsIff(d: Desk, user: string, g: string, active: bool, unread: bool, wallet: Fault,
      subscription: Fault)
    ensures var d' := CancelHandler(d, user, g, active, unread, wallet, subscription);
            && (RefundDue(d.row) && !unread ==> d'.books == RefundAll(d.books, user, g, wallet, subscription))
            && (!RefundDue(d.row) || unread ==>
                  d'.books == d.books && d'.row.creditRefunded == d.row.creditRefunded)
            && d'.row.creditReserved == d.row.creditReserved
            && d'.row.status == (match d.row.status
                                 case Queued => Cancelled
                                 case Running => if active then Cancelled else CancelRequested
                                 case CancelRequested => if active then Cancelled else CancelRequested
                                 case final => final)
  {
  }

  /**
   The refund total on the row is what was refunded before and, from each ledger whose refund did not
   fail, all that was held.  It differs from the ledgers' by a wallet refund that went through and
   reported an error, which it leaves out, and by what the latest subscription did not cover.
   */
  lemma CancelNotesRefunds(d: Desk, user: string, g: string, active: bool, wallet: Fault, subscription: Fault)
    requires Sound(d.books) && user != "" && g != "" && RefundDue(d.row)
    ensures var d' := CancelHandler(d, user, g, active, false, wallet, subscription);
            var w := Total(d.books, user, g, WalletReserve) - Total(d.books, user, g, WalletRefund);
            var s := Total(d.books, user, g, SubscriptionReserve) - Total(d.books, user, g, SubscriptionRefund);
            && d'.row.creditRefunded == Total(d.books, user, g, WalletRefund)
                 + Total(d.books, user, g, SubscriptionRefund)
                 + (if wallet == NoFault then w else 0) + (if subscription == NoFault then s else 0)
            && d'.row.creditRefunded + (if wallet == AfterCommit then w else 0)
               == Refunded(d'.books, user, g)
                  + (if subscription == NoFault then Max(0, s - LatestUsed(d.books, user, g)) else 0)
  {
    assert Covered(d.books, user, g);
    RefundAllPays(d.books, user, g, wallet, subscription);
    LatestUsedIsNonNegative(d.books, user, g);
  }

  /** So without faults the row tells what the ledgers tell exactly if the latest subscription covers its part. */
  lemma CancelNotesLedgerIff(d: Desk, user: string, g: string, active: bool)
    requires Sound(d.books) && user != "" && g != "" && RefundDue(d.row)
    ensures var d' := CancelHandler(d, user, g, active, false, NoFault, NoFault);
            d'.row.creditRefunded == Refunded(d'.books, user, g)
            <==> SubscriptionHeld(d.books, user, g) <= LatestUsed(d.books, user, g)
  {
    CancelNotesRefunds(d, user, g, active, NoFault, NoFault);
  }

  /** What a reconciler pass makes of a stale row; it never writes a refund total. */
  lemma ReconcilerOutcome(d: Desk, user: string, g: string, wallet: Fault, subscription: Fault)
    ensures var d' := Reconciler(d, user, g, wallet, subscription);
            var untouched := d.row.stage in {"", "queued", "claimed", "running", "credit", "dispatching"}
                             && !d.row.upstreamSent && d.row.upstreamMillis <= 0;
            && d'.row.creditRefunded == d.row.creditRefunded && d'.row.creditReserved == d.row.creditReserved
            && d'.row.status == (match d.row.status
                                 case Queued => Failed
                                 case Running => Failed
                                 case CancelRequested => Cancelled
                                 case final => final)
            && d'.books == (match d.row.status
                            case Queued => RefundAll(d.books, user, g, wallet, subscription)
                            case Running => RefundAll(d.books, user, g, wallet, subscription)
                            case CancelRequested =>
                              if untouched then RefundAll(d.books, user, g, wallet, subscription) else d.books
                            case _ => d.books)
  {
  }

  /** A job that is refunded by a pass keeps the refund total it had: the record falls behind by what was held. */
  lemma ReconciledRecordFallsBehind(d: Desk, user: string, g: string)
    requires Sound(d.books) && user != "" && g != "" && (d.row.status == Running || d.row.status == Queued)
    requires d.row.creditRefunded == Refunded(d.books, user, g)
             && SubscriptionHeld(d.books, user, g) <= LatestUsed(d.books, user, g)
    ensures var d' := Reconciler(d, user, g, NoFault, NoFault);
            Refunded(d'.books, user, g) == d'.row.creditRefunded + Held(d.books, user, g)
  {
    RefundAllPays(d.books, user, g, NoFault, NoFault);
    assert Covered(d.books, user, g);
  }

  datatype Routine =
    | CancelCall(active: bool, unread: bool, wallet: Fault, subscription: Fault)
    | ReconcilePass(wallet: Fault, subscription: Fault)

  function Called(d: Desk, user: string, g: string, r: Routine): Desk {
    match r
    case CancelCall(active, unread, w, s) => CancelHandler(d, user, g, active, unread, w, s)
    case ReconcilePass(w, s) => Reconciler(d, user, g, w, s)
  }

  function AfterCalls(d: Desk, user: string, g: string, rs: seq<Routine>): Desk
    decreases |rs|
  {
    if rs == [] then d else AfterCalls(Called(d, user, g, rs[0]), user, g, rs[1..])
  }

  /** The row after any routine is one that no later routine refunds. */
  predicate Settled(row: Job) {
    (row.status == Cancelled || row.status == CancelRequested ==> !BeforeUpstream(row)) && row.status != Queued
        && row.status != Running
  }

  lemma CalledSettles(d: Desk, user: string, g: string, r: Routine)
    requires r.CancelCall? ==> !(d.row.status == Cancelled && BeforeUpstream(d.row))
    requires r.ReconcilePass? ==>
             !((d.row.status == Cancelled || d.row.status == CancelRequested) && BeforeUpstream(d.row))
    ensures Settled(Called(d, user, g, r).row)
  {
  }

  /**
   Whatever the first cancel or reconciler pass did, and whatever failed in it, every later one leaves
   the books alone: refunds are given at most once, and a refund that failed is never tried again.
   */
  lemma {:induction false} OnlyTheFirstRoutineRefunds(d: Desk, user: string, g: string, rs: seq<Routine>)
    requires Settled(d.row)
    ensures AfterCalls(d, user, g, rs).books == d.books && Settled(AfterCalls(d, user, g, rs).row)
    decreases |rs|
  {
    if rs != [] {
      CalledSettles(d, user, g, rs[0]);
      OnlyTheFirstRoutineRefunds(Called(d, user, g, rs[0]), user, g, rs[1..]);
    }
  }

  /** A row whose cancel was recorded carries the stage that came with it. */
  predicate Stamped(row: Job) { CancelledOrAsked(row) ==> !BeforeUpstream(row) }

  /** So over any sequence of calls, with any faults, only the first one can move credits. */
  lemma {:induction false} FirstRoutineDecides(d: Desk, user: string, g: string, r: Routine, rs: seq<Routine>)
    requires Stamped(d.row)
    ensures AfterCalls(d, user, g, [r] + rs).books == Called(d, user, g, r).books
    ensures Stamped(AfterCalls(d, user, g, [r] + rs).row)
  {
    assert ([r] + rs)[1..] == rs;
    CalledSettles(d, user, g, r);
    OnlyTheFirstRoutineRefunds(Called(d, user, g, r), user, g, rs);
  }

  /** The reconciler's refund for cancel requests can never happen: the request itself has moved the stage on. */
  lemma RequestedCancelIsNotReconciled(d: Desk, user: string, g: string, wallet: Fault, subscription: Fault)
    requires d.row.status == Running
    ensures var asked := RequestCancel(d.row);
            && asked.status == CancelRequested && !RefundsStale(asked)
            && Reconciler(Desk(d.books, asked), user, g, wallet, subscription).books == d.books
  {
  }

  /** A stale running job is refunded in full even when its upstream call was sent. */
  lemma StaleRunningJobIsRefunded(d: Desk, user: string, g: string)
    requires Sound(d.books) && user != "" && g != "" && (d.row.status == Running || d.row.status == Queued)
    ensures Reconciler(d, user, g, NoFault, NoFault).row.status == Failed
    ensures Held(Reconciler(d, user, g, NoFault, NoFault).books, user, g) == 0
            <==> SubscriptionHeld(d.books, user, g) <= LatestUsed(d.books, user, g)
  {
    RefundAllEmptiesIff(d.books, user, g);
  }

  /** No routine reserves, and none refunds beyond what is held, over any number of calls with any faults. */
  lemma {:induction false} RoutinesOnlyGiveBack(d: Desk, user: string, g: string, rs: seq<Routine>)
    requires Sound(d.books) && user != "" && g != ""
    ensures var b := AfterCalls(d, user, g, rs).books;
            && Sound(b) && Reserved(b, user, g) == Reserved(d.books, user, g)
            && Refunded(d.books, user, g) <= Refunded(b, user, g) <= Reserved(b, user, g)
    decreases |rs|
  {
    assert Covered(d.books, user, g);
    if rs != [] {
      RefundAllPays(d.books, user, g, rs[0].wallet, rs[0].subscription);
      RoutinesOnlyGiveBack(Called(d, user, g, rs[0]), user, g, rs[1..]);
    }
  }

  // --------------------------------------------------------------------------------------------
  // Users with a single subscription

  lemma SplitRefundKeepsSingle(b: Books, user: string, g: string, amount: int, f: Faults)
    requires Sound(b) && Single(b, user)
    ensures Single(SplitRefund(b, user, g, amount, f), user)
  {
    var w, s := SeenWallet(b, user, g, f), SeenSubscription(b, user, g, f);
    if amount > 0 && w + s > 0 {
      var r := RefundFirst(b, user, g, Min(amount, w + s), w, f);
      RefundFirstKeepsSingle(b, user, g, Min(amount, w + s), w, f);
      RefundRestKeepsSingle(r, user, g, s, f);
    }
  }

  lemma RefundFirstKeepsSingle(b: Books, user: string, g: string, wanted: int, seen: int, f: Faults)
    requires Sound(b) && Single(b, user)
    ensures Sound(RefundFirst(b, user, g, wanted, seen, f).books)
    ensures Single(RefundFirst(b, user, g, wanted, seen, f).books, user)
  {
    var step := RefundWalletStep(user, Min(wanted, seen), g, f.wallet);
    StepKeepsBooksSound(b, step);
    StepKeepsSingle(b, step, user);
  }

  lemma RefundRestKeepsSingle(r: Rest, user: string, g: string, seen: int, f: Faults)
    requires Sound(r.books) && Single(r.books, user)
    ensures Single(RefundRest(r, user, g, seen, f), user)
  {
    StepKeepsSingle(r.books, RefundSubscriptionStep(user, Min(r.amount, seen), g, f.subscription), user);
  }

  lemma CalledKeepsSingle(d: Desk, user: string, g: string, r: Routine)
    requires Sound(d.books) && Single(d.books, user)
    ensures Single(Called(d, user, g, r).books, user)
  {
    RefundAllKeepsSingle(d.books, user, g, r.wallet, r.subscription);
  }

  // --------------------------------------------------------------------------------------------
  // Images that are delivered unpaid

  /**
   A cancel after the worker's last look before the call gives everything back; the worker's next save
   makes the row running again, no later look finds the cancel, and the job succeeds.
   */
  lemma ForgottenCancelIsDelivered(d: Desk, user: string, g: string, mine: Job, done: Job)
    requires Sound(d.books) && user != "" && g != ""
             && SubscriptionHeld(d.books, user, g) <= LatestUsed(d.books, user, g)
    requires d.row.status == Running && BeforeUpstream(d.row) && d.row.creditReserved > 0
    requires mine.status == Running && done.status == Succeeded
    ensures var asked := CancelHandler(d, user, g, false, false, NoFault, NoFault);
            var marked := WorkerSave(asked.row, mine);
            && Held(asked.books, user, g) == 0 && asked.row.status == CancelRequested
            && !CancelledOrAsked(marked) && WorkerSave(marked, done).status == Succeeded
  {
    CancelBeforeUpstreamEmpties(d, user, g, false);
  }

  /**
   A reconciler pass before the last look gives everything back; the failed row is not a cancelled
   one, and the success wins.
   */
  lemma ReconciledJobIsDelivered(d: Desk, user: string, g: string, done: Job)
    requires Sound(d.books) && user != "" && g != ""
             && SubscriptionHeld(d.books, user, g) <= LatestUsed(d.books, user, g)
    requires d.row.status == Running && done.status == Succeeded
    ensures var failed := Reconciler(d, user, g, NoFault, NoFault);
            && Held(failed.books, user, g) == 0 && failed.row.status == Failed
            && !CancelledOrAsked(failed.row) && WorkerSave(failed.row, done).status == Succeeded
  {
    StaleRunningJobIsRefunded(d, user, g);
  }
}

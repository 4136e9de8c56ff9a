/**
 The credit books: the wallet balances, the subscriptions and the one append-only ledger table
 that both credit stores write.

 Every function that posts to the books is one database transaction of the source.  Amounts held
 for a generation are never stored: both stores recompute them as sums over the ledger, and so do
 `Reserved` and `Refunded` here.  A database failure is an input (`Fault`) of the transaction it
 hits.
 */
module CreditLedger {
  import opened Basics

  datatype Reason = WalletReserve | WalletRefund | SubscriptionReserve | SubscriptionRefund | Adjustment

  /** One row of the ledger; `source` is the subscription index, or -1 for the wallet. */
  datatype Entry = Entry(user: string, delta: int, reason: Reason, generation: string, source: int)

  /** Subscriptions are kept in the order in which they are spent: earliest expiry first. */
  datatype Subscription = Subscription(user: string, total: int, used: int, live: bool)

  datatype Books = Books(entries: seq<Entry>, balances: map<string, int>, subscriptions: seq<Subscription>)

  /** `AfterCommit`: the transaction took effect, but the summary query that follows it failed. */
  datatype Fault = NoFault | BeforeCommit | AfterCommit

  datatype Reply = Done(amount: int) | Insufficient | StoreError

  datatype Posted = Posted(books: Books, reply: Reply)

  // --------------------------------------------------------------------------------------------
  // Reading the books

  /** What an entry adds to the total kept for its reason. */
  function Signed(e: Entry): int {
    if e.reason.WalletReserve? || e.reason.SubscriptionReserve? then -e.delta else e.delta
  }

  predicate Matches(e: Entry, user: string, generation: string, reason: Reason) {
    e.user == user && e.generation == generation && e.reason == reason
  }

  function Sum(es: seq<Entry>, user: string, generation: string, reason: Reason): int {
    if es == [] then 0
    else
      var last := es[|es| - 1];
      Sum(es[..|es| - 1], user, generation, reason)
          + (if Matches(last, user, generation, reason) then Signed(last) else 0)
  }

  /** The totals query: nothing is on record for a blank user or a blank generation. */
  function Total(b: Books, user: string, generation: string, reason: Reason): int {
    if user == "" || generation == "" then 0 else Max(0, Sum(b.entries, user, generation, reason))
  }

  function WalletHeld(b: Books, user: string, generation: string): int {
    Total(b, user, generation, WalletReserve) - Total(b, user, generation, WalletRefund)
  }

  function SubscriptionHeld(b: Books, user: string, generation: string): int {
    Total(b, user, generation, SubscriptionReserve) - Total(b, user, generation, SubscriptionRefund)
  }

  function Reserved(b: Books, user: string, generation: string): int {
    Total(b, user, generation, WalletReserve) + Total(b, user, generation, SubscriptionReserve)
  }

  function Refunded(b: Books, user: string, generation: string): int {
    Total(b, user, generation, WalletRefund) + Total(b, user, generation, SubscriptionRefund)
  }

  /** The credits a generation still holds in both ledgers. */
  function Held(b: Books, user: string, generation: string): int {
    Reserved(b, user, generation) - Refunded(b, user, generation)
  }

  function Balance(b: Books, user: string): int {
    if user in b.balances then b.balances[user] else 0
  }

  // --------------------------------------------------------------------------------------------
  // Transactions

  function PostWallet(b: Books, user: string, delta: int, reason: Reason, generation: string): Books {
    b.(entries := b.entries + [Entry(user, delta, reason, generation, -1)],
       balances := b.balances[user := Balance(b, user) + delta])
  }

  function Committed(b: Books, amount: int, fault: Fault): Posted {
    Posted(b, if fault == AfterCommit then StoreError else Done(amount))
  }

  function ReserveWallet(b: Books, user: string, amount: nat, generation: string, fault: Fault): Posted {
    if user == "" || fault == BeforeCommit then Posted(b, StoreError)
    else if amount == 0 then Committed(b, 0, fault)
    else if Balance(b, user) < amount then Posted(b, Insufficient)
    else Committed(PostWallet(b, user, 0 - amount, WalletReserve, generation), amount, fault)
  }

  /** The store clamps a refund to what the generation still holds, inside its own transaction. */
  function RefundWallet(b: Books, user: string, amount: int, generation: string, fault: Fault): Posted {
    if user == "" || fault == BeforeCommit then Posted(b, StoreError)
    else if amount <= 0 then Committed(b, 0, fault)
    else if generation == "" then Committed(PostWallet(b, user, amount, WalletRefund, ""), amount, fault)
    else if WalletHeld(b, user, generation) <= 0 then Committed(b, 0, fault)
    else
      var paid := Min(amount, WalletHeld(b, user, generation));
      Committed(PostWallet(b, user, paid, WalletRefund, generation), paid, fault)
  }

  /** Any other movement of the balance: recharge, admin adjustment, redeem code and so on. */
  function Adjust(b: Books, user: string, delta: int, fault: Fault): Posted {
    if user == "" || fault == BeforeCommit then Posted(b, StoreError)
    else if delta == 0 then Committed(b, 0, fault)
    else if Balance(b, user) + delta < 0 then Posted(b, StoreError)
    else Committed(PostWallet(b, user, delta, Adjustment, ""), delta, fault)
  }

  predicate Spendable(s: Subscription, user: string) {
    s.user == user && s.live && s.used < s.total
  }

  /** The subscription a reservation draws on: one only, the first with credits left. */
  function FirstSpendable(ss: seq<Subscription>, user: string, from: nat): (i: nat)
    requires from <= |ss|
    ensures from <= i <= |ss|
    ensures i < |ss| ==> Spendable(ss[i], user)
    ensures forall k :: from <= k < i ==> !Spendable(ss[k], user)
    decreases |ss| - from
  {
    if from == |ss| || Spendable(ss[from], user) then from else FirstSpendable(ss, user, from + 1)
  }

  function PostSubscription(b: Books, i: nat, delta: int, reason: Reason, user: string, generation: string): Books
    requires i < |b.subscriptions|
  {
    var s := b.subscriptions[i];
    b.(entries := b.entries + [Entry(user, delta, reason, generation, i)],
       subscriptions := b.subscriptions[i := s.(used := s.used - delta)])
  }

  /** May reserve less than asked for; the caller takes the rest from the wallet. */
  function ReserveSubscription(b: Books, user: string, amount: int, generation: string, fault: Fault): Posted {
    if user == "" || amount <= 0 then Posted(b, Done(0))
    else if fault != NoFault then Posted(b, StoreError)
    else
      var i := FirstSpendable(b.subscriptions, user, 0);
      if i == |b.subscriptions| then Posted(b, Done(0))
      else
        var s := b.subscriptions[i];
        var taken := Min(amount, s.total - s.used);
        var posted := if generation != "" then PostSubscription(b, i, -taken, SubscriptionReserve, user, generation)
                      else b.(subscriptions := b.subscriptions[i := s.(used := s.used + taken)]);
        Posted(posted, Done(taken))
  }

  /** The subscription of the generation's newest reservation, or -1. */
  function LatestSource(es: seq<Entry>, user: string, generation: string): int {
    if es == [] then -1
    else if Matches(es[|es| - 1], user, generation, SubscriptionReserve) then es[|es| - 1].source
    else LatestSource(es[..|es| - 1], user, generation)
  }

  /** Credits used on the subscription a refund of this generation goes to. */
  function LatestUsed(b: Books, user: string, generation: string): int {
    var i := LatestSource(b.entries, user, generation);
    if 0 <= i < |b.subscriptions| then b.subscriptions[i].used else 0
  }

  /** A refund goes back to one subscription, and never takes it below zero used credits. */
  function RefundSubscription(b: Books, user: string, amount: int, generation: string, fault: Fault): Posted {
    if user == "" || amount <= 0 || generation == "" then Posted(b, Done(0))
    else if fault != NoFault then Posted(b, StoreError)
    else
      var i := LatestSource(b.entries, user, generation);
      if !(0 <= i < |b.subscriptions|) || b.subscriptions[i].user != user then Posted(b, StoreError)
      else if SubscriptionHeld(b, user, generation) <= 0 then Posted(b, Done(0))
      else
        var paid := Min(Min(amount, SubscriptionHeld(b, user, generation)), b.subscriptions[i].used);
        Posted(PostSubscription(b, i, paid, SubscriptionRefund, user, generation), Done(paid))
  }

  // --------------------------------------------------------------------------------------------
  // Runs of transactions, in any order and for any users and generations

  datatype Step =
    | ReserveWalletStep(user: string, amount: nat, generation: string, fault: Fault)
    | RefundWalletStep(user: string, refund: int, generation: string, fault: Fault)
    | ReserveSubscriptionStep(user: string, wanted: int, generation: string, fault: Fault)
    | RefundSubscriptionStep(user: string, refund: int, generation: string, fault: Fault)
    | AdjustStep(user: string, delta: int, fault: Fault)
    | ExpiryStep(index: nat, live: bool)

  function Apply(b: Books, step: Step): Books {
    match step
    case ReserveWalletStep(u, a, g, f) => ReserveWallet(b, u, a, g, f).books
    case RefundWalletStep(u, a, g, f) => RefundWallet(b, u, a, g, f).books
    case ReserveSubscriptionStep(u, a, g, f) => ReserveSubscription(b, u, a, g, f).books
    case RefundSubscriptionStep(u, a, g, f) => RefundSubscription(b, u, a, g, f).books
    case AdjustStep(u, d, f) => Adjust(b, u, d, f).books
    case ExpiryStep(i, live) =>
      if i < |b.subscriptions| then b.(subscriptions := b.subscriptions[i := b.subscriptions[i].(live := live)]) else b
  }

  function Run(b: Books, steps: seq<Step>): Books
    decreases |steps|
  {
    if steps == [] then b else Run(Apply(b, steps[0]), steps[1..])
  }

  // --------------------------------------------------------------------------------------------
  // Soundness

  predicate SoundEntry(b: Books, e: Entry) {
    && (!e.reason.Adjustment? ==> Signed(e) >= 0)
    && (e.reason.SubscriptionReserve? || e.reason.SubscriptionRefund? ==>
          e.generation != "" && 0 <= e.source < |b.subscriptions| && b.subscriptions[e.source].user == e.user)
  }

  ghost predicate Covered(b: Books, user: string, generation: string) {
    WalletHeld(b, user, generation) >= 0 && SubscriptionHeld(b, user, generation) >= 0
  }

  ghost predicate Sound(b: Books) {
    && (forall u :: Balance(b, u) >= 0)
    && (forall i :: 0 <= i < |b.subscriptions| ==> 0 <= b.subscriptions[i].used <= b.subscriptions[i].total)
    && (forall i :: 0 <= i < |b.entries| ==> SoundEntry(b, b.entries[i]))
    && (forall u, g :: Covered(b, u, g))
  }

  lemma {:induction false} SumAppend(es: seq<Entry>, e: Entry, user: string, generation: string, reason: Reason)
    ensures Sum(es + [e], user, generation, reason)
         == Sum(es, user, generation, reason) + (if Matches(e, user, generation, reason) then Signed(e) else 0)
  {
    assert (es + [e])[..|es|] == es;
  }

  lemma {:induction false} SumSign(b: Books, n: nat, user: string, generation: string, reason: Reason)
    requires n <= |b.entries| && !reason.Adjustment?
    requires forall i :: 0 <= i < |b.entries| ==> SoundEntry(b, b.entries[i])
    ensures Sum(b.entries[..n], user, generation, reason) >= 0
  {
    if n > 0 {
      assert b.entries[..n][..n - 1] == b.entries[..n - 1];
      SumSign(b, n - 1, user, generation, reason);
      assert SoundEntry(b, b.entries[n - 1]);
    }
  }

  /** Posting one entry moves one total of one generation, by exactly that entry. */
  lemma TotalAfter(b: Books, b': Books, e: Entry, user: string, generation: string, reason: Reason)
    requires forall i :: 0 <= i < |b.entries| ==> SoundEntry(b, b.entries[i])
    requires b'.entries == b.entries + [e]
    requires !reason.Adjustment? && (!e.reason.Adjustment? ==> Signed(e) >= 0)
    ensures Total(b', user, generation, reason)
         == Total(b, user, generation, reason)
            + (if user != "" && generation != "" && Matches(e, user, generation, reason) then Signed(e) else 0)
  {
    SumAppend(b.entries, e, user, generation, reason);
    SumSign(b, |b.entries|, user, generation, reason);
    assert b.entries[..|b.entries|] == b.entries;
  }

  lemma TotalsAfter(b: Books, b': Books, e: Entry)
    requires forall i :: 0 <= i < |b.entries| ==> SoundEntry(b, b.entries[i])
    requires b'.entries == b.entries + [e]
    requires !e.reason.Adjustment? ==> Signed(e) >= 0
    ensures forall u, g, r: Reason {:trigger Total(b', u, g, r)} :: !r.Adjustment? ==>
              Total(b', u, g, r)
                  == Total(b, u, g, r) + (if u != "" && g != "" && Matches(e, u, g, r) then Signed(e) else 0)
  {
    forall u, g, r: Reason | !r.Adjustment?
      ensures Total(b', u, g, r)
              == Total(b, u, g, r) + (if u != "" && g != "" && Matches(e, u, g, r) then Signed(e) else 0)
    {
      TotalAfter(b, b', e, u, g, r);
    }
  }

  lemma WalletPostIsSound(b: Books, user: string, delta: int, reason: Reason, generation: string)
    requires Sound(b) && Balance(b, user) + delta >= 0
    requires (reason.WalletReserve? && delta <= 0) || (reason.WalletRefund? && delta >= 0) || reason.Adjustment?
    requires reason.WalletRefund? && user != "" && generation != "" ==> delta <= WalletHeld(b, user, generation)
    ensures Sound(PostWallet(b, user, delta, reason, generation))
  {
    var b' := PostWallet(b, user, delta, reason, generation);
    var e := Entry(user, delta, reason, generation, -1);
    TotalsAfter(b, b', e);
    forall i | 0 <= i < |b'.entries| ensures SoundEntry(b', b'.entries[i]) {
      if i < |b.entries| { assert SoundEntry(b, b.entries[i]); }
    }
    forall u, g ensures Covered(b', u, g) { assert Covered(b, u, g); }
    forall u ensures Balance(b', u) >= 0 { assert Balance(b, u) >= 0; }
  }

  lemma SubscriptionPostIsSound(b: Books, i: nat, delta: int, reason: Reason, user: string, generation: string)
    requires Sound(b) && i < |b.subscriptions| && b.subscriptions[i].user == user && generation != ""
    requires 0 <= b.subscriptions[i].used - delta <= b.subscriptions[i].total
    requires (reason.SubscriptionReserve? && delta <= 0) || (reason.SubscriptionRefund? && delta >= 0)
    requires reason.SubscriptionRefund? ==> delta <= SubscriptionHeld(b, user, generation)
    ensures Sound(PostSubscription(b, i, delta, reason, user, generation))
  {
    var b' := PostSubscription(b, i, delta, reason, user, generation);
    var e := Entry(user, delta, reason, generation, i);
    TotalsAfter(b, b', e);
    forall k | 0 <= k < |b'.entries| ensures SoundEntry(b', b'.entries[k]) {
      if k < |b.entries| { assert SoundEntry(b, b.entries[k]); }
    }
    forall u, g ensures Covered(b', u, g) { assert Covered(b, u, g); }
    forall u ensures Balance(b', u) >= 0 { assert Balance(b, u) >= 0; }
  }

  /** Changing only subscription usage or liveness leaves every total alone. */
  lemma SubscriptionEditIsSound(b: Books, i: nat, s: Subscription)
    requires Sound(b) && i < |b.subscriptions| && s.user == b.subscriptions[i].user && 0 <= s.used <= s.total
    ensures Sound(b.(subscriptions := b.subscriptions[i := s]))
  {
    var b' := b.(subscriptions := b.subscriptions[i := s]);
    forall k | 0 <= k < |b'.entries| ensures SoundEntry(b', b'.entries[k]) { assert SoundEntry(b, b.entries[k]); }
    forall u, g ensures Covered(b', u, g) { assert Covered(b, u, g); }
    forall u ensures Balance(b', u) >= 0 { assert Balance(b, u) >= 0; }
  }

  /** No transaction, whatever its arguments and whatever fails, refunds more than was reserved. */
  lemma StepKeepsBooksSound(b: Books, step: Step)
    requires Sound(b)
    ensures Sound(Apply(b, step))
  {
    match step
    case ReserveWalletStep(u, a, g, f) =>
      if u != "" && f != BeforeCommit && a > 0 && Balance(b, u) >= a {
        WalletPostIsSound(b, u, 0 - a, WalletReserve, g);
      }
    case RefundWalletStep(u, a, g, f) =>
      if u != "" && f != BeforeCommit && a > 0 {
        assert Balance(b, u) >= 0;
        if g == "" {
          WalletPostIsSound(b, u, a, WalletRefund, "");
        } else if WalletHeld(b, u, g) > 0 {
          WalletPostIsSound(b, u, Min(a, WalletHeld(b, u, g)), WalletRefund, g);
        }
      }
    case ReserveSubscriptionStep(u, a, g, f) =>
      if u != "" && a > 0 && f == NoFault {
        var i := FirstSpendable(b.subscriptions, u, 0);
        if i < |b.subscriptions| {
          var s := b.subscriptions[i];
          var taken := Min(a, s.total - s.used);
          if g != "" { SubscriptionPostIsSound(b, i, -taken, SubscriptionReserve, u, g); }
          else { SubscriptionEditIsSound(b, i, s.(used := s.used + taken)); }
        }
      }
    case RefundSubscriptionStep(u, a, g, f) =>
      var i := LatestSource(b.entries, u, g);
      if u != "" && a > 0 && g != "" && f == NoFault && 0 <= i < |b.subscriptions| && b.subscriptions[i].user == u
         && SubscriptionHeld(b, u, g) > 0 {
        var paid := Min(Min(a, SubscriptionHeld(b, u, g)), b.subscriptions[i].used);
        SubscriptionPostIsSound(b, i, paid, SubscriptionRefund, u, g);
      }
    case AdjustStep(u, d, f) =>
      if u != "" && f != BeforeCommit && d != 0 && Balance(b, u) + d >= 0 {
        WalletPostIsSound(b, u, d, Adjustment, "");
      }
    case ExpiryStep(i, live) =>
      if i < |b.subscriptions| { SubscriptionEditIsSound(b, i, b.subscriptions[i].(live := live)); }
  }

  lemma {:induction false} RunKeepsBooksSound(b: Books, steps: seq<Step>)
    requires Sound(b)
    ensures Sound(Run(b, steps))
    decreases |steps|
  {
    if steps != [] {
      StepKeepsBooksSound(b, steps[0]);
      RunKeepsBooksSound(Apply(b, steps[0]), steps[1..]);
    }
  }

  // --------------------------------------------------------------------------------------------
  // Conservation

  predicate WalletEntry(e: Entry) { e.reason.WalletReserve? || e.reason.WalletRefund? || e.reason.Adjustment? }

  /** Everything the ledger ever did to the user's wallet, and to the user's subscriptions. */
  function WalletNet(es: seq<Entry>, user: string): int {
    if es == [] then 0
    else
      var e := es[|es| - 1];
      WalletNet(es[..|es| - 1], user) + (if e.user == user && WalletEntry(e) then e.delta else 0)
  }

  function SubscriptionNet(es: seq<Entry>, user: string): int {
    if es == [] then 0
    else
      var e := es[|es| - 1];
      SubscriptionNet(es[..|es| - 1], user) + (if e.user == user && !WalletEntry(e) then e.delta else 0)
  }

  /** The part of it that belongs to no generation: recharges, adjustments, codes. */
  function AdjustmentNet(es: seq<Entry>, user: string): int {
    if es == [] then 0
    else
      var e := es[|es| - 1];
      AdjustmentNet(es[..|es| - 1], user) + (if e.user == user && e.reason.Adjustment? then e.delta else 0)
  }

  function UsedBy(ss: seq<Subscription>, user: string): int {
    if ss == [] then 0
    else
      var s := ss[|ss| - 1];
      UsedBy(ss[..|ss| - 1], user) + (if s.user == user then s.used else 0)
  }

  lemma UsedAfter(ss: seq<Subscription>, i: nat, s: Subscription, user: string)
    requires i < |ss| && s.user == ss[i].user
    ensures UsedBy(ss[i := s], user) == UsedBy(ss, user) + (if s.user == user then s.used - ss[i].used else 0)
  {
    var n := |ss| - 1;
    if i < n {
      assert ss[i := s][..n] == ss[..n][i := s];
      UsedAfter(ss[..n], i, s, user);
    } else {
      assert ss[i := s][..n] == ss[..n];
    }
  }

  /** Credits drawn from a subscription without a generation leave no ledger row behind. */
  function Untracked(b: Books, step: Step, user: string): int {
    match step
    case ReserveSubscriptionStep(u, a, g, f) =>
      if u == user && g == ""
          then UsedBy(ReserveSubscription(b, u, a, g, f).books.subscriptions, user) - UsedBy(b.subscriptions, user)
      else 0
    case _ => 0
  }

  predicate PostedBy(e: Entry, step: Step) {
    match step
    case ReserveWalletStep(u, _, g, _) => e.user == u && e.generation == g && WalletEntry(e)
    case RefundWalletStep(u, _, g, _) => e.user == u && e.generation == g && WalletEntry(e)
    case ReserveSubscriptionStep(u, _, g, _) => e.user == u && e.generation == g && !WalletEntry(e)
    case RefundSubscriptionStep(u, _, g, _) => e.user == u && e.generation == g && !WalletEntry(e)
    case AdjustStep(_, _, _) => e.reason.Adjustment?
    case ExpiryStep(_, _) => false
  }

  /** A transaction appends at most one row, for its own user and generation. */
  lemma StepPostsAtMostOne(b: Books, step: Step)
    ensures var es := Apply(b, step).entries;
            es == b.entries
                || (|es| == |b.entries| + 1 && es[..|b.entries|] == b.entries && PostedBy(es[|b.entries|], step))
  {
  }

  /** Every change of a balance has its ledger row. */
  lemma {:induction false} StepConservesWallet(b: Books, step: Step, user: string)
    ensures var b' := Apply(b, step);
            Balance(b', user) - WalletNet(b'.entries, user) == Balance(b, user) - WalletNet(b.entries, user)
  {
    var b' := Apply(b, step);
    if |b'.entries| == |b.entries| + 1 { assert b'.entries[..|b.entries|] == b.entries; }
  }

  /** Every change of a subscription's usage has its ledger row, unless it was drawn for no generation. */
  lemma {:induction false} StepConservesSubscriptions(b: Books, step: Step, user: string)
    ensures var b' := Apply(b, step);
            UsedBy(b'.subscriptions, user) + SubscriptionNet(b'.entries, user)
            == UsedBy(b.subscriptions, user) + SubscriptionNet(b.entries, user) + Untracked(b, step, user)
  {
    match step
    case ReserveSubscriptionStep(u, a, g, f) => ReservationConserves(b, u, a, g, f, user);
    case RefundSubscriptionStep(u, a, g, f) => RefundConserves(b, u, a, g, f, user);
    case ExpiryStep(i, live) =>
      if i < |b.subscriptions| { UsedAfter(b.subscriptions, i, b.subscriptions[i].(live := live), user); }
    case _ => StepPostsAtMostOne(b, step);
  }

  lemma {:induction false} PostConserves(b: Books, i: nat, delta: int, reason: Reason, owner: string,
      generation: string, user: string)
    requires i < |b.subscriptions| && b.subscriptions[i].user == owner
             && (reason.SubscriptionReserve? || reason.SubscriptionRefund?)
    ensures var b' := PostSubscription(b, i, delta, reason, owner, generation);
            UsedBy(b'.subscriptions, user) + SubscriptionNet(b'.entries, user)
            == UsedBy(b.subscriptions, user) + SubscriptionNet(b.entries, user)
  {
    var b' := PostSubscription(b, i, delta, reason, owner, generation);
    assert b'.entries[..|b.entries|] == b.entries;
    UsedAfter(b.subscriptions, i, b'.subscriptions[i], user);
  }

  lemma {:induction false} ReservationConserves(b: Books, u: string, a: int, g: string, f: Fault, user: string)
    ensures var b' := ReserveSubscription(b, u, a, g, f).books;
            UsedBy(b'.subscriptions, user) + SubscriptionNet(b'.entries, user)
            == UsedBy(b.subscriptions, user) + SubscriptionNet(b.entries, user)
               + Untracked(b, ReserveSubscriptionStep(u, a, g, f), user)
  {
    var i := FirstSpendable(b.subscriptions, u, 0);
    if u != "" && a > 0 && f == NoFault && i < |b.subscriptions| {
      var s := b.subscriptions[i];
      var taken := Min(a, s.total - s.used);
      if g != "" { PostConserves(b, i, -taken, SubscriptionReserve, u, g, user); }
      else { UsedAfter(b.subscriptions, i, s.(used := s.used + taken), user); }
    }
  }

  lemma {:induction false} RefundConserves(b: Books, u: string, a: int, g: string, f: Fault, user: string)
    ensures var b' := RefundSubscription(b, u, a, g, f).books;
            UsedBy(b'.subscriptions, user) + SubscriptionNet(b'.entries, user)
            == UsedBy(b.subscriptions, user) + SubscriptionNet(b.entries, user)
  {
    var i := LatestSource(b.entries, u, g);
    if RefundSubscription(b, u, a, g, f).books != b {
      PostConserves(b, i, Min(Min(a, SubscriptionHeld(b, u, g)), b.subscriptions[i].used), SubscriptionRefund, u, g,
          user);
    }
  }

  lemma UntrackedIsNonNegative(b: Books, step: Step, user: string)
    requires Sound(b)
    ensures Untracked(b, step, user) >= 0
  {
    match step
    case ReserveSubscriptionStep(u, a, g, f) =>
      if u == user && g == "" {
        var i := FirstSpendable(b.subscriptions, u, 0);
        var b' := ReserveSubscription(b, u, a, g, f).books;
        if i < |b.subscriptions| { UsedAfter(b.subscriptions, i, b'.subscriptions[i], user); }
      }
    case _ =>
  }

  lemma {:induction false} RunConserves(b: Books, steps: seq<Step>, user: string)
    requires Sound(b)
    ensures var b' := Run(b, steps);
            && Balance(b', user) - WalletNet(b'.entries, user) == Balance(b, user) - WalletNet(b.entries, user)
            && UsedBy(b'.subscriptions, user) + SubscriptionNet(b'.entries, user)
               >= UsedBy(b.subscriptions, user) + SubscriptionNet(b.entries, user)
            && ((forall k :: 0 <= k < |steps| && steps[k].ReserveSubscriptionStep? ==> steps[k].generation != "")
               ==> UsedBy(b'.subscriptions, user) + SubscriptionNet(b'.entries, user)
                   == UsedBy(b.subscriptions, user) + SubscriptionNet(b.entries, user))
    decreases |steps|
  {
    if steps != [] {
      StepConservesWallet(b, steps[0], user);
      StepConservesSubscriptions(b, steps[0], user);
      UntrackedIsNonNegative(b, steps[0], user);
      StepKeepsBooksSound(b, steps[0]);
      RunConserves(Apply(b, steps[0]), steps[1..], user);
    }
  }

  /** From empty books on, a balance is the sum of the user's wallet rows, whatever happened. */
  lemma {:induction false} BalanceIsTheLedgers(ss: seq<Subscription>, steps: seq<Step>, user: string)
    requires forall i :: 0 <= i < |ss| ==> 0 <= ss[i].used <= ss[i].total
    ensures var b := Run(Books([], map[], ss), steps); Balance(b, user) == WalletNet(b.entries, user)
  {
    forall u, g ensures Covered(Books([], map[], ss), u, g) {}
    RunConserves(Books([], map[], ss), steps, user);
  }

  // Generation by generation: the ledger's net is what the generations hold together.

  function HeldOver(es: seq<Entry>, user: string, gens: seq<string>, reserve: Reason, refund: Reason): int {
    if gens == [] then 0
    else
      var g := gens[|gens| - 1];
      HeldOver(es, user, gens[..|gens| - 1], reserve, refund) + Sum(es, user, g, reserve) - Sum(es, user, g, refund)
  }

  lemma {:induction false} HeldOverAppend(es: seq<Entry>, e: Entry, user: string, gens: seq<string>, reserve: Reason,
      refund: Reason)
    requires Distinct(gens) && reserve != refund
    ensures HeldOver(es + [e], user, gens, reserve, refund)
         == HeldOver(es, user, gens, reserve, refund)
            + (if e.user == user && e.generation in gens
               then (if e.reason == reserve then Signed(e) else if e.reason == refund then -Signed(e) else 0) else 0)
  {
    if gens != [] {
      var n := |gens| - 1;
      HeldOverAppend(es, e, user, gens[..n], reserve, refund);
      SumAppend(es, e, user, gens[n], reserve);
      SumAppend(es, e, user, gens[n], refund);
      assert gens == gens[..n] + [gens[n]];
      assert e.generation in gens <==> e.generation in gens[..n] || e.generation == gens[n];
    }
  }

  lemma {:induction false} HeldOverEmpty(user: string, gens: seq<string>, reserve: Reason, refund: Reason)
    ensures HeldOver([], user, gens, reserve, refund) == 0
  {
    if gens != [] { HeldOverEmpty(user, gens[..|gens| - 1], reserve, refund); }
  }

  predicate Listed(es: seq<Entry>, gens: seq<string>) {
    forall k :: 0 <= k < |es| ==> es[k].generation in gens
  }

  lemma {:induction false} HeldByGeneration(es: seq<Entry>, user: string, gens: seq<string>)
    requires Distinct(gens) && Listed(es, gens)
    ensures SubscriptionNet(es, user) == -HeldOver(es, user, gens, SubscriptionReserve, SubscriptionRefund)
    ensures WalletNet(es, user) == AdjustmentNet(es, user) - HeldOver(es, user, gens, WalletReserve, WalletRefund)
  {
    if es == [] {
      HeldOverEmpty(user, gens, SubscriptionReserve, SubscriptionRefund);
      HeldOverEmpty(user, gens, WalletReserve, WalletRefund);
    } else {
      var n := |es| - 1;
      assert es == es[..n] + [es[n]];
      HeldByGeneration(es[..n], user, gens);
      HeldOverAppend(es[..n], es[n], user, gens, SubscriptionReserve, SubscriptionRefund);
      HeldOverAppend(es[..n], es[n], user, gens, WalletReserve, WalletRefund);
    }
  }

  function Generations(es: seq<Entry>): (gens: seq<string>)
    ensures Distinct(gens) && Listed(es, gens)
  {
    if es == [] then []
    else
      var n := |es| - 1;
      var gens := Generations(es[..n]);
      assert es == es[..n] + [es[n]];
      if es[n].generation in gens then gens else gens + [es[n].generation]
  }

  lemma {:induction false} HeldOverBound(b: Books, user: string, gens: seq<string>, generation: string)
    requires Sound(b) && user != "" && generation != ""
    ensures HeldOver(b.entries, user, gens, SubscriptionReserve, SubscriptionRefund)
            >= (if generation in gens then SubscriptionHeld(b, user, generation) else 0)
  {
    if gens != [] {
      var n := |gens| - 1;
      HeldOverBound(b, user, gens[..n], generation);
      assert gens == gens[..n] + [gens[n]];
      assert Covered(b, user, gens[n]) && Covered(b, user, generation);
      SumsAreTotals(b, user, gens[n]);
    }
  }

  lemma {:induction false} SumsAreTotals(b: Books, user: string, g: string)
    requires Sound(b) && user != ""
    ensures Sum(b.entries, user, g, SubscriptionReserve) - Sum(b.entries, user, g, SubscriptionRefund)
            == (if g == "" then 0 else SubscriptionHeld(b, user, g))
  {
    assert b.entries[..|b.entries|] == b.entries;
    SumSign(b, |b.entries|, user, g, SubscriptionReserve);
    SumSign(b, |b.entries|, user, g, SubscriptionRefund);
    if g == "" {
      assert forall k :: 0 <= k < |b.entries| ==> SoundEntry(b, b.entries[k]);
      NoBlankSum(b.entries, user, SubscriptionReserve);
      NoBlankSum(b.entries, user, SubscriptionRefund);
    }
  }

  lemma {:induction false} NoBlankSum(es: seq<Entry>, user: string, reason: Reason)
    requires reason.SubscriptionReserve? || reason.SubscriptionRefund?
    requires forall k :: 0 <= k < |es| && !WalletEntry(es[k]) ==> es[k].generation != ""
    ensures Sum(es, user, "", reason) == 0
  {
    if es != [] { NoBlankSum(es[..|es| - 1], user, reason); }
  }

  // --------------------------------------------------------------------------------------------
  // How much a refund really pays

  /** Steps that are not a reservation or a refund of this generation. */
  predicate Elsewhere(step: Step, user: string, generation: string) {
    match step
    case ReserveWalletStep(u, _, g, _) => u != user || g != generation
    case RefundWalletStep(u, _, g, _) => u != user || g != generation
    case ReserveSubscriptionStep(u, _, g, _) => u != user || g != generation
    case RefundSubscriptionStep(u, _, g, _) => u != user || g != generation
    case AdjustStep(_, _, _) => true
    case ExpiryStep(_, _) => true
  }

  /** A transaction for one generation never moves the totals of another one. */
  lemma OtherGenerationsUntouched(b: Books, step: Step, user: string, generation: string, reason: Reason)
    requires Sound(b) && !reason.Adjustment?
    requires Elsewhere(step, user, generation)
    ensures Total(Apply(b, step), user, generation, reason) == Total(b, user, generation, reason)
  {
    var es, n := Apply(b, step).entries, |b.entries|;
    StepPostsAtMostOne(b, step);
    if es != b.entries {
      assert es == b.entries + [es[n]];
      SumAppend(b.entries, es[n], user, generation, reason);
    }
  }

  /** A reservation either takes exactly its amount or, unless the summary query after it fails, nothing. */
  lemma ReserveWalletTakes(b: Books, user: string, amount: nat, generation: string, fault: Fault)
    requires Sound(b) && user != "" && generation != ""
    ensures var p := ReserveWallet(b, user, amount, generation, fault);
            && Total(p.books, user, generation, WalletReserve)
               == Total(b, user, generation, WalletReserve) + (if p.reply.Done? || p.books != b then amount else 0)
            && (p.reply.Done? ==> p.reply.amount == amount && Balance(p.books, user) == Balance(b, user) - amount)
            && (p.reply.Insufficient? ==> p.books == b && Balance(b, user) < amount)
            && (p.reply.StoreError? && p.books != b ==> fault == AfterCommit)
            && LatestUsed(p.books, user, generation) == LatestUsed(b, user, generation)
            && Total(p.books, user, generation, WalletRefund) == Total(b, user, generation, WalletRefund)
            && Total(p.books, user, generation, SubscriptionReserve) == Total(b, user, generation, SubscriptionReserve)
            && Total(p.books, user, generation, SubscriptionRefund) == Total(b, user, generation, SubscriptionRefund)
  {
    var p := ReserveWallet(b, user, amount, generation, fault);
    if p.books != b {
      assert p.books.entries[..|b.entries|] == b.entries;
      TotalsAfter(b, p.books, Entry(user, 0 - amount, WalletReserve, generation, -1));
    }
  }

  /** Any other movement is posted in full unless it would overdraw the wallet, and belongs to no generation. */
  lemma AdjustMoves(b: Books, user: string, delta: int, fault: Fault)
    requires Sound(b) && user != ""
    ensures var p := Adjust(b, user, delta, fault);
            var fits := Balance(b, user) + delta >= 0;
            && Balance(p.books, user) == Balance(b, user) + (if fits && fault != BeforeCommit then delta else 0)
            && (p.reply == Done(delta) <==> fits && fault == NoFault)
            && (forall g, r: Reason :: !r.Adjustment? ==> Total(p.books, user, g, r) == Total(b, user, g, r))
  {
    assert Balance(b, user) >= 0;
    var p := Adjust(b, user, delta, fault);
    if p.books != b { TotalsAfter(b, p.books, Entry(user, delta, Adjustment, "", -1)); }
  }

  /** A wallet refund pays what was asked for, up to what the generation holds there. */
  lemma RefundWalletPays(b: Books, user: string, amount: int, generation: string, fault: Fault)
    requires Sound(b) && user != "" && generation != ""
    ensures var p := RefundWallet(b, user, amount, generation, fault);
            var paid := if fault == BeforeCommit then 0 else Min(Max(amount, 0), WalletHeld(b, user, generation));
            && Total(p.books, user, generation, WalletRefund) == Total(b, user, generation, WalletRefund) + paid
            && Balance(p.books, user) == Balance(b, user) + paid
            && (p.reply.Done? <==> fault == NoFault)
            && LatestUsed(p.books, user, generation) == LatestUsed(b, user, generation)
            && Total(p.books, user, generation, WalletReserve) == Total(b, user, generation, WalletReserve)
            && Total(p.books, user, generation, SubscriptionReserve) == Total(b, user, generation, SubscriptionReserve)
            && Total(p.books, user, generation, SubscriptionRefund) == Total(b, user, generation, SubscriptionRefund)
  {
    assert Covered(b, user, generation);
    var p := RefundWallet(b, user, amount, generation, fault);
    if p.books != b {
      assert p.books.entries[..|b.entries|] == b.entries;
      TotalsAfter(b, p.books, Entry(user, Min(amount, WalletHeld(b, user, generation)), WalletRefund, generation, -1));
    }
  }

  /** A subscription reservation takes what it reports, never more than asked for, from one subscription. */
  lemma ReserveSubscriptionTakes(b: Books, user: string, amount: int, generation: string, fault: Fault)
    requires Sound(b) && user != "" && generation != ""
    ensures var p := ReserveSubscription(b, user, amount, generation, fault);
            && (p.reply.StoreError? <==> fault != NoFault && amount > 0) && (p.reply.StoreError? ==> p.books == b)
            && (p.reply.Done? ==> 0 <= p.reply.amount <= Max(amount, 0))
            && !p.reply.Insufficient?
            && Total(p.books, user, generation, SubscriptionReserve)
               == Total(b, user, generation, SubscriptionReserve) + (if p.reply.Done? then p.reply.amount else 0)
            && Total(p.books, user, generation, SubscriptionRefund) == Total(b, user, generation, SubscriptionRefund)
            && Total(p.books, user, generation, WalletReserve) == Total(b, user, generation, WalletReserve)
            && Total(p.books, user, generation, WalletRefund) == Total(b, user, generation, WalletRefund)
            && p.books.balances == b.balances
            && (p.reply.Done? && p.reply.amount > 0 ==> p.reply.amount <= LatestUsed(p.books, user, generation))
  {
    var p := ReserveSubscription(b, user, amount, generation, fault);
    if p.books != b {
      var i := FirstSpendable(b.subscriptions, user, 0);
      assert 0 <= b.subscriptions[i].used;
      TotalsAfter(b, p.books, Entry(user, -p.reply.amount, SubscriptionReserve, generation, i));
    }
  }

  /** What the first subscription of the user that has credits left can still pay; nothing if there is none. */
  function Left(ss: seq<Subscription>, user: string): (left: nat)
    decreases |ss|
  {
    if ss == [] then 0
    else if ss[0].user == user && ss[0].live && ss[0].total > ss[0].used then ss[0].total - ss[0].used
    else Left(ss[1..], user)
  }

  /** The subscription that is spent next, field by field. */
  predicate IsNext(ss: seq<Subscription>, user: string, i: int) {
    && 0 <= i < |ss| && ss[i].user == user && ss[i].live && ss[i].used < ss[i].total
    && forall k :: 0 <= k < i ==> ss[k].user != user || !ss[k].live || ss[k].total <= ss[k].used
  }

  lemma NextOfRest(ss: seq<Subscription>, user: string, i: int)
    requires ss != [] && !IsNext(ss, user, 0)
    ensures IsNext(ss, user, i) <==> IsNext(ss[1..], user, i - 1)
  {
    if IsNext(ss[1..], user, i - 1) {
      forall k | 0 <= k < i ensures ss[k].user != user || !ss[k].live || ss[k].total <= ss[k].used {
        if k > 0 { assert ss[k] == ss[1..][k - 1]; }
      }
    }
  }

  lemma {:induction false} LeftIsNext(ss: seq<Subscription>, user: string)
    ensures forall i :: IsNext(ss, user, i) ==> Left(ss, user) == ss[i].total - ss[i].used
    ensures (forall i :: !IsNext(ss, user, i)) ==> Left(ss, user) == 0
    decreases |ss|
  {
    if ss != [] {
      LeftIsNext(ss[1..], user);
      if ss[0].user == user && ss[0].live && ss[0].used < ss[0].total {
        assert IsNext(ss, user, 0);
      } else {
        forall i ensures IsNext(ss, user, i) ==> IsNext(ss[1..], user, i - 1) { NextOfRest(ss, user, i); }
        forall i ensures IsNext(ss[1..], user, i) ==> IsNext(ss, user, i + 1) { NextOfRest(ss, user, i + 1); }
      }
    }
  }

  /** The usage of one subscription has grown by `taken`, and nothing else about it or the others is new. */
  predicate DrawnOn(b: Books, b': Books, i: int, taken: int) {
    && |b'.subscriptions| == |b.subscriptions| && b'.balances == b.balances
    && (forall k :: 0 <= k < |b.subscriptions| ==>
          b'.subscriptions[k] == b.subscriptions[k].(used := b.subscriptions[k].used + (if k == i then taken else 0)))
  }

  /** A subscription reservation that meets no fault pays as much as the next subscription has left, and says so. */
  lemma {:induction false} ReserveSubscriptionDraws(b: Books, user: string, amount: int, generation: string)
    requires user != ""
    ensures var p := ReserveSubscription(b, user, amount, generation, NoFault);
            var taken := Min(Max(amount, 0), Left(b.subscriptions, user));
            && p.reply == Done(taken)
            && (taken == 0 ==> p.books == b)
            && (taken > 0 ==>
                  exists i :: && IsNext(b.subscriptions, user, i) && DrawnOn(b, p.books, i, taken)
                              && p.books.entries == b.entries + (if generation == "" then []
                                     else [Entry(user, -taken, SubscriptionReserve, generation, i)]))
  {
    LeftIsNext(b.subscriptions, user);
    var i := FirstSpendable(b.subscriptions, user, 0);
    if i < |b.subscriptions| {
      assert IsNext(b.subscriptions, user, i);
      if amount > 0 {
        var p := ReserveSubscription(b, user, amount, generation, NoFault);
        assert DrawnOn(b, p.books, i, p.reply.amount);
        assert generation == "" ==> p.books.entries == b.entries + [];
      }
    } else {
      forall k ensures !IsNext(b.subscriptions, user, k) {
        if 0 <= k < |b.subscriptions| { assert !Spendable(b.subscriptions[k], user); }
      }
    }
  }

  /** Whether a reservation of this generation has a subscription behind it that a refund can go to. */
  lemma {:induction false} HeldHasSource(es: seq<Entry>, user: string, generation: string)
    ensures Sum(es, user, generation, SubscriptionReserve) > 0 ==>
              exists k :: 0 <= k < |es| && Matches(es[k], user, generation, SubscriptionReserve)
                          && LatestSource(es, user, generation) == es[k].source
  {
    if es != [] {
      var n := |es| - 1;
      HeldHasSource(es[..n], user, generation);
      if Matches(es[n], user, generation, SubscriptionReserve) {
        assert LatestSource(es, user, generation) == es[n].source;
      } else if Sum(es[..n], user, generation, SubscriptionReserve) > 0 {
        var k :| 0 <= k < n && Matches(es[..n][k], user, generation, SubscriptionReserve)
                 && LatestSource(es[..n], user, generation) == es[..n][k].source;
        assert es[k] == es[..n][k];
      }
    }
  }

  /** A refund goes to the subscription of the newest reservation of the generation, and nowhere without one. */
  lemma {:induction false} LatestSourceIs(es: seq<Entry>, user: string, generation: string, k: int)
    requires k == -1 || (0 <= k < |es| && Matches(es[k], user, generation, SubscriptionReserve))
    requires forall j :: k < j < |es| ==> !Matches(es[j], user, generation, SubscriptionReserve)
    ensures LatestSource(es, user, generation) == if k == -1 then -1 else es[k].source
  {
    if es != [] && k < |es| - 1 {
      assert !Matches(es[|es| - 1], user, generation, SubscriptionReserve);
      LatestSourceIs(es[..|es| - 1], user, generation, k);
    }
  }

  /**
   A subscription refund pays the smaller of what was asked for, what the generation holds, and what
   is used on the one subscription the refund goes to.
   */
  lemma RefundSubscriptionPays(b: Books, user: string, amount: int, generation: string, fault: Fault)
    requires Sound(b) && user != "" && generation != ""
    ensures var p := RefundSubscription(b, user, amount, generation, fault);
            var paid := if fault != NoFault then 0
                        else Min(Min(Max(amount, 0), SubscriptionHeld(b, user, generation)),
                            LatestUsed(b, user, generation));
            && Total(p.books, user, generation, SubscriptionRefund)
                == Total(b, user, generation, SubscriptionRefund) + paid
            && Total(p.books, user, generation, SubscriptionReserve) == Total(b, user, generation, SubscriptionReserve)
            && Total(p.books, user, generation, WalletReserve) == Total(b, user, generation, WalletReserve)
            && Total(p.books, user, generation, WalletRefund) == Total(b, user, generation, WalletRefund)
            && p.books.balances == b.balances
            && LatestUsed(p.books, user, generation) == LatestUsed(b, user, generation) - paid
            && (paid > 0 ==> p.reply == Done(paid))
  {
    assert Covered(b, user, generation);
    var i := LatestSource(b.entries, user, generation);
    var p := RefundSubscription(b, user, amount, generation, fault);
    if SubscriptionHeld(b, user, generation) > 0 {
      assert b.entries[..|b.entries|] == b.entries;
      SumSign(b, |b.entries|, user, generation, SubscriptionRefund);
      HeldHasSource(b.entries, user, generation);
      var k :| 0 <= k < |b.entries| && Matches(b.entries[k], user, generation, SubscriptionReserve)
          && i == b.entries[k].source;
      assert SoundEntry(b, b.entries[k]);
      if amount > 0 && fault == NoFault {
        var paid := Min(Min(amount, SubscriptionHeld(b, user, generation)), b.subscriptions[i].used);
        TotalsAfter(b, p.books, Entry(user, paid, SubscriptionRefund, generation, i));
      }
    } else if 0 <= i < |b.subscriptions| {
      assert 0 <= b.subscriptions[i].used;
    }
  }

  // --------------------------------------------------------------------------------------------
  // Refunding everything a generation holds: the cancel handler and the stale-job reconciler

  function RefundHeldWallet(b: Books, user: string, generation: string, fault: Fault): Books {
    var held := WalletHeld(b, user, generation);
    if held > 0 then RefundWallet(b, user, held, generation, fault).books else b
  }

  lemma RefundHeldWalletPays(b: Books, user: string, generation: string, fault: Fault)
    requires Sound(b) && user != "" && generation != ""
    ensures var b' := RefundHeldWallet(b, user, generation, fault);
            && Sound(b')
            && WalletHeld(b', user, generation)
                == (if fault == BeforeCommit then WalletHeld(b, user, generation) else 0)
            && SubscriptionHeld(b', user, generation) == SubscriptionHeld(b, user, generation)
            && LatestUsed(b', user, generation) == LatestUsed(b, user, generation)
            && Reserved(b', user, generation) == Reserved(b, user, generation)
            && Refunded(b, user, generation) <= Refunded(b', user, generation)
  {
    assert Covered(b, user, generation);
    var held := WalletHeld(b, user, generation);
    RefundWalletPays(b, user, held, generation, fault);
    StepKeepsBooksSound(b, RefundWalletStep(user, held, generation, fault));
  }

  lemma LatestUsedIsNonNegative(b: Books, user: string, generation: string)
    requires Sound(b)
    ensures LatestUsed(b, user, generation) >= 0
  {
    var i := LatestSource(b.entries, user, generation);
    if 0 <= i < |b.subscriptions| { assert 0 <= b.subscriptions[i].used; }
  }

  /** Both routines refund the wallet's holding, then the subscription's; a failed read skips its ledger. */
  function RefundAll(b: Books, user: string, generation: string, wallet: Fault, subscription: Fault): Books {
    var b1 := RefundHeldWallet(b, user, generation, wallet);
    if SubscriptionHeld(b1, user, generation) > 0
    then RefundSubscription(b1, user, SubscriptionHeld(b1, user, generation), generation, subscription).books else b1
  }

  lemma RefundAllPays(b: Books, user: string, generation: string, wallet: Fault, subscription: Fault)
    requires Sound(b) && user != "" && generation != ""
    ensures var b' := RefundAll(b, user, generation, wallet, subscription);
            && Sound(b')
            && WalletHeld(b', user, generation)
                == (if wallet == BeforeCommit then WalletHeld(b, user, generation) else 0)
            && SubscriptionHeld(b', user, generation)
               == (if subscription != NoFault then SubscriptionHeld(b, user, generation)
                   else Max(0, SubscriptionHeld(b, user, generation) - LatestUsed(b, user, generation)))
            && Reserved(b', user, generation) == Reserved(b, user, generation)
            && Refunded(b, user, generation) <= Refunded(b', user, generation)
            && (subscription == NoFault ==>
                  LatestUsed(b', user, generation)
                  == Max(0, LatestUsed(b, user, generation) - SubscriptionHeld(b, user, generation)))
  {
    assert Covered(b, user, generation);
    var b1 := RefundHeldWallet(b, user, generation, wallet);
    RefundHeldWalletPays(b, user, generation, wallet);
    assert Covered(b1, user, generation);
    var s := SubscriptionHeld(b1, user, generation);
    RefundSubscriptionPays(b1, user, s, generation, subscription);
    StepKeepsBooksSound(b1, RefundSubscriptionStep(user, s, generation, subscription));
    LatestUsedIsNonNegative(b, user, generation);
  }

  /** When nothing fails, a full refund empties the generation exactly when the subscription it goes to covers it. */
  lemma RefundAllEmptiesIff(b: Books, user: string, generation: string)
    requires Sound(b) && user != "" && generation != ""
    ensures Held(RefundAll(b, user, generation, NoFault, NoFault), user, generation) == 0
            <==> SubscriptionHeld(b, user, generation) <= LatestUsed(b, user, generation)
  {
    RefundAllPays(b, user, generation, NoFault, NoFault);
  }

  /** After a full refund that met no fault a repetition pays nothing, even if the first one was cut short. */
  lemma SecondRefundPaysNothing(b: Books, user: string, generation: string, w2: Fault, s2: Fault)
    requires Sound(b) && user != "" && generation != ""
    ensures var once := RefundAll(b, user, generation, NoFault, NoFault);
            && Refunded(RefundAll(once, user, generation, w2, s2), user, generation) == Refunded(once, user, generation)
            && (SubscriptionHeld(b, user, generation) <= LatestUsed(b, user, generation)
                ==> RefundAll(once, user, generation, w2, s2) == once)
  {
    var once := RefundAll(b, user, generation, NoFault, NoFault);
    RefundAllPays(b, user, generation, NoFault, NoFault);
    RefundAllPays(once, user, generation, w2, s2);
  }

  // --------------------------------------------------------------------------------------------
  // When a subscription refund is paid in full

  /** Usage that predates the ledger is allowed; usage below what the ledger shows is not. */
  predicate UsageBacked(b: Books, user: string) {
    UsedBy(b.subscriptions, user) + SubscriptionNet(b.entries, user) >= 0
  }

  /** At most one subscription, and its usage is backed by the ledger. */
  ghost predicate Single(b: Books, user: string) {
    && UsageBacked(b, user)
    && forall i, k :: 0 <= i < k < |b.subscriptions| && b.subscriptions[i].user == user ==>
        b.subscriptions[k].user != user
  }

  lemma {:induction false} UsedByOnly(ss: seq<Subscription>, user: string, i: nat)
    requires i < |ss| && ss[i].user == user
    requires forall k :: 0 <= k < |ss| && ss[k].user == user ==> k == i
    ensures UsedBy(ss, user) == ss[i].used
  {
    var n := |ss| - 1;
    if i < n { UsedByOnly(ss[..n], user, i); } else { UsedByNone(ss[..n], user); }
  }

  lemma {:induction false} UsedByNone(ss: seq<Subscription>, user: string)
    requires forall k :: 0 <= k < |ss| ==> ss[k].user != user
    ensures UsedBy(ss, user) == 0
  {
    if ss != [] { UsedByNone(ss[..|ss| - 1], user); }
  }

  /** For a user with a single subscription, no refund is ever cut short. */
  lemma OneSubscriptionCovers(b: Books, user: string, generation: string)
    requires Sound(b) && Single(b, user) && user != "" && generation != ""
    ensures SubscriptionHeld(b, user, generation) <= LatestUsed(b, user, generation)
  {
    LatestUsedIsNonNegative(b, user, generation);
    if SubscriptionHeld(b, user, generation) > 0 {
      assert b.entries[..|b.entries|] == b.entries;
      SumSign(b, |b.entries|, user, generation, SubscriptionRefund);
      HeldHasSource(b.entries, user, generation);
      var k :| 0 <= k < |b.entries| && Matches(b.entries[k], user, generation, SubscriptionReserve)
               && LatestSource(b.entries, user, generation) == b.entries[k].source;
      assert SoundEntry(b, b.entries[k]);
      UsedByOnly(b.subscriptions, user, b.entries[k].source);
      var known := Generations(b.entries);
      var gens := if generation in known then known else known + [generation];
      HeldByGeneration(b.entries, user, gens);
      HeldOverBound(b, user, gens, generation);
    }
  }

  lemma StepKeepsOwners(b: Books, step: Step)
    ensures |Apply(b, step).subscriptions| == |b.subscriptions|
    ensures forall i :: 0 <= i < |b.subscriptions| ==> Apply(b, step).subscriptions[i].user == b.subscriptions[i].user
  {
  }

  lemma StepKeepsSingle(b: Books, step: Step, user: string)
    requires Sound(b) && Single(b, user)
    ensures Single(Apply(b, step), user)
  {
    StepKeepsOwners(b, step);
    StepConservesSubscriptions(b, step, user);
    UntrackedIsNonNegative(b, step, user);
  }

  lemma {:induction false} RunKeepsSingle(b: Books, steps: seq<Step>, user: string)
    requires Sound(b) && Single(b, user)
    ensures Single(Run(b, steps), user)
    decreases |steps|
  {
    if steps != [] {
      StepKeepsBooksSound(b, steps[0]);
      StepKeepsSingle(b, steps[0], user);
      RunKeepsSingle(Apply(b, steps[0]), steps[1..], user);
    }
  }

  /** Over every run a single-subscription user's generation can be emptied by one full refund that meets no fault. */
  lemma {:induction false} OneSubscriptionRunRefundsInFull(b: Books, steps: seq<Step>, user: string, generation: string)
    requires Sound(b) && Single(b, user) && user != "" && generation != ""
    ensures Held(RefundAll(Run(b, steps), user, generation, NoFault, NoFault), user, generation) == 0
  {
    RunKeepsBooksSound(b, steps);
    RunKeepsSingle(b, steps, user);
    OneSubscriptionCovers(Run(b, steps), user, generation);
    RefundAllEmptiesIff(Run(b, steps), user, generation);
  }

  /** A full refund is two transactions. */
  lemma RefundAllKeepsSingle(b: Books, user: string, generation: string, wallet: Fault, subscription: Fault)
    requires Sound(b) && Single(b, user)
    ensures Single(RefundAll(b, user, generation, wallet, subscription), user)
  {
    var held := WalletHeld(b, user, generation);
    StepKeepsBooksSound(b, RefundWalletStep(user, held, generation, wallet));
    StepKeepsSingle(b, RefundWalletStep(user, held, generation, wallet), user);
    var b1 := RefundHeldWallet(b, user, generation, wallet);
    var rest := RefundSubscriptionStep(user, SubscriptionHeld(b1, user, generation), generation, subscription);
    StepKeepsSingle(b1, rest, user);
  }

  /** A user with two fresh subscriptions, whose generation draws all of the first and `extra` credits of the second. */
  datatype Draw = Draw(user: string, generation: string, first: nat, second: nat, extra: nat)

  predicate Spans(d: Draw) { d.user != "" && d.generation != "" && d.first > 0 && 0 < d.extra <= d.second }

  function Plans(d: Draw): Books {
    Books([], map[], [Subscription(d.user, d.first, 0, true), Subscription(d.user, d.second, 0, true)])
  }

  function FirstDrawn(d: Draw): Books {
    Books([Entry(d.user, 0 - d.first, SubscriptionReserve, d.generation, 0)], map[],
          [Subscription(d.user, d.first, d.first, true), Subscription(d.user, d.second, 0, true)])
  }

  function BothDrawn(d: Draw): Books {
    Books([Entry(d.user, 0 - d.first, SubscriptionReserve, d.generation, 0),
        Entry(d.user, 0 - d.extra, SubscriptionReserve, d.generation, 1)],
          map[], [Subscription(d.user, d.first, d.first, true), Subscription(d.user, d.second, d.extra, true)])
  }

  lemma DrawsAreReservations(d: Draw)
    requires Spans(d)
    ensures ReserveSubscription(Plans(d), d.user, d.first, d.generation, NoFault)
            == Posted(FirstDrawn(d), Done(d.first))
    ensures ReserveSubscription(FirstDrawn(d), d.user, d.extra, d.generation, NoFault)
            == Posted(BothDrawn(d), Done(d.extra))
  {
    assert FirstSpendable(Plans(d).subscriptions, d.user, 0) == 0;
    assert FirstSpendable(FirstDrawn(d).subscriptions, d.user, 0) == 1;
  }

  lemma PlansAreSound(d: Draw)
    ensures Sound(Plans(d)) && Held(Plans(d), d.user, d.generation) == Reserved(Plans(d), d.user, d.generation) == 0
    ensures WalletHeld(Plans(d), d.user, d.generation) == 0
  {
    forall u, g ensures Covered(Plans(d), u, g) {}
  }

  lemma DrawHolds(b: Books, b': Books, user: string, generation: string, amount: nat)
    requires Sound(b) && user != "" && generation != "" && amount > 0
    requires ReserveSubscription(b, user, amount, generation, NoFault) == Posted(b', Done(amount))
    ensures Sound(b') && Reserved(b', user, generation) == Reserved(b, user, generation) + amount
    ensures WalletHeld(b', user, generation) == WalletHeld(b, user, generation)
    ensures SubscriptionHeld(b', user, generation) == SubscriptionHeld(b, user, generation) + amount
  {
    StepKeepsBooksSound(b, ReserveSubscriptionStep(user, amount, generation, NoFault));
    ReserveSubscriptionTakes(b, user, amount, generation, NoFault);
  }

  lemma BothDrawnHolds(d: Draw)
    requires Spans(d)
    ensures Sound(BothDrawn(d)) && SubscriptionHeld(BothDrawn(d), d.user, d.generation) == d.first + d.extra
    ensures WalletHeld(BothDrawn(d), d.user, d.generation) == 0
    ensures Reserved(BothDrawn(d), d.user, d.generation) == d.first + d.extra
    ensures LatestUsed(BothDrawn(d), d.user, d.generation) == d.extra
  {
    PlansAreSound(d);
    DrawsAreReservations(d);
    DrawHolds(Plans(d), FirstDrawn(d), d.user, d.generation, d.first);
    DrawHolds(FirstDrawn(d), BothDrawn(d), d.user, d.generation, d.extra);
  }

  /** With two subscriptions a full refund can fall short: what came from the first one stays behind. */
  lemma TwoSubscriptionsLoseCredits(d: Draw)
    requires Spans(d)
    ensures Held(BothDrawn(d), d.user, d.generation) == d.first + d.extra
    ensures Held(RefundAll(BothDrawn(d), d.user, d.generation, NoFault, NoFault), d.user, d.generation) == d.first
  {
    BothDrawnHolds(d);
    RefundAllPays(BothDrawn(d), d.user, d.generation, NoFault, NoFault);
  }

  /** A reservation under a blank generation is invisible to the totals, so no routine ever returns it. */
  lemma BlankGenerationIsNeverRefunded(b: Books, user: string, amount: nat)
    requires Sound(b) && user != "" && Balance(b, user) >= amount > 0
    ensures var p := ReserveWallet(b, user, amount, "", NoFault);
            && p.reply == Done(amount) && Balance(p.books, user) == Balance(b, user) - amount
            && (forall w, s :: RefundAll(p.books, user, "", w, s) == p.books)
  {
  }
}

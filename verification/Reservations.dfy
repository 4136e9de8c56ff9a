/**
 The two transactions of one reservation, from a subscription first and from the wallet for the rest,
 and what the split refund gives back of it.
 */
module Reservations {
  import opened Basics
  import opened CreditLedger
  import opened RefundRoutines

  // --------------------------------------------------------------------------------------------
  // How store calls fare

  /** The reservations of one turn, and its totals reads and refunds. */
  datatype Luck = Luck(wallet: Fault, subscription: Fault, refund: Faults)

  const FINE := Luck(NoFault, NoFault, NONE)

  /** A blank generation is not tracked by the ledger. */
  function Tracked(g: string, amount: int): int { if g == "" then 0 else amount }

  // --------------------------------------------------------------------------------------------
  // One reservation, from a subscription first and from the wallet for the rest

  /** `leaked` is what the wallet took although it reported an error. */
  datatype Reservation = Reservation(books: Books, reply: Reply, atWallet: bool, leaked: int)

  /** The subscription's part goes back when the wallet could not pay the rest. */
  function Undone(b: Books, user: string, g: string, taken: int, fault: Fault): Books {
    if taken > 0 then RefundSubscription(b, user, taken, g, fault).books else b
  }

  function RestReserved(b: Books, user: string, g: string, rest: nat, taken: int, luck: Luck): Reservation {
    var p := ReserveWallet(b, user, rest, g, luck.wallet);
    if p.reply.Done? then Reservation(p.books, p.reply, true, 0)
    else
      Reservation(Undone(p.books, user, g, taken, luck.refund.subscription), p.reply, true,
                  Held(p.books, user, g) - Held(b, user, g))
  }

  /** What follows on the subscription's reply. */
  function Continued(s: Posted, user: string, g: string, amount: nat, luck: Luck): Reservation {
    if !s.reply.Done? || amount <= s.reply.amount then Reservation(s.books, s.reply, false, 0)
    else RestReserved(s.books, user, g, amount - s.reply.amount, s.reply.amount, luck)
  }

  function Reserving(b: Books, user: string, g: string, amount: nat, luck: Luck): Reservation {
    Continued(ReserveSubscription(b, user, amount, g, luck.subscription), user, g, amount, luck)
  }

  /** What a transaction of this generation may do to the rest of the books. */
  ghost predicate StaysSound(b: Books, b': Books, user: string) {
    Sound(b') && (Single(b, user) ==> Single(b', user))
  }

  lemma StepStaysSound(b: Books, step: Step, user: string)
    requires Sound(b)
    ensures StaysSound(b, Apply(b, step), user)
  {
    StepKeepsBooksSound(b, step);
    if Single(b, user) { StepKeepsSingle(b, step, user); }
  }

  lemma BlankHoldsNothing(b: Books, user: string)
    ensures Held(b, user, "") == Reserved(b, user, "") == Refunded(b, user, "") == 0
    ensures WalletHeld(b, user, "") == SubscriptionHeld(b, user, "") == 0
  {
  }

  lemma HeldIsNonNegative(b: Books, user: string, g: string)
    requires Sound(b)
    ensures Held(b, user, g) >= 0 && Refunded(b, user, g) <= Reserved(b, user, g)
  {
    assert Covered(b, user, g);
  }

  /** A part that a refund without faults gives back in full. */
  predicate Refundable(b: Books, user: string, g: string, part: int) {
    g != "" && part > 0 ==> part <= LatestUsed(b, user, g) && part <= SubscriptionHeld(b, user, g)
  }

  /** The subscription's reply: a part that can be given back, or a failure that changed nothing. */
  ghost predicate PartTaken(b: Books, user: string, g: string, amount: nat, s: Posted) {
    && StaysSound(b, s.books, user) && s.books.balances == b.balances
    && Refunded(s.books, user, g) >= Refunded(b, user, g)
    && (s.reply.Done? || (s.reply.StoreError? && s.books == b))
    && (s.reply.Done? ==>
        && 0 <= s.reply.amount <= amount && Refundable(s.books, user, g, s.reply.amount)
        && Held(s.books, user, g) == Held(b, user, g) + Tracked(g, s.reply.amount))
  }

  lemma SubscriptionTakes(b: Books, user: string, g: string, amount: nat, fault: Fault)
    requires Sound(b) && user != ""
    ensures PartTaken(b, user, g, amount, ReserveSubscription(b, user, amount, g, fault))
    ensures ReserveSubscription(b, user, amount, g, NoFault).reply.Done?
  {
    StepStaysSound(b, ReserveSubscriptionStep(user, amount, g, fault), user);
    if g != "" {
      ReserveSubscriptionTakes(b, user, amount, g, fault);
      assert Covered(b, user, g);
    } else {
      BlankTakes(b, user, amount, fault);
    }
  }

  lemma BlankTakes(b: Books, user: string, amount: nat, fault: Fault)
    requires Sound(b) && user != ""
    ensures var p := ReserveSubscription(b, user, amount, "", fault);
            && p.books.balances == b.balances && !p.reply.Insufficient?
            && (p.reply.StoreError? ==> p.books == b && fault != NoFault)
            && (p.reply.Done? ==> 0 <= p.reply.amount <= amount)
  {
    var i := FirstSpendable(b.subscriptions, user, 0);
    assert i < |b.subscriptions| ==> b.subscriptions[i].used < b.subscriptions[i].total;
  }

  lemma WalletTakes(b: Books, user: string, g: string, amount: nat, fault: Fault)
    requires Sound(b) && user != ""
    ensures var p := ReserveWallet(b, user, amount, g, fault);
            && StaysSound(b, p.books, user) && Refunded(p.books, user, g) >= Refunded(b, user, g)
            && LatestUsed(p.books, user, g) == LatestUsed(b, user, g)
            && SubscriptionHeld(p.books, user, g) == SubscriptionHeld(b, user, g)
            && (p.reply.Done? ==> Held(p.books, user, g) == Held(b, user, g) + Tracked(g, amount))
            && (!p.reply.Done? ==> 0 <= Held(p.books, user, g) - Held(b, user, g) <= Tracked(g, amount))
            && (p.reply.Insufficient? ==> p.books == b)
            && (fault == NoFault ==> !p.reply.StoreError? && (p.reply.Done? <==> Balance(b, user) >= amount))
  {
    StepStaysSound(b, ReserveWalletStep(user, amount, g, fault), user);
    if g != "" { ReserveWalletTakes(b, user, amount, g, fault); } else { BlankSource(b, user, amount, fault); }
    assert Balance(b, user) >= 0;
  }

  lemma BlankSource(b: Books, user: string, amount: nat, fault: Fault)
    ensures LatestUsed(ReserveWallet(b, user, amount, "", fault).books, user, "") == LatestUsed(b, user, "")
  {
    var b' := ReserveWallet(b, user, amount, "", fault).books;
    if b' != b { assert b'.entries[..|b.entries|] == b.entries; }
  }

  lemma UndoPays(b: Books, user: string, g: string, taken: int, fault: Fault)
    requires Sound(b) && user != "" && Refundable(b, user, g, taken)
    ensures var b' := Undone(b, user, g, taken, fault);
            && StaysSound(b, b', user) && Refunded(b', user, g) >= Refunded(b, user, g)
            && Held(b', user, g) == Held(b, user, g) - (if fault == NoFault then Tracked(g, Max(taken, 0)) else 0)
  {
    if taken > 0 {
      StepStaysSound(b, RefundSubscriptionStep(user, taken, g, fault), user);
      if g != "" { RefundSubscriptionPays(b, user, taken, g, fault); LatestUsedIsNonNegative(b, user, g); }
    }
  }

  /** The rest is taken, or the subscription's part is undone, unless that fails. */
  ghost predicate RestTaken(b: Books, user: string, g: string, rest: nat, taken: nat, luck: Luck, r: Reservation) {
    && StaysSound(b, r.books, user) && Refunded(r.books, user, g) >= Refunded(b, user, g)
    && 0 <= r.leaked <= Tracked(g, rest) && r.atWallet
    && (r.leaked > 0 ==> r.reply.StoreError?)
    && (r.reply.Done? ==>
        && LatestUsed(r.books, user, g) == LatestUsed(b, user, g)
        && SubscriptionHeld(r.books, user, g) == SubscriptionHeld(b, user, g))
    && Held(r.books, user, g) == Held(b, user, g)
        + (if r.reply.Done? then Tracked(g, rest)
           else r.leaked - (if luck.refund.subscription == NoFault then Tracked(g, taken) else 0))
  }

  lemma RestTakes(b: Books, user: string, g: string, rest: nat, taken: nat, luck: Luck)
    requires Sound(b) && user != "" && Refundable(b, user, g, taken)
    ensures RestTaken(b, user, g, rest, taken, luck, RestReserved(b, user, g, rest, taken, luck))
  {
    WalletTakes(b, user, g, rest, luck.wallet);
    var p := ReserveWallet(b, user, rest, g, luck.wallet);
    if !p.reply.Done? { UndoPays(p.books, user, g, taken, luck.refund.subscription); }
  }

  /** The wallet cannot pay what the subscription that is spent next leaves. */
  predicate Short(b: Books, user: string, amount: nat) {
    Balance(b, user) < amount - Min(amount, Left(b.subscriptions, user))
  }

  /** The subscription a refund goes to covers what the wallet does not. */
  predicate Covers(b: Books, user: string, g: string, amount: int) {
    g == "" || Min(Max(amount, 0), Held(b, user, g)) - WalletHeld(b, user, g) <= LatestUsed(b, user, g)
  }

  /**
   All of the amount, in a way that can be given back; or, if the undoing works, none of it, except for
   what the wallet took and did not admit.
   */
  ghost predicate Takes(b: Books, user: string, g: string, amount: nat, luck: Luck, r: Reservation) {
    && StaysSound(b, r.books, user) && Refunded(r.books, user, g) >= Refunded(b, user, g)
    && 0 <= r.leaked <= Tracked(g, amount)
    && (r.leaked > 0 ==> r.reply.StoreError? && r.atWallet)
    && (r.reply.Done? ==>
        Held(r.books, user, g) == Held(b, user, g) + Tracked(g, amount) && Covers(r.books, user, g, amount))
    && (!r.reply.Done? ==> Held(r.books, user, g) >= Held(b, user, g))
    && (!r.reply.Done? && luck.refund.subscription == NoFault ==>
        Held(r.books, user, g) == Held(b, user, g) + r.leaked)
    && (!r.reply.Done? && !r.atWallet ==> r.books == b && r.reply.StoreError?)
  }

  lemma ReservingTakes(b: Books, user: string, g: string, amount: nat, luck: Luck)
    requires Sound(b) && user != ""
    ensures Takes(b, user, g, amount, luck, Reserving(b, user, g, amount, luck))
  {
    SubscriptionTakes(b, user, g, amount, luck.subscription);
    ContinuedTakes(b, ReserveSubscription(b, user, amount, g, luck.subscription), user, g, amount, luck);
  }

  lemma ContinuedTakes(b: Books, s: Posted, user: string, g: string, amount: nat, luck: Luck)
    requires user != "" && PartTaken(b, user, g, amount, s)
    ensures Takes(b, user, g, amount, luck, Continued(s, user, g, amount, luck))
  {
    if s.reply.Done? && s.reply.amount < amount {
      RestIsTaken(s, user, g, amount, luck);
      PartIsCovered(s.books, user, g);
      TakesTogether(b, s, user, g, amount, luck, Continued(s, user, g, amount, luck));
    } else {
      TakesAlone(b, s, user, g, amount, luck, Continued(s, user, g, amount, luck));
    }
  }

  lemma RestIsTaken(s: Posted, user: string, g: string, amount: nat, luck: Luck)
    requires Sound(s.books) && user != "" && s.reply.Done? && 0 <= s.reply.amount < amount
    requires Refundable(s.books, user, g, s.reply.amount)
    ensures RestTaken(s.books, user, g, amount - s.reply.amount, s.reply.amount, luck,
                      Continued(s, user, g, amount, luck))
  {
    RestTakes(s.books, user, g, amount - s.reply.amount, s.reply.amount, luck);
  }

  lemma PartIsCovered(b: Books, user: string, g: string)
    requires Sound(b)
    ensures LatestUsed(b, user, g) >= 0 && WalletHeld(b, user, g) >= 0
  {
    LatestUsedIsNonNegative(b, user, g);
    assert Covered(b, user, g);
  }

  lemma TakesAlone(b: Books, s: Posted, user: string, g: string, amount: nat, luck: Luck, r: Reservation)
    requires PartTaken(b, user, g, amount, s) && (s.reply.Done? ==> amount <= s.reply.amount)
    requires r == Reservation(s.books, s.reply, false, 0)
    ensures Takes(b, user, g, amount, luck, r)
  {
    PartIsCovered(s.books, user, g);
  }

  lemma TakesTogether(b: Books, s: Posted, user: string, g: string, amount: nat, luck: Luck, r: Reservation)
    requires PartTaken(b, user, g, amount, s) && s.reply.Done? && s.reply.amount < amount
    requires RestTaken(s.books, user, g, amount - s.reply.amount, s.reply.amount, luck, r)
    requires LatestUsed(s.books, user, g) >= 0 && WalletHeld(s.books, user, g) >= 0
    ensures Takes(b, user, g, amount, luck, r)
  {
  }

  /** Without faults it fails exactly if the wallet cannot pay what the subscription leaves. */
  lemma ReservingFailsIff(b: Books, user: string, g: string, amount: nat)
    requires Sound(b) && user != ""
    ensures var r := Reserving(b, user, g, amount, FINE);
            !r.reply.StoreError? && (r.reply.Insufficient? <==> Short(b, user, amount))
  {
    ReserveSubscriptionDraws(b, user, amount, g);
    SubscriptionTakes(b, user, g, amount, NoFault);
    ContinuedFailsIff(b, ReserveSubscription(b, user, amount, g, NoFault), user, g, amount);
  }

  lemma {:induction false} ContinuedFailsIff(b: Books, s: Posted, user: string, g: string, amount: nat)
    requires Sound(b) && user != "" && PartTaken(b, user, g, amount, s) && s.reply.Done?
    requires s.reply.amount == Min(amount, Left(b.subscriptions, user))
    ensures var r := Continued(s, user, g, amount, FINE);
            !r.reply.StoreError? && (r.reply.Insufficient? <==> Short(b, user, amount))
  {
    assert Balance(b, user) >= 0;
    if s.reply.amount < amount { WalletTakes(s.books, user, g, amount - s.reply.amount, NoFault); }
  }

  /**
   Which credits a reservation takes: from the subscription that is spent next whatever it has left, up to
   the amount, and only the rest from the wallet.  Whatever fails, one that is done has taken exactly that.
   */
  ghost predicate Splits(b: Books, b': Books, user: string, g: string, amount: nat) {
    var part := Min(amount, Left(b.subscriptions, user));
    && Total(b', user, g, SubscriptionReserve) == Total(b, user, g, SubscriptionReserve) + Tracked(g, part)
    && Total(b', user, g, WalletReserve) == Total(b, user, g, WalletReserve) + Tracked(g, amount - part)
    && Balance(b', user) == Balance(b, user) - (amount - part)
    && (part == 0 ==> b'.subscriptions == b.subscriptions)
    && (part > 0 ==> exists i :: IsNext(b.subscriptions, user, i)
                                 && b'.subscriptions == UsedMore(b.subscriptions, i, part))
  }

  /** The subscriptions once `part` more credits of number `i` are used. */
  function UsedMore(ss: seq<Subscription>, i: int, part: int): seq<Subscription>
    requires 0 <= i < |ss|
  {
    ss[i := Subscription(ss[i].user, ss[i].total, ss[i].used + part, ss[i].live)]
  }

  lemma ReservingSplits(b: Books, user: string, g: string, amount: nat, luck: Luck)
    requires Sound(b) && user != ""
    requires Reserving(b, user, g, amount, luck).reply.Done?
    ensures Splits(b, Reserving(b, user, g, amount, luck).books, user, g, amount)
  {
    var s := ReserveSubscription(b, user, amount, g, luck.subscription);
    var part := Min(amount, Left(b.subscriptions, user));
    PartIsDrawn(b, user, g, amount, luck.subscription);
    StepKeepsBooksSound(b, ReserveSubscriptionStep(user, amount, g, luck.subscription));
    if part < amount && g != "" { ReserveWalletTakes(s.books, user, amount - part, g, luck.wallet); }
  }

  /** The subscription's part of a reservation. */
  lemma {:induction false} PartIsDrawn(b: Books, user: string, g: string, amount: nat, fault: Fault)
    requires Sound(b) && user != "" && ReserveSubscription(b, user, amount, g, fault).reply.Done?
    ensures var part := Min(amount, Left(b.subscriptions, user));
            var p := ReserveSubscription(b, user, amount, g, fault);
            && p.reply.amount == part && p.books.balances == b.balances
            && Total(p.books, user, g, SubscriptionReserve) == Total(b, user, g, SubscriptionReserve) + Tracked(g, part)
            && Total(p.books, user, g, WalletReserve) == Total(b, user, g, WalletReserve)
            && (part == 0 ==> p.books == b)
            && (part > 0 ==> exists i :: IsNext(b.subscriptions, user, i)
                                         && p.books.subscriptions == UsedMore(b.subscriptions, i, part))
  {
    assert amount > 0 ==> fault == NoFault;
    ReserveSubscriptionDraws(b, user, amount, g);
    if g != "" { ReserveSubscriptionTakes(b, user, amount, g, fault); }
    var part, b' := Min(amount, Left(b.subscriptions, user)), ReserveSubscription(b, user, amount, g, fault).books;
    if part > 0 {
      var i :| IsNext(b.subscriptions, user, i) && DrawnOn(b, b', i, part);
      DrawnIsUsedMore(b, b', user, i, part);
    }
  }

  lemma DrawnIsUsedMore(b: Books, b': Books, user: string, i: int, part: int)
    requires IsNext(b.subscriptions, user, i) && DrawnOn(b, b', i, part)
    ensures b'.subscriptions == UsedMore(b.subscriptions, i, part)
  {
  }

  /** One that fails for want of credits has given back what the subscription had paid; the ledger shows that refund. */
  lemma {:induction false} InsufficientIsUndone(b: Books, user: string, g: string, amount: nat)
    requires Sound(b) && user != "" && Short(b, user, amount)
    ensures var b' := Reserving(b, user, g, amount, FINE).books;
            && Refunded(b', user, g) == Refunded(b, user, g) + Tracked(g, Left(b.subscriptions, user))
            && Reserved(b', user, g) == Reserved(b, user, g) + Tracked(g, Left(b.subscriptions, user))
            && Balance(b', user) == Balance(b, user)
  {
    assert Balance(b, user) >= 0;
    var s := ReserveSubscription(b, user, amount, g, NoFault);
    ReserveSubscriptionDraws(b, user, amount, g);
    SubscriptionTakes(b, user, g, amount, NoFault);
    ReservingFailsIff(b, user, g, amount);
    if g != "" && s.reply.amount > 0 {
      ReserveSubscriptionTakes(b, user, amount, g, NoFault);
      RefundSubscriptionPays(s.books, user, s.reply.amount, g, NoFault);
    }
  }

  /** How many of the next `n` images can be paid one after another. */
  function Affordable(b: Books, user: string, g: string, unit: nat, n: nat): (count: nat)
    ensures count <= n
    decreases n
  {
    if n == 0 || Short(b, user, unit) then 0
    else 1 + Affordable(Reserving(b, user, g, unit, FINE).books, user, g, unit, n - 1)
  }

  /** The user has credits left on one subscription at most. */
  predicate OneWithCredits(ss: seq<Subscription>, user: string) {
    forall i, k :: 0 <= i < k < |ss| && ss[i].user == user && ss[i].live && ss[i].used < ss[i].total ==>
                     ss[k].user != user || !ss[k].live || ss[k].total <= ss[k].used
  }

  /** What a user can spend at once. */
  function Funds(b: Books, user: string): int { Left(b.subscriptions, user) + Balance(b, user) }

  /** With one subscription in use, credits are credits: as many images as the funds pay for. */
  lemma {:induction false} OneSubscriptionAffords(b: Books, user: string, g: string, unit: nat, n: nat)
    requires Sound(b) && user != "" && unit > 0 && OneWithCredits(b.subscriptions, user)
    ensures Affordable(b, user, g, unit, n) == Min(n, Funds(b, user) / unit)
  {
    assert Balance(b, user) >= 0;
    QuotientBounds(Funds(b, user), unit);
    AffordsWhole(b, user, g, unit, n, Funds(b, user) / unit);
  }

  lemma {:induction false} AffordsWhole(b: Books, user: string, g: string, unit: nat, n: nat, q: nat)
    requires Sound(b) && user != "" && unit > 0 && OneWithCredits(b.subscriptions, user)
    requires IsQuotient(Funds(b, user), unit, q)
    ensures Affordable(b, user, g, unit, n) == Min(n, q)
    decreases n
  {
    ShortIff(b, user, unit);
    QuotientLess(Funds(b, user), unit, q);
    if n > 0 && q > 0 {
      OneSubscriptionPays(b, user, g, unit);
      AffordsWhole(Reserving(b, user, g, unit, FINE).books, user, g, unit, n - 1, q - 1);
    }
  }

  lemma ShortIff(b: Books, user: string, amount: nat)
    requires Sound(b)
    ensures Short(b, user, amount) <==> Funds(b, user) < amount
  {
    assert Balance(b, user) >= 0;
  }

  predicate IsQuotient(n: int, unit: nat, q: nat) { unit * q <= n < unit * q + unit }

  lemma QuotientLess(n: int, unit: nat, q: nat)
    requires IsQuotient(n, unit, q)
    ensures q == 0 <==> n < unit
    ensures q > 0 ==> IsQuotient(n - unit, unit, q - 1)
  {
    if q > 0 {
      assert unit * q == unit * (q - 1) + unit;
      ProductIsNonNegative(unit, q - 1);
    }
  }

  lemma ProductIsNonNegative(unit: nat, q: nat)
    ensures unit * q >= 0
  {
  }

  lemma QuotientBounds(n: nat, unit: nat)
    requires unit > 0
    ensures n / unit >= 0 && IsQuotient(n, unit, n / unit)
  {
    assert n == unit * (n / unit) + n % unit;
  }

  lemma QuotientIs(n: nat, unit: nat, q: nat)
    requires unit > 0 && unit * q <= n < unit * q + unit
    ensures n / unit == q
  {
    var d := n / unit - q;
    assert n == unit * (n / unit) + n % unit;
    assert unit * (n / unit) - unit * q == unit * d;
  }

  /** A reservation takes its amount from the funds. */
  lemma OneSubscriptionPays(b: Books, user: string, g: string, amount: nat)
    requires Sound(b) && user != "" && OneWithCredits(b.subscriptions, user) && !Short(b, user, amount)
    ensures var b' := Reserving(b, user, g, amount, FINE).books;
            Sound(b') && OneWithCredits(b'.subscriptions, user) && Funds(b', user) == Funds(b, user) - amount
  {
    ReservingTakes(b, user, g, amount, FINE);
    ReservingFailsIff(b, user, g, amount);
    ReservingSplits(b, user, g, amount, FINE);
    FundsAfter(b, Reserving(b, user, g, amount, FINE).books, user, g, amount);
  }

  lemma FundsAfter(b: Books, b': Books, user: string, g: string, amount: nat)
    requires OneWithCredits(b.subscriptions, user) && Splits(b, b', user, g, amount)
    ensures OneWithCredits(b'.subscriptions, user) && Funds(b', user) == Funds(b, user) - amount
  {
    var ss, part := b.subscriptions, Min(amount, Left(b.subscriptions, user));
    if part > 0 {
      var i :| IsNext(ss, user, i) && b'.subscriptions == UsedMore(ss, i, part);
      LeftIsNext(ss, user);
      LeftAfter(ss, user, i, part);
    }
  }

  lemma {:induction false} LeftAfter(ss: seq<Subscription>, user: string, i: int, part: int)
    requires OneWithCredits(ss, user) && IsNext(ss, user, i) && 0 < part <= Left(ss, user) == ss[i].total - ss[i].used
    ensures OneWithCredits(UsedMore(ss, i, part), user) && Left(UsedMore(ss, i, part), user) == Left(ss, user) - part
  {
    var ss' := UsedMore(ss, i, part);
    LeftIsNext(ss', user);
    assert forall k :: 0 <= k < |ss| && k != i ==> ss'[k] == ss[k];
    if part < Left(ss, user) {
      assert IsNext(ss', user, i);
    } else {
      assert forall k :: !IsNext(ss', user, k);
    }
  }

  lemma FreeIsAffordable(b: Books, user: string, g: string)
    requires Sound(b)
    ensures !Short(b, user, 0) && Reserving(b, user, g, 0, FINE).books == b
  {
    assert Balance(b, user) >= 0;
  }

  // --------------------------------------------------------------------------------------------
  // Giving back

  /**
   A split refund gives back at most what is held; without faults it is exact if and only if the
   subscription it goes to covers its share.
   */
  lemma SplitRefundGivesBack(b: Books, user: string, g: string, amount: int, f: Faults)
    requires Sound(b) && user != ""
    ensures var b' := SplitRefund(b, user, g, amount, f);
            var due := Min(Max(amount, 0), Held(b, user, g));
            && StaysSound(b, b', user) && Reserved(b', user, g) == Reserved(b, user, g)
            && 0 <= Held(b', user, g) <= Held(b, user, g)
            && (f == NONE ==> Held(b', user, g) >= Held(b, user, g) - due)
            && (f == NONE ==> (Held(b', user, g) == Held(b, user, g) - due <==> Covers(b, user, g, amount)))
  {
    if Single(b, user) { SplitRefundKeepsSingle(b, user, g, amount, f); }
    HeldIsNonNegative(b, user, g);
    if g != "" {
      SplitRefundPays(b, user, g, amount, f);
      SplitRefundExactIff(b, user, g, amount);
      HeldIsNonNegative(SplitRefund(b, user, g, amount, f), user, g);
      LatestUsedIsNonNegative(b, user, g);
    } else {
      SplitRefundOfNothing(b, user, amount, f);
    }
  }

  lemma SplitRefundOfNothing(b: Books, user: string, amount: int, f: Faults)
    ensures SplitRefund(b, user, "", amount, f) == b
  {
    BlankHoldsNothing(b, user);
  }

  lemma SingleCovers(b: Books, user: string, g: string, amount: int)
    requires Sound(b) && Single(b, user) && user != ""
    ensures Covers(b, user, g, amount)
  {
    if g != "" { OneSubscriptionCovers(b, user, g); }
  }

  /**
   One reservation, whatever it drew on, comes back in full if it is given back before anything else
   happens, however many subscriptions the user has.
   */
  lemma ReservationIsReturned(b: Books, user: string, g: string, amount: nat, luck: Luck)
    requires Sound(b) && user != "" && Reserving(b, user, g, amount, luck).reply.Done?
    ensures Held(SplitRefund(Reserving(b, user, g, amount, luck).books, user, g, amount, NONE), user, g)
            == Held(b, user, g)
  {
    ReservingTakes(b, user, g, amount, luck);
    HeldIsNonNegative(b, user, g);
    SplitRefundGivesBack(Reserving(b, user, g, amount, luck).books, user, g, amount, NONE);
  }
}

/**
 When exactly does one cancel call make delivered images unpaid?  Everything else is quiet here: the
 first reservation of a generation, an answer with the images asked for, and a single cancel call in one
 of the turns of the run.
 */
module CancelMoments {
  import opened Basics
  import opened CreditLedger
  import opened JobRecords
  import opened RefundRoutines
  import opened Reservations
  import opened Settlement
  import opened SettlementRuns

  /** A cancel call that meets no fault; `active`: the worker runs in the process that handles the call. */
  function Cancel(active: bool): Turn { Turn([OnJob(CancelCall(active, false, NoFault, NoFault))], FINE) }

  function Hit(c: Case, w: World, active: bool): World {
    Act(c, w.(script := []), OnJob(CancelCall(active, false, NoFault, NoFault)))
  }

  lemma CancelTurn(c: Case, w: World, active: bool)
    requires w.script == Late(0, Cancel(active))
    ensures Turned(c, w) == Hit(c, w, active) && Coming(w.script).luck == FINE
  {
    LateTurn(c, w, Cancel(active));
    PlayOne(c, w.(script := []), OnJob(CancelCall(active, false, NoFault, NoFault)));
  }

  /** A running job's row shows the cancel; it is final if the handler could stop the worker. */
  lemma HitRow(c: Case, w: World, active: bool)
    requires w.row.status == Running
    ensures CancelledOrAsked(Hit(c, w, active).row) && (active ==> Hit(c, w, active).row.status == Cancelled)
    ensures w.row.upstreamSent ==> Hit(c, w, active).outside == w.outside && Hit(c, w, active).row.upstreamSent
  {
  }

  /** A cancel before the reservation finds nothing to give back. */
  lemma HitNothing(c: Case, w: World, active: bool)
    requires Sound(w.books) && Holding(c, w) == 0 && c.user != "" && c.generation != ""
    ensures Hit(c, w, active).books == w.books && Hit(c, w, active).outside == w.outside
  {
    assert Covered(w.books, c.user, c.generation);
  }

  lemma CancelFirst(c: Case, w: World, d: Dispatch, active: bool)
    requires Sound(w.books) && AtStart(c, w) && w.script == Late(0, Cancel(active))
    ensures var z := Executed(c, w, d);
            z.outcome.Delivered? ==> Holding(c, z.world) >= Due(c, w, z)
  {
    var w' := Hit(c, w, active);
    CancelTurn(c, w, active);
    HitNothing(c, w, active);
    SameStart(c, w, w', d);
    if Executed(c, w', d).outcome.Delivered? { DeliveredImagesArePaid(c, w', CALM, d); }
  }

  /** A run whose first turn leads to `w'` is the run from there. */
  lemma SameStart(c: Case, w: World, w': World, d: Dispatch)
    requires Turned(c, w) == w' && Coming(w.script).luck == FINE && w'.script == []
    ensures Executed(c, w, d) == Executed(c, w', d)
  {
    QuietTurn(c, w', 1);
  }

  /** A look that finds the cancel ends the run. */
  lemma LookFinds(c: Case, s: World, active: bool)
    requires s.script == Late(0, Cancel(active)) && s.row.status == Running
    ensures Looked(c, s).Ended? && !Looked(c, s).end.outcome.Delivered?
  {
    CancelTurn(c, s, active);
    HitRow(c, s, active);
  }

  /** Where the first reservation leads if its turn is quiet. */
  lemma QuietReservation(c: Case, w: World) returns (s: World)
    requires Sound(w.books) && AtStart(c, w) && QuietFor(w.script, 1)
    ensures Begun(c, w) == Approached(c, s)
    ensures s == w.(books := s.books, script := Past(w.script, 1)) && Reserves(c, w, s.books)
  {
    QuietTurn(c, w, 1);
    FirstReservation(c, w);
    s := AfterDraw(c, w, FirstCost(c));
  }

  /** The first save, if the next turn is quiet. */
  lemma QuietSave(c: Case, w: World) returns (s: World)
    requires Sound(w.books) && AtStart(c, w) && QuietFor(w.script, 2)
    ensures Begun(c, w) == SavedAndLooked(c, s) && Underway(s) && s.script == Past(w.script, 2)
  {
    var r := QuietReservation(c, w);
    QuietTurn(c, w, 2);
    QuietTurn(c, r, 1);
    PastPast(w.script, 1, 1);
    s := r.(script := Past(w.script, 2));
  }

  lemma CancelAtFirstLook(c: Case, w: World, d: Dispatch, active: bool)
    requires Sound(w.books) && AtStart(c, w) && w.script == Late(2, Cancel(active))
    ensures !Executed(c, w, d).outcome.Delivered?
  {
    LateTurns(2, 2, Cancel(active));
    var s := QuietSave(c, w);
    LookFinds(c, Saved(Saved(s)), active);
  }

  lemma QuietFirstLook(c: Case, s: World, active: bool) returns (t: World)
    requires s.script == Late(1, Cancel(active)) && Underway(s)
    ensures SavedAndLooked(c, s) == Looked(c, t)
    ensures t.script == Late(0, Cancel(active)) && t.row.status == Running
  {
    LateTurns(1, 1, Cancel(active));
    t := Saved(Saved(s));
    QuietTurn(c, t, 1);
    t := Dispatching(t.(script := Past(t.script, 1)));
  }

  lemma SecondLookFinds(c: Case, s: World, active: bool)
    requires s.script == Late(1, Cancel(active)) && Underway(s)
    ensures SavedAndLooked(c, s).Ended? && !SavedAndLooked(c, s).end.outcome.Delivered?
  {
    var t := QuietFirstLook(c, s, active);
    LookFinds(c, t, active);
  }

  lemma CancelAtSecondLook(c: Case, w: World, d: Dispatch, active: bool)
    requires Sound(w.books) && AtStart(c, w) && w.script == Late(3, Cancel(active))
    ensures !Executed(c, w, d).outcome.Delivered?
  {
    LateTurns(3, 2, Cancel(active));
    var s := QuietSave(c, w);
    SecondLookFinds(c, s, active);
  }

  // Between the reservation and the first save.

  /** A final row is not changed by the worker's saves of a running job. */
  lemma SavesKeepCancelled(w: World)
    requires w.row.status == Cancelled && w.job.status == Running
    ensures Saved(w).row.status == Cancelled && Saved(w) == w.(job := w.row)
  {
  }

  lemma StoppedBeforeSave(c: Case, w: World, d: Dispatch)
    requires Sound(w.books) && AtStart(c, w) && w.script == Late(1, Cancel(true))
    ensures !Executed(c, w, d).outcome.Delivered?
  {
    var s := HitAfterReservation(c, w, true);
    HitRow(c, s, true);
    CancelledIsStopped(c, Hit(c, s, true));
  }

  lemma CancelledIsStopped(c: Case, t: World)
    requires t.script == [] && t.row.status == Cancelled && t.job.status == Running
    ensures SavedAndLooked(c, t).Ended? && !SavedAndLooked(c, t).end.outcome.Delivered?
  {
    SavesKeepCancelled(t);
    QuietTurn(c, Saved(Saved(t)), 1);
  }

  /** What the cancel gives back. */
  lemma HitEmpties(c: Case, s: World)
    requires Sound(s.books) && c.user != "" && c.generation != "" && c.requested >= 1
    requires SubscriptionHeld(s.books, c.user, c.generation) <= LatestUsed(s.books, c.user, c.generation)
    requires s.row.status == Running && BeforeUpstream(s.row) && s.row.creditReserved > 0
    requires Holding(c, s) == FirstCost(c) && s.outside == 0
             && s.refunded <= Refunded(s.books, c.user, c.generation)
    ensures Opened(c, Hit(c, s, false), 0, CALM) && Hit(c, s, false).outside == FirstCost(c)
  {
    var r := CancelCall(false, false, NoFault, NoFault);
    CallStaysSound(Desk(s.books, s.row), c.user, c.generation, r);
    CancelBeforeUpstreamEmpties(Desk(s.books, s.row), c.user, c.generation, false);
    EmptiedIsOpened(c, s, Hit(c, s, false));
  }

  lemma HitAfterReservation(c: Case, w: World, active: bool) returns (s: World)
    requires Sound(w.books) && AtStart(c, w) && w.script == Late(1, Cancel(active))
    ensures Begun(c, w) == SavedAndLooked(c, Hit(c, s, active))
    ensures s == w.(books := s.books, script := Late(0, Cancel(active))) && Reserves(c, w, s.books)
  {
    LateTurns(1, 1, Cancel(active));
    s := QuietReservation(c, w);
    CancelTurn(c, s, active);
  }

  lemma HitBeforeSave(c: Case, w: World) returns (t: World)
    requires Sound(w.books) && AtStart(c, w) && w.script == Late(1, Cancel(false))
    requires BeforeUpstream(w.row) && w.row.creditReserved > 0
    ensures Begun(c, w) == SavedAndLooked(c, t) && t.script == [] && t.job.status == Running && !Final(t.row)
    ensures Opened(c, t, 0, CALM) && t.outside == FirstCost(c)
  {
    var s := HitAfterReservation(c, w, false);
    HitEmpties(c, s);
    HitIsOpen(c, s);
    t := Hit(c, s, false);
  }

  lemma HitIsOpen(c: Case, s: World)
    requires s.row.status == Running
    ensures var t := Hit(c, s, false);
            t.script == [] && t.job == s.job && !Final(t.row)
  {
  }

  lemma ForgottenBySave(c: Case, w: World, d: Dispatch) returns (u: World)
    requires Sound(w.books) && AtStart(c, w) && w.script == Late(1, Cancel(false)) && Sent(d)
    requires BeforeUpstream(w.row) && w.row.creditReserved > 0
    ensures Executed(c, w, d) == AfterDispatch(c, u, d)
    ensures Opened(c, u, 0, CALM) && u.outside == FirstCost(c) && u.row.status == Running
  {
    var t := HitBeforeSave(c, w);
    var s;
    s, u := SavedAgain(c, t, d);
    SameBooksOpened(c, t, u, 0, CALM);
  }

  /** From the first save on, with nobody else left to act. */
  lemma SavedAgain(c: Case, t: World, d: Dispatch) returns (s: World, u: World)
    requires t.script == [] && t.job.status == Running && !Final(t.row) && Sent(d)
    ensures SavedAndLooked(c, t) == Going(s) && u == CallMade(c, s, d)
    ensures u == t.(row := u.row, job := u.job) && u.row.status == Running
  {
    s := Dispatching(Saved(Saved(t)));
    QuietTurn(c, Saved(Saved(t)), 1);
    QuietTurn(c, s, 1);
    QuietMark(c, s, d);
    u := AtProvider(s);
  }

  // During the call.

  /** A cancel that is on the row when the call comes back ends the run. */
  lemma FoundAfterCall(c: Case, w: World, u: World, d: Dispatch)
    requires Executed(c, w, d) == AfterDispatch(c, u, d) && CancelledOrAsked(u.row)
    ensures !Executed(c, w, d).outcome.Delivered?
  {
  }

  lemma StoppedInTheCall(c: Case, w: World, d: Dispatch)
    requires Sound(w.books) && AtStart(c, w) && w.script == Late(4, Cancel(true)) && Sent(d)
    ensures !Executed(c, w, d).outcome.Delivered?
  {
    var r := QuietToCall(c, w, 0, Cancel(true));
    var u := HitInTheCall(c, r, d);
    FoundAfterCall(c, w, u, d);
  }

  lemma HitInTheCall(c: Case, s: World, d: Dispatch) returns (u: World)
    requires s.script == Late(0, Cancel(true)) && s.row.status == Running && s.job.status == Running && Sent(d)
    ensures u == CallMade(c, s, d) && u.row.status == Cancelled
  {
    CancelTurn(c, s, true);
    HitRow(c, s, true);
    var t := Hit(c, s, true);
    QuietTurn(c, Marked(t), 1);
    u := Marked(t);
  }

  lemma CancelAfterMark(c: Case, w: World, d: Dispatch, active: bool)
    requires Sound(w.books) && AtStart(c, w) && w.script == Late(5, Cancel(active)) && Sent(d)
    ensures !Executed(c, w, d).outcome.Delivered?
  {
    var r := QuietToCall(c, w, 1, Cancel(active));
    var u := HitAfterMark(c, r, d, active);
    FoundAfterCall(c, w, u, d);
  }

  lemma HitAfterMark(c: Case, s: World, d: Dispatch, active: bool) returns (u: World)
    requires s.script == Late(1, Cancel(active)) && s.row.status == Running && s.job.status == Running && Sent(d)
    ensures u == CallMade(c, s, d) && CancelledOrAsked(u.row)
  {
    LateTurns(1, 1, Cancel(active));
    QuietTurn(c, s, 1);
    var m := Marked(s.(script := Past(s.script, 1)));
    CancelTurn(c, m, active);
    HitRow(c, m, active);
    u := Hit(c, m, active);
  }

  // After the call.

  /** The run up to the last look, with a cancel still to come. */
  lemma QuietCallMade(c: Case, w: World, items: seq<Item>, left: nat, turn: Turn) returns (s: World)
    requires Sound(w.books) && AtStart(c, w) && w.script == Late(left + 6, turn)
    requires Count(Capped(items, c.settings.maxCount)) == c.requested
    ensures Executed(c, w, Answered(items)) == Shown(c, s, Capped(items, c.settings.maxCount), c.requested)
    ensures s.script == Late(left, turn) && s.row.status == Running && s.row.upstreamSent && s.outside == 0
  {
    var r := QuietToCall(c, w, left + 2, turn);
    s := QuietAtProvider(c, w, r, Answered(items), left, turn);
    QuietAnswer(c, w, s, items);
  }

  lemma QuietAnswer(c: Case, w: World, s: World, items: seq<Item>)
    requires CameBackFromCall(c, w, Answered(items), s) && c.requested >= 1
    requires Count(Capped(items, c.settings.maxCount)) == c.requested
    ensures Executed(c, w, Answered(items)) == Shown(c, s, Capped(items, c.settings.maxCount), c.requested)
  {
    AnswerGoesOn(c, s, items);
    AllCame(c, s, Capped(items, c.settings.maxCount));
  }

  lemma CancelAtLastLook(c: Case, w: World, items: seq<Item>, active: bool)
    requires Sound(w.books) && AtStart(c, w) && w.script == Late(6, Cancel(active))
    requires Count(Capped(items, c.settings.maxCount)) == c.requested
    ensures !Executed(c, w, Answered(items)).outcome.Delivered?
  {
    var s := QuietCallMade(c, w, items, 0, Cancel(active));
    CancelTurn(c, s, active);
    HitRow(c, s, active);
  }

  /** A turn that is quiet, or in which the cancel comes, after the upstream mark. */
  lemma HarmlessTurn(c: Case, w: World, k: nat, active: bool)
    requires (w.script == Late(k, Cancel(active)) || w.script == []) && w.row.upstreamSent
    requires w.row.status == Running || (w.script == [] && CancelledOrAsked(w.row))
    ensures var t := Turned(c, w);
            && t.outside == w.outside && t.row.upstreamSent
            && t.script == (if w.script == [] || k == 0 then [] else Late(k - 1, Cancel(active)))
            && (t.row.status == Running || (t.script == [] && CancelledOrAsked(t.row)))
  {
    if w.script == [] {
      QuietTurn(c, w, 1);
    } else if k == 0 {
      CancelTurn(c, w, active);
      HitRow(c, w, active);
    } else {
      LateTurns(k, 1, Cancel(active));
      QuietTurn(c, w, 1);
    }
  }

  /** The success record takes two turns. */
  lemma TwoTurnsToSuccess(c: Case, t: World)
    ensures Success(c, t).outside == Turned(c, Turned(c, t)).outside
  {
  }

  lemma HarmlessSuccess(c: Case, s: World, shown: seq<Item>, billed: int, k: nat, active: bool)
    requires s.script == Late(k, Cancel(active)) && k >= 1 && s.row.status == Running && s.row.upstreamSent
    ensures Shown(c, s, shown, billed).world.outside == s.outside
  {
    HarmlessTurn(c, s, k, active);
    LateTurns(k, 1, Cancel(active));
    QuietTurn(c, s, 1);
    NotedTurn(c, s, Count(shown));
    var t := Noted(Turned(c, s), Count(shown));
    HarmlessTurn(c, t, k - 1, active);
    HarmlessTurn(c, Turned(c, t), if k == 1 then 0 else k - 2, active);
    TwoTurnsToSuccess(c, t);
  }

  lemma CancelAtTheEnd(c: Case, w: World, items: seq<Item>, active: bool, k: nat)
    requires Sound(w.books) && AtStart(c, w) && w.script == Late(k, Cancel(active)) && k >= 7
    requires Count(Capped(items, c.settings.maxCount)) == c.requested
    ensures Executed(c, w, Answered(items)).world.outside == 0
    ensures Executed(c, w, Answered(items)).billed == c.requested
  {
    var s := QuietCallMade(c, w, items, k - 6, Cancel(active));
    HarmlessSuccess(c, s, Capped(items, c.settings.maxCount), c.requested, k - 6, active);
  }

  lemma LatePaysAll(c: Case, w: World, items: seq<Item>, active: bool, k: nat)
    requires Sound(w.books) && AtStart(c, w) && w.script == Late(k, Cancel(active)) && k >= 7
    requires Count(Capped(items, c.settings.maxCount)) == c.requested
    ensures var z := Executed(c, w, Answered(items));
            z.outcome.Delivered? ==> Holding(c, z.world) >= Due(c, w, z)
  {
    var e := Trust(true, false, false, false);
    CancelAtTheEnd(c, w, items, active, k);
    LateIsReliable(k, active);
    if Executed(c, w, Answered(items)).outcome.Delivered? { PaidIffNobodyRefunded(c, w, e, Answered(items)); }
  }

  lemma LateIsReliable(k: nat, active: bool)
    ensures Reliable(Late(k, Cancel(active)))
  {
  }

  /**
   A single cancel call makes delivered images unpaid exactly if the handler cannot stop the worker and
   the call comes between the reservation and the first save, which is turn 1, or between the last look
   and the upstream mark, which is turn 4.
   */
  lemma OneCancelIsUnpaidIff(c: Case, w: World, items: seq<Item>, active: bool, k: nat)
    requires Sound(w.books) && AtStart(c, w) && BeforeUpstream(w.row) && w.row.creditReserved > 0
    requires Count(Capped(items, c.settings.maxCount)) == c.requested && w.script == Late(k, Cancel(active))
    ensures var z := Executed(c, w, Answered(items));
            z.outcome.Delivered? && Holding(c, z.world) < Due(c, w, z) <==> !active && (k == 1 || k == 4)
  {
    var d := Answered(items);
    if k == 0 {
      CancelFirst(c, w, d, active);
    } else if k == 1 {
      if active {
        StoppedBeforeSave(c, w, d);
      } else {
        var u := ForgottenBySave(c, w, d);
        UnpaidAfterCall(c, w, u, items);
      }
    } else if k == 2 {
      CancelAtFirstLook(c, w, d, active);
    } else if k == 3 {
      CancelAtSecondLook(c, w, d, active);
    } else if k == 4 {
      if active { StoppedInTheCall(c, w, d); } else { ForgottenCancelIsUnpaid(c, w, items); }
    } else if k == 5 {
      CancelAfterMark(c, w, d, active);
    } else if k == 6 {
      CancelAtLastLook(c, w, items, active);
    } else {
      LatePaysAll(c, w, items, active, k);
    }
  }
}

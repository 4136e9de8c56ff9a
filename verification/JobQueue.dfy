/**
 The queue of stored image jobs: which rows may be claimed, how the maintenance worker drains them,
 and how often a job is started while other workers claim, run, finish and re-save jobs.
 */
module JobQueue {
  import opened Basics
  import opened JobRecords

  type JobId = string

  /** The columns of a job that the queue looks at; times are milliseconds. */
  datatype Row = Row(status: Status, stage: string, leaseUntil: Option<int>, nextRunAt: Option<int>, createdAt: int)

  const BATCH := 100
  const CLAIM_LEASE := 30_000
  const DRAIN_TIMEOUT := 10_000

  predicate Due(t: Option<int>, now: int) { t.None? || t.value <= now }

  predicate Claimable(row: Row, now: int)
  {
    row.status == Queued && Due(row.nextRunAt, now) && Due(row.leaseUntil, now)
  }

  function Claimed(row: Row, now: int): Row { row.(stage := "claimed", leaseUntil := Some(now + CLAIM_LEASE)) }

  predicate FinalRow(row: Row) { row.status in {Cancelled, Succeeded, Status.Failed} }

  /** A worker's save, after `prepareJob`: only a claimed or a running row has a lease; a final row stays. */
  function Saved(row: Row, status: Status, stage: string, lease: Option<int>): Row {
    if FinalRow(row) && status !in {Cancelled, Succeeded, Status.Failed} then row
    else
      var kept := if (status == Queued && stage == "claimed") || status == Running then lease else None;
      Row(status, stage, kept, None, row.createdAt)
  }

  // --------------------------------------------------------------------------------------------
  // What others do to the table

  datatype Event =
    | Submit(id: JobId, createdAt: int)
    | OtherClaim(id: JobId)
    | WaitForAdmission(id: JobId)   // the save of a started worker before it queues for admission
    | StartRunning(id: JobId)
    | Finish(id: JobId, status: Status)
    | Tick(millis: nat)

  type Rows = map<JobId, Row>

  function Apply(rows: Rows, now: int, e: Event): Rows {
    match e
    case Submit(id, createdAt) => if id in rows then rows else rows[id := Row(Queued, "queued", None, None, createdAt)]
    case OtherClaim(id) => if id in rows && Claimable(rows[id], now) then rows[id := Claimed(rows[id], now)] else rows
    case WaitForAdmission(id) => if id in rows then rows[id := Saved(rows[id], Queued, "queued", None)] else rows
    case StartRunning(id) =>
      if id in rows then rows[id := Saved(rows[id], Running, "running", Some(now + CLAIM_LEASE))] else rows
    case Finish(id, status) =>
      if id in rows && status != Queued then rows[id := Saved(rows[id], status, "", None)] else rows
    case Tick(_) => rows
  }

  function After(now: int, e: Event): int { if e.Tick? then now + e.millis else now }

  /** What the others' saves leave: a new job is queued, a running one is leased for thirty seconds. */
  lemma OthersLeave(rows: Rows, now: int, id: JobId, createdAt: int)
    ensures var submitted := Apply(rows, now, Submit(id, createdAt));
            id in submitted && submitted[id] == if id in rows then rows[id]
                                                else Row(Queued, "queued", None, None, createdAt)
    ensures id in rows ==>
              Apply(rows, now, StartRunning(id))
              == if rows[id].status in {Cancelled, Succeeded, Status.Failed} then rows
                 else rows[id := Row(Running, "running", Some(now + 30_000), None, rows[id].createdAt)]
  {
    if id in rows { assert rows[id := rows[id]] == rows; }
  }

  /** The events that can put a job up for claiming. */
  predicate Opens(e: Event) { e.Submit? || e.WaitForAdmission? }

  function OpenBy(rows: Rows, time: int): set<JobId> { set id | id in rows && Claimable(rows[id], time) }

  lemma EventOpensAtMostOne(rows: Rows, now: int, e: Event, time: int)
    ensures OpenBy(Apply(rows, now, e), time) <= OpenBy(rows, time) + if Opens(e) then {e.id} else {}
  {
  }

  function RunEvents(rows: Rows, now: int, events: seq<Event>): (Rows, int)
    decreases |events|
  {
    if events == [] then (rows, now) else RunEvents(Apply(rows, now, events[0]), After(now, events[0]), events[1..])
  }

  /** What is not claimable stays so until a time is reached, if nothing puts the job up again. */
  lemma {:induction false} ClaimHolds(rows: Rows, now: int, events: seq<Event>, id: JobId, until: int)
    requires id in rows && id !in OpenBy(rows, until - 1)
    requires forall k :: 0 <= k < |events| && Opens(events[k]) ==> events[k].id != id
    ensures var (after, end) := RunEvents(rows, now, events);
            id in after && (end < until ==> !Claimable(after[id], end))
    decreases |events|
  {
    if events != [] {
      EventOpensAtMostOne(rows, now, events[0], until - 1);
      ClaimHolds(Apply(rows, now, events[0]), After(now, events[0]), events[1..], id, until);
    }
  }

  /** A claim keeps everybody off the job for thirty seconds, in every run in which nothing puts it up again. */
  lemma {:induction false} ClaimExcludesOthers(rows: Rows, now: int, events: seq<Event>, id: JobId)
    requires id in rows && Claimable(rows[id], now)
    requires forall k :: 0 <= k < |events| && Opens(events[k]) ==> events[k].id != id
    ensures var (after, end) := RunEvents(rows[id := Claimed(rows[id], now)], now, events);
            id in after && (Claimable(after[id], end) ==> now + CLAIM_LEASE <= end)
  {
    ClaimHolds(rows[id := Claimed(rows[id], now)], now, events, id, now + CLAIM_LEASE);
  }

  /**
   But the job a worker has just started re-opens itself: while it waits for admission, it can be
   claimed at any time.
   */
  lemma WaitingJobIsClaimable(rows: Rows, id: JobId, claimedAt: int, savedAt: int, later: int)
    requires id in rows && Claimable(rows[id], claimedAt)
    ensures var claimed := rows[id := Claimed(rows[id], claimedAt)];
            && !Claimable(claimed[id], claimedAt)
            && Claimable(Apply(claimed, savedAt, WaitForAdmission(id))[id], later)
  {
  }

  // --------------------------------------------------------------------------------------------
  // Accounts over a drain

  function Count(ids: seq<JobId>, id: JobId): nat {
    if ids == [] then 0 else Count(ids[..|ids| - 1], id) + if ids[|ids| - 1] == id then 1 else 0
  }

  lemma {:induction false} CountMore(ids: seq<JobId>, last: JobId, id: JobId)
    ensures Count(ids + [last], id) == Count(ids, id) + if last == id then 1 else 0
  {
    assert (ids + [last])[..|ids|] == ids;
  }

  /** The table, the jobs this worker has started, and the jobs others have put up for claiming. */
  datatype State = Table(rows: Rows, now: int, started: seq<JobId>, offered: seq<JobId>)

  /** Starts of a job, plus one if it may still be started by the deadline, less the times it was put up. */
  function Balance(s: State, id: JobId, deadline: int): int {
    Count(s.started, id) + (if id in OpenBy(s.rows, deadline) then 1 else 0) - Count(s.offered, id)
  }

  /** Between two states no balance grew, and what is up for claiming was so before or has been put up since. */
  ghost predicate Follows(a: State, b: State, deadline: int) {
    && a.now <= b.now && a.rows.Keys <= b.rows.Keys && a.offered <= b.offered && a.started <= b.started
    && (forall id :: Balance(b, id, deadline) <= Balance(a, id, deadline))
    && (forall time :: OpenBy(b.rows, time) <= OpenBy(a.rows, time) + ToSet(b.offered[|a.offered|..]))
  }

  lemma FollowsItself(a: State, deadline: int)
    ensures Follows(a, a, deadline)
  {
  }

  lemma FollowsTrans(a: State, b: State, c: State, deadline: int)
    requires Follows(a, b, deadline) && Follows(b, c, deadline)
    ensures Follows(a, c, deadline)
  {
    assert c.offered[|a.offered|..] == b.offered[|a.offered|..] + c.offered[|b.offered|..];
    forall time ensures OpenBy(c.rows, time) <= OpenBy(a.rows, time) + ToSet(c.offered[|a.offered|..]) {
      assert OpenBy(c.rows, time) <= OpenBy(b.rows, time) + ToSet(c.offered[|b.offered|..]);
    }
  }

  function AfterEvent(s: State, e: Event): State {
    Table(Apply(s.rows, s.now, e), After(s.now, e), s.started, if Opens(e) then s.offered + [e.id] else s.offered)
  }

  lemma SmallerSet<T>(a: set<T>, b: set<T>)
    requires a <= b
    ensures |a| <= |b|
  {
    if a != {} {
      var x :| x in a;
      SmallerSet(a - {x}, b - {x});
    }
  }

  lemma EventFollows(s: State, e: Event, deadline: int)
    ensures Follows(s, AfterEvent(s, e), deadline)
    ensures |OpenBy(AfterEvent(s, e).rows, deadline)| <= |OpenBy(s.rows, deadline)| + if Opens(e) then 1 else 0
  {
    if Opens(e) {
      OpeningFollows(s, e, deadline);
    } else {
      forall time ensures OpenBy(AfterEvent(s, e).rows, time) <= OpenBy(s.rows, time) {
        EventOpensAtMostOne(s.rows, s.now, e, time);
      }
      assert s.offered[|s.offered|..] == [];
      EventOpensAtMostOne(s.rows, s.now, e, deadline);
      SmallerSet(OpenBy(AfterEvent(s, e).rows, deadline), OpenBy(s.rows, deadline));
    }
  }

  lemma OfferedBalance(s: State, t: State, offered: JobId, deadline: int, id: JobId)
    requires t.started == s.started && t.offered == s.offered + [offered]
    requires OpenBy(t.rows, deadline) <= OpenBy(s.rows, deadline) + {offered}
    ensures Balance(t, id, deadline) <= Balance(s, id, deadline)
  {
    CountMore(s.offered, offered, id);
  }

  lemma OpeningFollows(s: State, e: Event, deadline: int)
    requires Opens(e)
    ensures Follows(s, AfterEvent(s, e), deadline)
    ensures |OpenBy(AfterEvent(s, e).rows, deadline)| <= |OpenBy(s.rows, deadline)| + 1
  {
    var t := AfterEvent(s, e);
    EventOpensAtMostOne(s.rows, s.now, e, deadline);
    forall id ensures Balance(t, id, deadline) <= Balance(s, id, deadline) { OfferedBalance(s, t, e.id, deadline, id); }
    assert t.offered[|s.offered|..] == [e.id];
    forall time ensures OpenBy(t.rows, time) <= OpenBy(s.rows, time) + {e.id} {
      EventOpensAtMostOne(s.rows, s.now, e, time);
    }
    SmallerSet(OpenBy(t.rows, deadline), OpenBy(s.rows, deadline) + {e.id});
  }

  /** A claim of this worker, which starts the job unless the claimed row cannot be read back. */
  function AfterClaim(s: State, id: JobId, start: bool): State
    requires id in s.rows
  {
    s.(rows := s.rows[id := Claimed(s.rows[id], s.now)], started := if start then s.started + [id] else s.started)
  }

  lemma ClaimFollows(s: State, id: JobId, start: bool, deadline: int)
    requires id in s.rows && Claimable(s.rows[id], s.now)
    requires s.now <= deadline <= s.now + DRAIN_TIMEOUT
    ensures Follows(s, AfterClaim(s, id, start), deadline)
    ensures |OpenBy(AfterClaim(s, id, start).rows, deadline)| == |OpenBy(s.rows, deadline)| - 1
    ensures forall time :: time <= s.now ==> id !in OpenBy(AfterClaim(s, id, start).rows, time)
  {
    var t := AfterClaim(s, id, start);
    assert t.offered[|s.offered|..] == [];
    forall time ensures OpenBy(t.rows, time) <= OpenBy(s.rows, time) {}
    assert OpenBy(t.rows, deadline) == OpenBy(s.rows, deadline) - {id};
    forall other ensures Balance(t, other, deadline) <= Balance(s, other, deadline) {
      CountMore(s.started, id, other);
    }
  }

  // --------------------------------------------------------------------------------------------
  // What a drain does, for every behaviour of the others

  /** How a store call fares; a claim may also fail after its update. */
  datatype Fare = Works | FailsBefore | FailsAfter

  /** What others do before one store call of this worker, and how that call fares. */
  datatype Turn = Turn(events: seq<Event>, fare: Fare)

  /** Everything that happens around a drain: one turn for each of its store calls, and silence afterwards. */
  type Script = seq<Turn>

  const QUIET := Turn([], Works)

  function First(script: Script): Turn { if script == [] then QUIET else script[0] }

  function Rest(script: Script): Script { if script == [] then [] else script[1..] }

  /** The number of events still to come. */
  function Weight(script: Script): nat { if script == [] then 0 else |script[0].events| + Weight(script[1..]) }

  function Play(s: State, events: seq<Event>): State
    decreases |events|
  {
    if events == [] then s else Play(AfterEvent(s, events[0]), events[1..])
  }

  datatype Attempt = Attempt(state: State, ok: bool, error: bool)

  /** `ClaimQueuedBy` and the start of the job: the conditional update claims the row or leaves it alone. */
  function TryClaim(s: State, id: JobId, fare: Fare, deadline: int): Attempt {
    if fare == FailsBefore || deadline < s.now then Attempt(s, false, true)
    else if id !in s.rows || !Claimable(s.rows[id], s.now) then Attempt(s, false, false)
    else Attempt(AfterClaim(s, id, fare == Works), fare == Works, fare == FailsAfter)
  }

  /**
   When a claim starts a job, and what it leaves: the row was queued, its next run due and its lease over,
   and it is leased for thirty seconds from now on; no other row changes.
   */
  lemma ClaimStartsIff(s: State, id: JobId, fare: Fare, deadline: int)
    ensures var a := TryClaim(s, id, fare, deadline);
            var open := && id in s.rows && s.rows[id].status == Queued
                        && (s.rows[id].nextRunAt.Some? ==> s.rows[id].nextRunAt.value <= s.now)
                        && (s.rows[id].leaseUntil.Some? ==> s.rows[id].leaseUntil.value <= s.now);
            && (a.ok <==> open && fare.Works? && s.now <= deadline)
            && a.state.started == s.started + (if a.ok then [id] else [])
            && (a.error <==> fare.FailsBefore? || s.now > deadline || (open && fare.FailsAfter?))
            && a.state.now == s.now && a.state.rows.Keys == s.rows.Keys
            && (forall other :: other in s.rows && other != id ==> a.state.rows[other] == s.rows[other])
            && (id in s.rows ==>
                  a.state.rows[id] == if open && !fare.FailsBefore? && s.now <= deadline
                      then Row(Queued, "claimed", Some(s.now + 30_000), s.rows[id].nextRunAt, s.rows[id].createdAt)
                      else s.rows[id])
  {
    assert s.started + [] == s.started;
  }

  /** A save puts a job up for claiming exactly if it makes it queued, and not as claimed with a lease that lasts. */
  lemma SaveOpensIff(row: Row, status: Status, stage: string, lease: Option<int>, now: int)
    ensures Claimable(Saved(row, status, stage, lease), now)
            <==> && row.status !in {Cancelled, Succeeded, Status.Failed} && status == Queued
                 && (stage == "claimed" && lease.Some? ==> lease.value <= now)
    ensures row.status in {Cancelled, Succeeded, Status.Failed} && status in {Queued, Running, CancelRequested} ==>
              Saved(row, status, stage, lease) == row
  {
  }

  /**
   Where a pass leaves things: the state, what is still to happen, how many jobs were started, how
   many calls failed.
   */
  datatype Swept = Swept(state: State, script: Script, recovered: nat, errors: nat)

  /** The loop over the listed jobs. */
  function Sweep(s: State, script: Script, ids: seq<JobId>, deadline: int): Swept
    decreases |ids|
  {
    if ids == [] then Swept(s, script, 0, 0)
    else
      var a := TryClaim(Play(s, First(script).events), ids[0], First(script).fare, deadline);
      var rest := Sweep(a.state, Rest(script), ids[1..], deadline);
      Swept(rest.state, rest.script, rest.recovered + (if a.ok then 1 else 0), rest.errors + (if a.error then 1 else 0))
  }

  lemma {:induction false} SweepNext(s: State, script: Script, ids: seq<JobId>, k: nat, deadline: int)
    requires k < |ids|
    ensures var a := TryClaim(Play(s, First(script).events), ids[k], First(script).fare, deadline);
            var rest := Sweep(a.state, Rest(script), ids[k + 1..], deadline);
            var whole := Sweep(s, script, ids[k..], deadline);
            && whole.state == rest.state && whole.script == rest.script
            && whole.recovered == rest.recovered + (if a.ok then 1 else 0)
  {
    assert ids[k..][0] == ids[k] && ids[k..][1..] == ids[k + 1..];
  }

  /** What the listing query gives: the oldest claimable jobs, at most a batch of them. */
  ghost predicate Lists(rows: Rows, now: int, ids: seq<JobId>) {
    && Distinct(ids) && |ids| <= BATCH
    && (forall i :: 0 <= i < |ids| ==> ids[i] in rows && Claimable(rows[ids[i]], now))
    && (forall i, j :: 0 <= i < j < |ids| ==> rows[ids[i]].createdAt <= rows[ids[j]].createdAt)
    && (forall id, i :: id in OpenBy(rows, now) && id !in ids && 0 <= i < |ids| ==>
        rows[ids[i]].createdAt <= rows[id].createdAt)
    && (|ids| < BATCH ==> OpenBy(rows, now) <= ToSet(ids))
  }

  /** One pass over the queue: its listing failed, or it gave these jobs at this time. */
  datatype Pass = Unlisted | Listed(ids: seq<JobId>, at: int)

  /** What has happened when the listing call is made. */
  function Begun(s: State, script: Script): State { Play(s, First(script).events) }

  function PassResult(s: State, script: Script, deadline: int, p: Pass): Swept {
    match p
    case Unlisted => Swept(Begun(s, script), Rest(script), 0, 1)
    case Listed(ids, _) => Sweep(Begun(s, script), Rest(script), ids, deadline)
  }

  /** `recoverQueuedBusinessImageJobs`: the pass lists the queue unless that call fails or comes too late. */
  ghost predicate IsPass(s: State, script: Script, deadline: int, p: Pass) {
    var began := Begun(s, script);
    if First(script).fare != Works || deadline < began.now then p == Unlisted
    else p.Listed? && p.at == began.now && Lists(began.rows, began.now, p.ids)
  }

  /**
   `drainQueuedBusinessImageJobs`: passes follow each other while the time is not up and batches are
   recovered in full.
   */
  ghost predicate IsDrain(s: State, script: Script, deadline: int, passes: seq<Pass>)
    decreases |passes|
  {
    if passes == [] then deadline < s.now
    else
      var w := PassResult(s, script, deadline, passes[0]);
      && s.now <= deadline && IsPass(s, script, deadline, passes[0])
      && if w.recovered < BATCH then |passes| == 1 else IsDrain(w.state, w.script, deadline, passes[1..])
  }

  function DrainResult(s: State, script: Script, deadline: int, passes: seq<Pass>): Swept
    decreases |passes|
  {
    if passes == [] then Swept(s, script, 0, 0)
    else
      var w := PassResult(s, script, deadline, passes[0]);
      var rest := DrainResult(w.state, w.script, deadline, passes[1..]);
      Swept(rest.state, rest.script, w.recovered + rest.recovered, w.errors + rest.errors)
  }

  /** Passes that have all recovered full batches, so that the drain goes on. */
  ghost predicate GoesOn(s: State, script: Script, deadline: int, passes: seq<Pass>)
    decreases |passes|
  {
    passes == [] ||
    var w := PassResult(s, script, deadline, passes[0]);
    && s.now <= deadline && IsPass(s, script, deadline, passes[0]) && w.recovered >= BATCH
    && GoesOn(w.state, w.script, deadline, passes[1..])
  }

  /** Another pass goes on the end; a short one ends the drain. */
  lemma {:induction false} OneMorePass(s: State, script: Script, deadline: int, passes: seq<Pass>, p: Pass)
    requires GoesOn(s, script, deadline, passes)
    requires var w := DrainResult(s, script, deadline, passes);
             w.state.now <= deadline && IsPass(w.state, w.script, deadline, p)
    ensures var w := DrainResult(s, script, deadline, passes);
            var last := PassResult(w.state, w.script, deadline, p);
            var all := DrainResult(s, script, deadline, passes + [p]);
            && all.state == last.state && all.script == last.script && all.recovered == w.recovered + last.recovered
            && if last.recovered < BATCH then IsDrain(s, script, deadline, passes + [p])
                else GoesOn(s, script, deadline, passes + [p])
    decreases |passes|
  {
    if passes == [] {
      assert passes + [p] == [p] && [p][1..] == [];
      var last := PassResult(s, script, deadline, p);
      assert DrainResult(last.state, last.script, deadline, []) == Swept(last.state, last.script, 0, 0);
    } else {
      var w := PassResult(s, script, deadline, passes[0]);
      assert (passes + [p])[0] == passes[0] && (passes + [p])[1..] == passes[1..] + [p];
      OneMorePass(w.state, w.script, deadline, passes[1..], p);
    }
  }

  /** The drain also ends when its time is up. */
  lemma {:induction false} TimeIsUp(s: State, script: Script, deadline: int, passes: seq<Pass>)
    requires GoesOn(s, script, deadline, passes) && deadline < DrainResult(s, script, deadline, passes).state.now
    ensures IsDrain(s, script, deadline, passes)
    decreases |passes|
  {
    if passes != [] {
      var w := PassResult(s, script, deadline, passes[0]);
      TimeIsUp(w.state, w.script, deadline, passes[1..]);
    }
  }

  // --------------------------------------------------------------------------------------------
  // Safety: no job is started more often than it was put up

  lemma {:induction false} PlayFollows(s: State, events: seq<Event>, deadline: int)
    ensures Follows(s, Play(s, events), deadline)
    ensures |OpenBy(Play(s, events).rows, deadline)| <= |OpenBy(s.rows, deadline)| + |events|
    ensures Play(s, events).started == s.started
    decreases |events|
  {
    if events == [] {
      FollowsItself(s, deadline);
    } else {
      var t := AfterEvent(s, events[0]);
      EventFollows(s, events[0], deadline);
      PlayFollows(t, events[1..], deadline);
      FollowsTrans(s, t, Play(s, events), deadline);
    }
  }

  lemma ClaimAttemptFollows(s: State, id: JobId, fare: Fare, deadline: int, at: int)
    requires deadline <= s.now + DRAIN_TIMEOUT && at <= s.now
    ensures var a := TryClaim(s, id, fare, deadline);
            && Follows(s, a.state, deadline) && a.state.now == s.now && a.state.offered == s.offered
            && |OpenBy(a.state.rows, deadline)| + (if a.ok then 1 else 0) <= |OpenBy(s.rows, deadline)|
            && a.state.started == (if a.ok then s.started + [id] else s.started)
            && (!a.error ==> id !in OpenBy(a.state.rows, at))
  {
    FollowsItself(s, deadline);
    if fare != FailsBefore && s.now <= deadline && id in s.rows && Claimable(s.rows[id], s.now) {
      ClaimFollows(s, id, fare == Works, deadline);
    }
  }

  lemma {:induction false} WeightOfRest(script: Script)
    ensures |First(script).events| + Weight(Rest(script)) == Weight(script)
  {
  }

  /** One turn of the loop: others act, then the claim is tried. */
  lemma {:induction false} TurnFollows(s: State, turn: Turn, id: JobId, deadline: int, at: int)
    requires deadline <= s.now + DRAIN_TIMEOUT && at <= s.now
    ensures var a := TryClaim(Play(s, turn.events), id, turn.fare, deadline);
            && Follows(s, a.state, deadline)
            && |OpenBy(a.state.rows, deadline)| + (if a.ok then 1 else 0) <= |OpenBy(s.rows, deadline)| + |turn.events|
            && |a.state.started| == |s.started| + (if a.ok then 1 else 0)
            && (!a.error ==> id !in OpenBy(a.state.rows, at))
  {
    var t := Play(s, turn.events);
    PlayFollows(s, turn.events, deadline);
    ClaimAttemptFollows(t, id, turn.fare, deadline, at);
    FollowsTrans(s, t, TryClaim(t, id, turn.fare, deadline).state, deadline);
  }

  /** What was open at a time and is neither claimed nor put up since is open no more. */
  predicate Cleared(s: State, t: State, ids: seq<JobId>, at: int)
    requires |s.offered| <= |t.offered|
  {
    OpenBy(t.rows, at) <= (OpenBy(s.rows, at) - ToSet(ids)) + ToSet(t.offered[|s.offered|..])
  }

  lemma OneMoreCleared(s: State, m: State, t: State, ids: seq<JobId>, at: int, deadline: int)
    requires Follows(s, m, deadline) && Follows(m, t, deadline) && ids != []
    requires ids[0] !in OpenBy(m.rows, at) && Cleared(m, t, ids[1..], at)
    ensures s.offered <= t.offered && Cleared(s, t, ids, at)
  {
    assert t.offered[|s.offered|..] == m.offered[|s.offered|..] + t.offered[|m.offered|..];
    assert ids == [ids[0]] + ids[1..];
    assert OpenBy(m.rows, at) <= OpenBy(s.rows, at) + ToSet(m.offered[|s.offered|..]);
  }

  lemma {:induction false} SweepFollows(s: State, script: Script, ids: seq<JobId>, deadline: int, at: int)
    requires deadline <= s.now + DRAIN_TIMEOUT && at <= s.now
    ensures var w := Sweep(s, script, ids, deadline);
            && Follows(s, w.state, deadline) && w.recovered <= |ids|
            && |OpenBy(w.state.rows, deadline)| + Weight(w.script) + w.recovered <= |OpenBy(s.rows, deadline)|
                + Weight(script)
            && |w.state.started| == |s.started| + w.recovered
            && (w.errors == 0 ==> Cleared(s, w.state, ids, at))
    decreases |ids|
  {
    if ids == [] {
      FollowsItself(s, deadline);
    } else {
      var m := TryClaim(Play(s, First(script).events), ids[0], First(script).fare, deadline).state;
      var w := Sweep(s, script, ids, deadline);
      TurnFollows(s, First(script), ids[0], deadline, at);
      WeightOfRest(script);
      SweepFollows(m, Rest(script), ids[1..], deadline, at);
      FollowsTrans(s, m, w.state, deadline);
      if w.errors == 0 { OneMoreCleared(s, m, w.state, ids, at, deadline); }
    }
  }

  /** After a pass whose calls all worked nothing it listed is left, except what was put up since. */
  lemma {:induction false} PassFollows(s: State, script: Script, deadline: int, p: Pass)
    requires deadline <= s.now + DRAIN_TIMEOUT && IsPass(s, script, deadline, p)
    ensures var w := PassResult(s, script, deadline, p);
            && Follows(s, w.state, deadline) && w.recovered <= BATCH && (p.Unlisted? ==> w.recovered == 0)
            && |OpenBy(w.state.rows, deadline)| + Weight(w.script) + w.recovered <= |OpenBy(s.rows, deadline)|
                + Weight(script)
            && |w.state.started| == |s.started| + w.recovered
            && (w.errors == 0 && |p.ids| < BATCH ==>
                OpenBy(w.state.rows, p.at) <= ToSet(w.state.offered[|s.offered|..]))
  {
    var began := Begun(s, script);
    var w := PassResult(s, script, deadline, p);
    PlayFollows(s, First(script).events, deadline);
    WeightOfRest(script);
    if p.Listed? {
      SweepFollows(began, Rest(script), p.ids, deadline, p.at);
      FollowsTrans(s, began, w.state, deadline);
      LaterOffers(s.offered, began.offered, w.state.offered);
    }
  }

  lemma LaterOffers(first: seq<JobId>, middle: seq<JobId>, last: seq<JobId>)
    requires first <= middle <= last
    ensures ToSet(last[|middle|..]) <= ToSet(last[|first|..])
  {
    assert last[|first|..] == middle[|first|..] + last[|middle|..];
  }

  lemma {:induction false} DrainFollows(s: State, script: Script, deadline: int, passes: seq<Pass>)
    requires deadline <= s.now + DRAIN_TIMEOUT && IsDrain(s, script, deadline, passes)
    ensures var w := DrainResult(s, script, deadline, passes);
            Follows(s, w.state, deadline) && |w.state.started| == |s.started| + w.recovered
    decreases |passes|
  {
    if passes == [] {
      FollowsItself(s, deadline);
    } else {
      var w := PassResult(s, script, deadline, passes[0]);
      PassFollows(s, script, deadline, passes[0]);
      if w.recovered < BATCH {
        assert passes[1..] == [];
      } else {
        DrainFollows(w.state, w.script, deadline, passes[1..]);
        FollowsTrans(s, w.state, DrainResult(s, script, deadline, passes).state, deadline);
      }
    }
  }

  /** Whatever others do: a drain starts a job at most once, and once more for each time somebody puts it up again. */
  lemma {:induction false} DrainStartsOnce(s: State, script: Script, deadline: int, passes: seq<Pass>, id: JobId)
    requires deadline <= s.now + DRAIN_TIMEOUT && IsDrain(s, script, deadline, passes)
    ensures var t := DrainResult(s, script, deadline, passes).state;
            Count(t.started, id) - Count(s.started, id)
            <= (if id in OpenBy(s.rows, deadline) then 1 else 0) + Count(t.offered, id) - Count(s.offered, id)
  {
    DrainFollows(s, script, deadline, passes);
    var t := DrainResult(s, script, deadline, passes).state;
    assert Balance(t, id, deadline) <= Balance(s, id, deadline);
  }

  /** How the last pass went. */
  function LastPass(s: State, script: Script, deadline: int, passes: seq<Pass>): Swept
    requires passes != []
    decreases |passes|
  {
    var w := PassResult(s, script, deadline, passes[0]);
    if |passes| == 1 then w else LastPass(w.state, w.script, deadline, passes[1..])
  }

  /** Only what was put up meanwhile can be claimed at that time. */
  ghost predicate OnlyOffers(s: State, t: State, at: int) {
    s.offered <= t.offered && OpenBy(t.rows, at) <= ToSet(t.offered[|s.offered|..])
  }

  lemma OnlyOffersSince(s: State, m: State, t: State, at: int)
    requires s.offered <= m.offered && OnlyOffers(m, t, at)
    ensures OnlyOffers(s, t, at)
  {
    LaterOffers(s.offered, m.offered, t.offered);
  }

  lemma ShortPassLeavesOnlyOffers(s: State, script: Script, deadline: int, p: Pass)
    requires deadline <= s.now + DRAIN_TIMEOUT && IsPass(s, script, deadline, p)
    ensures var w := PassResult(s, script, deadline, p);
            && s.offered <= w.state.offered && deadline <= w.state.now + DRAIN_TIMEOUT
            && (p.Listed? && |p.ids| < BATCH && w.errors == 0 ==> OnlyOffers(s, w.state, p.at))
  {
    PassFollows(s, script, deadline, p);
  }

  /** A drain of one pass. */
  lemma {:induction false} OnePassLeavesOnlyOffers(s: State, script: Script, deadline: int, p: Pass)
    requires deadline <= s.now + DRAIN_TIMEOUT && IsDrain(s, script, deadline, [p]) && p.Listed? && |p.ids| < BATCH
    requires LastPass(s, script, deadline, [p]).errors == 0
    ensures DrainResult(s, script, deadline, [p]).state == LastPass(s, script, deadline, [p]).state
    ensures OnlyOffers(s, LastPass(s, script, deadline, [p]).state, p.at)
  {
    var w := PassResult(s, script, deadline, p);
    ShortPassLeavesOnlyOffers(s, script, deadline, p);
    assert [p][1..] == [] && DrainResult(w.state, w.script, deadline, []).state == w.state;
  }

  /** A longer drain goes on after its first pass. */
  lemma DrainGoesOn(s: State, script: Script, deadline: int, passes: seq<Pass>) returns (w: Swept)
    requires deadline <= s.now + DRAIN_TIMEOUT && |passes| > 1 && IsDrain(s, script, deadline, passes)
    ensures s.offered <= w.state.offered && deadline <= w.state.now + DRAIN_TIMEOUT
    ensures IsDrain(w.state, w.script, deadline, passes[1..])
    ensures LastPass(s, script, deadline, passes) == LastPass(w.state, w.script, deadline, passes[1..])
    ensures DrainResult(s, script, deadline, passes).state
            == DrainResult(w.state, w.script, deadline, passes[1..]).state
  {
    w := PassResult(s, script, deadline, passes[0]);
    ShortPassLeavesOnlyOffers(s, script, deadline, passes[0]);
  }

  /** Where the last pass of a drain begins, only later offers are left by it. */
  lemma LastPassBegins(s: State, script: Script, deadline: int, passes: seq<Pass>, p: Pass,
      last: State)
    returns (m: State)
    requires deadline <= s.now + DRAIN_TIMEOUT && passes != [] && IsDrain(s, script, deadline, passes)
    requires p == passes[|passes| - 1] && p.Listed? && |p.ids| < BATCH
    requires LastPass(s, script, deadline, passes).errors == 0
    requires last == DrainResult(s, script, deadline, passes).state
    ensures s.offered <= m.offered && OnlyOffers(m, last, p.at)
    decreases |passes|
  {
    if |passes| == 1 {
      assert passes == [p];
      OnePassLeavesOnlyOffers(s, script, deadline, p);
      m := s;
    } else {
      var w := DrainGoesOn(s, script, deadline, passes);
      m := LastPassBegins(w.state, w.script, deadline, passes[1..], p, last);
    }
  }

  /** Whatever others do: after a last pass that was short and met no error only what was put up meanwhile is left. */
  lemma {:induction false} DrainLeavesOnlyOffers(s: State, script: Script, deadline: int, passes: seq<Pass>, last: Pass)
    requires deadline <= s.now + DRAIN_TIMEOUT && IsDrain(s, script, deadline, passes)
    requires passes != [] && passes[|passes| - 1] == last && last.Listed? && |last.ids| < BATCH
    requires LastPass(s, script, deadline, passes).errors == 0
    ensures OnlyOffers(s, DrainResult(s, script, deadline, passes).state, last.at)
  {
    var t := DrainResult(s, script, deadline, passes).state;
    var m := LastPassBegins(s, script, deadline, passes, last, t);
    OnlyOffersSince(s, m, t, last.at);
  }

  // --------------------------------------------------------------------------------------------
  // Progress: an undisturbed drain empties the queue

  /** Nobody else acts and no call fails; only time passes. */
  predicate Undisturbed(script: Script)
  {
    forall k :: 0 <= k < |script| ==> script[k].fare == Works && OnlyTicks(script[k].events)
  }

  predicate OnlyTicks(events: seq<Event>) { forall k :: 0 <= k < |events| ==> events[k].Tick? }

  function Duration(events: seq<Event>): nat
    requires OnlyTicks(events)
    decreases |events|
  {
    if events == [] then 0 else events[0].millis + Duration(events[1..])
  }

  function Length(script: Script): nat
    requires Undisturbed(script)
  {
    if script == [] then 0 else Duration(script[0].events) + Length(script[1..])
  }

  lemma {:induction false} TicksOnlyPassTime(s: State, events: seq<Event>)
    requires OnlyTicks(events)
    ensures Play(s, events) == s.(now := s.now + Duration(events))
    decreases |events|
  {
    if events != [] { TicksOnlyPassTime(AfterEvent(s, events[0]), events[1..]); }
  }

  lemma {:induction false} UndisturbedTurn(s: State, script: Script)
    requires Undisturbed(script)
    ensures Undisturbed(Rest(script)) && First(script).fare == Works && OnlyTicks(First(script).events)
    ensures Length(script) == Duration(First(script).events) + Length(Rest(script))
    ensures Play(s, First(script).events) == s.(now := s.now + Duration(First(script).events))
  {
    assert script != [] ==> script[0].fare == Works && OnlyTicks(script[0].events);
    TicksOnlyPassTime(s, First(script).events);
  }

  /** Every listed job is claimed and started, and nothing else changes by the deadline. */
  ghost predicate TookAll(s: State, t: State, ids: seq<JobId>, deadline: int) {
    && t.started == s.started + ids && s.now <= t.now
    && forall time :: time <= deadline ==> OpenBy(t.rows, time) == OpenBy(s.rows, time) - ToSet(ids)
  }

  lemma TookOneMore(s: State, m: State, t: State, ids: seq<JobId>, deadline: int)
    requires ids != [] && TookAll(s, m, [ids[0]], deadline) && TookAll(m, t, ids[1..], deadline)
    ensures TookAll(s, t, ids, deadline)
  {
    assert ids == [ids[0]] + ids[1..];
    forall time | time <= deadline ensures OpenBy(t.rows, time) == OpenBy(s.rows, time) - ToSet(ids) {
      assert OpenBy(m.rows, time) == OpenBy(s.rows, time) - ToSet([ids[0]]);
    }
  }

  lemma UndisturbedClaim(s: State, id: JobId, later: int, deadline: int)
    requires id in s.rows && Claimable(s.rows[id], s.now) && s.now <= later <= deadline <= s.now + DRAIN_TIMEOUT
    ensures var a := TryClaim(s.(now := later), id, Works, deadline);
            && a.ok && !a.error && a.state.now == later && TookAll(s, a.state, [id], deadline)
            && forall other :: other != id && other in s.rows ==>
                other in a.state.rows && a.state.rows[other] == s.rows[other]
  {
    var t := TryClaim(s.(now := later), id, Works, deadline).state;
    forall time | time <= deadline ensures OpenBy(t.rows, time) == OpenBy(s.rows, time) - ToSet([id]) {}
  }

  lemma {:induction false} UndisturbedSweep(s: State, script: Script, ids: seq<JobId>, deadline: int)
    requires Undisturbed(script) && s.now + Length(script) <= deadline <= s.now + DRAIN_TIMEOUT && Distinct(ids)
    requires forall i :: 0 <= i < |ids| ==> ids[i] in s.rows && Claimable(s.rows[ids[i]], s.now)
    ensures var w := Sweep(s, script, ids, deadline);
            && w.recovered == |ids| && w.errors == 0 && TookAll(s, w.state, ids, deadline)
            && Undisturbed(w.script) && w.state.now + Length(w.script) == s.now + Length(script)
    decreases |ids|
  {
    if ids != [] {
      UndisturbedTurn(s, script);
      var later := s.now + Duration(First(script).events);
      UndisturbedClaim(s, ids[0], later, deadline);
      var m := TryClaim(s.(now := later), ids[0], Works, deadline).state;
      forall i | 0 <= i < |ids[1..]| ensures ids[1..][i] in m.rows && Claimable(m.rows[ids[1..][i]], m.now) {
        assert ids[i + 1] != ids[0];
      }
      UndisturbedSweep(m, Rest(script), ids[1..], deadline);
      TookOneMore(s, m, Sweep(s, script, ids, deadline).state, ids, deadline);
    }
  }

  /** What a drain has started. */
  function New(s: State, t: State): seq<JobId>
    requires |s.started| <= |t.started|
  {
    t.started[|s.started|..]
  }

  /**
   The end of an undisturbed drain: at the last listing nothing was left, and what was there was
   started, once each.
   */
  ghost predicate Emptied(s: State, t: State, at: int) {
    && s.started <= t.started && s.now <= at <= t.now
    && OpenBy(t.rows, at) == {} && ToSet(New(s, t)) == OpenBy(s.rows, at) && Distinct(New(s, t))
  }

  lemma EmptiedByLastPass(s: State, began: State, t: State, ids: seq<JobId>, deadline: int)
    requires began == s.(now := began.now) && s.now <= began.now <= deadline && Lists(began.rows, began.now, ids)
             && |ids| < BATCH
    requires TookAll(began, t, ids, deadline)
    ensures Emptied(s, t, began.now)
  {
    assert New(s, t) == ids;
    assert OpenBy(began.rows, began.now) == ToSet(ids);
  }

  lemma EmptiedByMorePasses(s: State, began: State, m: State, t: State, ids: seq<JobId>, at: int, deadline: int)
    requires began == s.(now := began.now) && s.now <= began.now <= m.now && at <= deadline
    requires Lists(began.rows, began.now, ids) && TookAll(began, m, ids, deadline) && Emptied(m, t, at)
    ensures Emptied(s, t, at)
  {
    assert New(s, t) == ids + New(m, t);
    assert OpenBy(m.rows, at) == OpenBy(s.rows, at) - ToSet(ids);
    assert ToSet(ids + New(m, t)) == ToSet(ids) + ToSet(New(m, t));
    forall i | 0 <= i < |ids| ensures ids[i] in OpenBy(s.rows, at) {}
    assert ToSet(ids) <= OpenBy(s.rows, at);
    assert forall k :: 0 <= k < |New(m, t)| ==> New(m, t)[k] in ToSet(New(m, t));
    assert forall k :: 0 <= k < |ids| ==> ids[k] in ToSet(ids);
  }

  /** Left alone, and in time, a drain starts every claimable job exactly once and leaves none. */
  lemma UndisturbedDrainEmpties(s: State, script: Script, deadline: int, passes: seq<Pass>) returns (at: int)
    requires IsDrain(s, script, deadline, passes)
    requires Undisturbed(script) && s.now + Length(script) <= deadline <= s.now + DRAIN_TIMEOUT
    ensures Emptied(s, DrainResult(s, script, deadline, passes).state, at) && at <= deadline
    ensures DrainResult(s, script, deadline, passes).errors == 0
    decreases |passes|
  {
    UndisturbedTurn(s, script);
    var began := Begun(s, script);
    var ids := passes[0].ids;
    UndisturbedSweep(began, Rest(script), ids, deadline);
    var w := PassResult(s, script, deadline, passes[0]);
    var t := DrainResult(s, script, deadline, passes).state;
    at := began.now;
    if |ids| < BATCH {
      assert passes[1..] == [] && DrainResult(w.state, w.script, deadline, []).state == w.state;
      EmptiedByLastPass(s, began, t, ids, deadline);
    } else {
      at := UndisturbedDrainEmpties(w.state, w.script, deadline, passes[1..]);
      EmptiedByMorePasses(s, began, w.state, t, ids, at, deadline);
    }
  }

  /** When time stands still too: nothing is claimable any more, and what was claimable has been started, once each. */
  lemma {:induction false} QuietDrainEmpties(s: State, deadline: int, passes: seq<Pass>)
    requires IsDrain(s, [], deadline, passes) && s.now <= deadline <= s.now + DRAIN_TIMEOUT
    ensures var t := DrainResult(s, [], deadline, passes).state;
            && t.now == s.now && OpenBy(t.rows, t.now) == {} && s.started <= t.started
            && ToSet(New(s, t)) == OpenBy(s.rows, s.now) && Distinct(New(s, t))
  {
    var at := UndisturbedDrainEmpties(s, [], deadline, passes);
    QuietDrainStandsStill(s, deadline, passes);
  }

  lemma {:induction false} QuietDrainStandsStill(s: State, deadline: int, passes: seq<Pass>)
    requires IsDrain(s, [], deadline, passes) && s.now <= deadline <= s.now + DRAIN_TIMEOUT
    ensures DrainResult(s, [], deadline, passes).state.now == s.now
    decreases |passes|
  {
    UndisturbedSweep(s, [], passes[0].ids, deadline);
    var w := PassResult(s, [], deadline, passes[0]);
    SweepKeepsSilence(s, passes[0].ids, deadline);
    if w.recovered < BATCH {
      assert passes[1..] == [];
    } else {
      QuietDrainStandsStill(w.state, deadline, passes[1..]);
    }
  }

  lemma {:induction false} SweepKeepsSilence(s: State, ids: seq<JobId>, deadline: int)
    ensures Sweep(s, [], ids, deadline).script == [] && Sweep(s, [], ids, deadline).state.now == s.now
    decreases |ids|
  {
    if ids != [] { SweepKeepsSilence(TryClaim(s, ids[0], Works, deadline).state, ids[1..], deadline); }
  }

  lemma {:induction false} PlayOne(s: State, e: Event)
    ensures Play(s, [e]) == AfterEvent(s, e)
  {
    assert [e][1..] == [];
    assert Play(AfterEvent(s, e), []) == AfterEvent(s, e);
  }

  /**
   One claim lost to another worker in a full batch ends the drain: the pass has recovered one job
   less than a batch, and the jobs behind it stay in the queue although nothing failed.
   */
  lemma {:induction false} LostClaimEndsTheDrain(s: State, deadline: int, passes: seq<Pass>, first: JobId,
      behind: JobId)
    requires IsDrain(s, [QUIET, Turn([OtherClaim(first)], Works)], deadline, passes)
             && s.now <= deadline <= s.now + DRAIN_TIMEOUT
    requires passes != [] && passes[0].Listed? && |passes[0].ids| == BATCH && first == passes[0].ids[0]
    requires behind in OpenBy(s.rows, s.now) && behind !in passes[0].ids
    ensures |passes| == 1
    ensures var w := DrainResult(s, [QUIET, Turn([OtherClaim(first)], Works)], deadline, passes);
            w.recovered == BATCH - 1 && w.errors == 0 && behind in OpenBy(w.state.rows, w.state.now)
  {
    var script := [QUIET, Turn([OtherClaim(first)], Works)];
    var ids := passes[0].ids;
    assert script[1..] == [Turn([OtherClaim(first)], Works)] && script[1..][1..] == [];
    assert Play(s, []) == s;
    var taken := Play(s, [OtherClaim(first)]);
    PlayOne(s, OtherClaim(first));
    assert taken.rows == s.rows[first := Claimed(s.rows[first], s.now)];
    assert TryClaim(taken, first, Works, deadline) == Attempt(taken, false, false);
    forall i | 0 <= i < |ids[1..]| ensures ids[1..][i] in taken.rows && Claimable(taken.rows[ids[1..][i]], taken.now) {
      assert ids[i + 1] != ids[0];
    }
    UndisturbedSweep(taken, [], ids[1..], deadline);
    SweepKeepsSilence(taken, ids[1..], deadline);
    assert Sweep(s, script[1..], ids, deadline).state == Sweep(taken, [], ids[1..], deadline).state;
    assert behind !in ToSet(ids[1..]);
    assert passes[1..] == [];
  }

  // --------------------------------------------------------------------------------------------
  // The worker

  class Worker {
    var rows: Rows
    var now: int
    const deadline: int
    var started: seq<JobId>
    ghost var offered: seq<JobId>
    var script: Script

    constructor (rows: Rows, now: int, script: Script)
      ensures State() == Table(rows, now, [], []) && this.script == script && deadline == now + 10_000
    {
      this.rows, this.now, this.script, deadline := rows, now, script, now + DRAIN_TIMEOUT;
      started, offered := [], [];
    }

    ghost function State(): State
      reads this
    {
      Table(rows, now, started, offered)
    }

    /** The state and the rest of the script are those of `w`. */
    ghost predicate At(w: Swept)
      reads this
    {
      State() == w.state && script == w.script
    }

    /** What the script has for this turn: the others act, and the coming call fares in its way. */
    method NextTurn() returns (fare: Fare)
      modifies `rows, `now, `offered, `script
      ensures State() == Play(old(State()), First(old(script)).events) && script == Rest(old(script))
      ensures fare == First(old(script)).fare
    {
      var turn := First(script);
      script, fare := Rest(script), turn.fare;
      assert turn.events[0..] == turn.events;
      for k := 0 to |turn.events|
        invariant script == Rest(old(script)) && started == old(started)
        invariant Play(State(), turn.events[k..]) == Play(old(State()), turn.events)
      {
        var e := turn.events[k];
        assert turn.events[k..][0] == e && turn.events[k..][1..] == turn.events[k + 1..];
        ghost var s := State();
        rows, now := Apply(rows, now, e), After(now, e);
        if Opens(e) { offered := offered + [e.id]; }
        assert State() == AfterEvent(s, e);
      }
    }

    method Oldest(ids: set<JobId>) returns (oldest: JobId)
      requires ids != {} && ids <= rows.Keys
      ensures oldest in ids && forall id :: id in ids ==> rows[oldest].createdAt <= rows[id].createdAt
    {
      oldest :| oldest in ids;
      var todo := ids - {oldest};
      while todo != {}
        invariant todo <= ids && oldest in ids - todo
        invariant forall id :: id in ids - todo ==> rows[oldest].createdAt <= rows[id].createdAt
        decreases todo
      {
        var id :| id in todo;
        if rows[id].createdAt < rows[oldest].createdAt { oldest := id; }
        todo := todo - {id};
      }
    }

    /** `ListQueued`: the query's filter, order and limit. */
    method ListQueued() returns (ids: seq<JobId>)
      ensures Lists(rows, now, ids) && |ids| <= 100
    {
      var todo := OpenBy(rows, now);
      ids := [];
      while |ids| < BATCH && todo != {}
        invariant |ids| <= BATCH && Distinct(ids) && todo !! ToSet(ids) && todo + ToSet(ids) == OpenBy(rows, now)
        invariant forall i :: 0 <= i < |ids| ==> ids[i] in rows && Claimable(rows[ids[i]], now)
        invariant forall i, j :: 0 <= i < j < |ids| ==> rows[ids[i]].createdAt <= rows[ids[j]].createdAt
        invariant forall id, i :: id in todo && 0 <= i < |ids| ==> rows[ids[i]].createdAt <= rows[id].createdAt
        decreases todo
      {
        var id := Oldest(todo);
        assert forall k :: 0 <= k < |ids| ==> ids[k] in ToSet(ids);
        assert ToSet(ids + [id]) == ToSet(ids) + {id};
        todo := todo - {id};
        ids := ids + [id];
      }
    }

    method Claim(id: JobId, fare: Fare) returns (ok: bool, error: bool)
      modifies `rows, `started
      ensures Attempt(State(), ok, error) == TryClaim(old(State()), id, fare, deadline)
    {
      if fare == FailsBefore || deadline < now { return false, true; }
      if id !in rows || !Claimable(rows[id], now) { return false, false; }
      rows := rows[id := Claimed(rows[id], now)];
      if fare == FailsAfter { return false, true; }
      started := started + [id];
      return true, false;
    }

    /** The loop over the listed jobs. */
    method ClaimListed(ids: seq<JobId>) returns (recovered: nat)
      modifies `rows, `now, `started, `offered, `script
      ensures At(Sweep(old(State()), old(script), ids, deadline))
      ensures recovered == Sweep(old(State()), old(script), ids, deadline).recovered
    {
      recovered := 0;
      assert ids[0..] == ids;
      ghost var whole := Sweep(State(), script, ids, deadline);
      for k := 0 to |ids|
        invariant var w := Sweep(State(), script, ids[k..], deadline);
                  w.state == whole.state && w.script == whole.script && recovered + w.recovered == whole.recovered
      {
        SweepNext(State(), script, ids, k, deadline);
        var fare := NextTurn();
        var ok, error := Claim(ids[k], fare);
        if ok { recovered := recovered + 1; }
      }
    }

    /** `recoverQueuedBusinessImageJobs`: list a batch, and claim and start each job of it. */
    method Recover() returns (recovered: nat, ghost pass: Pass)
      modifies `rows, `now, `started, `offered, `script
      ensures IsPass(old(State()), old(script), deadline, pass)
      ensures At(PassResult(old(State()), old(script), deadline, pass))
      ensures recovered == PassResult(old(State()), old(script), deadline, pass).recovered
    {
      var fare := NextTurn();
      if fare != Works || deadline < now { return 0, Unlisted; }
      var ids := ListQueued();
      pass := Listed(ids, now);
      recovered := ClaimListed(ids);
    }

    /** `drainQueuedBusinessImageJobs`: it ends, for every script, and is the drain of the specification. */
    method Drain() returns (total: nat, ghost passes: seq<Pass>)
      requires deadline <= now + DRAIN_TIMEOUT
      modifies `rows, `now, `started, `offered, `script
      ensures IsDrain(old(State()), old(script), deadline, passes)
      ensures At(DrainResult(old(State()), old(script), deadline, passes))
      ensures total == DrainResult(old(State()), old(script), deadline, passes).recovered
    {
      total, passes := 0, [];
      while true
        invariant deadline <= now + DRAIN_TIMEOUT && GoesOn(old(State()), old(script), deadline, passes)
        invariant At(DrainResult(old(State()), old(script), deadline, passes))
        invariant total == DrainResult(old(State()), old(script), deadline, passes).recovered
        decreases |OpenBy(rows, deadline)| + Weight(script)
      {
        if deadline < now {
          TimeIsUp(old(State()), old(script), deadline, passes);
          return;
        }
        ghost var s, before := State(), script;
        var recovered;
        ghost var pass;
        recovered, pass := Recover();
        PassFollows(s, before, deadline, pass);
        OneMorePass(old(State()), old(script), deadline, passes, pass);
        total, passes := total + recovered, passes + [pass];
        if recovered < BATCH { return; }
      }
    }
  }
}

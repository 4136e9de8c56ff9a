/**
 The stored record of one image job and everything that writes it: the worker's merging save, its
 unconditional save when a job starts running, the cancel request, the cancel handler's later
 snapshot, the stale-job reconciler and the queue's claim.
 */
module JobRecords {

  datatype Status = Queued | Running | CancelRequested | Cancelled | Succeeded | Failed

  datatype Job = Job(
    status: Status,
    stage: string,
    upstreamSent: bool,
    upstreamMillis: int,
    errorCode: string,
    actualCount: int,
    creditReserved: int,
    creditRefunded: int,
    claimedBy: string,
    claimedAt: string,
    attempts: int,
    payload: seq<char>)

  predicate Final(job: Job) {
    job.status == Cancelled || job.status == Succeeded || job.status == Failed
  }

  predicate CancelledOrAsked(job: Job) {
    job.status == Cancelled || job.status == CancelRequested
  }

  /** `businessjobs.HasUpstreamSent`. */
  predicate HasUpstreamSent(job: Job) {
    job.upstreamSent || job.stage == "upstream" || job.status == Succeeded || job.upstreamMillis > 0
  }

  /** The stages at which a cancelled job has cost the provider nothing yet. */
  predicate BeforeUpstream(job: Job) {
    && !HasUpstreamSent(job)
    && job.stage in {"", "queued", "claimed", "running", "credit", "dispatching"}
  }

  function AtLeast(low: int, value: int): int { if value < low then low else value }

  function NonEmpty(preferred: string, otherwise: string): string { if preferred != "" then preferred else otherwise }

  /** What the store makes of a job before it writes it. */
  function Prepared(job: Job): Job {
    job.(upstreamSent := HasUpstreamSent(job), actualCount := AtLeast(0, job.actualCount),
        attempts := AtLeast(0, job.attempts))
  }

  /** The upsert of `Save`: the new values win, except where the statement guards a column. */
  function Upsert(row: Job, next: Job): Job {
    next.(upstreamSent := row.upstreamSent || next.upstreamSent,
          payload := NonEmpty(next.payload, row.payload),
          claimedBy := NonEmpty(next.claimedBy, row.claimedBy),
          claimedAt := NonEmpty(next.claimedAt, row.claimedAt),
          attempts := AtLeast(row.attempts, next.attempts))
  }

  function Save(row: Job, next: Job): Job { Upsert(row, Prepared(next)) }

  // --------------------------------------------------------------------------------------------
  // Writers

  function Merged(row: Job, next: Job): Job {
    next.(creditRefunded := AtLeast(row.creditRefunded, next.creditRefunded),
          claimedBy := NonEmpty(next.claimedBy, row.claimedBy),
          claimedAt := NonEmpty(next.claimedAt, row.claimedAt),
          attempts := AtLeast(row.attempts, next.attempts))
  }

  predicate Preserves(row: Job, next: Job) { Final(row) && !Final(next) }

  /** The worker's `saveJob`: it merges with the row it has read, `seen`, and writes to the row as it is by then. */
  function SaveAfterReading(row: Job, seen: Job, next: Job): Job {
    var merged := Merged(seen, next);
    if Preserves(seen, merged) then row
    else Save(row, merged.(payload := NonEmpty(merged.payload, seen.payload)))
  }

  /** `saveJob` with nobody in between. */
  function WorkerSave(row: Job, next: Job): Job { SaveAfterReading(row, row, next) }

  /** The copy the worker goes on with after `saveJob`. */
  function WorkerCopy(row: Job, next: Job): Job {
    var merged := Merged(row, next);
    if Preserves(row, merged) then row else Prepared(merged.(payload := NonEmpty(merged.payload, row.payload)))
  }

  /** `saveRunningJob` writes without reading. */
  function RunningSave(row: Job, next: Job): Job { Save(row, next.(status := Running, stage := "running")) }

  function CancelItem(row: Job): Job {
    match row.status
    case Queued => Prepared(row.(status := Cancelled, stage := "cancelled", errorCode := "cancelled"))
    case Running => Prepared(row.(status := CancelRequested, stage := "cancel_requested",
        errorCode := "cancel_requested"))
    case CancelRequested => Prepared(row.(status := CancelRequested, stage := "cancel_requested",
        errorCode := "cancel_requested"))
    case _ => row
  }

  function RequestCancel(row: Job): Job { if Final(row) then row else Save(row, CancelItem(row)) }

  /** `ReconcileStale`: one conditional update per status, for rows that are old enough. */
  function Reconcile(row: Job): Job {
    match row.status
    case Queued => row.(status := Failed, stage := "stale", errorCode := "stale_queued")
    case Running => row.(status := Failed, stage := "stale", errorCode := "stale_running")
    case CancelRequested => row.(status := Cancelled, stage := "cancelled", errorCode := "stale_cancel_requested")
    case _ => row
  }

  function Claim(row: Job, worker: string, at: string): Job {
    if row.status == Queued
        then row.(stage := "claimed", claimedBy := worker, claimedAt := at, attempts := row.attempts + 1)
    else row
  }

  datatype Write =
    | ByWorker(seen: Job, next: Job)
    | ByRunningSave(next: Job)
    | ByCancelRequest
    | ByCancelSnapshot(next: Job)
    | ByReconciler
    | ByClaim(worker: string, at: string)

  function Written(row: Job, w: Write): Job {
    match w
    case ByWorker(seen, next) => SaveAfterReading(row, seen, next)
    case ByRunningSave(next) => RunningSave(row, next)
    case ByCancelRequest => RequestCancel(row)
    case ByCancelSnapshot(next) => Save(row, next)
    case ByReconciler => Reconcile(row)
    case ByClaim(worker, at) => Claim(row, worker, at)
  }

  function AfterWrites(row: Job, ws: seq<Write>): Job
    decreases |ws|
  {
    if ws == [] then row else AfterWrites(Written(row, ws[0]), ws[1..])
  }

  /** The first of these that is not empty. */
  function FirstNonEmpty(a: string, b: string, c: string): string { if a != "" then a else if b != "" then b else c }

  function Largest(a: int, b: int, c: int): int { if a >= b && a >= c then a else if b >= c then b else c }

  /** What a merging save makes of each column, from the copy, the row it has read and the row it meets. */
  lemma WorkerSaveColumns(row: Job, seen: Job, next: Job)
    requires next.status in {Cancelled, Succeeded, Failed} || seen.status !in {Cancelled, Succeeded, Failed}
    ensures var after := SaveAfterReading(row, seen, next);
            && after.status == next.status && after.stage == next.stage && after.errorCode == next.errorCode
            && after.creditReserved == next.creditReserved && after.upstreamMillis == next.upstreamMillis
            && after.actualCount == (if next.actualCount < 0 then 0 else next.actualCount)
            && after.creditRefunded == (if seen.creditRefunded > next.creditRefunded then seen else next).creditRefunded
            && after.claimedBy == FirstNonEmpty(next.claimedBy, seen.claimedBy, row.claimedBy)
            && after.claimedAt == FirstNonEmpty(next.claimedAt, seen.claimedAt, row.claimedAt)
            && after.payload == FirstNonEmpty(next.payload, seen.payload, row.payload)
            && after.attempts == Largest(row.attempts, Largest(next.attempts, seen.attempts, 0), 0)
            && (after.upstreamSent <==> row.upstreamSent || next.upstreamSent || next.stage == "upstream"
                                        || next.status == Succeeded || next.upstreamMillis > 0)
    ensures var copy := WorkerCopy(seen, next);
            && copy.creditRefunded == SaveAfterReading(row, seen, next).creditRefunded
            && copy.status == next.status && copy.stage == next.stage
  {
  }

  /** A copy that is not final leaves a row that was read as final alone. */
  lemma FinalViewIsKept(row: Job, seen: Job, next: Job)
    requires seen.status in {Cancelled, Succeeded, Failed} && next.status !in {Cancelled, Succeeded, Failed}
    ensures SaveAfterReading(row, seen, next) == row && WorkerCopy(seen, next) == seen
  {
  }

  // --------------------------------------------------------------------------------------------
  // What is never lost

  /** `later` has forgotten nothing that `row` had settled. */
  predicate Keeps(row: Job, later: Job) {
    && (Final(row) ==> Final(later))
    && row.creditRefunded <= later.creditRefunded
    && row.attempts <= later.attempts
    && (row.upstreamSent ==> later.upstreamSent)
    && (row.claimedBy != "" ==> later.claimedBy != "")
    && (row.claimedAt != "" ==> later.claimedAt != "")
    && (row.payload != "" ==> later.payload != "")
  }

  /** A writer that has not seen the row as it is now is safe only when what it carries is not behind it. */
  predicate Guarded(row: Job, w: Write) {
    match w
    case ByWorker(seen, next) =>
      Preserves(seen, Merged(seen, next))
      || ((Final(row) ==> Final(next))
          && (row.creditRefunded <= seen.creditRefunded || row.creditRefunded <= next.creditRefunded))
    case ByRunningSave(next) => !Final(row) && row.creditRefunded <= next.creditRefunded
    case ByCancelSnapshot(next) => (Final(row) ==> Final(next)) && row.creditRefunded <= next.creditRefunded
    case ByClaim(worker, at) => worker != "" && at != ""
    case _ => true
  }

  predicate RealClaim(w: Write) { w.ByClaim? ==> w.worker != "" && w.at != "" }

  /** A write loses something settled exactly when it is a save from an old view that is behind the row. */
  lemma WriteKeepsIff(row: Job, w: Write)
    requires RealClaim(w)
    ensures Keeps(row, Written(row, w)) <==> Guarded(row, w)
  {
  }

  ghost predicate AllGuarded(row: Job, ws: seq<Write>)
    decreases |ws|
  {
    ws == [] || (RealClaim(ws[0]) && Guarded(row, ws[0]) && AllGuarded(Written(row, ws[0]), ws[1..]))
  }

  lemma {:induction false} GuardedRunKeeps(row: Job, ws: seq<Write>)
    requires AllGuarded(row, ws)
    ensures Keeps(row, AfterWrites(row, ws))
    decreases |ws|
  {
    if ws != [] {
      WriteKeepsIff(row, ws[0]);
      GuardedRunKeeps(Written(row, ws[0]), ws[1..]);
    }
  }

  /**
   What a worker may save at all after one look at the row: exactly if that look has seen the row final
   when it is, and a refund total that is not behind it, no save that it goes on to make can lose anything.
   */
  lemma ViewIsSafeIff(row: Job, seen: Job)
    ensures (forall next :: Keeps(row, SaveAfterReading(row, seen, next)))
            <==> (Final(row) ==> Final(seen)) && row.creditRefunded <= seen.creditRefunded
  {
    if (Final(row) ==> Final(seen)) && row.creditRefunded <= seen.creditRefunded {
      forall next ensures Keeps(row, SaveAfterReading(row, seen, next)) { WriteKeepsIff(row, ByWorker(seen, next)); }
    } else {
      var next := seen.(status := if Final(seen) then Succeeded else Running, creditRefunded := row.creditRefunded - 1);
      WriteKeepsIff(row, ByWorker(seen, next));
      assert !Keeps(row, SaveAfterReading(row, seen, next));
    }
  }

  /** Writes that see the row they change: merging saves without an overtaker, cancel requests, passes and claims. */
  predicate Fresh(row: Job, w: Write) {
    !w.ByRunningSave? && !w.ByCancelSnapshot? && RealClaim(w) && (w.ByWorker? ==> w.seen == row)
  }

  ghost predicate AllFresh(row: Job, ws: seq<Write>)
    decreases |ws|
  {
    ws == [] || (Fresh(row, ws[0]) && AllFresh(Written(row, ws[0]), ws[1..]))
  }

  /** Any run of such writes loses nothing. */
  lemma {:induction false} MergingRunKeeps(row: Job, ws: seq<Write>)
    requires AllFresh(row, ws)
    ensures Keeps(row, AfterWrites(row, ws))
    decreases |ws|
  {
    if ws != [] {
      WriteKeepsIff(row, ws[0]);
      MergingRunKeeps(Written(row, ws[0]), ws[1..]);
    }
  }

  /**
   A worker's save that was overtaken by a reconciler pass between its read and its write makes the
   failed job run again.
   */
  lemma OvertakenSaveRevivesFailedJob(row: Job, next: Job)
    requires row.status == Running && next.status == Running
    ensures Final(Reconcile(row)) && !Final(Written(Reconcile(row), ByWorker(row, next)))
    ensures Final(Written(Reconcile(row), ByWorker(Reconcile(row), next)))
  {
  }

  /** Once the upstream call is on record no write whatever, stale or not, makes the job pre-upstream again. */
  lemma {:induction false} UpstreamMarkIsForever(row: Job, ws: seq<Write>)
    requires row.upstreamSent
    ensures AfterWrites(row, ws).upstreamSent && !BeforeUpstream(AfterWrites(row, ws))
    decreases |ws|
  {
    if ws != [] { UpstreamMarkIsForever(Written(row, ws[0]), ws[1..]); }
  }

  // --------------------------------------------------------------------------------------------
  // A requested cancel

  /**
   A requested cancel is forgotten exactly by a save that carries another status and is not held back
   by a final view.
   */
  lemma CancelIsKeptIff(row: Job, w: Write)
    requires row.status == CancelRequested
    ensures CancelledOrAsked(Written(row, w))
            <==> match w
                 case ByWorker(seen, next) => CancelledOrAsked(next) || (Final(seen) && !Final(next))
                 case ByRunningSave(_) => false
                 case ByCancelSnapshot(next) => CancelledOrAsked(next)
                 case _ => true
  {
  }

  /** What a worker does to the record while it runs: look for a cancel, or save its own copy. */
  datatype Move = Look | SaveCopy(next: Job)

  /** Whether one of its looks finds the cancel. */
  predicate Noticed(row: Job, moves: seq<Move>)
    decreases |moves|
  {
    moves != [] &&
    match moves[0]
    case Look => CancelledOrAsked(row) || Noticed(row, moves[1..])
    case SaveCopy(next) => Noticed(WorkerSave(row, next.(status := Running)), moves[1..])
  }

  lemma {:induction false} RunningIsNotNoticed(row: Job, moves: seq<Move>)
    requires !CancelledOrAsked(row) && !Final(row)
    ensures !Noticed(row, moves)
    decreases |moves|
  {
    if moves != [] {
      match moves[0]
      case Look => RunningIsNotNoticed(row, moves[1..]);
      case SaveCopy(next) => RunningIsNotNoticed(WorkerSave(row, next.(status := Running)), moves[1..]);
    }
  }

  /** A running worker notices a requested cancel if and only if it looks before it saves, fresh as its save may be. */
  lemma {:induction false} CancelIsNoticedIff(row: Job, moves: seq<Move>)
    requires row.status == CancelRequested
    ensures Noticed(row, moves) <==> moves != [] && moves[0].Look?
  {
    if moves != [] && moves[0].SaveCopy? {
      RunningIsNotNoticed(WorkerSave(row, moves[0].next.(status := Running)), moves[1..]);
    }
  }

  /** A cancel that lands while the worker waits for admission is undone when the worker marks the job running. */
  lemma RunningSaveRevivesCancelledJob(row: Job, mine: Job)
    requires row.status == Queued
    ensures var asked := RequestCancel(row);
            && Final(asked) && asked.status == Cancelled
            && !Final(RunningSave(asked, mine)) && !CancelledOrAsked(RunningSave(asked, mine))
  {
  }

  /** The cancel handler's snapshot, written after the worker finished, makes a final job non-final again. */
  lemma SnapshotRevivesFinishedJob(row: Job, done: Job)
    requires row.status == Running && Final(done)
    ensures var item := CancelItem(row);
            var finished := WorkerSave(RequestCancel(row), done);
            && Final(finished) && finished.status == done.status
            && Save(finished, item).status == CancelRequested && !Final(Save(finished, item))
  {
  }

  /** Between final states the last writer wins, and a job once final is final for every reading writer. */
  lemma FinalStatusOfLastWriterWins(row: Job, next: Job)
    requires Final(row)
    ensures WorkerSave(row, next).status == (if Final(next) then next.status else row.status)
    ensures RequestCancel(row) == row && Reconcile(row) == row
  {
  }
}

/** Evaluation rows, the queue of evaluation jobs, and the code that changes them: one job, one watchdog tick. */
module EvaluationRows {

  import opened Prelude

  type Id = nat

  datatype Status = Pending | Running | Completed | Failed | Partial

  /** The part of a row that the worker looks at; `retries` is the entry of that name in the job statistics. */
  datatype Row = Row(status: Status, startedAt: Option<int>, retries: Option<nat>)

  datatype Entry = Entry(evalId: Id, deferCount: nat)

  const MAX_PREDECESSOR_DEFERS := 60

  function Retries(row: Row): nat {
    if row.retries.Some? then row.retries.value else 0
  }

  predicate IsTerminal(status: Status) {
    !status.Pending? && !status.Running?
  }

  // ----- the writes -----

  const FRESH_ROW := Row(Pending, None, None)

  /** The new statistics are merged in, so the retry count stays. */
  function MarkedRunning(row: Row, now: int): Row { Row(Running, Some(now), row.retries) }

  function RequeuedRow(retries: nat): Row { Row(Pending, None, Some(retries)) }

  /** The statistics are replaced: only a failure by the watchdog keeps a retry count. */
  function MarkedFailed(row: Row, retries: Option<nat>): Row { Row(Failed, row.startedAt, retries) }

  function MarkedCompleted(row: Row): Row { Row(Completed, row.startedAt, None) }

  class EvaluationRepository {
    var rows: map<Id, Row>

    method Write(evalId: Id, row: Row)
      modifies this
      ensures rows == if evalId in old(rows) then old(rows)[evalId := row] else old(rows)
    {
      if evalId in rows {
        rows := rows[evalId := row];
      }
    }

    /** Rows that have been running since before the cutoff, with the retry counts read at that moment. */
    ghost predicate AreStuck(stuck: seq<Seen>, cutoff: int)
      reads this
    {
      && (forall i, j :: 0 <= i < j < |stuck| ==> stuck[i].evalId != stuck[j].evalId)
      && (forall i :: 0 <= i < |stuck| ==>
            && stuck[i].evalId in rows && rows[stuck[i].evalId].status == Running
            && rows[stuck[i].evalId].startedAt.Some? && rows[stuck[i].evalId].startedAt.value < cutoff
            && stuck[i].attempts == Retries(rows[stuck[i].evalId]))
    }
  }

  class Pool {
    var queue: seq<Entry>

    method EnqueueJob(evalId: Id, deferCount: nat)
      modifies this
      ensures queue == old(queue) + [Entry(evalId, deferCount)]
    {
      queue := queue + [Entry(evalId, deferCount)];
    }
  }

  // ----- one job -----

  /** Phase 1: the row is marked running first and then looked at; false where the code returns no snapshot. */
  function LoadSnapshot(row: Row, now: int): (Row, bool) {
    var marked := MarkedRunning(row, now);
    (marked, marked.status == Pending || marked.status == Running)
  }

  /** The guard against processing twice never fires: whatever its status, the row is revived and processed. */
  lemma DeduplicationGuardIsDead(row: Row, now: int)
    ensures LoadSnapshot(row, now) == (Row(Running, Some(now), row.retries), true)
    ensures IsTerminal(row.status) ==> LoadSnapshot(row, now).0.status != row.status
  {}

  /** How the phases after the first go: some check or the adapter fails, the results are written, or the job dies. */
  datatype JobOutcome = JobFails | JobCompletes | JobDies

  function AfterJob(marked: Row, outcome: JobOutcome): Row {
    match outcome
    case JobFails => MarkedFailed(marked, None)
    case JobCompletes => MarkedCompleted(marked)
    case JobDies => marked
  }

  datatype Seen = Seen(evalId: Id, attempts: nat)

  class Worker {
    const repo: EvaluationRepository
    const pool: Pool
    const maxAttempts: nat

    constructor (repo: EvaluationRepository, pool: Pool, maxAttempts: nat)
      ensures this.repo == repo && this.pool == pool && this.maxAttempts == maxAttempts
    {
      this.repo := repo;
      this.pool := pool;
      this.maxAttempts := maxAttempts;
    }

    method RunEvaluationJob(evalId: Id, deferCount: nat, predecessorPending: bool, now: int, outcome: JobOutcome)
      modifies repo, pool
      ensures
        if deferCount < MAX_PREDECESSOR_DEFERS && predecessorPending then
          repo.rows == old(repo.rows) && pool.queue == old(pool.queue) + [Entry(evalId, deferCount + 1)]
        else
          && pool.queue == old(pool.queue)
          && repo.rows == if evalId !in old(repo.rows) then old(repo.rows)
                          else old(repo.rows)[evalId := AfterJob(MarkedRunning(old(repo.rows)[evalId], now), outcome)]
    {
      if deferCount < MAX_PREDECESSOR_DEFERS && predecessorPending {
        pool.EnqueueJob(evalId, deferCount + 1);
        return;
      }
      if evalId !in repo.rows {
        return;
      }
      var (marked, proceeds) := LoadSnapshot(repo.rows[evalId], now);
      repo.Write(evalId, marked);
      if !proceeds {
        return;
      }
      match outcome
      case JobFails => repo.Write(evalId, MarkedFailed(repo.rows[evalId], None));
      case JobCompletes => repo.Write(evalId, MarkedCompleted(repo.rows[evalId]));
      case JobDies =>
    }

    method WatchdogTick(stuck: seq<Seen>, cutoff: int) returns (requeued: nat, failed: nat)
      requires repo.AreStuck(stuck, cutoff)
      modifies repo, pool
      ensures repo.rows == SweptRows(old(repo.rows), stuck, maxAttempts, |stuck|)
      ensures pool.queue == old(pool.queue) + Requeues(stuck, maxAttempts, |stuck|)
      ensures requeued + failed == |stuck| && requeued == |Requeues(stuck, maxAttempts, |stuck|)|
    {
      requeued, failed := 0, 0;
      for n := 0 to |stuck|
        invariant requeued + failed == n && requeued == |Requeues(stuck, maxAttempts, n)|
        invariant repo.rows == SweptRows(old(repo.rows), stuck, maxAttempts, n)
        invariant pool.queue == old(pool.queue) + Requeues(stuck, maxAttempts, n)
      {
        var e, attempts := stuck[n].evalId, stuck[n].attempts;
        if attempts >= maxAttempts {
          repo.Write(e, MarkedFailed(repo.rows[e], Some(attempts)));
          failed := failed + 1;
        } else {
          repo.Write(e, RequeuedRow(attempts + 1));
          pool.EnqueueJob(e, 0);
          requeued := requeued + 1;
        }
      }
    }
  }

  /** The rows after the first n stuck ones have been dealt with. */
  function SweptRows(rows: map<Id, Row>, stuck: seq<Seen>, maxAttempts: nat, n: nat): (swept: map<Id, Row>)
    requires n <= |stuck| && forall i :: 0 <= i < |stuck| ==> stuck[i].evalId in rows
    ensures swept.Keys == rows.Keys
  {
    if n == 0 then rows
    else
      var before := SweptRows(rows, stuck, maxAttempts, n - 1);
      var seen := stuck[n - 1];
      before[seen.evalId := if seen.attempts >= maxAttempts then MarkedFailed(before[seen.evalId], Some(seen.attempts))
                            else RequeuedRow(seen.attempts + 1)]
  }

  /**
    * Every stuck row is put back with one retry more, or failed once it has had its retries; the others are
    * untouched.
    */
  lemma {:induction false} SweptRowsMeans(rows: map<Id, Row>, stuck: seq<Seen>, maxAttempts: nat, n: nat, e: Id)
    requires n <= |stuck| && e in rows
    requires forall i :: 0 <= i < |stuck| ==>
      stuck[i].evalId in rows && stuck[i].attempts == Retries(rows[stuck[i].evalId])
    requires forall i, j :: 0 <= i < j < |stuck| ==> stuck[i].evalId != stuck[j].evalId
    ensures SweptRows(rows, stuck, maxAttempts, n)[e]
         == if exists i :: 0 <= i < n && stuck[i].evalId == e then Swept(rows[e], maxAttempts) else rows[e]
  {
    if n > 0 {
      SweptRowsMeans(rows, stuck, maxAttempts, n - 1, e);
      if stuck[n - 1].evalId == e {
        assert !exists i :: 0 <= i < n - 1 && stuck[i].evalId == e;
      }
    }
  }

  /** What a tick makes of a stuck row. */
  function Swept(row: Row, maxAttempts: nat): Row {
    if Retries(row) >= maxAttempts then MarkedFailed(row, Some(Retries(row))) else RequeuedRow(Retries(row) + 1)
  }

  /** The entries a tick adds for the first n stuck rows. */
  function Requeues(stuck: seq<Seen>, maxAttempts: nat, n: nat): seq<Entry>
    requires n <= |stuck|
  {
    if n == 0 then []
    else Requeues(stuck, maxAttempts, n - 1)
         + if stuck[n - 1].attempts >= maxAttempts then [] else [Entry(stuck[n - 1].evalId, 0)]
  }

  /** A row the watchdog keeps finding stuck is failed after exactly the allowed number of retries. */
  lemma {:induction false} RetriesRunOut(row: Row, maxAttempts: nat, crashes: nat, now: int)
    requires row.status == Running && Retries(row) + crashes == maxAttempts
    ensures
      var last := AfterCrashes(row, maxAttempts, crashes, now);
      && last.status == Running && Retries(last) == maxAttempts
      && Swept(last, maxAttempts).status == Failed
    decreases crashes
  {
    if crashes > 0 {
      RetriesRunOut(MarkedRunning(Swept(row, maxAttempts), now), maxAttempts, crashes - 1, now);
    }
  }

  /** Swept, started again and dead again, so many times. */
  function AfterCrashes(row: Row, maxAttempts: nat, crashes: nat, now: int): Row
    decreases crashes
  {
    if crashes == 0 then row
    else AfterCrashes(MarkedRunning(Swept(row, maxAttempts), now), maxAttempts, crashes - 1, now)
  }
}

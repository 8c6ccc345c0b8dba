/**
  * Evaluation jobs, crashes and the watchdog as a state machine. One step is one commit or one call of the
  * queue; any job may die at any point.
  */
module EvaluationProtocol {

  import opened Prelude
  import opened EvaluationRows

  /** Where a delivered job is: before its row is marked running, or after. */
  datatype Job = Held(defers: nat) | Working

  /**
    * One evaluation: its row, whether the trigger still has to enqueue it, its entries in the queue (by their
    * deferral counts), its live jobs, and how often it has been enqueued.
    */
  datatype Eval = Eval(row: Row, unsent: bool, entries: multiset<nat>, jobs: multiset<Job>, enqueued: nat)

  /** The rest of the watchdog's list, and the evaluation it has put back but not yet enqueued. */
  datatype Watchdog = Watchdog(list: seq<Seen>, sending: Option<Id>)

  datatype State = State(evals: map<Id, Eval>, watchdog: Watchdog)

  datatype Config = Config(maxRetries: nat, predecessors: Id -> set<Id>)

  // ----- what can happen to one evaluation -----

  datatype Move =
    | Trigger                    // the trigger enqueues it
    | TriggerDies                // the trigger dies before it does
    | Deliver(defers: nat)       // a worker takes an entry
    | Defer(defers: nat)         // the job puts itself back, a predecessor being open
    | Start(defers: nat, now: int)
    | Fail
    | Complete
    | Die(job: Job)
    | Requeue(attempts: nat)     // the watchdog puts the row back
    | GiveUp(attempts: nat)      // the watchdog fails the row
    | Send                       // the watchdog enqueues what it has put back
    | SendDies                   // the watchdog dies before it does

  const NEW_EVAL := Eval(FRESH_ROW, true, multiset{}, multiset{}, 0)

  predicate CanMove(v: Eval, sending: bool, move: Move, maxRetries: nat) {
    match move
    case Trigger => v.unsent
    case TriggerDies => v.unsent
    case Deliver(d) => d in v.entries
    case Defer(d) => Held(d) in v.jobs && d < MAX_PREDECESSOR_DEFERS && !IsTerminal(v.row.status)
    case Start(d, _) => Held(d) in v.jobs
    case Fail => Working in v.jobs
    case Complete => Working in v.jobs
    case Die(job) => job in v.jobs
    case Requeue(attempts) => SeesDead(v, attempts) && attempts < maxRetries && !sending
    case GiveUp(attempts) => SeesDead(v, attempts) && attempts >= maxRetries && !sending
    case Send => sending
    case SendDies => sending
  }

  /** Only rows running without a live job are found stuck: the threshold exceeds the job timeout. */
  predicate SeesDead(v: Eval, attempts: nat) {
    v.row.status == Running && v.jobs == multiset{} && attempts == Retries(v.row)
  }

  function Moved(v: Eval, move: Move): Eval {
    Eval(MovedRow(v.row, move), v.unsent && !move.Trigger? && !move.TriggerDies?, MovedEntries(v.entries, move),
         MovedJobs(v.jobs, move), v.enqueued + Enqueues(move))
  }

  function Enqueues(move: Move): nat {
    if move.Trigger? || move.Defer? || move.Send? then 1 else 0
  }

  function MovedRow(row: Row, move: Move): Row {
    match move
    case Start(_, now) => MarkedRunning(row, now)
    case Fail => MarkedFailed(row, None)
    case Complete => MarkedCompleted(row)
    case Requeue(attempts) => RequeuedRow(attempts + 1)
    case GiveUp(attempts) => MarkedFailed(row, Some(attempts))
    case _ => row
  }

  function MovedEntries(entries: multiset<nat>, move: Move): multiset<nat> {
    match move
    case Trigger => entries + multiset{0}
    case Deliver(d) => entries - multiset{d}
    case Defer(d) => entries + multiset{d + 1}
    case Send => entries + multiset{0}
    case _ => entries
  }

  function MovedJobs(jobs: multiset<Job>, move: Move): multiset<Job> {
    match move
    case Deliver(d) => jobs + multiset{Held(d)}
    case Defer(d) => jobs - multiset{Held(d)}
    case Start(d, _) => jobs - multiset{Held(d)} + multiset{Working}
    case Fail => jobs - multiset{Working}
    case Complete => jobs - multiset{Working}
    case Die(job) => jobs - multiset{job}
    case _ => jobs
  }

  // ----- the system -----

  datatype Event = Create(e: Id) | Act(e: Id, move: Move) | Scan(list: seq<Seen>) | WatchdogDies

  ghost predicate Init(s: State) {
    s.evals == map[] && s.watchdog == Watchdog([], None)
  }

  predicate IsOpen(s: State, e: Id) {
    e in s.evals && !IsTerminal(s.evals[e].row.status)
  }

  predicate IsSending(s: State, e: Id) {
    s.watchdog.sending == Some(e)
  }

  /** The watchdog takes its list in order, and enqueues what it has put back before it goes on. */
  predicate WatchdogAllows(w: Watchdog, e: Id, move: Move) {
    match move
    case Requeue(attempts) => w.sending.None? && w.list != [] && w.list[0] == Seen(e, attempts)
    case GiveUp(attempts) => w.sending.None? && w.list != [] && w.list[0] == Seen(e, attempts)
    case _ => true
  }

  ghost predicate HasOpenPredecessor(c: Config, s: State, e: Id) {
    exists p :: p in c.predecessors(e) && IsOpen(s, p)
  }

  /** What a scan returned and the watchdog has not yet dealt with: distinct evaluations, all of them dead. */
  ghost predicate ListOk(s: State, list: seq<Seen>) {
    DistinctIds(list) && AllDead(s.evals, list)
  }

  ghost predicate DistinctIds(list: seq<Seen>) {
    forall i, j :: 0 <= i < j < |list| ==> list[i].evalId != list[j].evalId
  }

  ghost predicate AllDead(evals: map<Id, Eval>, list: seq<Seen>) {
    forall i :: 0 <= i < |list| ==> IsDead(evals, list[i])
  }

  predicate IsDead(evals: map<Id, Eval>, seen: Seen) {
    seen.evalId in evals && SeesDead(evals[seen.evalId], seen.attempts)
  }

  ghost predicate Enabled(c: Config, s: State, ev: Event) {
    match ev
    case Create(e) => e !in s.evals
    case Act(e, move) => (
      && e in s.evals && CanMove(s.evals[e], IsSending(s, e), move, c.maxRetries)
      && WatchdogAllows(s.watchdog, e, move)
      && (move.Defer? ==> HasOpenPredecessor(c, s, e)))
    case Scan(list) => s.watchdog == Watchdog([], None) && ListOk(s, list)
    case WatchdogDies => s.watchdog.sending.None?
  }

  function NextWatchdog(w: Watchdog, ev: Event): Watchdog {
    match ev
    case Create(_) => w
    case Scan(list) => Watchdog(list, None)
    case WatchdogDies => Watchdog([], None)
    case Act(e, move) =>
      match move
      case Requeue(_) => Watchdog(if w.list == [] then [] else w.list[1..], Some(e))
      case GiveUp(_) => Watchdog(if w.list == [] then [] else w.list[1..], None)
      case Send => Watchdog(w.list, None)
      case SendDies => Watchdog([], None)
      case _ => w
  }

  function NextEvals(evals: map<Id, Eval>, ev: Event): map<Id, Eval> {
    match ev
    case Create(e) => evals[e := NEW_EVAL]
    case Act(e, move) => if e in evals then evals[e := Moved(evals[e], move)] else evals
    case _ => evals
  }

  function Next(s: State, ev: Event): State {
    State(NextEvals(s.evals, ev), NextWatchdog(s.watchdog, ev))
  }

  ghost predicate StepAt(c: Config, states: seq<State>, events: seq<Event>, n: nat)
    requires n < |events| < |states|
  {
    Enabled(c, states[n], events[n]) && states[n + 1] == Next(states[n], events[n])
  }

  ghost predicate IsRun(c: Config, states: seq<State>, events: seq<Event>) {
    && |states| == |events| + 1 && Init(states[0])
    && forall n :: 0 <= n < |events| ==> StepAt(c, states, events, n)
  }

  /** The event's move of the evaluation, if it makes one. */
  function MoveBy(ev: Event, e: Id): Option<Move> {
    if ev.Act? && ev.e == e then Some(ev.move) else None
  }

  // ----- where an evaluation is -----

  datatype Place =
    | NotEnqueued
    | Queued(defers: nat)
    | InHand(defers: nat)
    | AtWork
    | Dead
    | Requeueing
    | Lost
    | Finished

  function EntriesAt(p: Place): multiset<nat> {
    if p.Queued? then multiset{p.defers} else multiset{}
  }

  function JobsAt(p: Place): multiset<Job> {
    if p.InHand? then multiset{Held(p.defers)} else if p.AtWork? then multiset{Working} else multiset{}
  }

  /** The status that goes with a place, and how often the evaluation can have been enqueued by then. */
  predicate RowOk(row: Row, enqueued: nat, p: Place, maxRetries: nat) {
    && (p.Finished? ==> row.status == Completed || row.status == Failed)
    && (p.AtWork? || p.Dead? <==> row.status == Running)
    && (p.NotEnqueued? ==> row == FRESH_ROW)
    && (!p.Finished? && !p.AtWork? && !p.Dead? ==> row.status == Pending)
    && (!p.Finished? ==> Retries(row) <= maxRetries)
    && enqueued <= MostEnqueued(Retries(row), p, maxRetries)
  }

  function MostEnqueued(retries: nat, p: Place, maxRetries: nat): nat {
    match p
    case NotEnqueued => 0
    case Requeueing => 61 * retries
    case Queued(d) => 61 * retries + (if d <= 60 then d + 1 else 0)
    case InHand(d) => 61 * retries + (if d <= 60 then d + 1 else 0)
    case Finished => 61 * maxRetries + 61
    case _ => 61 * retries + 61
  }

  /** At most one thing can run the evaluation. */
  predicate IsAt(v: Eval, sending: bool, p: Place, maxRetries: nat) {
    && v.unsent == p.NotEnqueued? && sending == p.Requeueing?
    && v.entries == EntriesAt(p) && v.jobs == JobsAt(p) && (p.Queued? || p.InHand? ==> p.defers <= 60)
    && RowOk(v.row, v.enqueued, p, maxRetries)
  }

  function NextPlace(move: Move): Place {
    match move
    case Trigger => Queued(0)
    case TriggerDies => Lost
    case Deliver(d) => InHand(d)
    case Defer(d) => Queued(d + 1)
    case Start(_, _) => AtWork
    case Fail => Finished
    case Complete => Finished
    case Die(job) => if job.Working? then Dead else Lost
    case Requeue(_) => Requeueing
    case GiveUp(_) => Finished
    case Send => Queued(0)
    case SendDies => Lost
  }

  /** Where an evaluation has to be to make a move. */
  predicate MovesFrom(p: Place, move: Move) {
    match move
    case Trigger => p == NotEnqueued
    case TriggerDies => p == NotEnqueued
    case Deliver(d) => p == Queued(d)
    case Defer(d) => p == InHand(d) && d < 60
    case Start(d, _) => p == InHand(d)
    case Fail => p == AtWork
    case Complete => p == AtWork
    case Die(job) => if job.Working? then p == AtWork else p == InHand(job.defers)
    case Requeue(_) => p == Dead
    case GiveUp(_) => p == Dead
    case Send => p == Requeueing
    case SendDies => p == Requeueing
  }

  lemma PlaceAllows(v: Eval, sending: bool, p: Place, move: Move, maxRetries: nat)
    requires IsAt(v, sending, p, maxRetries) && CanMove(v, sending, move, maxRetries)
    ensures MovesFrom(p, move)
  {}

  lemma MoveKeepsEntries(p: Place, move: Move)
    requires MovesFrom(p, move)
    ensures MovedEntries(EntriesAt(p), move) == EntriesAt(NextPlace(move))
  {
    var entries := MovedEntries(EntriesAt(p), move);
    match move
    case Trigger => assert entries == multiset{0};
    case Deliver(d) => assert entries == multiset{};
    case Defer(d) => assert entries == multiset{d + 1};
    case Send => assert entries == multiset{0};
    case _ =>
  }

  lemma MoveKeepsJobs(p: Place, move: Move)
    requires MovesFrom(p, move)
    ensures MovedJobs(JobsAt(p), move) == JobsAt(NextPlace(move))
  {
    var jobs := MovedJobs(JobsAt(p), move);
    match move
    case Deliver(d) => assert jobs == multiset{Held(d)};
    case Start(d, _) => assert jobs == multiset{Working};
    case Defer(_) => assert jobs == multiset{};
    case Fail => assert jobs == multiset{};
    case Complete => assert jobs == multiset{};
    case Die(_) => assert jobs == multiset{};
    case _ =>
  }

  lemma MoveKeepsRow(row: Row, enqueued: nat, p: Place, move: Move, maxRetries: nat)
    requires RowOk(row, enqueued, p, maxRetries) && MovesFrom(p, move) && (p.Queued? || p.InHand? ==> p.defers <= 60)
    requires move.Requeue? ==> move.attempts == Retries(row) && move.attempts < maxRetries
    ensures RowOk(MovedRow(row, move), enqueued + Enqueues(move), NextPlace(move), maxRetries)
  {
    RoomForEnqueue(row, p, move, maxRetries);
  }

  lemma RoomForEnqueue(row: Row, p: Place, move: Move, maxRetries: nat)
    requires MovesFrom(p, move) && (p.Queued? || p.InHand? ==> p.defers <= 60) && Retries(row) <= maxRetries
    requires move.Requeue? ==> move.attempts == Retries(row)
    ensures MostEnqueued(Retries(row), p, maxRetries) + Enqueues(move)
         <= MostEnqueued(Retries(MovedRow(row, move)), NextPlace(move), maxRetries)
  {
    var now, next := Retries(row), Retries(MovedRow(row, move));
    match move
    case Start(d, _) => assert next == now;
    case Fail =>
    case Complete =>
    case Requeue(_) => assert next == now + 1;
    case GiveUp(_) =>
    case _ => assert next == now;
  }

  lemma MoveKeepsFlags(unsent: bool, p: Place, move: Move)
    requires MovesFrom(p, move) && unsent == p.NotEnqueued?
    ensures (unsent && !move.Trigger? && !move.TriggerDies?) == NextPlace(move).NotEnqueued?
    ensures move.Requeue? == NextPlace(move).Requeueing?
    ensures (p.Queued? || p.InHand? ==> p.defers <= 60) ==>
              (NextPlace(move).Queued? || NextPlace(move).InHand? ==> NextPlace(move).defers <= 60)
  {}

  lemma MoveKeeps(v: Eval, sending: bool, p: Place, move: Move, maxRetries: nat)
    requires IsAt(v, sending, p, maxRetries) && CanMove(v, sending, move, maxRetries)
    ensures MovesFrom(p, move) && IsAt(Moved(v, move), move.Requeue?, NextPlace(move), maxRetries)
  {
    PlaceAllows(v, sending, p, move, maxRetries);
    MoveKeepsFlags(v.unsent, p, move);
    MoveKeepsEntries(p, move);
    MoveKeepsJobs(p, move);
    MoveKeepsRow(v.row, v.enqueued, p, move, maxRetries);
  }
}

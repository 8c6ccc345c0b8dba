/**
  * What holds in every run of the evaluation jobs: one runner, final statuses, a bound on enqueues and on all
  * events.
  */
module EvaluationTheorems {

  import opened Prelude
  import opened EvaluationRows
  import opened EvaluationProtocol

  // ----- the invariant -----

  ghost predicate EvalOk(v: Eval, sending: bool, maxRetries: nat) {
    exists p :: IsAt(v, sending, p, maxRetries)
  }

  ghost predicate EvalsOk(s: State, maxRetries: nat) {
    forall e :: e in s.evals ==> EvalOk(s.evals[e], IsSending(s, e), maxRetries)
  }

  ghost predicate Inv(c: Config, s: State) {
    EvalsOk(s, c.maxRetries) && ListOk(s, s.watchdog.list) && SendingOk(s.evals, s.watchdog)
  }

  lemma NewEvalOk(maxRetries: nat)
    ensures IsAt(NEW_EVAL, false, NotEnqueued, maxRetries)
  {}

  lemma NotSending(v: Eval, sending: bool, move: Move, maxRetries: nat)
    requires EvalOk(v, sending, maxRetries) && CanMove(v, sending, move, maxRetries)
    ensures sending ==> move.Send? || move.SendDies?
  {
    var p :| IsAt(v, sending, p, maxRetries);
    PlaceAllows(v, sending, p, move, maxRetries);
  }

  /** What an event does to one evaluation: nothing, or a move it can make. */
  ghost predicate EvalStep(v: Eval, sending: bool, v': Eval, sending': bool, move: Option<Move>, maxRetries: nat) {
    if move.None? then v' == v && sending' == sending
    else CanMove(v, sending, move.value, maxRetries) && v' == Moved(v, move.value) && sending' == move.value.Requeue?
  }

  predicate IsRecovery(ev: Event) {
    ev.Act? && (ev.move.Requeue? || ev.move.GiveUp?)
  }

  lemma EvalsStep(evals: map<Id, Eval>, ev: Event, e: Id)
    requires e in evals && (ev.Create? ==> ev.e != e)
    ensures e in NextEvals(evals, ev)
    ensures NextEvals(evals, ev)[e] == if MoveBy(ev, e).Some? then Moved(evals[e], ev.move) else evals[e]
  {}

  lemma SendingStep(w: Watchdog, ev: Event, e: Id)
    requires ev.Act? && (ev.move.Send? || ev.move.SendDies?) ==> w.sending == Some(ev.e)
    requires ev.Scan? || ev.WatchdogDies? || IsRecovery(ev) ==> w.sending == None
    requires MoveBy(ev, e).Some? && w.sending == Some(e) ==> ev.move.Send? || ev.move.SendDies?
    ensures NextWatchdog(w, ev).sending == Some(e)
      <==> if MoveBy(ev, e).Some? then ev.move.Requeue? else w.sending == Some(e)
  {}

  lemma EnabledMeans(c: Config, s: State, ev: Event)
    requires Enabled(c, s, ev)
    ensures ev.Act? ==> ev.e in s.evals && CanMove(s.evals[ev.e], IsSending(s, ev.e), ev.move, c.maxRetries)
    ensures ev.Act? && (ev.move.Send? || ev.move.SendDies?) ==> s.watchdog.sending == Some(ev.e)
    ensures ev.Scan? || ev.WatchdogDies? || IsRecovery(ev) ==> s.watchdog.sending == None
    ensures ev.Create? ==> ev.e !in s.evals
    ensures IsRecovery(ev) ==> s.watchdog.list != [] && s.watchdog.list[0].evalId == ev.e
  {}

  lemma EventIsEvalStep(c: Config, s: State, ev: Event, e: Id)
    requires Inv(c, s) && Enabled(c, s, ev) && e in s.evals
    ensures
      var s' := Next(s, ev);
      e in s'.evals && EvalStep(s.evals[e], IsSending(s, e), s'.evals[e], IsSending(s', e), MoveBy(ev, e), c.maxRetries)
  {
    hide Moved;
    EnabledMeans(c, s, ev);
    if MoveBy(ev, e).Some? {
      NotSending(s.evals[e], IsSending(s, e), ev.move, c.maxRetries);
    }
    EvalsStep(s.evals, ev, e);
    SendingStep(s.watchdog, ev, e);
  }

  lemma StepKeeps(v: Eval, sending: bool, v': Eval, sending': bool, move: Option<Move>, maxRetries: nat)
    requires EvalOk(v, sending, maxRetries) && EvalStep(v, sending, v', sending', move, maxRetries)
    ensures EvalOk(v', sending', maxRetries)
  {
    var p :| IsAt(v, sending, p, maxRetries);
    if move.Some? {
      MoveKeeps(v, sending, p, move.value, maxRetries);
    }
  }

  lemma EventKeepsEvals(c: Config, s: State, ev: Event)
    requires Inv(c, s) && Enabled(c, s, ev)
    ensures EvalsOk(Next(s, ev), c.maxRetries)
  {
    var s' := Next(s, ev);
    forall e | e in s'.evals ensures EvalOk(s'.evals[e], IsSending(s', e), c.maxRetries) {
      if e !in s.evals {
        NewEvalOk(c.maxRetries);
      } else {
        EventIsEvalStep(c, s, ev, e);
        StepKeeps(s.evals[e], IsSending(s, e), s'.evals[e], IsSending(s', e), MoveBy(ev, e), c.maxRetries);
      }
    }
  }

  /** A dead evaluation can be moved by the watchdog only. */
  lemma DeadStays(v: Eval, sending: bool, attempts: nat, move: Move, maxRetries: nat)
    requires EvalOk(v, sending, maxRetries) && SeesDead(v, attempts) && CanMove(v, sending, move, maxRetries)
    ensures move.Requeue? || move.GiveUp?
  {
    var p :| IsAt(v, sending, p, maxRetries);
    PlaceAllows(v, sending, p, move, maxRetries);
  }

  lemma SeenStays(c: Config, s: State, ev: Event, seen: Seen)
    requires Inv(c, s) && Enabled(c, s, ev) && IsDead(s.evals, seen)
    requires IsRecovery(ev) ==> ev.e != seen.evalId
    ensures IsDead(Next(s, ev).evals, seen)
  {
    var e := seen.evalId;
    EventIsEvalStep(c, s, ev, e);
    if MoveBy(ev, e).Some? {
      DeadStays(s.evals[e], IsSending(s, e), seen.attempts, ev.move, c.maxRetries);
    }
  }

  /** The watchdog drops the evaluation it deals with, or its whole list, or nothing. */
  lemma NextList(w: Watchdog, ev: Event) returns (k: nat)
    requires !ev.Scan? && (IsRecovery(ev) ==> w.list != [])
    ensures k <= |w.list| && NextWatchdog(w, ev).list == w.list[k..] && (IsRecovery(ev) ==> k > 0)
  {
    k := if IsRecovery(ev) then 1 else if NextWatchdog(w, ev).list == w.list then 0 else |w.list|;
  }

  lemma SeenStay(c: Config, s: State, ev: Event, k: nat)
    requires Inv(c, s) && Enabled(c, s, ev) && k <= |s.watchdog.list| && (IsRecovery(ev) ==> k > 0)
    ensures AllDead(Next(s, ev).evals, s.watchdog.list[k..])
  {
    var list := s.watchdog.list;
    EnabledMeans(c, s, ev);
    forall i | 0 <= i < |list[k..]| ensures IsDead(Next(s, ev).evals, list[k..][i]) {
      assert IsDead(s.evals, list[k + i]);
      SeenStays(c, s, ev, list[k + i]);
    }
  }

  lemma EventKeepsList(c: Config, s: State, ev: Event)
    requires Inv(c, s) && Enabled(c, s, ev)
    ensures ListOk(Next(s, ev), Next(s, ev).watchdog.list)
  {
    if !ev.Scan? {
      EnabledMeans(c, s, ev);
      var k := NextList(s.watchdog, ev);
      SeenStay(c, s, ev, k);
    }
  }

  lemma {:induction false} RunKeepsInv(c: Config, states: seq<State>, events: seq<Event>, n: nat)
    requires IsRun(c, states, events) && n <= |events|
    ensures Inv(c, states[n])
  {
    if n > 0 {
      RunKeepsInv(c, states, events, n - 1);
      assert StepAt(c, states, events, n - 1);
      EventKeepsInv(c, states[n - 1], events[n - 1]);
    }
  }

  /** What the watchdog is about to enqueue is an evaluation that exists. */
  predicate SendingOk(evals: map<Id, Eval>, w: Watchdog) {
    w.sending.Some? ==> w.sending.value in evals
  }

  lemma SendingKnown(evals: map<Id, Eval>, w: Watchdog, ev: Event)
    requires SendingOk(evals, w) && (ev.Act? ==> ev.e in evals)
    ensures SendingOk(NextEvals(evals, ev), NextWatchdog(w, ev))
  {}

  lemma EventKeepsSending(c: Config, s: State, ev: Event)
    requires Inv(c, s) && Enabled(c, s, ev)
    ensures SendingOk(Next(s, ev).evals, Next(s, ev).watchdog)
  {
    EnabledMeans(c, s, ev);
    SendingKnown(s.evals, s.watchdog, ev);
  }

  lemma EventKeepsInv(c: Config, s: State, ev: Event)
    requires Inv(c, s) && Enabled(c, s, ev)
    ensures Inv(c, Next(s, ev))
  {
    EventKeepsEvals(c, s, ev);
    EventKeepsList(c, s, ev);
    EventKeepsSending(c, s, ev);
  }

  ghost predicate PlacedAt(c: Config, s: State, e: Id, p: Place) {
    e in s.evals && IsAt(s.evals[e], IsSending(s, e), p, c.maxRetries)
  }

  /** Where the evaluation is after n events of a run. */
  lemma PlaceInRun(c: Config, states: seq<State>, events: seq<Event>, n: nat, e: Id) returns (p: Place)
    requires IsRun(c, states, events) && n <= |events| && e in states[n].evals
    ensures PlacedAt(c, states[n], e, p)
  {
    RunKeepsInv(c, states, events, n);
    p :| IsAt(states[n].evals[e], IsSending(states[n], e), p, c.maxRetries);
  }

  lemma StepInRun(c: Config, states: seq<State>, events: seq<Event>, n: nat, e: Id)
    requires IsRun(c, states, events) && n < |events| && e in states[n].evals
    ensures e in states[n + 1].evals
    ensures EvalStep(states[n].evals[e], IsSending(states[n], e), states[n + 1].evals[e], IsSending(states[n + 1], e),
                     MoveBy(events[n], e), c.maxRetries)
  {
    RunKeepsInv(c, states, events, n);
    assert StepAt(c, states, events, n);
    EventIsEvalStep(c, states[n], events[n], e);
  }

  // ----- safety -----

  /** In every run an evaluation is enqueued at most 61 times for its trigger and for each retry. */
  lemma EnqueueBound(c: Config, states: seq<State>, events: seq<Event>, n: nat, e: Id)
    requires IsRun(c, states, events) && n <= |events| && e in states[n].evals
    ensures states[n].evals[e].enqueued <= (1 + c.maxRetries) * (MAX_PREDECESSOR_DEFERS + 1)
  {
    var p := PlaceInRun(c, states, events, n, e);
  }

  /** At most one queue entry, live job or pending enqueue exists for an evaluation, and none once it is terminal. */
  lemma OneRunnerAtMost(c: Config, states: seq<State>, events: seq<Event>, n: nat, e: Id)
    requires IsRun(c, states, events) && n <= |events| && e in states[n].evals
    ensures Runners(states[n], e) <= 1
    ensures IsTerminal(states[n].evals[e].row.status) ==> Runners(states[n], e) == 0
  {
    var p := PlaceInRun(c, states, events, n, e);
  }

  function Runners(s: State, e: Id): nat
    requires e in s.evals
  {
    |s.evals[e].entries| + |s.evals[e].jobs| + (if s.evals[e].unsent then 1 else 0) + if IsSending(s, e) then 1 else 0
  }

  /**
    * Nothing that could run the evaluation is left, and the watchdog, which looks at running rows only, will not
    * see it.
    */
  ghost predicate IsOrphan(s: State, e: Id) {
    e in s.evals && s.evals[e].row.status != Running && Runners(s, e) == 0
  }

  lemma OrphanPlace(c: Config, s: State, e: Id, p: Place)
    requires PlacedAt(c, s, e, p)
    ensures IsOrphan(s, e) <==> p.Lost? || p.Finished?
    ensures IsOpen(s, e) <==> !p.Finished?
  {}

  lemma OrphanStands(v: Eval, sending: bool, v': Eval, sending': bool, move: Option<Move>, p: Place, maxRetries: nat)
    requires IsAt(v, sending, p, maxRetries) && (p.Lost? || p.Finished?)
      && EvalStep(v, sending, v', sending', move, maxRetries)
    ensures v' == v && sending' == sending
  {
    if move.Some? {
      PlaceAllows(v, sending, p, move.value, maxRetries);
    }
  }

  /** Whether terminal or left pending for good: an orphan never changes again. */
  lemma {:induction false} OrphansStay(c: Config, states: seq<State>, events: seq<Event>, m: nat, n: nat, e: Id)
    requires IsRun(c, states, events) && m <= n <= |events| && IsOrphan(states[m], e)
    ensures IsOrphan(states[n], e) && states[n].evals[e] == states[m].evals[e]
  {
    if m < n {
      OrphansStay(c, states, events, m, n - 1, e);
      OrphanStaysOnce(c, states, events, n - 1, e);
    }
  }

  lemma OrphanStaysOnce(c: Config, states: seq<State>, events: seq<Event>, n: nat, e: Id)
    requires IsRun(c, states, events) && n < |events| && IsOrphan(states[n], e)
    ensures IsOrphan(states[n + 1], e) && states[n + 1].evals[e] == states[n].evals[e]
  {
    var p := PlaceInRun(c, states, events, n, e);
    OrphanPlace(c, states[n], e, p);
    StepInRun(c, states, events, n, e);
    OrphanStands(states[n].evals[e], IsSending(states[n], e), states[n + 1].evals[e], IsSending(states[n + 1], e),
                 MoveBy(events[n], e), p, c.maxRetries);
  }

  /** A terminal status is never left. */
  lemma TerminalStays(c: Config, states: seq<State>, events: seq<Event>, m: nat, n: nat, e: Id)
    requires IsRun(c, states, events) && m <= n <= |events|
    requires e in states[m].evals && IsTerminal(states[m].evals[e].row.status)
    ensures e in states[n].evals && states[n].evals[e] == states[m].evals[e]
  {
    OneRunnerAtMost(c, states, events, m, e);
    OrphansStay(c, states, events, m, n, e);
  }

  /** A runner that dies while the row is pending. */
  predicate LosesPending(move: Option<Move>) {
    move.Some? && (move.value.TriggerDies? || move.value.SendDies? || (move.value.Die? && move.value.job.Held?))
  }

  /** The place after a step that may have been a move. */
  function PlaceAfter(p: Place, move: Option<Move>): Place {
    if move.None? then p else NextPlace(move.value)
  }

  lemma PlaceInNextState(c: Config, states: seq<State>, events: seq<Event>, n: nat, e: Id, p: Place)
    requires IsRun(c, states, events) && n < |events| && PlacedAt(c, states[n], e, p)
    ensures PlacedAt(c, states[n + 1], e, PlaceAfter(p, MoveBy(events[n], e)))
    ensures MoveBy(events[n], e).Some? ==> MovesFrom(p, MoveBy(events[n], e).value)
  {
    StepInRun(c, states, events, n, e);
    if MoveBy(events[n], e).Some? {
      MoveKeeps(states[n].evals[e], IsSending(states[n], e), p, MoveBy(events[n], e).value, c.maxRetries);
    }
  }

  /** A runner's death while the row is pending, and nothing else, leads to where an evaluation is lost. */
  lemma LostBy(p: Place, move: Option<Move>)
    requires move.Some? ==> MovesFrom(p, move.value)
    requires !p.Lost? && !p.Finished?
    ensures PlaceAfter(p, move).Lost? <==> LosesPending(move)
  {}

  /** An evaluation is left pending for ever exactly by the death of its only runner before the row is running. */
  lemma LeftPendingExactlyBy(c: Config, states: seq<State>, events: seq<Event>, n: nat, e: Id)
    requires IsRun(c, states, events) && n < |events| && e in states[n].evals && !IsOrphan(states[n], e)
    ensures IsOrphan(states[n + 1], e) && IsOpen(states[n + 1], e) <==> LosesPending(MoveBy(events[n], e))
  {
    var p := PlaceInRun(c, states, events, n, e);
    OrphanPlace(c, states[n], e, p);
    PlaceInNextState(c, states, events, n, e, p);
    var q := PlaceAfter(p, MoveBy(events[n], e));
    OrphanPlace(c, states[n + 1], e, q);
    LostBy(p, MoveBy(events[n], e));
  }

  // ----- every evaluation settles -----

  /** The retries an evaluation has left, then how far its job is from its end. */
  datatype Distance = Distance(retries: int, stage: int)

  predicate Less(a: Distance, b: Distance) {
    a.retries < b.retries || (a.retries == b.retries && a.stage < b.stage)
  }

  function Stage(p: Place): nat {
    match p
    case NotEnqueued => 125
    case Requeueing => 125
    case Queued(d) => if d <= 60 then 124 - 2 * d else 0
    case InHand(d) => if d <= 60 then 123 - 2 * d else 0
    case AtWork => 2
    case Dead => 1
    case Lost => 0
    case Finished => 0
  }

  function DistanceAt(row: Row, p: Place, maxRetries: nat): Distance {
    Distance(if p.Finished? || p.Lost? then 0 else maxRetries - Retries(row), Stage(p))
  }

  /** Each move brings the evaluation lexicographically nearer to its end. */
  lemma MovesGetNearer(row: Row, p: Place, move: Move, maxRetries: nat)
    requires MovesFrom(p, move) && (p.Queued? || p.InHand? ==> p.defers <= 60) && Retries(row) <= maxRetries
    requires move.Requeue? ==> move.attempts == Retries(row) && move.attempts < maxRetries
    ensures Less(DistanceAt(MovedRow(row, move), NextPlace(move), maxRetries), DistanceAt(row, p, maxRetries))
    ensures DistanceAt(MovedRow(row, move), NextPlace(move), maxRetries).retries >= 0
  {}

  /** The distance as one number: at most 126 events to a round. */
  function Left(d: Distance): int {
    126 * d.retries + d.stage
  }

  /** How many of the events from m to n were moves of the evaluation. */
  function MovesOf(events: seq<Event>, e: Id, m: nat, n: nat): nat
    requires m <= n <= |events|
  {
    if m == n then 0 else MovesOf(events, e, m, n - 1) + OwnMoves(events, e, n - 1)
  }

  function OwnMoves(events: seq<Event>, e: Id, n: nat): nat
    requires n < |events|
  {
    if MoveBy(events[n], e).Some? then 1 else 0
  }

  /** What a step does to the row of an evaluation at a place. */
  predicate RowStep(row: Row, row': Row, p: Place, move: Option<Move>, maxRetries: nat) {
    if move.None? then row' == row
    else
      && row' == MovedRow(row, move.value) && MovesFrom(p, move.value)
      && (p.Queued? || p.InHand? ==> p.defers <= 60) && Retries(row) <= maxRetries
      && (move.value.Requeue? ==> move.value.attempts == Retries(row) && move.value.attempts < maxRetries)
  }

  lemma StepIsRowStep(v: Eval, sending: bool, v': Eval, sending': bool, move: Option<Move>, p: Place, maxRetries: nat)
    requires IsAt(v, sending, p, maxRetries) && EvalStep(v, sending, v', sending', move, maxRetries)
    ensures RowStep(v.row, v'.row, p, move, maxRetries)
  {
    if move.Some? {
      PlaceAllows(v, sending, p, move.value, maxRetries);
    }
  }

  lemma RowStepShrinks(row: Row, row': Row, p: Place, move: Option<Move>, maxRetries: nat)
    requires RowStep(row, row', p, move, maxRetries)
    ensures Left(DistanceAt(row', PlaceAfter(p, move), maxRetries)) + (if move.Some? then 1 else 0)
      <= Left(DistanceAt(row, p, maxRetries))
  {
    if move.Some? {
      MovesGetNearer(row, p, move.value, maxRetries);
    }
  }

  lemma StepInRunShrinks(c: Config, states: seq<State>, events: seq<Event>, n: nat, e: Id, p: Place)
    requires IsRun(c, states, events) && n < |events| && PlacedAt(c, states[n], e, p)
    ensures PlacedAt(c, states[n + 1], e, PlaceAfter(p, MoveBy(events[n], e)))
    ensures RowStep(states[n].evals[e].row, states[n + 1].evals[e].row, p, MoveBy(events[n], e), c.maxRetries)
  {
    PlaceInNextState(c, states, events, n, e, p);
    StepInRun(c, states, events, n, e);
    StepIsRowStep(states[n].evals[e], IsSending(states[n], e), states[n + 1].evals[e], IsSending(states[n + 1], e),
                  MoveBy(events[n], e), p, c.maxRetries);
  }

  ghost predicate IsWithin(c: Config, s: State, e: Id, k: int) {
    exists p :: PlacedAt(c, s, e, p) && Left(DistanceAt(s.evals[e].row, p, c.maxRetries)) <= k
  }

  lemma NearerInRun(c: Config, states: seq<State>, events: seq<Event>, n: nat, e: Id, k: int)
    requires IsRun(c, states, events) && n < |events| && IsWithin(c, states[n], e, k)
    ensures IsWithin(c, states[n + 1], e, k - OwnMoves(events, e, n))
  {
    var p :| PlacedAt(c, states[n], e, p) && Left(DistanceAt(states[n].evals[e].row, p, c.maxRetries)) <= k;
    var move := MoveBy(events[n], e);
    StepInRunShrinks(c, states, events, n, e, p);
    RowStepShrinks(states[n].evals[e].row, states[n + 1].evals[e].row, p, move, c.maxRetries);
    assert PlacedAt(c, states[n + 1], e, PlaceAfter(p, move));
  }

  lemma {:induction false} DistanceShrinks(c: Config, states: seq<State>, events: seq<Event>, e: Id, m: nat, n: nat,
      k: int)
    requires IsRun(c, states, events) && m <= n <= |events| && IsWithin(c, states[m], e, k)
    ensures IsWithin(c, states[n], e, k - MovesOf(events, e, m, n))
  {
    if m < n {
      DistanceShrinks(c, states, events, e, m, n - 1, k);
      NearerInRun(c, states, events, n - 1, e, k - MovesOf(events, e, m, n - 1));
    }
  }

  lemma DistanceIsBounded(v: Eval, sending: bool, p: Place, maxRetries: nat)
    requires IsAt(v, sending, p, maxRetries)
    ensures 0 <= Left(DistanceAt(v.row, p, maxRetries)) <= 126 * (maxRetries + 1)
  {}

  lemma WithinBound(c: Config, states: seq<State>, events: seq<Event>, n: nat, e: Id)
    requires IsRun(c, states, events) && n <= |events| && e in states[n].evals
    ensures IsWithin(c, states[n], e, 126 * (c.maxRetries + 1))
  {
    var p := PlaceInRun(c, states, events, n, e);
    DistanceIsBounded(states[n].evals[e], IsSending(states[n], e), p, c.maxRetries);
  }

  lemma WithinIsNotNegative(c: Config, s: State, e: Id, k: int)
    requires IsWithin(c, s, e, k)
    ensures k >= 0
  {
    var p :| PlacedAt(c, s, e, p) && Left(DistanceAt(s.evals[e].row, p, c.maxRetries)) <= k;
    DistanceIsBounded(s.evals[e], IsSending(s, e), p, c.maxRetries);
  }

  /** However a run goes on, an evaluation makes a bounded number of moves. */
  lemma MovesAreBounded(c: Config, states: seq<State>, events: seq<Event>, e: Id, m: nat, n: nat)
    requires IsRun(c, states, events) && m <= n <= |events| && e in states[m].evals
    ensures MovesOf(events, e, m, n) <= 126 * (c.maxRetries + 1)
  {
    var k := 126 * (c.maxRetries + 1);
    WithinBound(c, states, events, m, e);
    DistanceShrinks(c, states, events, e, m, n, k);
    WithinIsNotNegative(c, states[n], e, k - MovesOf(events, e, m, n));
  }

  // ----- the bound on enqueues is reached -----

  ghost predicate IsReachable(c: Config, s: State) {
    exists states, events :: IsRun(c, states, events) && states[|events|] == s
  }

  lemma ReachNext(c: Config, s: State, ev: Event)
    requires IsReachable(c, s) && Enabled(c, s, ev)
    ensures IsReachable(c, Next(s, ev))
  {
    var states, events :| IsRun(c, states, events) && states[|events|] == s;
    var states', events' := states + [Next(s, ev)], events + [ev];
    forall n | 0 <= n < |events'| ensures StepAt(c, states', events', n) {
      assert n < |events| ==> StepAt(c, states, events, n);
    }
    assert IsRun(c, states', events') && states'[|events'|] == Next(s, ev);
  }

  /** Evaluation 1 waits for evaluation 0, which its trigger never enqueues. */
  function Waiting(maxRetries: nat): Config {
    Config(maxRetries, e => if e == 1 then {0} else {})
  }

  function TwoEvals(v: Eval): State {
    State(map[0 := NEW_EVAL, 1 := v], Watchdog([], None))
  }

  predicate IsJobMove(move: Move) {
    !move.Requeue? && !move.GiveUp? && !move.Send? && !move.SendDies?
  }

  lemma ReachMove(maxRetries: nat, v: Eval, move: Move, v': Eval)
    requires IsReachable(Waiting(maxRetries), TwoEvals(v)) && IsJobMove(move) && CanMove(v, false, move, maxRetries)
    requires v' == Moved(v, move)
    ensures IsReachable(Waiting(maxRetries), TwoEvals(v'))
  {
    var c, s, ev := Waiting(maxRetries), TwoEvals(v), Act(1, move);
    assert 0 in c.predecessors(1) && IsOpen(s, 0);
    ReachNext(c, s, ev);
    assert Next(s, ev).evals == map[0 := NEW_EVAL, 1 := v'];
  }

  function RetriedRow(r: nat): Row {
    Row(Pending, None, if r == 0 then None else Some(r))
  }

  function RunningRow(r: nat): Row {
    Row(Running, Some(0), if r == 0 then None else Some(r))
  }

  /** In the queue for the (d + 1)st time since its r-th retry. */
  function QueuedEval(r: nat, d: nat): Eval {
    Eval(RetriedRow(r), false, multiset{d}, multiset{}, 61 * r + d + 1)
  }

  function HeldEval(r: nat, d: nat): Eval {
    Eval(RetriedRow(r), false, multiset{}, multiset{Held(d)}, 61 * r + d + 1)
  }

  function DeadEval(r: nat): Eval {
    Eval(RunningRow(r), false, multiset{}, multiset{}, 61 * r + 61)
  }

  lemma ReachDeferred(maxRetries: nat, r: nat, d: nat)
    requires IsReachable(Waiting(maxRetries), TwoEvals(QueuedEval(r, d))) && d < 60
    ensures IsReachable(Waiting(maxRetries), TwoEvals(QueuedEval(r, d + 1)))
  {
    ReachMove(maxRetries, QueuedEval(r, d), Deliver(d), HeldEval(r, d));
    ReachMove(maxRetries, HeldEval(r, d), Defer(d), QueuedEval(r, d + 1));
  }

  lemma ReachDead(maxRetries: nat, r: nat)
    requires IsReachable(Waiting(maxRetries), TwoEvals(QueuedEval(r, 60)))
    ensures IsReachable(Waiting(maxRetries), TwoEvals(DeadEval(r)))
  {
    var working := Eval(RunningRow(r), false, multiset{}, multiset{Working}, 61 * r + 61);
    ReachMove(maxRetries, QueuedEval(r, 60), Deliver(60), HeldEval(r, 60));
    ReachMove(maxRetries, HeldEval(r, 60), Start(60, 0), working);
    ReachMove(maxRetries, working, Die(Working), DeadEval(r));
  }

  /** Put back by the watchdog, and not yet enqueued. */
  function BackEval(r: nat): Eval {
    Eval(RetriedRow(r + 1), false, multiset{}, multiset{}, 61 * r + 61)
  }

  function Sending(v: Eval): State {
    State(map[0 := NEW_EVAL, 1 := v], Watchdog([], Some(1)))
  }

  lemma ReachRequeued(maxRetries: nat, r: nat)
    requires IsReachable(Waiting(maxRetries), TwoEvals(DeadEval(r))) && r < maxRetries
    ensures IsReachable(Waiting(maxRetries), Sending(BackEval(r)))
  {
    var c, seen := Waiting(maxRetries), Seen(1, r);
    var scanned := State(TwoEvals(DeadEval(r)).evals, Watchdog([seen], None));
    assert SeesDead(DeadEval(r), r) && ListOk(TwoEvals(DeadEval(r)), [seen]);
    ReachNext(c, TwoEvals(DeadEval(r)), Scan([seen]));
    assert Next(TwoEvals(DeadEval(r)), Scan([seen])) == scanned;
    ReachNext(c, scanned, Act(1, Requeue(r)));
    assert Next(scanned, Act(1, Requeue(r))) == Sending(BackEval(r));
  }

  lemma ReachRetried(maxRetries: nat, r: nat)
    requires IsReachable(Waiting(maxRetries), TwoEvals(DeadEval(r))) && r < maxRetries
    ensures IsReachable(Waiting(maxRetries), TwoEvals(QueuedEval(r + 1, 0)))
  {
    ReachRequeued(maxRetries, r);
    var back := BackEval(r);
    var requeued := Sending(back);
    ReachNext(Waiting(maxRetries), requeued, Act(1, Send));
    assert Moved(back, Send).entries == multiset{0};
    assert Next(requeued, Act(1, Send)).evals == map[0 := NEW_EVAL, 1 := QueuedEval(r + 1, 0)];
    assert Next(requeued, Act(1, Send)) == TwoEvals(QueuedEval(r + 1, 0));
  }

  lemma {:induction false} ReachQueued(maxRetries: nat, r: nat, d: nat)
    requires r <= maxRetries && d <= 60
    ensures IsReachable(Waiting(maxRetries), TwoEvals(QueuedEval(r, d)))
    decreases r, d
  {
    if d > 0 {
      ReachQueued(maxRetries, r, d - 1);
      ReachDeferred(maxRetries, r, d - 1);
    } else if r > 0 {
      ReachQueued(maxRetries, r - 1, 60);
      ReachDead(maxRetries, r - 1);
      ReachRetried(maxRetries, r - 1);
    } else {
      ReachBegun(maxRetries);
      ReachMove(maxRetries, NEW_EVAL, Trigger, QueuedEval(0, 0));
    }
  }

  lemma ReachBegun(maxRetries: nat)
    ensures IsReachable(Waiting(maxRetries), TwoEvals(NEW_EVAL))
  {
    var c, s := Waiting(maxRetries), State(map[], Watchdog([], None));
    var states, events: seq<Event> := [s], [];
    assert IsRun(c, states, events) && states[|events|] == s;
    ReachNext(c, s, Create(0));
    ReachNext(c, Next(s, Create(0)), Create(1));
    assert Next(Next(s, Create(0)), Create(1)) == TwoEvals(NEW_EVAL);
  }

  /** For every retry limit some run enqueues an evaluation exactly as often as the bound allows. */
  lemma EnqueueBoundIsReached(maxRetries: nat)
    ensures exists s :: IsReachable(Waiting(maxRetries), s) && 1 in s.evals
              && s.evals[1].enqueued == (1 + maxRetries) * (MAX_PREDECESSOR_DEFERS + 1)
  {
    ReachQueued(maxRetries, maxRetries, 60);
    assert 1 in TwoEvals(QueuedEval(maxRetries, 60)).evals;
  }
}

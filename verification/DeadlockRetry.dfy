/** A request's one write: retried on deadlock, committed by the session middleware for 2xx responses only. */
module DeadlockRetry {

  // ----- the database and a session on it -----

  class Database<S> {
    /** What has been committed. */
    var durable: S

    constructor (initial: S)
      ensures durable == initial
    {
      durable := initial;
    }
  }

  /**
    * A transaction begins with the first statement; an error reported by the server leaves it fit only for
    * rolling back.
    */
  datatype Transaction<S> = Idle | Open(view: S) | Aborted

  class Session<S> {
    const db: Database<S>
    var tx: Transaction<S>

    constructor (db: Database<S>)
      ensures this.db == db && tx == Idle
    {
      this.db := db;
      tx := Idle;
    }

    /** The state a statement of this session sees. */
    function View(): S
      requires !tx.Aborted?
      reads this, db
    {
      if tx.Open? then tx.view else db.durable
    }

    /** Nothing written yet: no transaction, or one that has only read. */
    ghost predicate IsClean()
      reads this, db
    {
      !tx.Aborted? && View() == db.durable
    }

    method Execute(write: S -> S)
      requires !tx.Aborted?
      modifies this
      ensures tx == Open(write(old(View())))
    {
      tx := Open(write(View()));
    }

    /** The server answers COMMIT of an aborted transaction with ROLLBACK; a commit that raises has stored nothing. */
    method Commit(raises: bool)
      modifies this, db
      ensures tx == Idle
      ensures db.durable == old(if raises || tx.Aborted? then db.durable else View())
    {
      if !raises && tx.Open? {
        db.durable := tx.view;
      }
      tx := Idle;
    }

    method Rollback()
      modifies this
      ensures tx == Idle
    {
      tx := Idle;
    }
  }

  // ----- one attempt -----

  datatype Failure = Deadlock | OtherDatabaseError | OtherException

  /** How an attempt goes: every statement runs, or the one after `after` of them fails. */
  datatype Outcome = Completes | Fails(after: nat, failure: Failure)

  predicate IsDeadlock(o: Outcome) {
    o.Fails? && o.failure.Deadlock?
  }

  function Applied<S>(writes: seq<S -> S>, n: nat, s: S): S
    requires n <= |writes|
  {
    if n == 0 then s else writes[n - 1](Applied(writes, n - 1, s))
  }

  /** The operation's effect when nothing fails. */
  function Effect<S>(writes: seq<S -> S>, s: S): S {
    Applied(writes, |writes|, s)
  }

  /** How many statements of the operation ran. */
  function Ran<S>(writes: seq<S -> S>, o: Outcome): nat
    ensures Ran(writes, o) <= |writes|
  {
    if o.Fails? && o.after < |writes| then o.after else |writes|
  }

  datatype Result = Returned | Raised(failure: Failure) | Exhausted

  function ResultOf(o: Outcome): Result {
    if o.Completes? then Returned else Raised(o.failure)
  }

  method Operation<S>(session: Session<S>, writes: seq<S -> S>, outcome: Outcome) returns (result: Result)
    requires session.IsClean()
    modifies session
    ensures result == ResultOf(outcome)
    ensures result in {Raised(Deadlock), Raised(OtherDatabaseError)} <==> session.tx.Aborted?
    ensures !session.tx.Aborted? ==> session.View() == Applied(writes, Ran(writes, outcome), session.db.durable)
  {
    for n := 0 to Ran(writes, outcome)
      invariant !session.tx.Aborted? && session.View() == Applied(writes, n, session.db.durable)
    {
      session.Execute(writes[n]);
    }
    if outcome.Fails? && !outcome.failure.OtherException? {
      session.tx := Aborted;
    }
    return ResultOf(outcome);
  }

  // ----- the retry loop -----

  datatype Settings = Settings(maxRetries: nat, baseBackoffMs: nat, maxBackoffMs: nat)

  function Power2(n: nat): nat {
    if n == 0 then 1 else 2 * Power2(n - 1)
  }

  function CappedMs(attempt: nat, settings: Settings): nat {
    var grown := settings.baseBackoffMs * Power2(attempt);
    if grown <= settings.maxBackoffMs then grown else settings.maxBackoffMs
  }

  /**
    * What the outside world decides: how each attempt goes, what other transactions commit during the
    * wait after it, and the milliseconds drawn for that wait, uniformly from zero to the cap.
    */
  datatype World<!S> = World(outcome: nat -> Outcome, others: nat -> S -> S, uniform: nat -> real) {
    ghost predicate Valid(settings: Settings) {
      forall k: nat :: 0.0 <= uniform(k) <= CappedMs(k, settings) as real
    }
  }

  /** The number of the attempt that is not retried, looking from attempt k on. */
  function LastAttempt(outcome: nat -> Outcome, maxRetries: nat, k: nat): (last: nat)
    requires k <= maxRetries
    ensures k <= last <= maxRetries
    ensures forall i :: k <= i < last ==> IsDeadlock(outcome(i))
    ensures last < maxRetries ==> !IsDeadlock(outcome(last))
    decreases maxRetries - k
  {
    if k < maxRetries && IsDeadlock(outcome(k)) then LastAttempt(outcome, maxRetries, k + 1) else k
  }

  /** The committed state after the first n waits, had this request written nothing. */
  function Interfered<S>(others: nat -> S -> S, n: nat, s: S): S {
    if n == 0 then s else others(n - 1)(Interfered(others, n - 1, s))
  }

  function TotalBackoff<S>(world: World<S>, n: nat): real {
    if n == 0 then 0.0 else TotalBackoff(world, n - 1) + world.uniform(n - 1) / 1000.0
  }

  /** Earlier attempts leave nothing behind: the last one runs, alone, on what the others have committed. */
  method RunWithDeadlockRetry<S>(session: Session<S>, writes: seq<S -> S>, world: World<S>, settings: Settings)
    returns (result: Result, attempts: nat, rollbacks: nat, slept: real)
    requires session.IsClean()
    modifies session, session.db
    ensures
      var last := LastAttempt(world.outcome, settings.maxRetries, 0);
      && result == ResultOf(world.outcome(last)) && result != Exhausted
      && attempts == last + 1 <= settings.maxRetries + 1 && rollbacks == last
      && slept == TotalBackoff(world, last)
      && session.db.durable == Interfered(world.others, last, old(session.db.durable))
      && (result in {Raised(Deadlock), Raised(OtherDatabaseError)} <==> session.tx.Aborted?)
      && (!session.tx.Aborted? ==>
            session.View() == Applied(writes, Ran(writes, world.outcome(last)), session.db.durable))
  {
    result, attempts, rollbacks, slept := Exhausted, 0, 0, 0.0;
    for attempt := 0 to settings.maxRetries + 1
      invariant session.IsClean() && attempts == rollbacks == attempt
      invariant LastAttempt(world.outcome, settings.maxRetries, 0) >= attempt
      invariant session.db.durable == Interfered(world.others, attempt, old(session.db.durable))
      invariant slept == TotalBackoff(world, attempt)
    {
      attempts := attempts + 1;
      result := Operation(session, writes, world.outcome(attempt));
      if result != Raised(Deadlock) || attempt == settings.maxRetries {
        return;
      }
      session.Rollback();
      rollbacks := rollbacks + 1;
      slept := slept + world.uniform(attempt) / 1000.0;
      session.db.durable := world.others(attempt)(session.db.durable);
    }
    assert false;
  }

  // ----- the backoff bound -----

  /** The sum of n waits is at most n times the cap, and at most the geometric sum of the uncapped waits. */
  lemma BackoffIsBounded<S>(world: World<S>, settings: Settings, n: nat)
    requires world.Valid(settings)
    ensures 0.0 <= TotalBackoff(world, n) <= (n * settings.maxBackoffMs) as real / 1000.0
    ensures TotalBackoff(world, n) <= (settings.baseBackoffMs * (Power2(n) - 1)) as real / 1000.0
  {
    BackoffAtMostSum(world, settings, n);
    SumAtMostCap(settings, n);
    SumAtMostGeometric(settings, n);
    InSeconds(SumMs(settings, n), n * settings.maxBackoffMs);
    InSeconds(SumMs(settings, n), settings.baseBackoffMs * (Power2(n) - 1));
  }

  lemma InSeconds(a: int, b: int)
    requires a <= b
    ensures a as real / 1000.0 <= b as real / 1000.0
  {}

  /** The longest the first n waits can be, in milliseconds. */
  function SumMs(settings: Settings, n: nat): nat {
    if n == 0 then 0 else SumMs(settings, n - 1) + CappedMs(n - 1, settings)
  }

  lemma {:induction false} BackoffAtMostSum<S>(world: World<S>, settings: Settings, n: nat)
    requires world.Valid(settings)
    ensures 0.0 <= TotalBackoff(world, n) <= SumMs(settings, n) as real / 1000.0
  {
    if n > 0 {
      BackoffAtMostSum(world, settings, n - 1);
      assert 0.0 <= world.uniform(n - 1) <= CappedMs(n - 1, settings) as real;
    }
  }

  lemma {:induction false} SumAtMostCap(settings: Settings, n: nat)
    ensures SumMs(settings, n) <= n * settings.maxBackoffMs
  {
    if n > 0 {
      SumAtMostCap(settings, n - 1);
      assert n * settings.maxBackoffMs == (n - 1) * settings.maxBackoffMs + settings.maxBackoffMs;
    }
  }

  /** The geometric sum is met while the cap is not reached. */
  lemma {:induction false} SumAtMostGeometric(settings: Settings, n: nat)
    ensures SumMs(settings, n) <= settings.baseBackoffMs * (Power2(n) - 1)
    ensures (forall k: nat :: k < n ==> CappedMs(k, settings) == settings.baseBackoffMs * Power2(k))
              ==> SumMs(settings, n) == settings.baseBackoffMs * (Power2(n) - 1)
  {
    if n > 0 {
      SumAtMostGeometric(settings, n - 1);
      Geometric(settings.baseBackoffMs, Power2(n - 1));
    }
  }

  lemma Geometric(base: nat, power: nat)
    ensures base * (2 * power - 1) == base * (power - 1) + base * power
  {}

  // ----- the middleware -----

  /**
    * What the application makes of the operation's result: a response, perhaps by an exception handler, or an
    * exception.
    */
  datatype Reply = Responds(status: int) | Propagates

  predicate IsOk(reply: Reply) {
    reply.Responds? && 200 <= reply.status < 300
  }

  /** The committed state after the request, from the committed state `before` of its last attempt. */
  function Stored<S>(writes: seq<S -> S>, outcome: Outcome, reply: Reply, commitRaises: bool, before: S): S {
    if !IsOk(reply) || commitRaises || (outcome.Fails? && !outcome.failure.OtherException?) then before
    else Applied(writes, Ran(writes, outcome), before)
  }

  class SessionMiddleware<S> {
    const db: Database<S>
    const settings: Settings

    constructor (db: Database<S>, settings: Settings)
      ensures this.db == db && this.settings == settings
    {
      this.db := db;
      this.settings := settings;
    }

    method Call(writes: seq<S -> S>, world: World<S>, replies: Result -> Reply, commitRaises: bool)
      returns (reply: Reply)
      modifies db
      ensures
        var last := LastAttempt(world.outcome, settings.maxRetries, 0);
        && reply == replies(ResultOf(world.outcome(last)))
        && db.durable == Stored(writes, world.outcome(last), reply, commitRaises,
          Interfered(world.others, last, old(db.durable)))
    {
      var session := new Session<S>(db);
      var result, _, _, _ := RunWithDeadlockRetry(session, writes, world, settings);
      reply := replies(result);
      if reply.Responds? {
        if 200 <= reply.status < 300 {
          session.Commit(commitRaises);
        } else {
          session.Rollback();
        }
      } else {
        session.Rollback();
      }
    }
  }

  // ----- all or nothing -----

  /** The request leaves the committed state alone or applies the whole operation once. */
  predicate AllOrNothing<S(==)>(writes: seq<S -> S>, outcome: Outcome, reply: Reply, commitRaises: bool, before: S) {
    Stored(writes, outcome, reply, commitRaises, before) in {before, Effect(writes, before)}
  }

  /** A success reply to an exception that did not come from the database, raised between two writes. */
  predicate SwallowsPartialWork(writes: nat, outcome: Outcome, reply: Reply, commitRaises: bool) {
    outcome.Fails? && outcome.failure.OtherException? && 0 < outcome.after < writes && IsOk(reply) && !commitRaises
  }

  lemma AllOrNothingUnlessSwallowed<S>(writes: seq<S -> S>, outcome: Outcome, reply: Reply, commitRaises: bool,
      before: S)
    requires !SwallowsPartialWork(|writes|, outcome, reply, commitRaises)
    ensures AllOrNothing(writes, outcome, reply, commitRaises, before)
    ensures Stored(writes, outcome, reply, commitRaises, before) != before ==> IsOk(reply)
  {
    assert Applied(writes, 0, before) == before;
  }

  /** Every operation of so many writes is all or nothing exactly when the handler does not swallow partial work. */
  lemma AllOrNothingIff(n: nat, outcome: Outcome, reply: Reply, commitRaises: bool)
    ensures (forall writes: seq<int -> int>, before: int :: |writes| == n ==>
      AllOrNothing(writes, outcome, reply, commitRaises, before))
        <==> !SwallowsPartialWork(n, outcome, reply, commitRaises)
  {
    if SwallowsPartialWork(n, outcome, reply, commitRaises) {
      var writes: seq<int -> int> := seq(n, _ => (x: int) => x + 1);
      Increments(writes, outcome.after, 0);
      Increments(writes, n, 0);
      assert !AllOrNothing(writes, outcome, reply, commitRaises, 0);
    } else {
      forall writes: seq<int -> int>, before: int | |writes| == n
        ensures AllOrNothing(writes, outcome, reply, commitRaises, before)
      {
        AllOrNothingUnlessSwallowed(writes, outcome, reply, commitRaises, before);
      }
    }
  }

  lemma {:induction false} Increments(writes: seq<int -> int>, n: nat, s: int)
    requires n <= |writes| && forall k, x :: 0 <= k < |writes| ==> writes[k](x) == x + 1
    ensures Applied(writes, n, s) == s + n
  {
    if n > 0 { Increments(writes, n - 1, s); }
  }

  /**
    * A handler that lets the operation's exceptions become error responses, as all those of the repository do, is
    * all or nothing.
    */
  lemma ErrorRepliesSuffice<S>(writes: seq<S -> S>, world: World<S>, settings: Settings, replies: Result -> Reply,
      commitRaises: bool, before: S)
    requires forall f :: !IsOk(replies(Raised(f)))
    ensures
      var outcome := world.outcome(LastAttempt(world.outcome, settings.maxRetries, 0));
      var stored := Stored(writes, outcome, replies(ResultOf(outcome)), commitRaises, before);
      stored
        == if outcome.Completes? && IsOk(replies(Returned)) && !commitRaises then Effect(writes, before) else before
  {
    var outcome := world.outcome(LastAttempt(world.outcome, settings.maxRetries, 0));
    if outcome.Fails? {
      assert !IsOk(replies(Raised(outcome.failure)));
    }
  }
}

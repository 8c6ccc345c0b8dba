/** One job's life: the statuses and phases it can pass through, whatever else is running. */
module JobLifeCycle {

  import opened Prelude
  import opened RedisJobs
  import opened JobProtocol
  import opened JobInvariants
  import opened JobPreservation

  datatype Phase =
    | AtSubmitting | AtWaiting | AtDequeued | AtChecked | AtStarted | AtGathering | AtCompleting | AtFinished

  datatype Life = Life(status: Option<Status>, phase: Phase, spawned: bool)

  function PhaseOf(stage: Stage): Phase {
    match stage
    case Submitting(_) => AtSubmitting
    case Waiting => AtWaiting
    case Processing(Idle) => AtFinished
    case Processing(Dequeued(_)) => AtDequeued
    case Processing(Checked(_)) => AtChecked
    case Processing(Started(_)) => AtStarted
    case Processing(Gathering(_)) => AtGathering
    case Processing(Completing(_)) => AtCompleting
    case Over => AtFinished
  }

  function LifeOf(s: State, id: JobId): Life
    requires id in s.history
  {
    Life(StatusOf(s.redis, id), PhaseOf(StageOf(s, s.history[id])), id in s.tasks)
  }

  /** One step of a job's life, the job staying as it is included. */
  predicate Follows(a: Life, b: Life) {
    || b == a
    || b == a.(status := Some(Cancelled))
    || (a.phase == AtSubmitting && b == a.(phase := AtWaiting))
    || (a.phase == AtWaiting && b == a.(phase := AtDequeued))
    || (a.phase == AtDequeued && a.status != Some(Cancelled) && b == a.(phase := AtChecked))
    || (a.phase == AtDequeued && a.status == Some(Cancelled) && b == a.(phase := AtFinished))
    || (a.phase == AtChecked && b == a.(phase := AtStarted, status := Some(Running)))
    || (a.phase == AtStarted && b == a.(phase := AtGathering, spawned := true))
    || (a.phase == AtGathering && a.status != Some(Cancelled) && b == a.(phase := AtCompleting))
    || (a.phase == AtGathering && a.status == Some(Cancelled) && b == a.(phase := AtFinished))
    || (a.phase == AtCompleting && b == a.(phase := AtFinished, status := Some(Completed)))
  }

  /** What a coordinator step does to the job the coordinator holds. */
  lemma OwnJobFollows(cfg: Config, s: State, step: Step, id: JobId)
    requires Enabled(cfg, s, step) && IsCoordinatorStep(step) && !step.Dequeue?
    requires Works(s, step.c, id) && id in s.history && s.history[id].place == AtCoordinator(step.c)
      && id in s.redis.hashes
    ensures id in Next(cfg, s, step).history && Follows(LifeOf(s, id), LifeOf(Next(cfg, s, step), id))
  {
    match step {
      case CheckDequeued(c) => OwnCheckFollows(s, c, id);
      case MarkRunning(c) => OwnMarkFollows(s, c, id);
      case SpawnTasks(c) => OwnMarkFollows(s, c, id);
      case FinalCheck(c) => OwnCheckFollows(s, c, id);
      case MarkCompleted(c) => OwnMarkFollows(s, c, id);
    }
  }

  lemma OwnCheckFollows(s: State, c: int, id: JobId)
    requires Works(s, c, id) && id in s.history && s.history[id].place == AtCoordinator(c) && id in s.redis.hashes
    ensures s.coordinators[c].Dequeued? ==>
              id in CheckedDequeued(s, c, id).history && Follows(LifeOf(s, id), LifeOf(CheckedDequeued(s, c, id), id))
    ensures s.coordinators[c].Gathering? ==>
              id in CheckedFinally(s, c, id).history && Follows(LifeOf(s, id), LifeOf(CheckedFinally(s, c, id), id))
  {}

  lemma OwnMarkFollows(s: State, c: int, id: JobId)
    requires Works(s, c, id) && id in s.history && s.history[id].place == AtCoordinator(c) && id in s.redis.hashes
    ensures s.coordinators[c].Checked? ==>
              id in MarkedRunning(s, c, id).history && Follows(LifeOf(s, id), LifeOf(MarkedRunning(s, c, id), id))
    ensures s.coordinators[c].Started? ==>
              id in Spawned(s, c, id).history && Follows(LifeOf(s, id), LifeOf(Spawned(s, c, id), id))
    ensures s.coordinators[c].Completing? ==>
              id in MarkedCompleted(s, c, id).history && Follows(LifeOf(s, id), LifeOf(MarkedCompleted(s, c, id), id))
  {}

  lemma StepIsCoordinatorMove(cfg: Config, s: State, step: Step, own: JobId)
    requires Enabled(cfg, s, step) && IsCoordinatorStep(step) && !step.Dequeue?
    requires Works(s, step.c, own) && own in s.history && own in s.redis.hashes
    requires step.SpawnTasks? ==> own !in s.tasks
    ensures CoordinatorMoves(s, Next(cfg, s, step), step.c, own)
  {
    match step {
      case CheckDequeued(c) => CheckMoves(s, c, own);
      case MarkRunning(c) => MarkRunningMoves(s, c, own);
      case SpawnTasks(c) => SpawnMoves(s, c, own);
      case FinalCheck(c) => FinalCheckMoves(s, c, own);
      case MarkCompleted(c) => MarkCompletedMoves(s, c, own);
    }
  }

  /** Any other job. */
  lemma OtherJobStays(s: State, s': State, c: int, own: JobId, id: JobId)
    requires CoordinatorMoves(s, s', c, own)
    requires id != own && id in s.history && s.history[id].place != AtCoordinator(c)
    ensures id in s'.history && LifeOf(s', id) == LifeOf(s, id)
  {}

  lemma CoordinatorStepFollows(cfg: Config, s: State, step: Step, id: JobId)
    requires Inv(cfg, s) && Enabled(cfg, s, step) && IsCoordinatorStep(step) && !step.Dequeue?
    requires id in s.history && id in s.redis.hashes
    ensures id in Next(cfg, s, step).history && Follows(LifeOf(s, id), LifeOf(Next(cfg, s, step), id))
  {
    assert Placed(s, id);
    var own := s.coordinators[step.c].job;
    assert Works(s, step.c, own) && JobOk(cfg, ViewOf(s, own));
    if id == own {
      OwnJobFollows(cfg, s, step, id);
    } else {
      StepIsCoordinatorMove(cfg, s, step, own);
      OtherJobStays(s, Next(cfg, s, step), step.c, own, id);
    }
  }

  lemma DequeueFollows(cfg: Config, s: State, step: Step, id: JobId)
    requires PlacesOk(s) && Enabled(cfg, s, step) && step.Dequeue?
    requires id in s.history && id in s.redis.hashes
    ensures id in Next(cfg, s, step).history && Follows(LifeOf(s, id), LifeOf(Next(cfg, s, step), id))
  {
    assert Placed(s, id);
    assert s.redis.pending != [] ==> s.redis.pending[0] in s.redis.pending;
  }

  /** Nothing that a job's life is read from has changed, nor has the queue. */
  ghost predicate SameLives(s: State, s': State) {
    && s'.submitters == s.submitters && s'.coordinators == s.coordinators && s'.tasks.Keys == s.tasks.Keys
    && s'.history.Keys == s.history.Keys
    && (forall id :: id in s.history ==> s'.history[id].place == s.history[id].place)
    && (forall id :: StatusOf(s'.redis, id) == StatusOf(s.redis, id))
    && s'.redis.pending == s.redis.pending
  }

  lemma SetTaskKeepsLives(s: State, id: JobId, i: nat, t: Task)
    requires HasTask(s, id, i)
    ensures SameLives(s, s.(tasks := SetTask(s, id, i, t)))
  {}

  lemma BegunKeepsLives(s: State, id: JobId, i: nat, verdict: Verdict)
    requires HasTask(s, id, i)
    ensures SameLives(s, BegunWriting(s, id, i, verdict))
  {}

  lemma WroteKeepsLives(s: State, id: JobId, i: nat)
    requires HasTask(s, id, i) && s.tasks[id][i].Writing? && s.tasks[id][i].stored < |s.tasks[id][i].outs|
    ensures SameLives(s, WroteOne(s, id, i))
  {}

  lemma CountedKeepsLives(s: State, id: JobId, i: nat)
    requires HasTask(s, id, i) && s.tasks[id][i].Writing? && s.tasks[id][i].counted < |s.tasks[id][i].outs|
    ensures SameLives(s, CountedOne(s, id, i))
  {}

  lemma TaskStepKeepsLives(cfg: Config, s: State, step: Step)
    requires Enabled(cfg, s, step) && IsTaskStep(step)
    ensures SameLives(s, Next(cfg, s, step))
  {
    match step
    case RejectMode(id, i) => BegunKeepsLives(s, id, i, NoStrategy);
    case RaiseOnMode(id, i) => SetTaskKeepsLives(s, id, i, Escaped);
    case CheckTask(id, i) => SetTaskKeepsLives(s, id, i, CheckedTask(s, id, i).tasks[id][i]);
    case Execute(id, i, outcome) => BegunKeepsLives(s, id, i, Ran(outcome));
    case WriteOne(id, i) => WroteKeepsLives(s, id, i);
    case CountOne(id, i) => CountedKeepsLives(s, id, i);
    case FinishTask(id, i) => SetTaskKeepsLives(s, id, i, FinishedTask(s, id, i).tasks[id][i]);
  }

  lemma TaskStepFollows(cfg: Config, s: State, step: Step, id: JobId)
    requires Enabled(cfg, s, step) && IsTaskStep(step)
    requires id in s.history
    ensures id in Next(cfg, s, step).history && LifeOf(Next(cfg, s, step), id) == LifeOf(s, id)
  {
    TaskStepKeepsLives(cfg, s, step);
    SameLife(s, Next(cfg, s, step), id);
  }

  lemma SameLife(s: State, s': State, id: JobId)
    requires SameLives(s, s') && id in s.history
    ensures id in s'.history && LifeOf(s', id) == LifeOf(s, id)
  {}

  lemma OtherStepFollows(cfg: Config, s: State, step: Step, id: JobId)
    requires Enabled(cfg, s, step) && !IsTaskStep(step) && !IsCoordinatorStep(step) && !IsSubmitterStep(step)
    requires id in s.history && id in s.redis.hashes
    ensures id in Next(cfg, s, step).history && Follows(LifeOf(s, id), LifeOf(Next(cfg, s, step), id))
  {}

  lemma SubmitterStepFollows(cfg: Config, s: State, step: Step, id: JobId)
    requires PlacesOk(s) && Enabled(cfg, s, step) && IsSubmitterStep(step)
    requires id in s.history && id in s.redis.hashes
    ensures id in Next(cfg, s, step).history && Follows(LifeOf(s, id), LifeOf(Next(cfg, s, step), id))
  {
    assert Placed(s, id);
    match step {
      case StoreJobQueries(p) => assert Holds(s, p, s.submitters[p].job);
      case EnqueueJob(p) => assert Holds(s, p, s.submitters[p].job);
      case _ =>
    }
  }

  /** Every step moves every job along its life cycle, or leaves it where it is. */
  lemma StepFollowsLifeCycle(cfg: Config, s: State, step: Step, id: JobId)
    requires Inv(cfg, s) && Enabled(cfg, s, step) && id in s.history
    ensures id in Next(cfg, s, step).history && Follows(LifeOf(s, id), LifeOf(Next(cfg, s, step), id))
  {
    assert JobOk(cfg, ViewOf(s, id));
    if IsTaskStep(step) {
      TaskStepFollows(cfg, s, step, id);
    } else if step.Dequeue? {
      DequeueFollows(cfg, s, step, id);
    } else if IsCoordinatorStep(step) {
      CoordinatorStepFollows(cfg, s, step, id);
    } else if IsSubmitterStep(step) {
      SubmitterStepFollows(cfg, s, step, id);
    } else {
      OtherStepFollows(cfg, s, step, id);
    }
  }

  // ----- segments of a run -----

  /** A piece of a run that starts in `s`. */
  ghost predicate IsSegment(cfg: Config, s: State, states: seq<State>, steps: seq<Step>) {
    && |states| == |steps| + 1
    && states[0] == s
    && forall n {:trigger steps[n]} :: 0 <= n < |steps| ==> IsStep(cfg, states[n], steps[n], states[n + 1])
  }

  lemma {:induction false} SegmentKeepsInvariant(cfg: Config, s: State, states: seq<State>, steps: seq<Step>, n: nat)
    requires Inv(cfg, s) && IsSegment(cfg, s, states, steps) && n < |states|
    ensures Inv(cfg, states[n])
    decreases n
  {
    if n > 0 {
      SegmentKeepsInvariant(cfg, s, states, steps, n - 1);
      assert IsStep(cfg, states[n - 1], steps[n - 1], states[n]);
      StepKeepsInvariant(cfg, states[n - 1], steps[n - 1]);
    }
  }

  /** A set of lives that no step leaves is never left. */
  lemma {:induction false} LifeInvariant(cfg: Config, s: State, states: seq<State>, steps: seq<Step>, n: nat,
      id: JobId, holds: Life -> bool)
    requires Inv(cfg, s) && id in s.history && holds(LifeOf(s, id))
    requires forall a, b :: holds(a) && Follows(a, b) ==> holds(b)
    requires IsSegment(cfg, s, states, steps) && n < |states|
    ensures Inv(cfg, states[n]) && id in states[n].history && holds(LifeOf(states[n], id))
    decreases n
  {
    if n > 0 {
      LifeInvariant(cfg, s, states, steps, n - 1, id, holds);
      assert IsStep(cfg, states[n - 1], steps[n - 1], states[n]);
      StepKeepsInvariant(cfg, states[n - 1], steps[n - 1]);
      StepFollowsLifeCycle(cfg, states[n - 1], steps[n - 1], id);
    }
  }
}

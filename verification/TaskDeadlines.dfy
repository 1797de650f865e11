/**
  A handler is started only for a task whose deadline had not passed, and that had tries
  left, when the worker looked. The active mark itself may come later.
 */
module TaskDeadlines {
  import opened Prelude
  import opened Tasks
  import opened TaskStore
  import opened TaskSystem
  import opened TaskHistory

  /** This task was neither past its deadline nor out of tries at this time. */
  predicate InTime(t: Task, at: int) {
    (t.deadline.Some? ==> at <= t.deadline.value) && (t.maxTries > 0 ==> t.tries < t.maxTries)
  }

  /** Step `n` of the run is this worker's check of the task, and the task was in time. */
  ghost predicate CheckedAt(c: Config, s: System, steps: seq<Step>, w: Id, base: Task, n: nat) {
    && n < |steps| && steps[n].Decide? && steps[n].w == w
    && var e := After(c, s, steps[..n]);
       At(e, w).Loaded? && At(e, w).base == base && InTime(base, e.now - steps[n].ago)
  }

  ghost predicate Checked(c: Config, s: System, steps: seq<Step>, w: Id, base: Task) {
    exists n: nat :: CheckedAt(c, s, steps, w, base, n)
  }

  /** The version a worker is on its way to mark active, if any. */
  function Towards(x: Worker): Option<Task> {
    match x
    case Resolving(_, base, _, _, _, _) => Some(base)
    case Writing(_, w, _) => if w.kind.Activating? then Some(w.base) else None
    case _ => None
  }

  /** Only a check sets a worker on that way. */
  lemma TowardsComesFrom(c: Config, s: System, step: Step, w: Id)
    requires Consistent(c, s) && Enabled(s, step)
    ensures
      var x, y := At(s, w), At(Apply(c, s, step), w);
      Towards(y).Some? ==>
        || Towards(x) == Towards(y)
        || (step.Decide? && step.w == w && x.Loaded? && Towards(y) == Some(x.base) && InTime(x.base, s.now - step.ago))
  {
    if WorkerEnabled(s, step) {
      if step.w != w { OthersStandStill(c, s, step, w); }
      else if step.Decide? { CheckMeans(c, At(s, w).base, s.now - step.ago); }
      else { OwnStep(c, s, step); }
    } else {
      ProducersMoveNobody(c, s, step);
    }
  }

  lemma OthersStandStill(c: Config, s: System, step: Step, w: Id)
    requires WorkerEnabled(s, step) && step.w != w
    ensures At(WorkerApply(c, s, step), w) == At(s, w)
  {
  }

  lemma ProducersMoveNobody(c: Config, s: System, step: Step)
    requires ProducerEnabled(s, step)
    ensures ProducerApply(c, s, step).workers == s.workers
  {
  }

  lemma OwnStep(c: Config, s: System, step: Step)
    requires Consistent(c, s) && WorkerEnabled(s, step) && !step.Decide?
    ensures
      var y := At(WorkerApply(c, s, step), step.w);
      Towards(y).Some? ==> Towards(At(s, step.w)) == Towards(y)
  {
    if Plain(step) {
      PlainStep(c, s, step);
    } else if step.Settle? {
      assert WorkerOk(c, s.store, At(s, step.w));
    }
  }

  lemma PlainStep(c: Config, s: System, step: Step)
    requires Plain(step) && WorkerEnabled(s, step) && !step.Decide?
    ensures
      var y := NextPhase(c, s, step);
      Towards(y).Some? ==> Towards(At(s, step.w)) == Towards(y)
  {
    if step.Resolve? { ResolverStays(s, At(s, step.w), step.fails); }
  }

  lemma ResolverStays(s: System, x: Worker, fails: bool)
    requires x.Resolving?
    ensures Towards(AfterResolve(s, x, fails)).Some? ==> Towards(AfterResolve(s, x, fails)) == Some(x.base)
  {
  }

  lemma CheckIsKept(c: Config, s: System, steps: seq<Step>, last: Step, w: Id, base: Task)
    requires Checked(c, s, steps, w, base)
    ensures Checked(c, s, steps + [last], w, base)
  {
    var n: nat :| CheckedAt(c, s, steps, w, base, n);
    assert (steps + [last])[..n] == steps[..n];
    assert CheckedAt(c, s, steps + [last], w, base, n);
  }

  lemma {:induction false} RunIsChecked(c: Config, s: System, steps: seq<Step>, w: Id)
    requires Initial(s)
    ensures
      var t := Towards(At(After(c, s, steps), w));
      t.Some? ==> Checked(c, s, steps, w, t.value)
  {
    if steps != [] {
      var init, last := steps[..|steps| - 1], steps[|steps| - 1];
      var before := After(c, s, init);
      assert steps == init + [last];
      RunIsChecked(c, s, init, w);
      RunIsConsistent(c, s, init);
      var t := Towards(At(After(c, s, steps), w));
      if t.Some? {
        if Enabled(before, last) { TowardsComesFrom(c, before, last, w); }
        if Towards(At(before, w)) == t {
          CheckIsKept(c, s, init, last, w, t.value);
        } else {
          assert CheckedAt(c, s, steps, w, t.value, |init|);
        }
      }
    }
  }

  /** In every run, whenever a handler starts, the worker that starts it had looked at the
      version it starts from at some step of the run, and at a time not after that version's
      deadline, with tries left. */
  lemma StartsInTime(c: Config, s: System, steps: seq<Step>, start: Step)
    requires Initial(s) && StartsHandler(After(c, s, steps), start)
    ensures Checked(c, s, steps, start.w, At(After(c, s, steps), start.w).write.base)
  {
    RunIsChecked(c, s, steps, start.w);
  }
}

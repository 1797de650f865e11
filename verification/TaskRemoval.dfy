/**
  A removed task stays removed: a copy of it that a worker or producer still holds was
  stored under a positive sequence number, while the store expects zero for its id.
 */
module TaskRemoval {
  import opened Prelude
  import opened Tasks
  import opened TaskStore
  import opened TaskSystem
  import opened TaskHistory

  /** The first store of a task that was never stored before, under this id. */
  predicate Creates(s: System, step: Step, id: string) {
    step.StoreTask? && Of(s, step.p).Storing? && Of(s, step.p).write.kind.Creating? && Of(s, step.p).write.next.id == id
  }

  lemma StaleWriteIsRefused(c: Config, s: System, wr: Write, id: string)
    requires WriteOk(c, s.store, wr) && id !in s.store.tasks && wr.next.id == id && !wr.kind.Creating?
    ensures !Acceptable(s, wr)
  {
  }

  lemma WriteOfIsOk(c: Config, s: System, step: Step)
    requires Consistent(c, s) && WriteOf(c, s, step).Some?
    ensures WriteOk(c, s.store, WriteOf(c, s, step).value)
    ensures WriteOf(c, s, step).value.kind.Creating? ==> Creates(s, step, WriteOf(c, s, step).value.next.id)
  {
    if step.Save? { assert WorkerOk(c, s.store, At(s, step.w)); } else { assert ProducerOk(c, s.store, Of(s, step.p)); }
  }

  lemma StepKeepsRemoved(c: Config, s: System, step: Step, id: string)
    requires Consistent(c, s) && Enabled(s, step) && id !in s.store.tasks && !Creates(s, step, id)
    ensures id !in Apply(c, s, step).store.tasks
  {
    StoreEffect(c, s, step);
    var wr := WriteOf(c, s, step);
    if wr.Some? {
      WriteOfIsOk(c, s, step);
      if wr.value.next.id == id { StaleWriteIsRefused(c, s, wr.value, id); }
    }
  }

  lemma NoStartWhileRemoved(c: Config, s: System, id: string)
    requires Consistent(c, s) && id !in s.store.tasks
    ensures forall start :: StartsHandler(s, start) ==> At(s, start.w).write.next.id != id
  {
    forall start | StartsHandler(s, start) ensures At(s, start.w).write.next.id != id {
      assert WorkerOk(c, s.store, At(s, start.w));
    }
  }

  lemma OneMoreKeepsRemoved(c: Config, s: System, steps: seq<Step>, last: Step, id: string)
    requires Initial(s) && id !in After(c, s, steps).store.tasks && !Creates(After(c, s, steps), last, id)
    ensures id !in After(c, s, steps + [last]).store.tasks
  {
    AfterOneMore(c, s, steps, last);
    RunIsConsistent(c, s, steps);
    if Enabled(After(c, s, steps), last) { StepKeepsRemoved(c, After(c, s, steps), last, id); }
  }

  /** Nothing is created under `id` while `more` extends the run `steps`. */
  ghost predicate NotRecreated(c: Config, s: System, steps: seq<Step>, more: seq<Step>, id: string)
    decreases |more|
  {
    more == [] ||
      (!Creates(After(c, s, steps), more[0], id) && NotRecreated(c, s, steps + [more[0]], more[1..], id))
  }

  lemma {:induction false} StaysRemoved(c: Config, s: System, steps: seq<Step>, more: seq<Step>, id: string)
    requires Initial(s) && id !in After(c, s, steps).store.tasks && NotRecreated(c, s, steps, more, id)
    ensures id !in After(c, s, steps + more).store.tasks
    decreases |more|
  {
    if more == [] {
      assert steps + more == steps;
    } else {
      OneMoreKeepsRemoved(c, s, steps, more[0], id);
      StaysRemoved(c, s, steps + [more[0]], more[1..], id);
      assert steps + [more[0]] + more[1..] == steps + more;
    }
  }

  /** From the moment a task is gone, by deletion, retention or discard, and until a new
      task is created under its id, no step of anyone stores it again or starts its
      handler, whatever copies are around and however the steps interleave. */
  lemma NoResurrection(c: Config, s: System, steps: seq<Step>, more: seq<Step>, id: string)
    requires Initial(s) && id !in After(c, s, steps).store.tasks && NotRecreated(c, s, steps, more, id)
    ensures
      var e := After(c, s, steps + more);
      && id !in e.store.tasks
      && forall start :: StartsHandler(e, start) ==> At(e, start.w).write.next.id != id
  {
    StaysRemoved(c, s, steps, more, id);
    RunIsConsistent(c, s, steps + more);
    NoStartWhileRemoved(c, After(c, s, steps + more), id);
  }
}

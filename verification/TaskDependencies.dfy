/**
  A task with dependencies starts only once all of them are completed, and with their
  results loaded if it asked for them.
 */
module TaskDependencies {
  import opened Prelude
  import opened Tasks
  import opened Lineage
  import opened TaskStore
  import opened TaskSystem
  import opened TaskHistory

  /** The step retries none of these tasks by hand and deletes or discards none of them. */
  predicate Spares(ids: set<string>, s: System, step: Step) {
    && (step.RetryById? ==> step.id !in ids)
    && (RemovalOf(s, step).Some? ==> RemovalOf(s, step).value !in ids)
  }

  predicate SparingRun(ids: set<string>, c: Config, s: System, steps: seq<Step>) {
    steps == [] ||
      (var init := steps[..|steps| - 1];
       SparingRun(ids, c, s, init) && Spares(ids, After(c, s, init), steps[|steps| - 1]))
  }

  /** A task and the tasks it depends on. */
  function Family(t: Task): set<string> {
    {t.id} + set d | d in t.deps
  }

  predicate Covered(ids: set<string>, t: Task) {
    t.id in ids && forall i :: 0 <= i < |t.deps| ==> t.deps[i] in ids
  }

  predicate CompletedIn(st: Store, id: string) {
    id in st.tasks && st.tasks[id].task.state.Completed?
  }

  predicate AllCompleted(st: Store, ids: seq<string>) {
    forall i :: 0 <= i < |ids| ==> CompletedIn(st, ids[i])
  }

  /** The results map has exactly these ids as keys, each with the result stored for it. */
  predicate Complete(st: Store, results: Results, ids: seq<string>) {
    && results.Keys == (set d | d in ids)
    && forall d :: d in results ==>
         results[d].Some? && CompletedIn(st, d) && results[d] == st.tasks[d].task.result
  }

  /** All dependencies are completed now, and their results are loaded if wanted. */
  predicate Cleared(st: Store, t: Task) {
    t.deps != [] ==> AllCompleted(st, t.deps) && (t.loadDeps ==> Complete(st, t.depResults, t.deps))
  }

  /** The task was recorded at some point as one whose queue item could not be created. */
  predicate Troubled(lineage: map<string, seq<Version>>, id: string) {
    id in lineage && exists i :: 0 <= i < |lineage[id]| && lineage[id][i].kind.QueueFailing?
  }

  /** A version is still blocked, over, cleared to run, or has a history of queue trouble;
      unless it was given up it has no results loaded or all of them. */
  predicate Sorted(ids: set<string>, s: System, t: Task) {
    Covered(ids, t) ==>
    && (t.state.Blocked? ==> t.depResults == map[])
    && (t.loadDeps && !t.state.Unreachable? ==> t.depResults == map[] || Complete(s.store, t.depResults, t.deps))
    && (t.state.Blocked? || t.state.Expired? || t.state.Unreachable? || Cleared(s.store, t)
        || Troubled(s.lineage, t.id))
  }

  predicate WriteSorted(ids: set<string>, s: System, w: Write) {
    Sorted(ids, s, w.next) || w.kind.QueueFailing? || w.kind.Reenqueueing?
  }

  /** Parents gone through so far. */
  predicate Surveyed(ids: set<string>, st: Store, x: Worker)
    requires x.Resolving?
  {
    && x.k <= |x.base.deps|
    && (Covered(ids, x.base) ==>
          && (x.ready ==> AllCompleted(st, x.base.deps[..x.k]))
          && (x.ready && x.base.loadDeps ==> Complete(st, x.results, x.base.deps[..x.k]))
          && (!x.base.loadDeps ==> x.results == map[]))
  }

  predicate WorkerSorted(ids: set<string>, s: System, x: Worker) {
    match x
    case Loaded(_, base, _) => Sorted(ids, s, base)
    case Resolving(_, base, _, _, _, _) => Sorted(ids, s, base) && Surveyed(ids, s.store, x)
    case Writing(_, w, _) => WriteSorted(ids, s, w)
    case Running(_, base, _) => Sorted(ids, s, base)
    case Settling(_, _, f) => f.Some? ==> WriteSorted(ids, s, f.value)
    case _ => true
  }

  ghost predicate AllSorted(ids: set<string>, s: System) {
    && (forall id :: id in s.store.tasks ==> Sorted(ids, s, s.store.tasks[id].task))
    && (forall w :: w in s.workers ==> WorkerSorted(ids, s, s.workers[w]))
    && NoneRetried(ids, s)
  }

  predicate NoneRetried(ids: set<string>, s: System) {
    forall p :: p in s.producers && s.producers[p].Storing? && s.producers[p].write.kind.Retrying? ==>
      s.producers[p].write.next.id !in ids
  }

  // ---- Completed parents stay completed, troubles stay on record ----

  predicate SameResult(st: Store, st': Store, id: string) {
    CompletedIn(st, id) && CompletedIn(st', id) && st'.tasks[id].task.result == st.tasks[id].task.result
  }

  ghost predicate Keeps(ids: set<string>, s: System, s': System) {
    && (forall id :: id in ids && CompletedIn(s.store, id) ==> SameResult(s.store, s'.store, id))
    && (forall id :: id in ids && Troubled(s.lineage, id) ==> Troubled(s'.lineage, id))
  }

  /** Loaded results stay those stored. */
  lemma CompleteStays(ids: set<string>, s: System, s': System, results: Results, deps: seq<string>)
    requires Keeps(ids, s, s') && Complete(s.store, results, deps) && forall i :: 0 <= i < |deps| ==> deps[i] in ids
    ensures Complete(s'.store, results, deps)
  {
    forall d | d in results ensures CompletedIn(s'.store, d) && results[d] == s'.store.tasks[d].task.result {
      assert d in deps;
      assert SameResult(s.store, s'.store, d);
    }
  }

  lemma SortedStays(ids: set<string>, s: System, s': System, t: Task)
    requires Keeps(ids, s, s') && Sorted(ids, s, t)
    ensures Sorted(ids, s', t)
  {
    if Covered(ids, t) && Complete(s.store, t.depResults, t.deps) { CompleteStays(ids, s, s', t.depResults, t.deps); }
  }

  lemma SurveyedStays(ids: set<string>, s: System, s': System, x: Worker)
    requires Keeps(ids, s, s') && x.Resolving? && Surveyed(ids, s.store, x)
    ensures Surveyed(ids, s'.store, x)
  {
    var deps := x.base.deps[..x.k];
    if Covered(ids, x.base) && Complete(s.store, x.results, deps) { CompleteStays(ids, s, s', x.results, deps); }
  }

  lemma WorkerStaysSorted(ids: set<string>, s: System, s': System, x: Worker)
    requires Keeps(ids, s, s') && WorkerSorted(ids, s, x)
    ensures WorkerSorted(ids, s', x)
  {
    match x
    case Loaded(_, base, _) => SortedStays(ids, s, s', base);
    case Resolving(_, base, _, _, _, _) =>
      SortedStays(ids, s, s', base);
      SurveyedStays(ids, s, s', x);
    case Writing(_, w, _) => if Sorted(ids, s, w.next) { SortedStays(ids, s, s', w.next); }
    case Running(_, base, _) => SortedStays(ids, s, s', base);
    case Settling(_, _, f) =>
      if f.Some? && Sorted(ids, s, f.value.next) { SortedStays(ids, s, s', f.value.next); }
    case _ =>
  }

  lemma OthersStaySorted(ids: set<string>, s: System, s': System)
    requires AllSorted(ids, s) && Keeps(ids, s, s')
    ensures forall w :: w in s.workers ==> WorkerSorted(ids, s', s.workers[w])
  {
    forall w | w in s.workers ensures WorkerSorted(ids, s', s.workers[w]) {
      WorkerStaysSorted(ids, s, s', s.workers[w]);
    }
  }

  lemma WriteKeeps(ids: set<string>, c: Config, s: System, w: Write, f: Fault)
    requires Recorded(c, s) && WriteOk(c, s.store, w) && (w.kind.Retrying? ==> w.next.id !in ids)
    ensures Keeps(ids, s, AfterWrite(s, w, f))
  {
    var s' := AfterWrite(s, w, f);
    if Applied(s, w, f) {
      forall id | id in ids && CompletedIn(s.store, id) ensures SameResult(s.store, s'.store, id) {
        CompletedStays(c, s, w, id);
      }
      forall id | id in ids && Troubled(s.lineage, id) ensures Troubled(s'.lineage, id) {
        TroubleStays(s, w, id);
      }
    }
  }

  /** Only a manual retry is stored over a completed version. */
  lemma CompletedStays(c: Config, s: System, w: Write, id: string)
    requires Recorded(c, s) && WriteOk(c, s.store, w) && Acceptable(s, w) && CompletedIn(s.store, id)
    requires w.kind.Retrying? ==> w.next.id != id
    ensures SameResult(s.store, WithVersion(s, w).store, id)
  {
    assert RecordedAt(c, s, id);
  }

  lemma TroubleStays(s: System, w: Write, id: string)
    requires Troubled(s.lineage, id)
    ensures Troubled(WithVersion(s, w).lineage, id)
  {
    var i :| 0 <= i < |s.lineage[id]| && s.lineage[id][i].kind.QueueFailing?;
    assert WithVersion(s, w).lineage[id][i] == s.lineage[id][i];
  }

  lemma WrittenIsSorted(ids: set<string>, c: Config, s: System, w: Write, f: Fault)
    requires Consistent(c, s) && AllSorted(ids, s) && WriteOk(c, s.store, w) && WriteSorted(ids, s, w)
    requires w.kind.Retrying? ==> w.next.id !in ids
    requires Applied(s, w, f) && Keeps(ids, s, AfterWrite(s, w, f))
    ensures Sorted(ids, AfterWrite(s, w, f), w.next)
  {
    if w.kind.QueueFailing? || w.kind.Reenqueueing? {
      assert Sorted(ids, s, s.store.tasks[w.next.id].task);
      PushedIsSorted(ids, c, s, w, f);
    } else {
      SortedStays(ids, s, AfterWrite(s, w, f), w.next);
    }
  }

  /** What a producer stores over a version of its own task. */
  lemma PushedIsSorted(ids: set<string>, c: Config, s: System, w: Write, f: Fault)
    requires WriteOk(c, s.store, w) && Applied(s, w, f) && Keeps(ids, s, AfterWrite(s, w, f))
    requires (w.kind.QueueFailing? || w.kind.Reenqueueing?) && Sorted(ids, s, w.base)
    ensures Sorted(ids, AfterWrite(s, w, f), w.next)
  {
    var s' := AfterWrite(s, w, f);
    SortedStays(ids, s, s', w.base);
    if w.kind.QueueFailing? { assert s'.lineage[w.next.id][|s'.lineage[w.next.id]| - 1].kind.QueueFailing?; }
  }

  lemma WriteIsSorted(ids: set<string>, c: Config, s: System, w: Write, f: Fault)
    requires Consistent(c, s) && AllSorted(ids, s) && WriteOk(c, s.store, w) && WriteSorted(ids, s, w)
    requires w.kind.Retrying? ==> w.next.id !in ids
    ensures AllSorted(ids, AfterWrite(s, w, f)) && Keeps(ids, s, AfterWrite(s, w, f))
  {
    var s' := AfterWrite(s, w, f);
    WriteKeeps(ids, c, s, w, f);
    OthersStaySorted(ids, s, s');
    forall id | id in s'.store.tasks ensures Sorted(ids, s', s'.store.tasks[id].task) {
      if Applied(s, w, f) && id == w.next.id {
        WrittenIsSorted(ids, c, s, w, f);
      } else {
        SortedStays(ids, s, s', s.store.tasks[id].task);
      }
    }
  }

  lemma MoveIsSorted(ids: set<string>, s: System, w: Id, x: Worker)
    requires AllSorted(ids, s) && WorkerSorted(ids, s, x)
    ensures AllSorted(ids, Moved(s, w, x))
  {
    var s' := Moved(s, w, x);
    assert Keeps(ids, s, s');
    OthersStaySorted(ids, s, s');
    forall id | id in s'.store.tasks ensures Sorted(ids, s', s'.store.tasks[id].task) {
      SortedStays(ids, s, s', s.store.tasks[id].task);
    }
  }

  /** Removing a task outside the family leaves the family as it was. */
  lemma RemovalIsSorted(ids: set<string>, s: System, id: string)
    requires AllSorted(ids, s)
    ensures id !in ids ==> AllSorted(ids, Removed(s, id))
  {
    var s' := Removed(s, id);
    if id !in ids {
      assert Keeps(ids, s, s');
      OthersStaySorted(ids, s, s');
      forall j | j in s'.store.tasks ensures Sorted(ids, s', s'.store.tasks[j].task) {
        SortedStays(ids, s, s', s.store.tasks[j].task);
      }
    }
  }

  // ---- Each worker step ----

  lemma DecideIsSorted(ids: set<string>, c: Config, s: System, x: Worker, ago: nat)
    requires x.Loaded? && WorkerSorted(ids, s, x)
    ensures WorkerSorted(ids, s, AfterDecide(c, x.item, x.base, x.seqNo, s.now - ago, s.now))
  {
    var y := AfterDecide(c, x.item, x.base, x.seqNo, s.now - ago, s.now);
    if y.Writing? && y.write.kind.Activating? {
      assert x.base.(depResults := x.base.depResults) == x.base;
    } else if y.Resolving? {
      assert y.base.deps[..0] == [];
    }
  }

  lemma NextParent(ids: set<string>, c: Config, s: System, x: Worker)
    requires Recorded(c, s) && x.Resolving? && Surveyed(ids, s.store, x) && x.k < |x.base.deps|
    ensures
      var p := ParentOf(s.store, x.base.deps[x.k]);
      var results := WithResult(x.base.loadDeps, x.results, p);
      var x' := x.(k := x.k + 1, ready := x.ready && p.Done?, results := results);
      p.Missing? || p.Failed? || Surveyed(ids, s.store, x')
  {
    var d := x.base.deps[x.k];
    assert x.base.deps[..x.k + 1] == x.base.deps[..x.k] + [d];
    DoneParent(c, s, d);
  }

  lemma DoneParent(c: Config, s: System, d: string)
    requires Recorded(c, s)
    ensures
      var p := ParentOf(s.store, d);
      p.Done? ==> CompletedIn(s.store, d) && p.id == d && p.result.Some? && p.result == s.store.tasks[d].task.result
  {
    if ParentOf(s.store, d).Done? {
      assert RecordedAt(c, s, d);
      LineageFacts(c, s.lineage[d]);
    }
  }

  lemma ResolveIsSorted(ids: set<string>, c: Config, s: System, x: Worker, fails: bool)
    requires Recorded(c, s) && AllSorted(ids, s) && x.Resolving? && WorkerSorted(ids, s, x)
    ensures WorkerSorted(ids, s, AfterResolve(s, x, fails))
  {
    if x.k < |x.base.deps| {
      NextParent(ids, c, s, x);
    } else {
      assert x.base.deps[..x.k] == x.base.deps;
    }
  }

  lemma SaveIsSorted(ids: set<string>, c: Config, s: System, w: Id, f: Fault)
    requires Consistent(c, s) && AllSorted(ids, s) && At(s, w).Writing? && !Discards(c, At(s, w).write)
    ensures AllSorted(ids, AfterSave(c, s, w, At(s, w), f))
  {
    var x := At(s, w);
    assert WorkerOk(c, s.store, x) && WorkerSorted(ids, s, x);
    WriteIsSorted(ids, c, s, x.write, f);
    var m := AfterWrite(s, x.write, f);
    if x.write.kind.Activating? { SortedStays(ids, s, m, x.write.next); }
    MoveIsSorted(ids, m, w, SavedPhase(s, x, f));
  }

  lemma FinishIsSorted(ids: set<string>, c: Config, s: System, x: Worker, o: Outcome)
    requires x.Running? && WorkerOk(c, s.store, x) && WorkerSorted(ids, s, x)
    ensures WorkerSorted(ids, s, AfterFinish(c, s, x, o))
  {
  }

  lemma PhaseIsSorted(ids: set<string>, c: Config, s: System, step: Step)
    requires Consistent(c, s) && AllSorted(ids, s) && Plain(step) && WorkerEnabled(s, step)
    ensures WorkerSorted(ids, s, NextPhase(c, s, step))
  {
    var x := At(s, step.w);
    assert WorkerOk(c, s.store, x) && WorkerSorted(ids, s, x);
    match step
    case Deliver(_, _) =>
    case Load(_, _) =>
    case Decide(_, ago) => DecideIsSorted(ids, c, s, x, ago);
    case Resolve(_, fails) => ResolveIsSorted(ids, c, s, x, fails);
    case Finish(_, o) => FinishIsSorted(ids, c, s, x, o);
    case Crash(_) =>
  }

  lemma DiscardIsSorted(ids: set<string>, c: Config, s: System, w: Id)
    requires AllSorted(ids, s) && At(s, w).Discarding? && Spares(ids, s, CommitDiscard(w))
    ensures AllSorted(ids, WorkerApply(c, s, CommitDiscard(w)))
  {
    RemovalIsSorted(ids, s, At(s, w).item.id);
    MoveIsSorted(ids, AfterDiscard(s, At(s, w)), w, Settling(At(s, w).item, At(s, w).how, None));
  }

  lemma WorkerStepIsSorted(ids: set<string>, c: Config, s: System, step: Step)
    requires Consistent(c, s) && AllSorted(ids, s) && WorkerEnabled(s, step) && Spares(ids, s, step)
    ensures AllSorted(ids, WorkerApply(c, s, step))
  {
    if Plain(step) {
      PhaseIsSorted(ids, c, s, step);
      MoveIsSorted(ids, s, step.w, NextPhase(c, s, step));
    } else {
      match step
      case Save(w, f) =>
        if Discards(c, At(s, w).write) { MoveIsSorted(ids, s, w, DiscardPhase(s, At(s, w))); }
        else { SaveIsSorted(ids, c, s, w, f); }
      case CommitDiscard(w) => DiscardIsSorted(ids, c, s, w);
      case Settle(w, f) => SettleIsSorted(ids, c, s, w, f);
    }
  }

  lemma SettleIsSorted(ids: set<string>, c: Config, s: System, w: Id, f: Fault)
    requires AllSorted(ids, s) && At(s, w).Settling?
    ensures AllSorted(ids, AfterSettle(s, w, At(s, w), f))
  {
    var x := At(s, w);
    assert WorkerSorted(ids, s, x);
    var s' := AfterSettle(s, w, x, f);
    var m := s.(queue := s'.queue);
    assert Keeps(ids, s, m);
    OthersStaySorted(ids, s, m);
    forall id | id in m.store.tasks ensures Sorted(ids, m, m.store.tasks[id].task) {
      SortedStays(ids, s, m, s.store.tasks[id].task);
    }
    MoveIsSorted(ids, m, w, s'.workers[w]);
  }

  // ---- Producer steps, and whole runs ----

  lemma TurnIsSorted(ids: set<string>, s: System, s': System)
    requires AllSorted(ids, s) && s'.store == s.store && s'.lineage == s.lineage && s'.workers == s.workers
    requires NoneRetried(ids, s')
    ensures AllSorted(ids, s')
  {
    assert Keeps(ids, s, s');
    OthersStaySorted(ids, s, s');
    forall id | id in s'.store.tasks ensures Sorted(ids, s', s'.store.tasks[id].task) {
      SortedStays(ids, s, s', s.store.tasks[id].task);
    }
  }

  lemma ProducerStepIsSorted(ids: set<string>, c: Config, s: System, step: Step)
    requires Consistent(c, s) && AllSorted(ids, s) && ProducerEnabled(s, step) && Spares(ids, s, step)
    ensures AllSorted(ids, ProducerApply(c, s, step))
  {
    if step.StoreTask? {
      StoreIsSorted(ids, c, s, step.p, step.fault);
    } else if step.SaveFailure? {
      FailureIsSorted(ids, c, s, step.p, step.fault);
    } else if step.RemoveTask? {
      RemovalIsSorted(ids, s, step.id);
    } else {
      TurnChangesLittle(ids, c, s, step);
      TurnIsSorted(ids, s, ProducerApply(c, s, step));
    }
  }

  lemma TurnChangesLittle(ids: set<string>, c: Config, s: System, step: Step)
    requires ProducerEnabled(s, step) && Spares(ids, s, step) && NoneRetried(ids, s) && Recorded(c, s)
    requires !step.StoreTask? && !step.SaveFailure? && !step.RemoveTask?
    ensures
      var s' := ProducerApply(c, s, step);
      && s'.store == s.store && s'.lineage == s.lineage && s'.workers == s.workers && NoneRetried(ids, s')
  {
    if step.RetryById? {
      assert RecordedAt(c, s, step.id);
      OneTurn(ids, s, step.p, ProducerApply(c, s, step).producers[step.p]);
    } else {
      QuietTurn(ids, c, s, step);
    }
  }

  lemma OneTurn(ids: set<string>, s: System, p: Id, x: Producer)
    requires NoneRetried(ids, s) && (x.Storing? && x.write.kind.Retrying? ==> x.write.next.id !in ids)
    ensures NoneRetried(ids, Turned(s, p, x))
  {
  }

  lemma QuietTurn(ids: set<string>, c: Config, s: System, step: Step)
    requires ProducerEnabled(s, step) && NoneRetried(ids, s)
    requires step.Advance? || step.Enqueue? || step.Reenqueue? || step.Publish?
    ensures
      var s' := ProducerApply(c, s, step);
      && s'.store == s.store && s'.lineage == s.lineage && s'.workers == s.workers && NoneRetried(ids, s')
  {
  }

  lemma FailureIsSorted(ids: set<string>, c: Config, s: System, p: Id, f: Fault)
    requires Consistent(c, s) && AllSorted(ids, s) && Of(s, p).Failing?
    ensures AllSorted(ids, ProducerApply(c, s, SaveFailure(p, f)))
  {
    ProducerWriteIsSorted(ids, c, s, p, Of(s, p).write, f, ProducerApply(c, s, SaveFailure(p, f)));
  }

  lemma StoreIsSorted(ids: set<string>, c: Config, s: System, p: Id, f: Fault)
    requires Consistent(c, s) && AllSorted(ids, s) && Of(s, p).Storing?
    ensures AllSorted(ids, ProducerApply(c, s, StoreTask(p, f)))
  {
    ProducerWriteIsSorted(ids, c, s, p, Of(s, p).write, f, ProducerApply(c, s, StoreTask(p, f)));
  }

  lemma ProducerWriteIsSorted(ids: set<string>, c: Config, s: System, p: Id, wr: Write, f: Fault, s': System)
    requires Consistent(c, s) && AllSorted(ids, s)
    requires p in s.producers && (s.producers[p] == Storing(wr) || s.producers[p] == Failing(wr))
    requires exists x: Producer :: !x.Storing? && s' == Turned(AfterWrite(s, wr, f), p, x)
    ensures AllSorted(ids, s')
  {
    assert ProducerOk(c, s.store, s.producers[p]);
    WriteIsSorted(ids, c, s, wr, f);
    TurnIsSorted(ids, AfterWrite(s, wr, f), s');
  }

  lemma {:induction false} RunIsSorted(ids: set<string>, c: Config, s: System, steps: seq<Step>)
    requires Initial(s) && SparingRun(ids, c, s, steps)
    ensures AllSorted(ids, After(c, s, steps))
  {
    if steps != [] {
      RunIsSorted(ids, c, s, steps[..|steps| - 1]);
      RunIsConsistent(c, s, steps[..|steps| - 1]);
      SortedOneMore(ids, c, After(c, s, steps[..|steps| - 1]), steps[|steps| - 1]);
    }
  }

  lemma SortedOneMore(ids: set<string>, c: Config, s: System, step: Step)
    requires Consistent(c, s) && AllSorted(ids, s) && Spares(ids, s, step)
    ensures Enabled(s, step) ==> AllSorted(ids, Apply(c, s, step))
  {
    if WorkerEnabled(s, step) { WorkerStepIsSorted(ids, c, s, step); }
    else if ProducerEnabled(s, step) { ProducerStepIsSorted(ids, c, s, step); }
  }

  /** If neither a task nor any of its dependencies is retried by hand, deleted or discarded,
      whatever happens to other tasks, then when its handler starts all its dependencies are
      completed at that moment, with all results loaded if wanted, unless its queue item had
      once been reported as not created. */
  lemma StartedMeansCleared(c: Config, s: System, steps: seq<Step>, start: Step)
    requires Initial(s) && StartsHandler(After(c, s, steps), start)
    requires SparingRun(Family(At(After(c, s, steps), start.w).write.next), c, s, steps)
    ensures
      var e := After(c, s, steps);
      var t := At(e, start.w).write.next;
      Cleared(e.store, t) || Troubled(e.lineage, t.id)
  {
    StartIsSorted(c, s, steps, start);
  }

  /** Exactly when a starting task is cleared, read off its record at that moment: it has no
      dependencies, its item was never reported as not created, or its dependencies happen
      to be completed and it wants no results or has them. */
  lemma ClearedExactly(c: Config, s: System, steps: seq<Step>, start: Step)
    requires Initial(s) && StartsHandler(After(c, s, steps), start)
    requires SparingRun(Family(At(After(c, s, steps), start.w).write.next), c, s, steps)
    ensures
      var e := After(c, s, steps);
      var t := At(e, start.w).write.next;
      Cleared(e.store, t) <==>
        || t.deps == []
        || !Troubled(e.lineage, t.id)
        || (AllCompleted(e.store, t.deps) && (t.loadDeps ==> t.depResults != map[]))
  {
    StartIsSorted(c, s, steps, start);
    var e := After(c, s, steps);
    var t := At(e, start.w).write.next;
    if Cleared(e.store, t) && t.deps != [] && t.loadDeps {
      assert t.deps[0] in t.depResults;
    }
  }

  /** What the starting task and its record are known to satisfy. */
  lemma StartIsSorted(c: Config, s: System, steps: seq<Step>, start: Step)
    requires Initial(s) && StartsHandler(After(c, s, steps), start)
    requires SparingRun(Family(At(After(c, s, steps), start.w).write.next), c, s, steps)
    ensures
      var e := After(c, s, steps);
      var t := At(e, start.w).write.next;
      && (Cleared(e.store, t) || Troubled(e.lineage, t.id))
      && (t.loadDeps ==> t.depResults == map[] || Complete(e.store, t.depResults, t.deps))
  {
    var e := After(c, s, steps);
    var t := At(e, start.w).write.next;
    RunIsSorted(Family(t), c, s, steps);
    RunIsConsistent(c, s, steps);
    assert WorkerOk(c, e.store, At(e, start.w)) && WorkerSorted(Family(t), e, At(e, start.w));
    assert Covered(Family(t), t);
  }

  // ---- When a report of a failed publish can be trusted ----

  /** The task is enqueued once, and a publish of it reported as failed leaves no item. */
  predicate Trusted(id: string, s: System, step: Step) {
    match step
    case Reenqueue(_, n) => 1 <= n <= |s.written| ==> s.written[n - 1].id != id
    case Publish(p, r) => Of(s, p).Publishing? && Of(s, p).task.id == id ==> !r.PublishedUnnoticed?
    case _ => true
  }

  predicate TrustedRun(id: string, c: Config, s: System, steps: seq<Step>) {
    steps == [] ||
      (var init := steps[..|steps| - 1];
       TrustedRun(id, c, s, init) && Trusted(id, After(c, s, init), steps[|steps| - 1]))
  }

  predicate Holds(x: Worker, id: string) {
    !x.Idle? && x.item.id == id
  }

  /** No item of this task is queued or in anyone's hands. */
  predicate Untouched(s: System, id: string) {
    id !in s.queue && forall w :: w in s.workers ==> !Holds(s.workers[w], id)
  }

  predicate Pushes(x: Producer, id: string) {
    (x.Publishing? && x.task.id == id) || (x.Failing? && x.write.next.id == id)
  }

  /** What a producer may be doing with the task: storing it for the first time, or being
      alone in adding its item. */
  predicate Candid(s: System, id: string, p: Id)
    requires p in s.producers
  {
    var x := s.producers[p];
    && (x.Storing? && x.write.next.id == id ==> x.write.kind.Creating?)
    && (Pushes(x, id) ==>
          && id in s.store.tasks && Untouched(s, id) && (x.Publishing? ==> !Troubled(s.lineage, id))
          && forall q :: q in s.producers && q != p ==> !Pushes(s.producers[q], id))
  }

  /** An item of the task exists only if it is stored, past its publish and never in trouble. */
  ghost predicate Truthful(id: string, s: System) {
    && (id !in s.store.tasks || Troubled(s.lineage, id) ==> Untouched(s, id))
    && forall p :: p in s.producers ==> Candid(s, id, p)
  }

  /** Workers only let go of items or are handed queued ones. */
  ghost predicate LetsGo(id: string, s: System, s': System) {
    && (id in s'.queue ==> id in s.queue)
    && forall w :: w in s'.workers && Holds(s'.workers[w], id) ==>
         (w in s.workers && Holds(s.workers[w], id)) || id in s.queue
  }

  lemma LettingGoIsTruthful(id: string, s: System, s': System)
    requires Truthful(id, s) && LetsGo(id, s, s') && s'.producers == s.producers
    requires id in s'.store.tasks <==> id in s.store.tasks
    requires Troubled(s'.lineage, id) ==> Troubled(s.lineage, id)
    ensures Truthful(id, s')
  {
    assert Untouched(s, id) ==> Untouched(s', id);
    forall p | p in s'.producers ensures Candid(s', id, p) { assert Candid(s, id, p); }
  }

  lemma WorkerStepIsTruthful(id: string, c: Config, s: System, step: Step)
    requires Consistent(c, s) && Truthful(id, s) && WorkerEnabled(s, step) && Spares({id}, s, step)
    ensures Truthful(id, WorkerApply(c, s, step))
  {
    WorkerKeepsItem(id, c, s, step);
    WorkerWriteEffect(id, c, s, step);
    LettingGoIsTruthful(id, s, WorkerApply(c, s, step));
  }

  lemma WorkerKeepsItem(id: string, c: Config, s: System, step: Step)
    requires WorkerEnabled(s, step)
    ensures LetsGo(id, s, WorkerApply(c, s, step)) && WorkerApply(c, s, step).producers == s.producers
  {
  }

  lemma WorkerWriteEffect(id: string, c: Config, s: System, step: Step)
    requires Consistent(c, s) && WorkerEnabled(s, step) && Spares({id}, s, step)
    ensures
      var s' := WorkerApply(c, s, step);
      && (id in s'.store.tasks <==> id in s.store.tasks)
      && (Troubled(s'.lineage, id) ==> Troubled(s.lineage, id))
  {
    assert Enabled(s, step) && WorkerApply(c, s, step) == Apply(c, s, step);
    StoreEffect(c, s, step);
    if step.Save? && WriteOf(c, s, step).Some? {
      assert WorkerOk(c, s.store, At(s, step.w));
      SaveEffect(id, c, s, At(s, step.w).write, step.fault);
    }
  }

  lemma SaveEffect(id: string, c: Config, s: System, wr: Write, f: Fault)
    requires WriteOk(c, s.store, wr) && !wr.kind.Creating? && !wr.kind.QueueFailing?
    ensures
      var s' := AfterWrite(s, wr, f);
      && (id in s'.store.tasks <==> id in s.store.tasks)
      && (Troubled(s'.lineage, id) ==> Troubled(s.lineage, id))
  {
    if Troubled(AfterWrite(s, wr, f).lineage, id) { WriteAddsKind(s, wr, f, id); }
  }

  lemma WriteAddsKind(s: System, wr: Write, f: Fault, id: string)
    requires Troubled(AfterWrite(s, wr, f).lineage, id)
    ensures Troubled(s.lineage, id) || (id == wr.next.id && wr.kind.QueueFailing? && Applied(s, wr, f))
  {
    var s' := AfterWrite(s, wr, f);
    var i :| 0 <= i < |s'.lineage[id]| && s'.lineage[id][i].kind.QueueFailing?;
    if i < |History(s, id)| { assert History(s, id)[i] == s'.lineage[id][i]; }
  }

  /** Frame for a producer's turn: queue and workers do not move. */
  lemma ProducerTurnIsTruthful(id: string, s: System, s': System, p: Id)
    requires Truthful(id, s) && p in s'.producers && s'.producers == s.producers[p := s'.producers[p]]
    requires s'.workers == s.workers && (id in s'.queue <==> id in s.queue)
    requires id in s.store.tasks ==> id in s'.store.tasks
    requires Troubled(s'.lineage, id) ==> Troubled(s.lineage, id) || Untouched(s, id)
    requires forall q :: q in s.producers && q != p && s.producers[q].Publishing? && s.producers[q].task.id == id ==>
               Troubled(s'.lineage, id) ==> Troubled(s.lineage, id)
    requires Candid(s', id, p)
    requires Pushes(s'.producers[p], id) ==> forall q :: q in s.producers && q != p ==> !Pushes(s.producers[q], id)
    ensures Truthful(id, s')
  {
    assert Untouched(s, id) ==> Untouched(s', id);
    forall q | q in s'.producers && q != p ensures Candid(s', id, q) { assert Candid(s, id, q); }
  }

  /** A first store is accepted only for an id that is not stored. */
  lemma CreationIsNew(id: string, c: Config, s: System, p: Id, f: Fault)
    requires Consistent(c, s) && Truthful(id, s) && Of(s, p).Storing?
    requires Applied(s, Of(s, p).write, f) && Of(s, p).write.next.id == id
    ensures id !in s.store.tasks && Untouched(s, id) && !Troubled(s.lineage, id)
    ensures forall q :: q in s.producers ==> !Pushes(s.producers[q], id)
  {
    assert ProducerOk(c, s.store, Of(s, p)) && Candid(s, id, p);
    assert id !in s.store.tasks;
    forall q | q in s.producers ensures !Pushes(s.producers[q], id) { assert Candid(s, id, q); }
  }

  lemma StoreAddsNoTrouble(id: string, c: Config, s: System, p: Id, f: Fault)
    requires Consistent(c, s) && Of(s, p).Storing?
    ensures
      var s' := ProducerApply(c, s, StoreTask(p, f));
      && (id in s.store.tasks ==> id in s'.store.tasks) && (Troubled(s'.lineage, id) ==> Troubled(s.lineage, id))
  {
    assert ProducerOk(c, s.store, Of(s, p));
    if Troubled(ProducerApply(c, s, StoreTask(p, f)).lineage, id) { WriteAddsKind(s, Of(s, p).write, f, id); }
  }

  lemma StoreIsTruthful(id: string, c: Config, s: System, p: Id, f: Fault)
    requires Consistent(c, s) && Truthful(id, s) && Of(s, p).Storing?
    ensures Truthful(id, ProducerApply(c, s, StoreTask(p, f)))
  {
    var wr, s' := Of(s, p).write, ProducerApply(c, s, StoreTask(p, f));
    StoreAddsNoTrouble(id, c, s, p, f);
    if Applied(s, wr, f) && wr.next.id == id { CreationIsNew(id, c, s, p, f); }
    assert Untouched(s, id) ==> Untouched(s', id);
    ProducerTurnIsTruthful(id, s, s', p);
  }

  lemma PublishIsTruthful(id: string, c: Config, s: System, p: Id, r: PublishResult)
    requires Truthful(id, s) && Of(s, p).Publishing? && Trusted(id, s, Publish(p, r))
    ensures Truthful(id, AfterPublish(s, p, Of(s, p), r))
  {
    var s' := AfterPublish(s, p, Of(s, p), r);
    assert Candid(s, id, p);
    assert !(Of(s, p).task.id == id && r.Published?) && Untouched(s, id) ==> Untouched(s', id);
    forall q | q in s'.producers && q != p ensures Candid(s', id, q) { assert Candid(s, id, q); }
    assert Candid(s', id, p);
  }

  lemma FailureIsTruthful(id: string, c: Config, s: System, p: Id, f: Fault)
    requires Consistent(c, s) && Truthful(id, s) && Of(s, p).Failing?
    ensures Truthful(id, ProducerApply(c, s, SaveFailure(p, f)))
  {
    var wr, s' := Of(s, p).write, ProducerApply(c, s, SaveFailure(p, f));
    assert Candid(s, id, p);
    if Troubled(s'.lineage, id) { WriteAddsKind(s, wr, f, id); }
    ProducerTurnIsTruthful(id, s, s', p);
  }

  /** The producer steps that touch neither store nor queue. */
  lemma QuietTurnIsTruthful(id: string, c: Config, s: System, step: Step)
    requires Consistent(c, s) && Truthful(id, s) && ProducerEnabled(s, step) && Spares({id}, s, step)
    requires Trusted(id, s, step)
    requires step.Enqueue? || step.RetryById? || step.Reenqueue?
    ensures Truthful(id, ProducerApply(c, s, step))
  {
    assert step.RetryById? ==> RecordedAt(c, s, step.id);
    ProducerTurnIsTruthful(id, s, ProducerApply(c, s, step), step.p);
  }

  lemma RemovalIsTruthful(id: string, s: System, j: string)
    requires Truthful(id, s) && j != id
    ensures Truthful(id, Removed(s, j))
  {
    LettingGoIsTruthful(id, s, Removed(s, j));
  }

  lemma ProducerStepIsTruthful(id: string, c: Config, s: System, step: Step)
    requires Consistent(c, s) && Truthful(id, s) && ProducerEnabled(s, step) && Spares({id}, s, step)
    requires Trusted(id, s, step)
    ensures Truthful(id, ProducerApply(c, s, step))
  {
    match step
    case StoreTask(p, f) => StoreIsTruthful(id, c, s, p, f);
    case Publish(p, r) => PublishIsTruthful(id, c, s, p, r);
    case SaveFailure(p, f) => FailureIsTruthful(id, c, s, p, f);
    case RemoveTask(j) => RemovalIsTruthful(id, s, j);
    case Advance(_) => LettingGoIsTruthful(id, s, ProducerApply(c, s, step));
    case Enqueue(_, _) => QuietTurnIsTruthful(id, c, s, step);
    case RetryById(_, _) => QuietTurnIsTruthful(id, c, s, step);
    case Reenqueue(_, _) => QuietTurnIsTruthful(id, c, s, step);
  }

  lemma TruthfulOneMore(id: string, c: Config, s: System, step: Step)
    requires Consistent(c, s) && Truthful(id, s) && Spares({id}, s, step) && Trusted(id, s, step)
    ensures Enabled(s, step) ==> Truthful(id, Apply(c, s, step))
  {
    if WorkerEnabled(s, step) { WorkerStepIsTruthful(id, c, s, step); }
    else if ProducerEnabled(s, step) { ProducerStepIsTruthful(id, c, s, step); }
  }

  lemma {:induction false} RunIsTruthful(id: string, c: Config, s: System, steps: seq<Step>, ids: set<string>)
    requires Initial(s) && id in ids && SparingRun(ids, c, s, steps) && TrustedRun(id, c, s, steps)
    ensures Truthful(id, After(c, s, steps))
  {
    if steps != [] {
      var init := steps[..|steps| - 1];
      RunIsTruthful(id, c, s, init, ids);
      RunIsConsistent(c, s, init);
      TruthfulOneMore(id, c, After(c, s, init), steps[|steps| - 1]);
    }
  }

  /** If moreover the task itself is enqueued once and a publish of it reported as failed
      left no item behind, then whenever its handler starts all its dependencies are
      completed in the store at that same moment, and if the task loads results its map has
      exactly the dependency ids as keys, each with a result. */
  lemma DependencySafety(c: Config, s: System, steps: seq<Step>, start: Step)
    requires Initial(s) && StartsHandler(After(c, s, steps), start)
    requires
      var t := At(After(c, s, steps), start.w).write.next;
      SparingRun(Family(t), c, s, steps) && TrustedRun(t.id, c, s, steps)
    ensures Cleared(After(c, s, steps).store, At(After(c, s, steps), start.w).write.next)
  {
    StartedMeansCleared(c, s, steps, start);
    var e := After(c, s, steps);
    var x := At(e, start.w);
    RunIsTruthful(x.write.next.id, c, s, steps, Family(x.write.next));
    RunIsConsistent(c, s, steps);
    assert WorkerOk(c, e.store, x);
    assert Holds(x, x.write.next.id);
  }

  // ---- Why the proviso is needed ----

  /** A task that waits for a parent nobody has created. */
  const ORPHAN := Task("t", "mail", "", ["parent"], map[], false, [], None, 10, None, Blocked, 0, None, 0, "", "")

  /** `e` is reached from `s` with these tasks spared. */
  ghost predicate Reached(ids: set<string>, c: Config, s: System, steps: seq<Step>, e: System) {
    SparingRun(ids, c, s, steps) && e == After(c, s, steps)
  }

  lemma Go(ids: set<string>, c: Config, s: System, steps: seq<Step>, e: System, step: Step)
    returns (steps': seq<Step>, e': System)
    requires Reached(ids, c, s, steps, e) && Spares(ids, e, step) && Enabled(e, step)
    ensures Reached(ids, c, s, steps', e') && e' == Apply(c, e, step)
  {
    steps' := steps + [step];
    e' := After(c, s, steps');
    AfterOneMore(c, s, steps, step);
    assert steps'[..|steps'| - 1] == steps;
  }

  lemma OrphanStored(ids: set<string>, c: Config) returns (s: System, steps: seq<Step>, e: System)
    ensures Initial(s) && Reached(ids, c, s, steps, e) && e.workers == map[0 := Idle] && e.nextItem == 0
    ensures e.store == Store(map["t" := Stored(ORPHAN.(queue := c.queue), 1)], 1) && e.queue == map[]
    ensures e.producers == map[0 := Publishing(ORPHAN.(queue := c.queue), 1)]
  {
    var t := ORPHAN.(queue := c.queue);
    s := System(0, Store(map[], 0), map[], [], map[], 0, map[0 := Idle], map[0 := Free]);
    var t1, e1 := Go(ids, c, s, [], s, Enqueue(0, ORPHAN));
    assert e1 == Turned(s, 0, Storing(Write(t, 0, t, Creating)));
    steps, e := Go(ids, c, s, t1, e1, StoreTask(0, Delivered));
    assert e == Turned(WithVersion(e1, Write(t, 0, t, Creating)), 0, Publishing(t, 1));
  }

  /** The orphan's item is added, but the answer to the publish is lost, and the producer
      records a queue error. */
  lemma UnnoticedPublish(ids: set<string>, c: Config) returns (s: System, steps: seq<Step>, e: System)
    ensures Initial(s) && Reached(ids, c, s, steps, e) && e.queue == map["t" := 0] && e.workers == map[0 := Idle]
    ensures e.store.tasks.Keys == {"t"} && e.store.tasks["t"].seqNo == 2
    ensures e.store.tasks["t"].task == QueueFailed(ORPHAN.(queue := c.queue), "timeout")
  {
    var t := ORPHAN.(queue := c.queue);
    var t1, e1;
    s, t1, e1 := OrphanStored(ids, c);
    var t2, e2 := Go(ids, c, s, t1, e1, Publish(0, PublishedUnnoticed("timeout")));
    assert e2 == AfterPublish(e1, 0, Publishing(t, 1), PublishedUnnoticed("timeout"));
    var wr := Write(t, 1, QueueFailed(t, "timeout"), QueueFailing);
    steps, e := Go(ids, c, s, t2, e2, SaveFailure(0, Delivered));
    assert e == Turned(WithVersion(e2, wr), 0, Free);
  }

  /** The item's delivery finds that state. */
  lemma OrphanTakenUp(ids: set<string>, c: Config, s: System, steps: seq<Step>, e: System, v: Stored)
    returns (steps': seq<Step>, e': System)
    requires Reached(ids, c, s, steps, e) && e.queue == map["t" := 0] && e.workers == map[0 := Idle]
    requires e.store.tasks == map["t" := v] && v.task == QueueFailed(ORPHAN.(queue := c.queue), "timeout")
    ensures Reached(ids, c, s, steps', e') && e'.store == e.store
    ensures e'.workers == map[0 := ToActivate(Item("t", 0), v.task, v.seqNo, v.task.depResults, e.now)]
  {
    var item := Item("t", 0);
    var t1, e1 := Go(ids, c, s, steps, e, Deliver(0, "t"));
    assert e1 == Moved(e, 0, Got(item));
    var t2, e2 := Go(ids, c, s, t1, e1, Load(0, false));
    assert e2 == Moved(e1, 0, Loaded(item, v.task, v.seqNo));
    steps', e' := Go(ids, c, s, t2, e2, Decide(0, 0));
    assert e' == Moved(e2, 0, ToActivate(item, v.task, v.seqNo, v.task.depResults, e.now));
  }

  /** Without the proviso dependency safety fails: the delivered task, being in the state
      of a queue error rather than blocked, starts although its parent does not exist. */
  lemma QueueErrorSkipsDependencies(c: Config) returns (s: System, steps: seq<Step>, start: Step)
    ensures Initial(s) && StartsHandler(After(c, s, steps), start)
    ensures
      var e := After(c, s, steps);
      var t := At(e, start.w).write.next;
      SparingRun(Family(t), c, s, steps) && !TrustedRun(t.id, c, s, steps) && !Cleared(e.store, t)
  {
    var ids := {"t", "parent"};
    var e;
    s, steps, e := UnnoticedPublish(ids, c);
    steps, e := OrphanTakenUp(ids, c, s, steps, e, e.store.tasks["t"]);
    start := Save(0, Delivered);
    var t := At(e, 0).write.next;
    assert t.deps == ["parent"] && Family(t) == ids;
    assert !CompletedIn(e.store, t.deps[0]);
    if TrustedRun(t.id, c, s, steps) {
      DependencySafety(c, s, steps, start);
      assert false;
    }
  }
}

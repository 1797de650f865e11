/**
  Every run of the task system keeps a linear history per task: whatever a worker or
  producer holds is a version that was really stored, and since a write is accepted
  only against the current version, each stored version follows from the one before.
 */
module TaskHistory {
  import opened Prelude
  import opened Tasks
  import opened Lineage
  import opened TaskStore
  import opened TaskSystem

  /** A copy held in memory is the version stored under its sequence number. */
  predicate Held(st: Store, base: Task, seqNo: nat) {
    && 1 <= seqNo <= st.lastSeq
    && (base.id in st.tasks && st.tasks[base.id].seqNo == seqNo ==> st.tasks[base.id].task == base)
  }

  ghost predicate WriteOk(c: Config, st: Store, w: Write) {
    if w.kind.Creating? then w.seqNo == 0 && Fresh(w.next) && w.next.queue == c.queue
    else Held(st, w.base, w.seqNo) && w.next.id == w.base.id && Follows(c, w.base, w.kind, w.next)
  }

  ghost predicate WorkerOk(c: Config, st: Store, x: Worker) {
    match x
    case Idle => true
    case Got(_) => true
    case Loaded(item, base, seqNo) => Held(st, base, seqNo) && item.id == base.id
    case Resolving(item, base, seqNo, _, _, _) =>
      && Held(st, base, seqNo) && item.id == base.id && base.state.Blocked? && base.deps != []
      && (base.maxTries > 0 ==> base.tries < base.maxTries)
    case Writing(item, w, _) =>
      && WriteOk(c, st, w) && item.id == w.base.id
      && (w.kind.Activating? || w.kind.Concluding? || w.kind.Expiring? || w.kind.Abandoning?)
    case Running(item, base, seqNo) => Held(st, base, seqNo) && item.id == base.id && base.state.Active?
    case Discarding(_, seqNo, read, _) => 1 <= read <= st.lastSeq && seqNo <= st.lastSeq
    case Settling(item, _, f) =>
      f.Some? ==> WriteOk(c, st, f.value) && f.value.kind.Abandoning? && item.id == f.value.base.id
  }

  ghost predicate ProducerOk(c: Config, st: Store, x: Producer) {
    match x
    case Free => true
    case Storing(w) => WriteOk(c, st, w) && Enqueueable(w.next)
        && (w.kind.Creating? || w.kind.Retrying? || w.kind.Reenqueueing?)
    case Publishing(t, seqNo) => Held(st, t, seqNo) && Enqueueable(t)
    case Failing(w) => WriteOk(c, st, w) && w.kind.QueueFailing?
  }

  ghost predicate RecordedAt(c: Config, s: System, id: string)
    requires id in s.store.tasks && id in s.lineage
  {
    var l := s.lineage[id];
    && Linear(c, l)
    && s.store.tasks[id] == Stored(l[|l| - 1].task, l[|l| - 1].seqNo)
    && s.store.tasks[id].task.id == id
    && 1 <= s.store.tasks[id].seqNo <= |s.written|
    && s.written[s.store.tasks[id].seqNo - 1] == s.store.tasks[id].task
  }

  ghost predicate Recorded(c: Config, s: System) {
    && s.lineage.Keys == s.store.tasks.Keys && |s.written| == s.store.lastSeq
    && forall id :: id in s.store.tasks ==> RecordedAt(c, s, id)
  }

  ghost predicate Consistent(c: Config, s: System) {
    && Recorded(c, s)
    && (forall w :: w in s.workers ==> WorkerOk(c, s.store, s.workers[w]))
    && (forall p :: p in s.producers ==> ProducerOk(c, s.store, s.producers[p]))
  }

  // ---- Copies stay good while the store moves on ----

  /** Later stores keep a version or replace it by one with a larger number. */
  predicate Succeeds(st: Store, st': Store) {
    && st.lastSeq <= st'.lastSeq
    && forall id :: id in st'.tasks ==>
         (id in st.tasks && st'.tasks[id] == st.tasks[id]) || st'.tasks[id].seqNo > st.lastSeq
  }

  lemma OthersStayOk(c: Config, s: System, st': Store)
    requires Consistent(c, s) && Succeeds(s.store, st')
    ensures forall w :: w in s.workers ==> WorkerOk(c, st', s.workers[w])
    ensures forall p :: p in s.producers ==> ProducerOk(c, st', s.producers[p])
  {
    forall w | w in s.workers ensures WorkerOk(c, st', s.workers[w]) {
      assert WorkerOk(c, s.store, s.workers[w]);
    }
    forall p | p in s.producers ensures ProducerOk(c, st', s.producers[p]) {
      assert ProducerOk(c, s.store, s.producers[p]);
    }
  }

  lemma WrittenIsRecorded(c: Config, s: System, w: Write)
    requires Recorded(c, s) && WriteOk(c, s.store, w) && Acceptable(s, w)
    ensures RecordedAt(c, WithVersion(s, w), w.next.id)
  {
    LineGrows(c, s, w);
  }

  lemma LineGrows(c: Config, s: System, w: Write)
    requires Recorded(c, s) && WriteOk(c, s.store, w) && Acceptable(s, w)
    ensures Linear(c, History(s, w.next.id) + [Version(w.next, s.store.lastSeq + 1, w.kind)])
  {
    if w.next.id in s.store.tasks {
      assert RecordedAt(c, s, w.next.id);
      LinearAppend(c, s.lineage[w.next.id], Version(w.next, s.store.lastSeq + 1, w.kind));
    }
  }

  lemma OthersStayRecorded(c: Config, s: System, w: Write, id: string)
    requires Recorded(c, s) && id in s.store.tasks && id != w.next.id
    ensures RecordedAt(c, WithVersion(s, w), id)
  {
    assert RecordedAt(c, s, id);
  }

  lemma WriteSucceeds(s: System, w: Write, f: Fault)
    ensures Succeeds(s.store, AfterWrite(s, w, f).store)
  {
  }

  lemma WriteIsRecorded(c: Config, s: System, w: Write, f: Fault)
    requires Recorded(c, s) && WriteOk(c, s.store, w)
    ensures Recorded(c, AfterWrite(s, w, f))
  {
    if Applied(s, w, f) {
      var s' := WithVersion(s, w);
      assert s'.lineage.Keys == s'.store.tasks.Keys;
      forall id | id in s'.store.tasks ensures RecordedAt(c, s', id) {
        if id == w.next.id { WrittenIsRecorded(c, s, w); } else { OthersStayRecorded(c, s, w, id); }
      }
    }
  }

  lemma RemovalIsRecorded(c: Config, s: System, id: string)
    requires Recorded(c, s)
    ensures Recorded(c, Removed(s, id)) && Succeeds(s.store, Removed(s, id).store)
  {
    var s' := Removed(s, id);
    forall j | j in s'.store.tasks ensures RecordedAt(c, s', j) { assert RecordedAt(c, s, j); }
  }

  // ---- Each step ----

  lemma DecideIsOk(c: Config, st: Store, x: Worker, checked: int, now: int)
    requires x.Loaded? && WorkerOk(c, st, x) && checked <= now
    ensures WorkerOk(c, st, AfterDecide(c, x.item, x.base, x.seqNo, checked, now))
  {
    assert x.base.(depResults := x.base.depResults) == x.base;
  }

  lemma ResolveIsOk(c: Config, s: System, x: Worker, fails: bool)
    requires x.Resolving? && WorkerOk(c, s.store, x)
    ensures WorkerOk(c, s.store, AfterResolve(s, x, fails))
  {
  }

  lemma FinishIsOk(c: Config, s: System, x: Worker, o: Outcome)
    requires x.Running? && WorkerOk(c, s.store, x)
    ensures WorkerOk(c, s.store, AfterFinish(c, s, x, o))
  {
    var next := Concluded(c, x.base, o, s.now);
    assert ConcludedFrom(c, x.base, next);
  }

  lemma LoadIsOk(c: Config, s: System, item: Item, fails: bool)
    requires Recorded(c, s)
    ensures WorkerOk(c, s.store, AfterLoad(s, item, fails))
  {
    if item.id in s.store.tasks { assert RecordedAt(c, s, item.id); }
  }

  lemma WriteIsConsistent(c: Config, s: System, w: Write, f: Fault)
    requires Consistent(c, s) && WriteOk(c, s.store, w)
    ensures Consistent(c, AfterWrite(s, w, f))
  {
    WriteIsRecorded(c, s, w, f);
    WriteSucceeds(s, w, f);
    OthersStayOk(c, s, AfterWrite(s, w, f).store);
  }

  lemma MoveIsOk(c: Config, s: System, w: Id, x: Worker)
    requires Consistent(c, s) && WorkerOk(c, s.store, x)
    ensures Consistent(c, Moved(s, w, x))
  {
    var s' := Moved(s, w, x);
    forall j | j in s'.store.tasks ensures RecordedAt(c, s', j) { assert RecordedAt(c, s, j); }
  }

  lemma SaveIsOk(c: Config, s: System, w: Id, f: Fault)
    requires Consistent(c, s) && At(s, w).Writing?
    ensures Consistent(c, AfterSave(c, s, w, At(s, w), f))
  {
    var x := At(s, w);
    assert WorkerOk(c, s.store, x);
    if Discards(c, x.write) {
      if x.write.next.id in s.store.tasks { assert RecordedAt(c, s, x.write.next.id); }
      MoveIsOk(c, s, w, DiscardPhase(s, x));
    } else {
      WriteIsConsistent(c, s, x.write, f);
      SavedPhaseIsOk(c, s, x, f);
      MoveIsOk(c, AfterWrite(s, x.write, f), w, SavedPhase(s, x, f));
    }
  }

  lemma SavedPhaseIsOk(c: Config, s: System, x: Worker, f: Fault)
    requires x.Writing? && WorkerOk(c, s.store, x)
    ensures WorkerOk(c, AfterWrite(s, x.write, f).store, SavedPhase(s, x, f))
  {
  }

  lemma DiscardIsOk(c: Config, s: System, w: Id)
    requires Consistent(c, s) && At(s, w).Discarding?
    ensures Consistent(c, Moved(AfterDiscard(s, At(s, w)), w, Settling(At(s, w).item, At(s, w).how, None)))
  {
    var x := At(s, w);
    RemovalIsRecorded(c, s, x.item.id);
    OthersStayOk(c, s, AfterDiscard(s, x).store);
    MoveIsOk(c, AfterDiscard(s, x), w, Settling(x.item, x.how, None));
  }

  lemma SettleIsOk(c: Config, s: System, w: Id, f: Fault)
    requires Consistent(c, s) && At(s, w).Settling?
    ensures Consistent(c, AfterSettle(s, w, At(s, w), f))
  {
    var s' := AfterSettle(s, w, At(s, w), f);
    assert WorkerOk(c, s.store, At(s, w));
    forall j | j in s'.store.tasks ensures RecordedAt(c, s', j) { assert RecordedAt(c, s, j); }
  }

  lemma PhaseIsOk(c: Config, s: System, step: Step)
    requires Consistent(c, s) && Plain(step) && WorkerEnabled(s, step)
    ensures WorkerOk(c, s.store, NextPhase(c, s, step))
  {
    var x := At(s, step.w);
    assert WorkerOk(c, s.store, x);
    match step
    case Deliver(_, _) =>
    case Load(_, fails) => LoadIsOk(c, s, x.item, fails);
    case Decide(_, ago) => DecideIsOk(c, s.store, x, s.now - ago, s.now);
    case Resolve(_, fails) => ResolveIsOk(c, s, x, fails);
    case Finish(_, o) => FinishIsOk(c, s, x, o);
    case Crash(_) =>
  }

  lemma WorkerStepIsOk(c: Config, s: System, step: Step)
    requires Consistent(c, s) && WorkerEnabled(s, step)
    ensures Consistent(c, WorkerApply(c, s, step))
  {
    if Plain(step) {
      PhaseIsOk(c, s, step);
      MoveIsOk(c, s, step.w, NextPhase(c, s, step));
    } else {
      match step
      case Save(w, f) => SaveIsOk(c, s, w, f);
      case CommitDiscard(w) => DiscardIsOk(c, s, w);
      case Settle(w, f) => SettleIsOk(c, s, w, f);
    }
  }

  lemma TurnIsOk(c: Config, s: System, p: Id, x: Producer)
    requires Consistent(c, s) && ProducerOk(c, s.store, x)
    ensures Consistent(c, Turned(s, p, x))
  {
    var s' := Turned(s, p, x);
    forall j | j in s'.store.tasks ensures RecordedAt(c, s', j) { assert RecordedAt(c, s, j); }
  }

  lemma ProducerStepIsOk(c: Config, s: System, step: Step)
    requires Consistent(c, s) && ProducerEnabled(s, step)
    ensures Consistent(c, ProducerApply(c, s, step))
  {
    match step
    case Advance(_) =>
      var s' := ProducerApply(c, s, step);
      forall j | j in s'.store.tasks ensures RecordedAt(c, s', j) { assert RecordedAt(c, s, j); }
    case Enqueue(p, t) =>
      var t' := t.(queue := c.queue);
      TurnIsOk(c, s, p, Storing(Write(t', 0, t', Creating)));
    case RetryById(p, id) =>
      assert RecordedAt(c, s, id);
      var b := s.store.tasks[id];
      TurnIsOk(c, s, p, Storing(Write(b.task, b.seqNo, RetriedInto(b.task, c.queue), Retrying)));
    case Reenqueue(p, n) => ReenqueueIsOk(c, s, p, n);
    case StoreTask(p, f) => StoreIsOk(c, s, p, f);
    case Publish(p, r) => PublishIsOk(c, s, p, r);
    case SaveFailure(p, f) => FailureIsOk(c, s, p, f);
    case RemoveTask(id) =>
      RemovalIsRecorded(c, s, id);
      OthersStayOk(c, s, Removed(s, id).store);
  }

  lemma ReenqueueIsOk(c: Config, s: System, p: Id, n: nat)
    requires Consistent(c, s) && ProducerEnabled(s, Reenqueue(p, n))
    ensures Consistent(c, ProducerApply(c, s, Reenqueue(p, n)))
  {
    var b := s.written[n - 1];
    if b.id in s.store.tasks { assert RecordedAt(c, s, b.id); }
    TurnIsOk(c, s, p, Storing(Write(b, n, b.(queue := c.queue), Reenqueueing)));
  }

  lemma StoreIsOk(c: Config, s: System, p: Id, f: Fault)
    requires Consistent(c, s) && Of(s, p).Storing?
    ensures Consistent(c, ProducerApply(c, s, StoreTask(p, f)))
  {
    var w := Of(s, p).write;
    assert ProducerOk(c, s.store, Of(s, p));
    WriteIsConsistent(c, s, w, f);
    if Acceptable(s, w) && f.Delivered? { StorerIsOk(c, s, w, f); }
    var s' := AfterWrite(s, w, f);
    TurnIsOk(c, s', p, if Acceptable(s, w) && f.Delivered? then Publishing(w.next, s'.store.lastSeq) else Free);
  }

  lemma StorerIsOk(c: Config, s: System, w: Write, f: Fault)
    requires Enqueueable(w.next) && Acceptable(s, w) && f.Delivered?
    ensures ProducerOk(c, AfterWrite(s, w, f).store, Publishing(w.next, s.store.lastSeq + 1))
  {
  }

  lemma FailureIsOk(c: Config, s: System, p: Id, f: Fault)
    requires Consistent(c, s) && Of(s, p).Failing?
    ensures Consistent(c, ProducerApply(c, s, SaveFailure(p, f)))
  {
    assert ProducerOk(c, s.store, Of(s, p));
    WriteIsConsistent(c, s, Of(s, p).write, f);
    TurnIsOk(c, AfterWrite(s, Of(s, p).write, f), p, Free);
  }

  lemma QueueChangeIsOk(c: Config, s: System, q: map<string, nat>, n: nat)
    requires Consistent(c, s)
    ensures Consistent(c, s.(queue := q, nextItem := n))
  {
    var s' := s.(queue := q, nextItem := n);
    forall j | j in s'.store.tasks ensures RecordedAt(c, s', j) { assert RecordedAt(c, s, j); }
  }

  lemma PublishIsOk(c: Config, s: System, p: Id, r: PublishResult)
    requires Consistent(c, s) && Of(s, p).Publishing?
    ensures Consistent(c, AfterPublish(s, p, Of(s, p), r))
  {
    var s' := AfterPublish(s, p, Of(s, p), r);
    assert ProducerOk(c, s.store, Of(s, p));
    QueueChangeIsOk(c, s, s'.queue, s'.nextItem);
    TurnIsOk(c, s.(queue := s'.queue, nextItem := s'.nextItem), p, s'.producers[p]);
  }

  lemma StepIsConsistent(c: Config, s: System, step: Step)
    requires Consistent(c, s) && Enabled(s, step)
    ensures Consistent(c, Apply(c, s, step))
  {
    if WorkerEnabled(s, step) { WorkerStepIsOk(c, s, step); } else { ProducerStepIsOk(c, s, step); }
  }

  lemma {:induction false} RunIsConsistent(c: Config, s: System, steps: seq<Step>)
    requires Initial(s)
    ensures Consistent(c, After(c, s, steps))
  {
    if steps != [] {
      RunIsConsistent(c, s, steps[..|steps| - 1]);
      var before := After(c, s, steps[..|steps| - 1]);
      if Enabled(before, steps[|steps| - 1]) { StepIsConsistent(c, before, steps[|steps| - 1]); }
    }
  }

  // ---- What follows for every run ----

  /** In every run, with manual retries, duplicate deliveries, crashes, deletions and
      lost requests, the versions of each stored task form one line in which every
      version follows from its immediate predecessor. */
  lemma LinearHistory(c: Config, s: System, steps: seq<Step>, id: string)
    requires Initial(s) && id in After(c, s, steps).store.tasks
    ensures
      var e := After(c, s, steps);
      && id in e.lineage && Linear(c, e.lineage[id])
      && e.store.tasks[id].task == e.lineage[id][|e.lineage[id]| - 1].task
      && e.store.tasks[id].task.id == id
  {
    RunIsConsistent(c, s, steps);
    assert RecordedAt(c, After(c, s, steps), id);
  }

  /** Absorbing states over every run: after a version that was completed, expired or
      unreachable the very next one, if any, was written by a manual retry, and without
      such a retry it is the version stored now. */
  lemma AbsorbingStates(c: Config, s: System, steps: seq<Step>, id: string, i: nat)
    requires Initial(s) && id in After(c, s, steps).store.tasks
    requires id in After(c, s, steps).lineage && i < |After(c, s, steps).lineage[id]|
    requires Final(After(c, s, steps).lineage[id][i].task.state)
    ensures
      var l := After(c, s, steps).lineage[id];
      && (i + 1 < |l| ==> l[i + 1].kind.Retrying?)
      && ((forall k :: i < k < |l| ==> !l[k].kind.Retrying?) ==>
            i == |l| - 1 && After(c, s, steps).store.tasks[id].task == l[i].task)
  {
    LinearHistory(c, s, steps, id);
    FinalStays(c, After(c, s, steps).lineage[id], i);
  }

  /** Over every run: a stored outcome that is neither a completion nor a termination is
      expired if it used up the queue's tries and is to be retried if it did not. */
  lemma FailuresAreRetried(c: Config, s: System, steps: seq<Step>, id: string, i: nat)
    requires Initial(s) && id in After(c, s, steps).store.tasks
    requires id in After(c, s, steps).lineage && i < |After(c, s, steps).lineage[id]|
    requires After(c, s, steps).lineage[id][i].kind.Concluding?
    ensures
      var t := After(c, s, steps).lineage[id][i].task;
      || t.state in {Completed, Terminated}
      || t.state == (if c.queue != "" && t.tries == c.queueMaxTries then Expired else Retry)
  {
    LinearHistory(c, s, steps, id);
    OutcomeStates(c, After(c, s, steps).lineage[id], i);
  }

  /** Attempt accounting over every run: stored tries are the handler outcomes recorded,
      never more than a positive `maxTries`, and a result is stored exactly for a
      completed task. */
  lemma AttemptAccounting(c: Config, s: System, steps: seq<Step>, id: string)
    requires Initial(s) && id in After(c, s, steps).store.tasks
    ensures
      var e := After(c, s, steps);
      var t := e.store.tasks[id].task;
      && id in e.lineage
      && t.tries == Outcomes(e.lineage[id])
      && (t.maxTries > 0 ==> t.tries <= t.maxTries)
      && (t.result.Some? <==> t.state.Completed?)
  {
    LinearHistory(c, s, steps, id);
    LineageFacts(c, After(c, s, steps).lineage[id]);
  }
}

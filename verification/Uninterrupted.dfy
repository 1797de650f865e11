/**
  The processor's code without interference is a run of the task system: what
  `processMessage` and `handle` do to store and queue in one go is what one worker's
  steps do when nobody else moves.
 */
module Uninterrupted {
  import opened Prelude
  import opened Tasks
  import opened TaskStore
  import opened TaskSystem
  import Storage
  import P = Processor

  predicate OfWorker(step: Step, w: Id) {
    match step
    case Load(v, _) => v == w
    case Decide(v, _) => v == w
    case Resolve(v, _) => v == w
    case Save(v, _) => v == w
    case Finish(v, _) => v == w
    case CommitDiscard(v) => v == w
    case Settle(v, _) => v == w
    case _ => false
  }

  /** `e` is reached from `s` by steps of this worker alone. */
  ghost predicate Alone(c: Config, s: System, w: Id, steps: seq<Step>, e: System) {
    e == After(c, s, steps) && forall k :: 0 <= k < |steps| ==> OfWorker(steps[k], w)
  }

  lemma Go(c: Config, s: System, w: Id, steps: seq<Step>, e: System, step: Step) returns (steps': seq<Step>, e': System)
    requires Alone(c, s, w, steps, e) && OfWorker(step, w) && WorkerEnabled(e, step)
    ensures Alone(c, s, w, steps', e') && e' == WorkerApply(c, e, step)
  {
    steps' := steps + [step];
    e' := After(c, s, steps');
    AfterOneMore(c, s, steps, step);
  }

  /** Only store, lineage, queue and this worker changed. */
  predicate Same(e: System, e': System, w: Id) {
    e'.now == e.now && e'.producers == e.producers && e'.nextItem == e.nextItem && e'.workers - {w} == e.workers - {w}
  }

  function QueueAfter(q: map<string, nat>, item: Item, how: Settlement): map<string, nat> {
    if how.Ack? || how.Term? then Storage.Dropped(q, item) else q
  }

  lemma SettleAlone(c: Config, s: System, w: Id, steps: seq<Step>, e: System) returns (steps': seq<Step>, e': System)
    requires Alone(c, s, w, steps, e) && At(e, w).Settling? && At(e, w).followUp.None?
    ensures Alone(c, s, w, steps', e') && Same(e, e', w)
    ensures e'.store == e.store && e'.queue == QueueAfter(e.queue, At(e, w).item, At(e, w).how) && At(e', w) == Idle
  {
    steps', e' := Go(c, s, w, steps, e, Settle(w, Delivered));
  }

  /** A save, the discard it may turn into, and the settlement after it. */
  lemma SaveAlone(c: Config, s: System, w: Id, steps: seq<Step>, e: System, f: Fault)
    returns (steps': seq<Step>, e': System)
    requires Alone(c, s, w, steps, e) && At(e, w).Writing? && At(e, w).item.id == At(e, w).write.next.id
    ensures Alone(c, s, w, steps', e') && Same(e, e', w)
    ensures
      var x := At(e, w);
      && e'.store == (if Discards(c, x.write) then Remove(e.store, x.item.id)
          else Storage.Saved(e.store, x.write.next, x.write.seqNo, f))
      && e'.queue == (if x.write.kind.Activating? then e.queue else QueueAfter(e.queue, x.item, x.how))
      && At(e', w) == (if x.write.kind.Activating? then SavedPhase(e, x, f) else Idle)
  {
    if Discards(c, At(e, w).write) {
      steps', e' := DiscardAlone(c, s, w, steps, e, f);
    } else {
      steps', e' := Go(c, s, w, steps, e, Save(w, f));
      if !At(e, w).write.kind.Activating? {
        steps', e' := SettleAlone(c, s, w, steps', e');
      }
    }
  }

  lemma DiscardAlone(c: Config, s: System, w: Id, steps: seq<Step>, e: System, f: Fault)
    returns (steps': seq<Step>, e': System)
    requires Alone(c, s, w, steps, e) && At(e, w).Writing? && At(e, w).item.id == At(e, w).write.next.id
    requires Discards(c, At(e, w).write)
    ensures Alone(c, s, w, steps', e') && Same(e, e', w) && At(e', w) == Idle
    ensures e'.store == Remove(e.store, At(e, w).item.id)
    ensures e'.queue == QueueAfter(e.queue, At(e, w).item, At(e, w).how)
  {
    var x := At(e, w);
    var t1, e1 := Go(c, s, w, steps, e, Save(w, f));
    if At(e1, w).Discarding? {
      t1, e1 := Go(c, s, w, t1, e1, CommitDiscard(w));
    } else {
      assert e.store.tasks - {x.item.id} == e.store.tasks;
    }
    steps', e' := SettleAlone(c, s, w, t1, e1);
  }

  /** Recording an outcome: the worker's steps do what `handle` does. */
  lemma HandleAlone(c: Config, s: System, w: Id, o: Outcome, f: Fault) returns (steps: seq<Step>)
    requires At(s, w).Running? && At(s, w).item.id == At(s, w).base.id
    ensures
      var x := At(s, w);
      var e := After(c, s, steps);
      var h := P.Handled(c, s.store, s.queue, x.item, x.base, x.seqNo, o, s.now, f);
      && Alone(c, s, w, steps, e) && Same(s, e, w) && At(e, w) == Idle
      && e.store == h.store && e.queue == h.queue
  {
    var t1, e1 := Go(c, s, w, [], s, Finish(w, o));
    var e;
    steps, e := SaveAlone(c, s, w, t1, e1, f);
  }

  /** Where a survey of the parents from `x.k` on takes the worker. */
  function Verdict(st: Store, now: int, broken: set<string>, x: Worker): Worker
    requires x.Resolving? && x.k <= |x.base.deps|
  {
    match Survey(st, broken, x.base.deps[x.k..], x.base.loadDeps, x.results)
    case AllDone(results) =>
      if x.ready then ToActivate(x.item, x.base, x.seqNo, results, now) else Settling(x.item, Nak, None)
    case SomeWaiting(_) => Settling(x.item, Nak, None)
    case Unloadable(_) => Settling(x.item, Nak, None)
    case SomeFailed(results, _) =>
      Settling(x.item, Term,
               Some(Write(x.base, x.seqNo, Unreached(x.base.(depResults := results), DEPENDENCIES_FAILED, now),
                   Abandoning)))
  }

  /** One step over the parents keeps the verdict. */
  lemma VerdictSteps(s: System, broken: set<string>, x: Worker)
    requires x.Resolving? && x.k < |x.base.deps|
    ensures
      var y := AfterResolve(s, x, x.base.deps[x.k] in broken);
      if y.Resolving?
      then
        && y.k == x.k + 1 && y.base == x.base
        && Verdict(s.store, s.now, broken, y) == Verdict(s.store, s.now, broken, x)
      else y == Verdict(s.store, s.now, broken, x)
  {
    var deps := x.base.deps;
    assert deps[x.k..][0] == deps[x.k] && deps[x.k..][1..] == deps[x.k + 1..];
  }

  /** Going over the remaining parents: one step each, to the verdict of the survey. */
  lemma {:induction false} ResolveAlone(c: Config, s: System, w: Id, steps: seq<Step>, e: System, broken: set<string>)
    returns (steps': seq<Step>, e': System)
    requires Alone(c, s, w, steps, e) && At(e, w).Resolving? && At(e, w).k <= |At(e, w).base.deps|
    ensures Alone(c, s, w, steps', e') && Same(e, e', w) && e'.store == e.store && e'.queue == e.queue
    ensures At(e', w) == Verdict(e.store, e.now, broken, At(e, w))
    decreases |At(e, w).base.deps| - At(e, w).k
  {
    var x := At(e, w);
    if x.k == |x.base.deps| {
      steps', e' := Go(c, s, w, steps, e, Resolve(w, false));
    } else {
      steps', e' := ResolveOnce(c, s, w, steps, e, broken);
      if At(e', w).Resolving? {
        steps', e' := ResolveAlone(c, s, w, steps', e', broken);
      }
    }
  }

  lemma ResolveOnce(c: Config, s: System, w: Id, steps: seq<Step>, e: System, broken: set<string>)
    returns (steps': seq<Step>, e': System)
    requires Alone(c, s, w, steps, e) && At(e, w).Resolving? && At(e, w).k < |At(e, w).base.deps|
    ensures Alone(c, s, w, steps', e') && Same(e, e', w) && e'.store == e.store && e'.queue == e.queue
    ensures
      var x, y := At(e, w), At(e', w);
      if y.Resolving?
      then
        && y.k == x.k + 1 && y.base == x.base
        && Verdict(e.store, e.now, broken, y) == Verdict(e.store, e.now, broken, x)
      else y == Verdict(e.store, e.now, broken, x)
  {
    var x := At(e, w);
    VerdictSteps(e, broken, x);
    steps', e' := Go(c, s, w, steps, e, Resolve(w, x.base.deps[x.k] in broken));
  }

  /** What a worker's phase means for the outcome of `processMessage`. */
  lemma FinishAlone(c: Config, s: System, w: Id, steps: seq<Step>, e: System, f: Fault)
    returns (steps': seq<Step>, e': System)
    requires Alone(c, s, w, steps, e)
    requires At(e, w).Settling?
    requires At(e, w).followUp.Some? ==>
               && !At(e, w).followUp.value.kind.Activating?
               && At(e, w).followUp.value.next.id == At(e, w).item.id
    ensures Alone(c, s, w, steps', e') && Same(e, e', w) && At(e', w) == Idle
    ensures
      var x := At(e, w);
      && e'.queue == QueueAfter(e.queue, x.item, x.how)
      && e'.store == (if x.followUp.None? then e.store
                      else P.SavedOrDiscarded(c, e.store, x.followUp.value.next, x.followUp.value.seqNo, f))
  {
    var x := At(e, w);
    if x.followUp.None? {
      steps', e' := SettleAlone(c, s, w, steps, e);
    } else {
      var t1, e1 := Go(c, s, w, steps, e, Settle(w, Delivered));
      steps', e' := SaveAlone(c, s, w, t1, e1, f);
    }
  }

  /** Processing a delivered item: the worker's steps do what `processMessage` does, and
      the worker ends with a running handler exactly when `processMessage` starts one. */
  lemma ProcessAlone(c: Config, s: System, w: Id, x: P.Faults) returns (steps: seq<Step>)
    requires At(s, w).Got?
    requires At(s, w).item.id in s.store.tasks ==> s.store.tasks[At(s, w).item.id].task.id == At(s, w).item.id
    ensures
      var e := After(c, s, steps);
      var r := P.Processed(c, s.store, s.queue, At(s, w).item, s.now, x);
      && Alone(c, s, w, steps, e) && Same(s, e, w)
      && e.store == r.store && e.queue == r.queue
      && (At(e, w).Running? <==> r.exit.Started?) && (At(e, w).Idle? <==> !r.exit.Started?)
  {
    var item := At(s, w).item;
    var t1, e1 := Go(c, s, w, [], s, Load(w, x.loadFails));
    if x.loadFails {
      return t1;
    }
    var e;
    if item.id !in s.store.tasks {
      steps, e := SettleAlone(c, s, w, t1, e1);
      return;
    }
    var t2, e2 := Go(c, s, w, t1, e1, Decide(w, 0));
    steps := DecidedAlone(c, s, w, t2, e2, x);
  }

  /** The rest of `processMessage` after its checks. */
  lemma DecidedAlone(c: Config, s: System, w: Id, t2: seq<Step>, e2: System, x: P.Faults) returns (steps: seq<Step>)
    requires At(s, w).Got? && !x.loadFails
    requires At(s, w).item.id in s.store.tasks && s.store.tasks[At(s, w).item.id].task.id == At(s, w).item.id
    requires Alone(c, s, w, t2, e2) && Same(s, e2, w) && e2.store == s.store && e2.queue == s.queue
    requires At(e2, w) == AfterDecide(c, At(s, w).item, s.store.tasks[At(s, w).item.id].task,
        s.store.tasks[At(s, w).item.id].seqNo, s.now, s.now)
    ensures
      var e := After(c, s, steps);
      var r := P.Processed(c, s.store, s.queue, At(s, w).item, s.now, x);
      && Alone(c, s, w, steps, e) && Same(s, e, w)
      && e.store == r.store && e.queue == r.queue
      && (At(e, w).Running? <==> r.exit.Started?) && (At(e, w).Idle? <==> !r.exit.Started?)
  {
    var t, n := s.store.tasks[At(s, w).item.id].task, s.store.tasks[At(s, w).item.id].seqNo;
    var e;
    match Check(c, t, s.now)
    case AlreadyActive => steps := t2;
    case Finished => steps, e := SettleAlone(c, s, w, t2, e2);
    case Overdue => steps, e := SaveAlone(c, s, w, t2, e2, x.save);
    case Startable =>
      assert t.(depResults := t.depResults) == t;
      steps, e := SaveAlone(c, s, w, t2, e2, x.save);
    case NeedsParents =>
      assert t.deps[0..] == t.deps;
      var t3, e3 := ResolveAlone(c, s, w, t2, e2, x.broken);
      if At(e3, w).Writing? {
        steps, e := SaveAlone(c, s, w, t3, e3, x.save);
      } else {
        steps, e := FinishAlone(c, s, w, t3, e3, x.save);
      }
  }

  /** A step if it is possible. */
  function Do(c: Config, s: System, step: Step): System {
    if Enabled(s, step) then Apply(c, s, step) else s
  }

  lemma StoreAlone(c: Config, s: System, p: Id, f: Fault)
    requires Of(s, p).Storing?
    ensures
      var w, e := Of(s, p).write, Do(c, s, StoreTask(p, f));
      && e.store == Storage.Saved(s.store, w.next, w.seqNo, f) && e.queue == s.queue && e.nextItem == s.nextItem
      && Of(e, p) == (if Storage.SaveOk(s.store, w.next, w.seqNo, f) then Publishing(w.next, e.store.lastSeq) else Free)
      && e.workers == s.workers && e.now == s.now
  {
  }

  lemma PublishAlone(c: Config, s: System, p: Id, r: PublishResult)
    ensures
      var e := Do(c, s, Publish(p, r));
      && e.store == s.store && e.workers == s.workers && e.now == s.now
      && (!Of(s, p).Publishing? ==> e == s)
      && (Of(s, p).Publishing? ==>
            && e.queue == (if r.NotPublished? then s.queue else s.queue[Of(s, p).task.id := s.nextItem])
            && Of(e, p) == (if r.Published? then Free
                            else Failing(Write(Of(s, p).task, Of(s, p).seqNo, QueueFailed(Of(s, p).task, r.err),
                                QueueFailing))))
  {
  }

  lemma FailAlone(c: Config, s: System, p: Id, g: Fault)
    requires Of(s, p).Failing? || Of(s, p).Free?
    ensures
      var e := Do(c, s, SaveFailure(p, g));
      && e.queue == s.queue && e.workers == s.workers && e.now == s.now && Of(e, p) == Free
      && e.store == (if Of(s, p).Free? then s.store
          else Storage.Saved(s.store, Of(s, p).write.next, Of(s, p).write.seqNo, g))
  {
  }

  /** The two steps of a producer after its store. */
  function Pushed(c: Config, s: System, p: Id, r: PublishResult, g: Fault): System {
    Do(c, Do(c, s, Publish(p, r)), SaveFailure(p, g))
  }

  predicate Does(s: System, e: System, p: Id, q: Storage.Enqueued) {
    e.store == q.store && e.queue == q.queue && Of(e, p) == Free && e.workers == s.workers && e.now == s.now
  }

  lemma NothingPushed(c: Config, s: System, p: Id, r: PublishResult, g: Fault)
    requires Of(s, p).Free?
    ensures
      var e := Pushed(c, s, p, r, g);
      e.store == s.store && e.queue == s.queue && Of(e, p) == Free && e.workers == s.workers && e.now == s.now
  {
    PublishAlone(c, s, p, r);
    FailAlone(c, s, p, g);
  }

  lemma PushedAlone(c: Config, s: System, p: Id, t: Task, r: PublishResult, g: Fault)
    requires Of(s, p) == Publishing(t, s.store.lastSeq)
    ensures Does(s, Pushed(c, s, p, r, g), p,
                 Storage.PublishEffect(s.store, s.queue, s.nextItem, t, Some(s.store.lastSeq), r, g))
  {
    PublishAlone(c, s, p, r);
    FailAlone(c, Do(c, s, Publish(p, r)), p, g);
  }

  /** Enqueueing: a producer's three steps do what `EnqueueTask` does. */
  lemma EnqueueAlone(c: Config, s: System, p: Id, f: Fault, r: PublishResult, g: Fault)
    requires Of(s, p).Storing? && Enqueueable(Of(s, p).write.next) && Of(s, p).write.next.queue == c.queue
    ensures
      var w := Of(s, p).write;
      Does(s, Pushed(c, Do(c, s, StoreTask(p, f)), p, r, g), p,
           Storage.EnqueueEffect(s.store, s.queue, s.nextItem, w.next, Some(w.seqNo), c.queue, f, r, g))
  {
    var w, e := Of(s, p).write, Do(c, s, StoreTask(p, f));
    StoreAlone(c, s, p, f);
    EffectSplits(s, w, c.queue, f, r, g);
    if Storage.SaveOk(s.store, w.next, w.seqNo, f) { PushedAlone(c, e, p, w.next, r, g); }
    else { NothingPushed(c, e, p, r, g); }
  }

  lemma EffectSplits(s: System, w: Write, queue: string, f: Fault, r: PublishResult, g: Fault)
    requires Enqueueable(w.next) && w.next.queue == queue
    ensures
      var q := Storage.EnqueueEffect(s.store, s.queue, s.nextItem, w.next, Some(w.seqNo), queue, f, r, g);
      var st := Storage.Saved(s.store, w.next, w.seqNo, f);
      if Storage.SaveOk(s.store, w.next, w.seqNo, f)
      then q == Storage.PublishEffect(st, s.queue, s.nextItem, w.next, Some(st.lastSeq), r, g)
      else q.store == st && q.queue == s.queue
  {
    assert w.next.(queue := queue) == w.next;
  }
}

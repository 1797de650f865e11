/**
  Handlers exclude each other through the task record alone: no lease is assumed, any
  number of workers may be handed the same item at any time, and tasks may be retried,
  deleted, discarded and created anew meanwhile.
 */
module TaskExclusion {
  import opened Prelude
  import opened Tasks
  import opened Lineage
  import opened TaskStore
  import opened TaskSystem
  import opened TaskHistory

  /** The active version a handler works on. */
  function Base(x: Worker): Task
    requires InHandler(x)
  {
    if x.Running? then x.base else x.write.base
  }

  /** Workers that run a handler, or have not stored or discarded its outcome yet. */
  predicate Engaged(x: Worker) {
    InHandler(x) || (x.Discarding? && !x.how.Leave?)
  }

  /** The sequence number of the active version a worker is engaged with. */
  function BaseSeq(x: Worker): nat
    requires Engaged(x)
  {
    if x.Writing? then x.write.seqNo else x.seqNo
  }

  /** The `i`-th version of this task is the one stored under this number. */
  predicate InLine(lineage: map<string, seq<Version>>, id: string, seqNo: nat, i: nat) {
    id in lineage && i < |lineage[id]| && lineage[id][i].seqNo == seqNo
  }

  /** This version is an active mark whose outcome is not on record. */
  predicate Open(l: seq<Version>, i: nat, base: Task) {
    && i < |l| && l[i].task == base && l[i].kind.Activating?
    && (i + 1 < |l| ==> !l[i + 1].kind.Concluding?)
  }

  ghost predicate OpenIn(lineage: map<string, seq<Version>>, base: Task, seqNo: nat) {
    forall i: nat :: InLine(lineage, base.id, seqNo, i) ==> Open(lineage[base.id], i, base)
  }

  /** While a handler's version is on record, no outcome of it is. */
  ghost predicate Fenced(lineage: map<string, seq<Version>>, x: Worker) {
    InHandler(x) ==> OpenIn(lineage, Base(x), BaseSeq(x))
  }

  predicate Marked(now: int, t: Task) {
    t.lastTriedAt.Some? && t.lastTriedAt.value <= now
  }

  /** Active marks are not made in the future, nor do outcomes go with a plain settlement. */
  predicate Ripe(now: int, x: Worker) {
    x.Writing? ==>
      && (x.write.kind.Activating? ==> Marked(now, x.write.next))
      && (!x.write.kind.Concluding? ==> x.how.Leave?)
  }

  ghost predicate Timely(now: int, lineage: map<string, seq<Version>>) {
    forall id, i :: id in lineage && 0 <= i < |lineage[id]| && lineage[id][i].kind.Activating? ==>
        Marked(now, lineage[id][i].task)
  }

  ghost predicate Exclusive(s: System) {
    && Timely(s.now, s.lineage)
    && (forall w :: w in s.workers ==> Fenced(s.lineage, s.workers[w]) && Ripe(s.now, s.workers[w]))
    && (forall v, w :: v in s.workers && w in s.workers && v != w && Engaged(s.workers[v]) && Engaged(s.workers[w])
          ==> BaseSeq(s.workers[v]) != BaseSeq(s.workers[w]))
  }

  // ---- Writes and removals ----

  /** A handler's version stays open, unless its own outcome is stored. */
  lemma OpenStays(c: Config, s: System, wr: Write, base: Task, seqNo: nat)
    requires Recorded(c, s) && OpenIn(s.lineage, base, seqNo) && Acceptable(s, wr)
    requires seqNo <= s.store.lastSeq && (wr.kind.Concluding? ==> seqNo != wr.seqNo)
    ensures OpenIn(WithVersion(s, wr).lineage, base, seqNo)
  {
    var l' := WithVersion(s, wr).lineage;
    if base.id in s.lineage { assert RecordedAt(c, s, base.id); }
    forall i: nat | InLine(l', base.id, seqNo, i) ensures Open(l'[base.id], i, base) {
      assert InLine(s.lineage, base.id, seqNo, i);
    }
  }

  lemma WriteIsExclusive(c: Config, s: System, wr: Write, f: Fault)
    requires Consistent(c, s) && Exclusive(s)
    requires wr.kind.Activating? ==> Marked(s.now, wr.next)
    requires wr.kind.Concluding? ==>
               forall v :: v in s.workers && InHandler(s.workers[v]) ==> BaseSeq(s.workers[v]) != wr.seqNo
    ensures Exclusive(AfterWrite(s, wr, f))
  {
    if Applied(s, wr, f) {
      var s' := WithVersion(s, wr);
      forall v | v in s'.workers ensures Fenced(s'.lineage, s'.workers[v]) {
        var x := s.workers[v];
        assert WorkerOk(c, s.store, x) && Fenced(s.lineage, x);
        if InHandler(x) { OpenStays(c, s, wr, Base(x), BaseSeq(x)); }
      }
    }
  }

  lemma RemovalIsExclusive(s: System, id: string)
    requires Exclusive(s)
    ensures Exclusive(Removed(s, id))
  {
    var s' := Removed(s, id);
    forall v | v in s'.workers ensures Fenced(s'.lineage, s'.workers[v]) {
      var x := s.workers[v];
      assert Fenced(s.lineage, x);
      assert InHandler(x) ==> forall i: nat :: InLine(s'.lineage, Base(x).id, BaseSeq(x), i) ==>
          InLine(s.lineage, Base(x).id, BaseSeq(x), i);
    }
  }

  // ---- Worker steps ----

  lemma MoveIsExclusive(s: System, w: Id, x: Worker)
    requires Exclusive(s) && Fenced(s.lineage, x) && Ripe(s.now, x)
    requires Engaged(x) ==> forall v :: v in s.workers && v != w && Engaged(s.workers[v]) ==>
        BaseSeq(s.workers[v]) != BaseSeq(x)
    ensures Exclusive(Moved(s, w, x))
  {
  }

  lemma SaveIsExclusive(c: Config, s: System, w: Id, f: Fault)
    requires Consistent(c, s) && Exclusive(s) && At(s, w).Writing? && !Discards(c, At(s, w).write)
    ensures Exclusive(AfterSave(c, s, w, At(s, w), f))
  {
    var x := At(s, w);
    assert Ripe(s.now, x);
    MoveIsOk(c, s, w, Idle);
    MoveIsExclusive(s, w, Idle);
    WriteIsExclusive(c, Moved(s, w, Idle), x.write, f);
    SaveFactors(c, s, w, x, f);
    StartIsExclusive(c, s, w, f);
  }

  lemma StartIsExclusive(c: Config, s: System, w: Id, f: Fault)
    requires Consistent(c, s) && At(s, w).Writing?
    requires Exclusive(AfterWrite(Moved(s, w, Idle), At(s, w).write, f))
    ensures Exclusive(Moved(AfterWrite(Moved(s, w, Idle), At(s, w).write, f), w, SavedPhase(s, At(s, w), f)))
  {
    var m := AfterWrite(Moved(s, w, Idle), At(s, w).write, f);
    var y := SavedPhase(s, At(s, w), f);
    if y.Running? {
      StartIsOpen(c, s, At(s, w).write);
      forall v | v in m.workers && v != w && Engaged(m.workers[v]) ensures BaseSeq(m.workers[v]) != BaseSeq(y) {
        assert WorkerOk(c, s.store, s.workers[v]);
      }
    }
    MoveIsExclusive(m, w, y);
  }

  lemma StartIsOpen(c: Config, s: System, wr: Write)
    requires Recorded(c, s) && wr.kind.Activating? && Acceptable(s, wr)
    ensures OpenIn(WithVersion(s, wr).lineage, wr.next, s.store.lastSeq + 1)
  {
    OlderNumbers(c, s, wr.next.id);
  }

  /** Numbers on record do not exceed the last one given out. */
  lemma OlderNumbers(c: Config, s: System, id: string)
    requires Recorded(c, s)
    ensures forall i :: 0 <= i < |History(s, id)| ==> History(s, id)[i].seqNo <= s.store.lastSeq
  {
    if id in s.lineage {
      assert RecordedAt(c, s, id);
      forall i | 0 <= i < |s.lineage[id]| ensures s.lineage[id][i].seqNo <= s.lineage[id][|s.lineage[id]| - 1].seqNo {
        NumbersGrow(c, s.lineage[id], i, |s.lineage[id]| - 1);
      }
    }
  }

  lemma StartDiscardIsExclusive(c: Config, s: System, w: Id)
    requires Exclusive(s) && At(s, w).Writing?
    ensures Exclusive(Moved(s, w, DiscardPhase(s, At(s, w))))
  {
    assert Ripe(s.now, At(s, w));
    MoveIsExclusive(s, w, DiscardPhase(s, At(s, w)));
  }

  lemma DiscardIsExclusive(s: System, w: Id)
    requires Exclusive(s) && At(s, w).Discarding?
    ensures Exclusive(Moved(AfterDiscard(s, At(s, w)), w, Settling(At(s, w).item, At(s, w).how, None)))
  {
    RemovalIsExclusive(s, At(s, w).item.id);
    MoveIsExclusive(AfterDiscard(s, At(s, w)), w, Settling(At(s, w).item, At(s, w).how, None));
  }

  lemma SettleIsExclusive(c: Config, s: System, w: Id, f: Fault)
    requires Consistent(c, s) && Exclusive(s) && At(s, w).Settling?
    ensures Exclusive(AfterSettle(s, w, At(s, w), f))
  {
    var s' := AfterSettle(s, w, At(s, w), f);
    assert WorkerOk(c, s.store, At(s, w));
    MoveIsExclusive(s.(queue := s'.queue), w, s'.workers[w]);
  }

  /** A worker that only moves on makes no claim it did not have. */
  lemma PhaseIsFenced(c: Config, s: System, step: Step)
    requires Exclusive(s) && Plain(step) && WorkerEnabled(s, step)
    ensures
      var x, y := At(s, step.w), NextPhase(c, s, step);
      && Fenced(s.lineage, y) && Ripe(s.now, y)
      && (Engaged(y) ==> step.w in s.workers && Engaged(x) && BaseSeq(y) == BaseSeq(x))
  {
    var x, y := At(s, step.w), NextPhase(c, s, step);
    assert Fenced(s.lineage, x);
    if step.Finish? { assert Base(y) == Base(x) && BaseSeq(y) == BaseSeq(x); }
  }

  lemma WorkerStepIsExclusive(c: Config, s: System, step: Step)
    requires Consistent(c, s) && Exclusive(s) && WorkerEnabled(s, step)
    ensures Exclusive(WorkerApply(c, s, step))
  {
    if Plain(step) {
      PhaseIsFenced(c, s, step);
      MoveIsExclusive(s, step.w, NextPhase(c, s, step));
    } else {
      match step
      case Save(w, f) =>
        if Discards(c, At(s, w).write) { StartDiscardIsExclusive(c, s, w); } else { SaveIsExclusive(c, s, w, f); }
      case CommitDiscard(w) => DiscardIsExclusive(s, w);
      case Settle(w, f) => SettleIsExclusive(c, s, w, f);
    }
  }

  // ---- Producer steps, and whole runs ----

  /** Nothing about workers, lineage or store changes, and time does not go back. */
  lemma TurnIsExclusive(s: System, s': System)
    requires Exclusive(s) && s'.lineage == s.lineage && s'.workers == s.workers && s.now <= s'.now
    ensures Exclusive(s')
  {
  }

  lemma ProducerWriteIsExclusive(c: Config, s: System, p: Id, wr: Write, f: Fault, s': System)
    requires Consistent(c, s) && Exclusive(s)
    requires p in s.producers && (s.producers[p] == Storing(wr) || s.producers[p] == Failing(wr))
    requires s'.lineage == AfterWrite(s, wr, f).lineage && s'.workers == s.workers && s'.now == s.now
    ensures Exclusive(s')
  {
    assert ProducerOk(c, s.store, s.producers[p]);
    WriteIsExclusive(c, s, wr, f);
    TurnIsExclusive(AfterWrite(s, wr, f), s');
  }

  lemma ProducerStepIsExclusive(c: Config, s: System, step: Step)
    requires Consistent(c, s) && Exclusive(s) && ProducerEnabled(s, step)
    ensures Exclusive(ProducerApply(c, s, step))
  {
    var s' := ProducerApply(c, s, step);
    if step.RemoveTask? {
      RemovalIsExclusive(s, step.id);
    } else {
      ProducerStepSpares(c, s, step);
      if step.StoreTask? || step.SaveFailure? {
        ProducerWriteIsExclusive(c, s, step.p, Of(s, step.p).write, step.fault, s');
      } else {
        TurnIsExclusive(s, s');
      }
    }
  }

  /** Producers move no worker and change the record only by their writes. */
  lemma ProducerStepSpares(c: Config, s: System, step: Step)
    requires ProducerEnabled(s, step) && !step.RemoveTask?
    ensures
      var s' := ProducerApply(c, s, step);
      && s'.workers == s.workers && s.now <= s'.now && (!step.Advance? ==> s'.now == s.now)
      && s'.lineage == (if step.StoreTask? || step.SaveFailure?
          then AfterWrite(s, Of(s, step.p).write, step.fault).lineage else s.lineage)
  {
  }

  lemma StepIsExclusive(c: Config, s: System, step: Step)
    requires Consistent(c, s) && Exclusive(s) && Enabled(s, step)
    ensures Exclusive(Apply(c, s, step))
  {
    if WorkerEnabled(s, step) { WorkerStepIsExclusive(c, s, step); } else { ProducerStepIsExclusive(c, s, step); }
  }

  lemma {:induction false} RunIsExclusive(c: Config, s: System, steps: seq<Step>)
    requires Initial(s)
    ensures Exclusive(After(c, s, steps))
  {
    if steps != [] {
      RunIsExclusive(c, s, steps[..|steps| - 1]);
      RunIsConsistent(c, s, steps[..|steps| - 1]);
      var before := After(c, s, steps[..|steps| - 1]);
      if Enabled(before, steps[|steps| - 1]) { StepIsExclusive(c, before, steps[|steps| - 1]); }
    }
  }

  /** In every run: while a handler has not saved its outcome and the version it marked
      active at time t is on the task's record, with no manual retry recorded after it, no
      other handler for that task starts before t + maxRunTime. */
  lemma HandlersExclude(c: Config, s: System, steps: seq<Step>, start: Step, v: Id, i: nat)
    requires Initial(s) && StartsHandler(After(c, s, steps), start)
    requires v in After(c, s, steps).workers && InHandler(After(c, s, steps).workers[v])
    requires
      var e := After(c, s, steps);
      var id := At(e, start.w).write.next.id;
      && Base(e.workers[v]).id == id && InLine(e.lineage, id, BaseSeq(e.workers[v]), i)
      && forall k :: i < k < |e.lineage[id]| ==> !e.lineage[id][k].kind.Retrying?
    ensures
      var e := After(c, s, steps);
      var mark := Base(e.workers[v]).lastTriedAt;
      mark.Some? && e.now >= mark.value + c.maxRunTime
  {
    RunIsExclusive(c, s, steps);
    RunIsConsistent(c, s, steps);
    var e := After(c, s, steps);
    var x := At(e, start.w);
    assert WorkerOk(c, e.store, x) && Ripe(e.now, x) && Fenced(e.lineage, e.workers[v]);
    assert RecordedAt(c, e, x.write.next.id) && Open(e.lineage[x.write.next.id], i, Base(e.workers[v]));
    StartsLate(c, e.now, e.lineage[x.write.next.id], Version(x.write.next, e.store.lastSeq + 1, Activating), i);
  }

  /** One more active mark comes late after an open one. */
  lemma StartsLate(c: Config, now: int, l: seq<Version>, v: Version, i: nat)
    requires Linear(c, l) && l[|l| - 1].seqNo < v.seqNo && Follows(c, l[|l| - 1].task, v.kind, v.task)
    requires v.kind.Activating? && Marked(now, v.task) && i < |l| && Open(l, i, l[i].task)
    requires forall k :: 0 <= k < |l| && l[k].kind.Activating? ==> Marked(now, l[k].task)
    requires forall k :: i < k < |l| ==> !l[k].kind.Retrying?
    ensures l[i].task.lastTriedAt.Some? && now >= l[i].task.lastTriedAt.value + c.maxRunTime
  {
    var l' := l + [v];
    LinearAppend(c, l, v);
    TakeoverIsLate(c, l', i, |l|);
  }
}

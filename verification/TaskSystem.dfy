/**
  Workers, producers and administrators interleaving over one task store and one
  work queue. Loading, checking, saving and settling are separate steps, so anything
  may happen in between; requests may be lost on the way in or have their answers
  lost; workers may crash at any step and any number of them may hold the same item.
 */
module TaskSystem {
  import opened Prelude
  import opened Tasks
  import opened Lineage
  import opened TaskStore

  type Id = nat

  /** A work queue entry: the task it names and its own sequence in the queue. */
  datatype Item = Item(id: string, n: nat)

  datatype Settlement = Ack | Nak | Term | Leave

  /** How a request fares: answered, lost on the way in, applied with its answer lost, or
      applied and answered but reported as failed because the event about it was not sent. */
  datatype Fault = Delivered | Dropped | AckLost | EventLost

  /** A write about to be made: the version it was derived from (`base`, at `seqNo`) and
      the version to store. For a creation `seqNo` is zero and `base` is not used. */
  datatype Write = Write(base: Task, seqNo: nat, next: Task, kind: Kind)

  datatype Worker =
    | Idle
    | Got(item: Item)
    | Loaded(item: Item, base: Task, seqNo: nat)
    | Resolving(item: Item, base: Task, seqNo: nat, k: nat, ready: bool, results: Results)
    | Writing(item: Item, write: Write, how: Settlement)
    | Running(item: Item, base: Task, seqNo: nat)
    | Discarding(item: Item, seqNo: nat, read: nat, how: Settlement)
    | Settling(item: Item, how: Settlement, followUp: Option<Write>)

  datatype Producer =
    | Free
    | Storing(write: Write)
    | Publishing(task: Task, seqNo: nat)
    | Failing(write: Write)

  /** `lineage` records the versions stored for each task since it was created, `written`
      every version ever stored, by sequence number from one on. */
  datatype System = System(
    now: int, store: Store, lineage: map<string, seq<Version>>, written: seq<Task>,
    queue: map<string, nat>, nextItem: nat,
    workers: map<Id, Worker>, producers: map<Id, Producer>)

  /** How a request to add a queue item ends: stored; reported as failed or duplicate
      without or despite the item being there. */
  datatype PublishResult = Published | NotPublished(err: string) | PublishedUnnoticed(err: string) {
    function Reason(): string {
      if Published? then "" else err
    }
  }

  datatype Step =
    | Advance(delta: nat)
    | Deliver(w: Id, id: string)
    | Load(w: Id, fails: bool)
    | Decide(w: Id, ago: nat)
    | Resolve(w: Id, fails: bool)
    | Save(w: Id, fault: Fault)
    | Finish(w: Id, outcome: Outcome)
    | CommitDiscard(w: Id)
    | Settle(w: Id, fault: Fault)
    | Crash(w: Id)
    | Enqueue(p: Id, task: Task)
    | RetryById(p: Id, id: string)
    | Reenqueue(p: Id, seqNo: nat)
    | StoreTask(p: Id, fault: Fault)
    | Publish(p: Id, result: PublishResult)
    | SaveFailure(p: Id, fault: Fault)
    | RemoveTask(id: string)

  predicate Initial(s: System) {
    && s.store == Store(map[], 0) && s.lineage == map[] && s.written == [] && s.queue == map[]
    && (forall w :: w in s.workers ==> s.workers[w] == Idle)
    && (forall p :: p in s.producers ==> s.producers[p] == Free)
  }

  // ---- Writing to the store ----

  predicate Acceptable(s: System, w: Write) {
    Accepts(s.store, w.next.id, w.seqNo)
  }

  function History(s: System, id: string): seq<Version> {
    if id in s.lineage then s.lineage[id] else []
  }

  function WithVersion(s: System, w: Write): System {
    var st := Put(s.store, w.next);
    s.(store := st, written := s.written + [w.next],
       lineage := s.lineage[w.next.id := History(s, w.next.id) + [Version(w.next, st.lastSeq, w.kind)]])
  }

  predicate Applied(s: System, w: Write, f: Fault) {
    Acceptable(s, w) && !f.Dropped?
  }

  function AfterWrite(s: System, w: Write, f: Fault): System {
    if Applied(s, w, f) then WithVersion(s, w) else s
  }

  function Removed(s: System, id: string): System {
    s.(store := Remove(s.store, id), lineage := s.lineage - {id})
  }

  // ---- Workers ----

  function At(s: System, w: Id): Worker {
    if w in s.workers then s.workers[w] else Idle
  }

  function Moved(s: System, w: Id, phase: Worker): System {
    s.(workers := s.workers[w := phase])
  }

  predicate WorkerEnabled(s: System, step: Step) {
    match step
    case Deliver(w, id) => w in s.workers && s.workers[w].Idle? && id in s.queue
    case Load(w, _) => At(s, w).Got?
    case Decide(w, _) => At(s, w).Loaded?
    case Resolve(w, _) => At(s, w).Resolving?
    case Save(w, _) => At(s, w).Writing?
    case Finish(w, _) => At(s, w).Running?
    case CommitDiscard(w) => At(s, w).Discarding?
    case Settle(w, _) => At(s, w).Settling?
    case Crash(w) => w in s.workers
    case _ => false
  }

  /** The first load. A missing task terminates the item, another failure leaves it. */
  function AfterLoad(s: System, item: Item, fails: bool): Worker {
    if fails then Idle
    else if item.id !in s.store.tasks then Settling(item, Term, None)
    else Loaded(item, s.store.tasks[item.id].task, s.store.tasks[item.id].seqNo)
  }

  function ToActivate(item: Item, base: Task, seqNo: nat, results: Results, now: int): Worker {
    Writing(item, Write(base, seqNo, Activated(base.(depResults := results), now), Activating), Leave)
  }

  /** The checks are made at some moment not after the one a task is marked active. */
  function AfterDecide(c: Config, item: Item, base: Task, seqNo: nat, checked: int, now: int): Worker {
    match Check(c, base, checked)
    case AlreadyActive => Idle
    case Finished => Settling(item, Ack, None)
    case Overdue => Writing(item, Write(base, seqNo, ExpiredNow(base), Expiring), Leave)
    case NeedsParents => Resolving(item, base, seqNo, 0, true, base.depResults)
    case Startable => ToActivate(item, base, seqNo, base.depResults, now)
  }

  const DEPENDENCIES_FAILED := "task dependencies failed"

  /** One parent at a time; after the last one the task starts or is put back. A failed
      parent terminates the item first and records the task as unreachable after. */
  function AfterResolve(s: System, x: Worker, fails: bool): Worker
    requires x.Resolving?
  {
    if x.k >= |x.base.deps| then
      if x.ready then ToActivate(x.item, x.base, x.seqNo, x.results, s.now) else Settling(x.item, Nak, None)
    else if fails then Settling(x.item, Nak, None)
    else
      var p := ParentOf(s.store, x.base.deps[x.k]);
      if p.Missing? || p.Failed? then
        Settling(x.item, Term,
                 Some(Write(x.base, x.seqNo,
                            Unreached(x.base.(depResults := x.results), DEPENDENCIES_FAILED, s.now), Abandoning)))
      else
        x.(k := x.k + 1, ready := x.ready && p.Done?, results := WithResult(x.base.loadDeps, x.results, p))
  }

  /** Only these kinds of version go through the discard option of the client. */
  predicate Discards(c: Config, w: Write) {
    !w.kind.Activating? && w.next.state in c.discard
  }

  /** Where a worker goes once its write was answered. */
  function SavedPhase(s: System, x: Worker, f: Fault): Worker
    requires x.Writing?
  {
    if !x.write.kind.Activating? then Settling(x.item, x.how, None)
    else if Acceptable(s, x.write) && f.Delivered? then Running(x.item, x.write.next, s.store.lastSeq + 1)
    else Idle
  }

  function DiscardPhase(s: System, x: Worker): Worker
    requires x.Writing?
  {
    if x.write.next.id in s.store.tasks
    then Discarding(x.item, x.write.seqNo, s.store.tasks[x.write.next.id].seqNo, x.how)
    else Settling(x.item, x.how, None)
  }

  function AfterSave(c: Config, s: System, w: Id, x: Worker, f: Fault): System
    requires x.Writing?
  {
    if Discards(c, x.write) then Moved(s, w, DiscardPhase(s, x))
    else Moved(AfterWrite(s, x.write, f), w, SavedPhase(s, x, f))
  }

  /** A save seen as the worker stepping aside, the write, and the worker moving on. */
  lemma SaveFactors(c: Config, s: System, w: Id, x: Worker, f: Fault)
    requires x.Writing? && !Discards(c, x.write)
    ensures AfterSave(c, s, w, x, f) == Moved(AfterWrite(Moved(s, w, Idle), x.write, f), w, SavedPhase(s, x, f))
  {
    assert s.workers[w := Idle][w := SavedPhase(s, x, f)] == s.workers[w := SavedPhase(s, x, f)];
  }

  function SettlementFor(o: Outcome): Settlement {
    match o
    case Success(_) => Ack
    case Failure(_) => Nak
    case Terminate(_) => Term
  }

  function AfterFinish(c: Config, s: System, x: Worker, o: Outcome): Worker
    requires x.Running?
  {
    Writing(x.item, Write(x.base, x.seqNo, Concluded(c, x.base, o, s.now), Concluding), SettlementFor(o))
  }

  /** `DeleteTaskByID` removes the message it read, if that is still the current one. */
  function AfterDiscard(s: System, x: Worker): System
    requires x.Discarding?
  {
    if LastFor(s.store, x.item.id) == x.read then Removed(s, x.item.id) else s
  }

  /** Acknowledging or terminating removes the item, unless another replaced it. */
  function AfterSettle(s: System, w: Id, x: Worker, f: Fault): System
    requires x.Settling?
  {
    var q := if (x.how.Ack? || x.how.Term?) && !f.Dropped? && x.item.id in s.queue && s.queue[x.item.id] == x.item.n
             then s.queue - {x.item.id} else s.queue;
    Moved(s.(queue := q), w, if x.followUp.Some? then Writing(x.item, x.followUp.value, Leave) else Idle)
  }

  /** Steps in which a worker only moves on. */
  predicate Plain(step: Step) {
    step.Deliver? || step.Load? || step.Decide? || step.Resolve? || step.Finish? || step.Crash?
  }

  function NextPhase(c: Config, s: System, step: Step): Worker
    requires Plain(step) && WorkerEnabled(s, step)
  {
    match step
    case Deliver(_, id) => Got(Item(id, s.queue[id]))
    case Load(w, fails) => AfterLoad(s, At(s, w).item, fails)
    case Decide(w, ago) => AfterDecide(c, At(s, w).item, At(s, w).base, At(s, w).seqNo, s.now - ago, s.now)
    case Resolve(w, fails) => AfterResolve(s, At(s, w), fails)
    case Finish(w, o) => AfterFinish(c, s, At(s, w), o)
    case Crash(_) => Idle
  }

  function WorkerApply(c: Config, s: System, step: Step): System
    requires WorkerEnabled(s, step)
  {
    if Plain(step) then Moved(s, step.w, NextPhase(c, s, step))
    else
      match step
      case Save(w, f) => AfterSave(c, s, w, At(s, w), f)
      case CommitDiscard(w) =>
        Moved(AfterDiscard(s, At(s, w)), w, Settling(At(s, w).item, At(s, w).how, None))
      case Settle(w, f) => AfterSettle(s, w, At(s, w), f)
  }

  // ---- Producers and administrators ----

  function Of(s: System, p: Id): Producer {
    if p in s.producers then s.producers[p] else Free
  }

  function Turned(s: System, p: Id, phase: Producer): System {
    s.(producers := s.producers[p := phase])
  }

  predicate ProducerEnabled(s: System, step: Step) {
    match step
    case Advance(_) => true
    case Enqueue(p, t) => p in s.producers && s.producers[p].Free? && Fresh(t)
    case RetryById(p, id) => p in s.producers && s.producers[p].Free? && id in s.store.tasks
    case Reenqueue(p, n) => p in s.producers && s.producers[p].Free? && 1 <= n <= |s.written|
        && Enqueueable(s.written[n - 1])
    case StoreTask(p, _) => Of(s, p).Storing?
    case Publish(p, _) => Of(s, p).Publishing?
    case SaveFailure(p, _) => Of(s, p).Failing?
    case RemoveTask(_) => true
    case _ => false
  }

  function AfterPublish(s: System, p: Id, x: Producer, r: PublishResult): System
    requires x.Publishing?
  {
    var s' := if r.NotPublished? then s
              else s.(queue := s.queue[x.task.id := s.nextItem], nextItem := s.nextItem + 1);
    if r.Published? then Turned(s', p, Free)
    else Turned(s', p, Failing(Write(x.task, x.seqNo, QueueFailed(x.task, r.err), QueueFailing)))
  }

  function ProducerApply(c: Config, s: System, step: Step): System
    requires ProducerEnabled(s, step)
  {
    match step
    case Advance(delta) => s.(now := s.now + delta)
    case Enqueue(p, t) =>
      var t' := t.(queue := c.queue);
      Turned(s, p, Storing(Write(t', 0, t', Creating)))
    case RetryById(p, id) =>
      var b := s.store.tasks[id];
      Turned(s, p, Storing(Write(b.task, b.seqNo, RetriedInto(b.task, c.queue), Retrying)))
    case Reenqueue(p, n) =>
      var b := s.written[n - 1];
      Turned(s, p, Storing(Write(b, n, b.(queue := c.queue), Reenqueueing)))
    case StoreTask(p, f) =>
      var w := Of(s, p).write;
      var s' := AfterWrite(s, w, f);
      if Acceptable(s, w) && f.Delivered? then Turned(s', p, Publishing(w.next, s'.store.lastSeq))
      else Turned(s', p, Free)
    case Publish(p, r) => AfterPublish(s, p, Of(s, p), r)
    case SaveFailure(p, f) => Turned(AfterWrite(s, Of(s, p).write, f), p, Free)
    case RemoveTask(id) => Removed(s, id)
  }

  // ---- Runs ----

  predicate Enabled(s: System, step: Step) {
    WorkerEnabled(s, step) || ProducerEnabled(s, step)
  }

  function Apply(c: Config, s: System, step: Step): System
    requires Enabled(s, step)
  {
    if WorkerEnabled(s, step) then WorkerApply(c, s, step) else ProducerApply(c, s, step)
  }

  /** The state after a run from `s`; a step that is not possible changes nothing. */
  function After(c: Config, s: System, steps: seq<Step>): System {
    if steps == [] then s
    else
      var before := After(c, s, steps[..|steps| - 1]);
      if Enabled(before, steps[|steps| - 1]) then Apply(c, before, steps[|steps| - 1]) else before
  }

  lemma AfterOneMore(c: Config, s: System, steps: seq<Step>, step: Step)
    ensures After(c, s, steps + [step])
         == (var before := After(c, s, steps); if Enabled(before, step) then Apply(c, before, step) else before)
  {
    assert (steps + [step])[..|steps + [step]| - 1] == steps;
  }

  // ---- What a step can do to the store ----

  /** The write a step carries to the store, if any. */
  function WriteOf(c: Config, s: System, step: Step): Option<Write> {
    match step
    case Save(w, _) => if At(s, w).Writing? && !Discards(c, At(s, w).write) then Some(At(s, w).write) else None
    case StoreTask(p, _) => if Of(s, p).Storing? then Some(Of(s, p).write) else None
    case SaveFailure(p, _) => if Of(s, p).Failing? then Some(Of(s, p).write) else None
    case _ => None
  }

  /** The task a step removes from the store, if any. */
  function RemovalOf(s: System, step: Step): Option<string> {
    match step
    case CommitDiscard(w) =>
      if At(s, w).Discarding? && LastFor(s.store, At(s, w).item.id) == At(s, w).read
      then Some(At(s, w).item.id) else None
    case RemoveTask(id) => Some(id)
    case _ => None
  }

  lemma StoreEffect(c: Config, s: System, step: Step)
    requires Enabled(s, step)
    ensures
      var s' := Apply(c, s, step);
      if WriteOf(c, s, step).Some? then
        var m := AfterWrite(s, WriteOf(c, s, step).value, step.fault);
        s'.store == m.store && s'.lineage == m.lineage
      else if RemovalOf(s, step).Some? then
        var m := Removed(s, RemovalOf(s, step).value);
        s'.store == m.store && s'.lineage == m.lineage
      else s'.store == s.store && s'.lineage == s.lineage
  {
  }

  /** A handler is running on this worker's copy, or its outcome is not yet saved. */
  predicate InHandler(x: Worker) {
    x.Running? || (x.Writing? && x.write.kind.Concluding?)
  }

  /** This step starts a handler: an accepted save marking the task active. */
  predicate StartsHandler(s: System, step: Step) {
    && step.Save? && step.fault.Delivered? && At(s, step.w).Writing?
    && At(s, step.w).write.kind.Activating? && Acceptable(s, At(s, step.w).write)
  }
}

/**
  No work is lost between the task store and the work queue: a task that still has to
  run has an item in the queue, or somebody is busy enqueueing it. Everything here is
  about one task at a time; what befalls other tasks does not matter to it.
 */
module TaskQueue {
  import opened Prelude
  import opened Tasks
  import opened Lineage
  import opened TaskStore
  import opened TaskSystem
  import opened TaskHistory
  import opened TaskExclusion

  /** The task looked at, and whether also while it waits for its dependencies. */
  datatype Focus = Focus(id: string, blocked: bool)

  // ---- The runs considered ----

  /** A worker that will not touch the queue item any more. */
  predicate Spent(x: Worker) {
    || x.Idle?
    || (x.Writing? && x.write.kind.Abandoning?)
    || (x.Discarding? && x.how.Leave?)
    || (x.Settling? && x.how.Leave? && x.followUp.None?)
  }

  /** A worker past the point of taking the task up: whatever it still does, it does not
      mark the task active. */
  predicate Handling(x: Worker) {
    x.Idle? || x.Running? || (x.Writing? && !x.write.kind.Activating?) || x.Discarding? || x.Settling?
  }

  /** A worker that was handed an item of this task. */
  predicate Mine(k: Focus, x: Worker) {
    !x.Idle? && x.item.id == k.id
  }

  function ItemOf(k: Focus, s: System): Option<nat> {
    if k.id in s.queue then Some(s.queue[k.id]) else None
  }

  /** A worker still busy with the item that is in the queue. */
  predicate Claims(k: Focus, item: Option<nat>, x: Worker) {
    Mine(k, x) && !Spent(x) && item == Some(x.item.n)
  }

  predicate Leased(k: Focus, s: System) {
    exists w :: w in s.workers && Claims(k, ItemOf(k, s), s.workers[w])
  }

  predicate TakenUp(k: Focus, s: System) {
    exists w :: w in s.workers && Mine(k, s.workers[w]) && !Handling(s.workers[w])
  }

  /** This worker is about to record the version stored as `seqNo` as unreachable. */
  predicate Abandons(x: Worker, id: string, seqNo: nat) {
    x.Writing? && x.write.kind.Abandoning? && x.write.next.id == id && x.write.seqNo == seqNo
  }

  predicate GivesUp(k: Focus, s: System, x: Worker) {
    k.blocked && Abandons(x, k.id, LastFor(s.store, k.id))
  }

  /** For this task, requests to the store fail only by the sequence check, its item is not
      handed out while a worker is still busy with it, and not replaced while a worker that
      was handed it may still take the task up; and if it is looked at while blocked, no
      worker crashes between terminating its item and recording it as unreachable. */
  predicate Orderly(k: Focus, s: System, step: Step) {
    match step
    case Save(w, f) => At(s, w).Writing? && At(s, w).write.next.id == k.id ==> f.Delivered?
    case StoreTask(p, f) => Of(s, p).Storing? && Of(s, p).write.next.id == k.id ==> f.Delivered?
    case SaveFailure(p, f) => Of(s, p).Failing? && Of(s, p).write.next.id == k.id ==> f.Delivered?
    case Deliver(_, id) => id == k.id ==> !Leased(k, s)
    case Publish(p, r) => !r.NotPublished? && Of(s, p).Publishing? && Of(s, p).task.id == k.id ==> !TakenUp(k, s)
    case Crash(w) => !GivesUp(k, s, At(s, w))
    case _ => true
  }

  predicate OrderlyRun(k: Focus, c: Config, s: System, steps: seq<Step>) {
    steps == [] ||
      (var init := steps[..|steps| - 1];
       OrderlyRun(k, c, s, init) && Orderly(k, After(c, s, init), steps[|steps| - 1]))
  }

  // ---- The property ----

  predicate OwedAs(k: Focus, t: Task) {
    t.state.New? || t.state.Retry? || t.state.Active? || (k.blocked && t.state.Blocked?)
  }

  /** The task still has to run. */
  predicate Owed(k: Focus, st: Store) {
    k.id in st.tasks && OwedAs(k, st.tasks[k.id].task)
  }

  /** This producer is enqueueing the version of `id` stored as `seqNo`. */
  predicate Enqueueing(x: Producer, id: string, seqNo: nat) {
    || (x.Publishing? && x.task.id == id && x.seqNo == seqNo)
    || (x.Failing? && x.write.next.id == id && x.write.seqNo == seqNo)
  }

  predicate BeingEnqueued(s: System, id: string) {
    exists p :: p in s.producers && Enqueueing(s.producers[p], id, LastFor(s.store, id))
  }

  predicate BeingGivenUp(s: System, id: string) {
    exists w :: w in s.workers && Abandons(s.workers[w], id, LastFor(s.store, id))
  }

  /** Somebody will see to the task without an item. */
  predicate Cared(k: Focus, s: System) {
    BeingEnqueued(s, k.id) || (k.blocked && BeingGivenUp(s, k.id))
  }

  // ---- What keeps it ----

  /** All that matters of a state for one task. */
  datatype View = View(last: nat, owed: bool, cared: bool, item: Option<nat>)

  function ViewOf(k: Focus, s: System): View {
    View(LastFor(s.store, k.id), Owed(k, s.store), Cared(k, s), ItemOf(k, s))
  }

  /** Taking the item away now would strand nothing. */
  predicate Relieved(v: View) {
    v.owed ==> v.cared
  }

  predicate Kept(v: View) {
    v.owed ==> v.cared || v.item.Some?
  }

  predicate Known(v: View, seqNo: nat) {
    v.last == seqNo || Relieved(v)
  }

  predicate Removes(how: Settlement) {
    how.Ack? || how.Term?
  }

  /** What the holder of the current item knows of the task is current, or the task was
      seen to since; an active version it saw may also be outdated, since it takes that
      over or leaves the item. */
  predicate Informed(v: View, x: Worker) {
    match x
    case Loaded(_, base, seqNo) => base.state.Active? || Known(v, seqNo)
    case Resolving(_, _, seqNo, _, _, _) => Known(v, seqNo)
    case Writing(_, w, _) => (w.base.state.Active? && !w.kind.Concluding?) || Known(v, w.seqNo)
    case Running(_, _, seqNo) => Known(v, seqNo)
    case Discarding(_, seqNo, read, _) => (v.last == seqNo && read == seqNo) || Relieved(v)
    case Settling(_, how, f) => Removes(how) ==> Relieved(v) || (f.Some? && f.value.seqNo == v.last)
    case _ => true
  }

  predicate LeaseOk(k: Focus, v: View, x: Worker) {
    Mine(k, x) && !Spent(x) ==>
      && (v.item == Some(x.item.n) || Handling(x))
      && (v.item == Some(x.item.n) ==> Informed(v, x))
  }

  /** An outcome and how the item is settled after it agree. */
  predicate SettlementOk(x: Worker) {
    x.Writing? && x.write.kind.Concluding? && Removes(x.how) ==>
      x.write.next.state.Completed? || x.write.next.state.Terminated?
  }

  predicate Apart(k: Focus, item: Option<nat>, x: Worker, y: Worker) {
    !(Claims(k, item, x) && Claims(k, item, y))
  }

  /** Items are numbered upwards. */
  predicate Numbered(s: System) {
    && (forall id :: id in s.queue ==> s.queue[id] < s.nextItem)
    && (forall w :: w in s.workers && !s.workers[w].Idle? ==> s.workers[w].item.n < s.nextItem)
  }

  ghost predicate Supplied(k: Focus, s: System) {
    var v := ViewOf(k, s);
    && Kept(v) && Numbered(s)
    && (forall w :: w in s.workers ==> LeaseOk(k, v, s.workers[w]) && SettlementOk(s.workers[w]))
    && (forall w, w' :: w in s.workers && w' in s.workers && w != w' ==> Apart(k, v.item, s.workers[w], s.workers[w']))
  }

  // ---- Frames ----

  /** What may happen to a task somebody leases: nothing, or it is left relieved. */
  predicate Undisturbed(v: View, v': View) {
    && (Relieved(v) ==> Relieved(v'))
    && (v'.last == v.last || Relieved(v'))
  }

  /** A worker's lease goes on, or its item is replaced while that is harmless. */
  predicate Continues(k: Focus, v: View, v': View, x: Worker) {
    Mine(k, x) && !Spent(x) ==>
      && (v'.item == Some(x.item.n) ==> v.item == Some(x.item.n))
      && (v.item == Some(x.item.n) ==> v'.item == Some(x.item.n) || Handling(x))
  }

  lemma LeaseStays(k: Focus, v: View, v': View, x: Worker)
    requires LeaseOk(k, v, x) && Continues(k, v, v', x) && Undisturbed(v, v')
    ensures LeaseOk(k, v', x)
  {
  }

  /** One worker moves to `y`; the others keep their leases or lose them harmlessly. */
  lemma StepSupplies(k: Focus, s: System, s': System, w: Id, y: Worker)
    requires Supplied(k, s) && Kept(ViewOf(k, s')) && Numbered(s') && s'.workers == s.workers[w := y]
    requires LeaseOk(k, ViewOf(k, s'), y) && SettlementOk(y)
    requires forall v :: v in s.workers && v != w ==>
               && LeaseOk(k, ViewOf(k, s'), s.workers[v]) && Continues(k, ViewOf(k, s), ViewOf(k, s'), s.workers[v])
               && Apart(k, ItemOf(k, s'), s.workers[v], y)
    ensures Supplied(k, s')
  {
    forall v, v' | v in s.workers && v' in s.workers && v != v' && v != w && v' != w
      ensures Apart(k, ItemOf(k, s'), s.workers[v], s.workers[v'])
    {
      assert Apart(k, ItemOf(k, s), s.workers[v], s.workers[v']);
    }
  }

  /** Moving a worker that is not giving the task up takes no care away from it. */
  lemma MoveView(k: Focus, s: System, w: Id, y: Worker)
    requires w in s.workers ==> !GivesUp(k, s, s.workers[w])
    ensures
      var v, v' := ViewOf(k, s), ViewOf(k, Moved(s, w, y));
      v' == v.(cared := v'.cared) && (v.cared ==> v'.cared)
  {
    var s' := Moved(s, w, y);
    if k.blocked && BeingGivenUp(s, k.id) {
      var g :| g in s.workers && Abandons(s.workers[g], k.id, LastFor(s.store, k.id));
      assert s'.workers[g] == s.workers[g];
    }
  }

  lemma MoveSupplies(k: Focus, s: System, w: Id, y: Worker)
    requires Supplied(k, s) && w in s.workers && !GivesUp(k, s, s.workers[w])
    requires LeaseOk(k, ViewOf(k, s), y) && SettlementOk(y) && (!y.Idle? ==> y.item.n < s.nextItem)
    requires Spent(y) || (!s.workers[w].Idle? && !Spent(s.workers[w]) && y.item == s.workers[w].item)
    ensures Supplied(k, Moved(s, w, y))
  {
    var v, v' := ViewOf(k, s), ViewOf(k, Moved(s, w, y));
    MoveView(k, s, w, y);
    LeaseStays(k, v, v', y);
    forall o | o in s.workers && o != w ensures LeaseOk(k, v', s.workers[o]) && Apart(k, v'.item, s.workers[o], y) {
      assert Apart(k, v.item, s.workers[o], s.workers[w]);
      LeaseStays(k, v, v', s.workers[o]);
    }
    StepSupplies(k, s, Moved(s, w, y), w, y);
  }

  /** Nobody moves, and the task is not disturbed. */
  lemma TurnSupplies(k: Focus, s: System, s': System)
    requires Supplied(k, s) && Kept(ViewOf(k, s')) && Numbered(s') && s'.workers == s.workers
    requires Undisturbed(ViewOf(k, s), ViewOf(k, s'))
    requires forall w :: w in s.workers ==> Continues(k, ViewOf(k, s), ViewOf(k, s'), s.workers[w])
    ensures Supplied(k, s')
  {
    var v, v' := ViewOf(k, s), ViewOf(k, s');
    forall w | w in s.workers ensures LeaseOk(k, v', s.workers[w]) { LeaseStays(k, v, v', s.workers[w]); }
    forall w, w' | w in s.workers && w' in s.workers && w != w' ensures Apart(k, v'.item, s.workers[w], s.workers[w']) {
      assert Apart(k, v.item, s.workers[w], s.workers[w']);
    }
  }

  // ---- Writes ----

  lemma WriteView(k: Focus, s: System, wr: Write, f: Fault)
    ensures
      var v, v' := ViewOf(k, s), ViewOf(k, AfterWrite(s, wr, f));
      if wr.next.id == k.id && Applied(s, wr, f)
      then v'.last == s.store.lastSeq + 1 && v'.owed == OwedAs(k, wr.next) && v'.item == v.item
      else v' == v
  {
  }

  /** While a task is stored as active nobody enqueues it or gives it up: both start from
      other states. */
  lemma ActiveIsNotCared(k: Focus, c: Config, s: System)
    requires Consistent(c, s) && k.id in s.store.tasks && s.store.tasks[k.id].task.state.Active?
    ensures ViewOf(k, s).owed && !ViewOf(k, s).cared
  {
    forall p | p in s.producers ensures !Enqueueing(s.producers[p], k.id, LastFor(s.store, k.id)) {
      assert ProducerOk(c, s.store, s.producers[p]);
    }
    forall w | w in s.workers ensures !Abandons(s.workers[w], k.id, LastFor(s.store, k.id)) {
      assert WorkerOk(c, s.store, s.workers[w]);
    }
  }

  /** What the holder of the current item may know while the task is stored as active by
      another worker: an active version, or nothing that matters. */
  lemma ActiveMeansOutdated(c: Config, st: Store, v: View, v': View, y: Worker)
    requires WorkerOk(c, st, y) && !Spent(y) && Informed(v, y) && !Relieved(v)
    requires !y.Idle? && y.item.id in st.tasks && st.tasks[y.item.id].task.state.Active?
    requires st.tasks[y.item.id].seqNo == v.last && (Engaged(y) ==> BaseSeq(y) != v.last)
    requires y.Writing? && !y.write.kind.Concluding? ==> y.how.Leave?
    ensures Informed(v', y)
  {
  }

  /** The holder of the current item stays informed when another worker's outcome, or
      anything after which the task is owed nothing, is stored. */
  lemma LateSaveKeepsLease(k: Focus, c: Config, s: System, x: Worker, y: Worker, v': View)
    requires Consistent(c, s) && x.Writing? && WorkerOk(c, s.store, x) && !x.write.kind.Activating?
    requires x.write.next.id == k.id && Acceptable(s, x.write)
    requires v'.item == ItemOf(k, s) && (v'.owed ==> OwedAs(k, x.write.next))
    requires WorkerOk(c, s.store, y) && LeaseOk(k, ViewOf(k, s), y) && Ripe(s.now, y)
    requires Engaged(x) && Engaged(y) ==> BaseSeq(x) != BaseSeq(y)
    ensures LeaseOk(k, v', y)
  {
    if Claims(k, v'.item, y) && x.write.kind.Concluding? {
      assert s.store.tasks[k.id].task == x.write.base;
      ActiveIsNotCared(k, c, s);
      ActiveMeansOutdated(c, s.store, ViewOf(k, s), v', y);
    }
  }

  /** A stored active mark goes to the holder of the current item; nobody else claims it. */
  lemma MarkKeepsLease(k: Focus, v: View, v': View, x: Worker, y: Worker)
    requires x.Writing? && x.write.kind.Activating? && Mine(k, x) && LeaseOk(k, v, x)
    requires LeaseOk(k, v, y) && Apart(k, v.item, y, x) && v'.item == v.item
    ensures LeaseOk(k, v', y)
  {
  }

  /** A save of this task that the store accepts. */
  lemma SaverIsFine(k: Focus, c: Config, s: System, x: Worker, v': View)
    requires Consistent(c, s) && x.Writing? && WorkerOk(c, s.store, x) && SettlementOk(x) && Ripe(s.now, x)
    requires x.write.next.id == k.id && Acceptable(s, x.write) && Kept(ViewOf(k, s)) && LeaseOk(k, ViewOf(k, s), x)
    requires v'.item == ItemOf(k, s) && v'.last == s.store.lastSeq + 1 && v'.owed == OwedAs(k, x.write.next)
    ensures Kept(v') && LeaseOk(k, v', SavedPhase(s, x, Delivered)) && SettlementOk(SavedPhase(s, x, Delivered))
  {
    if x.write.kind.Concluding? {
      assert s.store.tasks[k.id].task == x.write.base;
      ActiveIsNotCared(k, c, s);
    } else {
      PlainSaverIsFine(k, c, s, x, v');
    }
  }

  lemma PlainSaverIsFine(k: Focus, c: Config, s: System, x: Worker, v': View)
    requires x.Writing? && WorkerOk(c, s.store, x) && Ripe(s.now, x) && !x.write.kind.Concluding?
    requires x.write.next.id == k.id && Acceptable(s, x.write) && LeaseOk(k, ViewOf(k, s), x)
    requires v'.item == ItemOf(k, s) && v'.last == s.store.lastSeq + 1 && v'.owed == OwedAs(k, x.write.next)
    ensures Kept(v') && LeaseOk(k, v', SavedPhase(s, x, Delivered)) && SettlementOk(SavedPhase(s, x, Delivered))
  {
  }

  lemma AcceptedSaver(k: Focus, c: Config, s: System, w: Id)
    requires Consistent(c, s) && Exclusive(s) && Supplied(k, s) && At(s, w).Writing?
    requires At(s, w).write.next.id == k.id && Acceptable(s, At(s, w).write)
    ensures
      var y := SavedPhase(s, At(s, w), Delivered);
      var v' := ViewOf(k, Moved(AfterWrite(s, At(s, w).write, Delivered), w, y));
      && Kept(v') && LeaseOk(k, v', y) && SettlementOk(y) && (!y.Idle? ==> y.item == At(s, w).item)
      && v'.item == ItemOf(k, s) && v'.owed == OwedAs(k, At(s, w).write.next)
  {
    var x := At(s, w);
    assert WorkerOk(c, s.store, x) && Ripe(s.now, x);
    WriteView(k, s, x.write, Delivered);
    SaverIsFine(k, c, s, x, ViewOf(k, Moved(AfterWrite(s, x.write, Delivered), w, SavedPhase(s, x, Delivered))));
  }

  lemma AcceptedSaveSupplies(k: Focus, c: Config, s: System, w: Id)
    requires Consistent(c, s) && Exclusive(s) && Supplied(k, s) && At(s, w).Writing?
    requires At(s, w).write.next.id == k.id && Acceptable(s, At(s, w).write)
    ensures Supplied(k, Moved(AfterWrite(s, At(s, w).write, Delivered), w, SavedPhase(s, At(s, w), Delivered)))
  {
    var y := SavedPhase(s, At(s, w), Delivered);
    var s' := Moved(AfterWrite(s, At(s, w).write, Delivered), w, y);
    AcceptedSaver(k, c, s, w);
    forall o | o in s.workers && o != w
      ensures LeaseOk(k, ViewOf(k, s'), s.workers[o]) && Apart(k, ItemOf(k, s'), s.workers[o], y)
    {
      SaveSpares(k, c, s, w, o, ViewOf(k, s'));
    }
    StepSupplies(k, s, s', w, y);
  }

  lemma SaveSpares(k: Focus, c: Config, s: System, w: Id, o: Id, v': View)
    requires Consistent(c, s) && Exclusive(s) && Supplied(k, s) && At(s, w).Writing? && o in s.workers && o != w
    requires At(s, w).write.next.id == k.id && Acceptable(s, At(s, w).write)
    requires v'.item == ItemOf(k, s) && v'.owed == OwedAs(k, At(s, w).write.next)
    ensures LeaseOk(k, v', s.workers[o]) && Apart(k, v'.item, s.workers[o], SavedPhase(s, At(s, w), Delivered))
  {
    var x, y := At(s, w), s.workers[o];
    assert WorkerOk(c, s.store, x) && WorkerOk(c, s.store, y) && Ripe(s.now, x) && Ripe(s.now, y);
    assert Apart(k, v'.item, y, x);
    if x.write.kind.Activating? { MarkKeepsLease(k, ViewOf(k, s), v', x, y); }
    else { LateSaveKeepsLease(k, c, s, x, y, v'); }
  }

  /** A save of another task, or one that is refused: only the worker moves. */
  lemma OtherSaveSupplies(k: Focus, c: Config, s: System, w: Id, f: Fault)
    requires Consistent(c, s) && Exclusive(s) && Supplied(k, s) && At(s, w).Writing? && !Discards(c, At(s, w).write)
    requires At(s, w).write.next.id == k.id ==> f.Delivered? && !Acceptable(s, At(s, w).write)
    ensures Supplied(k, AfterSave(c, s, w, At(s, w), f))
  {
    assert WorkerOk(c, s.store, At(s, w)) && Ripe(s.now, At(s, w));
    var x, m := At(s, w), AfterWrite(s, At(s, w).write, f);
    WriteView(k, s, x.write, f);
    TurnSupplies(k, s, m);
    OtherSaverIsFine(k, c, s, x, f);
    MoveSupplies(k, m, w, SavedPhase(s, x, f));
  }

  lemma OtherSaverIsFine(k: Focus, c: Config, s: System, x: Worker, f: Fault)
    requires x.Writing? && WorkerOk(c, s.store, x) && LeaseOk(k, ViewOf(k, s), x) && Ripe(s.now, x)
    requires x.write.next.id == k.id ==> f.Delivered? && !Acceptable(s, x.write)
    ensures
      var y := SavedPhase(s, x, f);
      && LeaseOk(k, ViewOf(k, s), y) && SettlementOk(y) && (!y.Idle? ==> y.item == x.item)
      && (Spent(x) ==> Spent(y)) && !GivesUp(k, s, x)
  {
  }

  lemma StartDiscardSupplies(k: Focus, c: Config, s: System, w: Id)
    requires Consistent(c, s) && Exclusive(s) && Supplied(k, s) && At(s, w).Writing? && Discards(c, At(s, w).write)
    requires k.blocked ==> Unreachable !in c.discard
    ensures Supplied(k, Moved(s, w, DiscardPhase(s, At(s, w))))
  {
    var x := At(s, w);
    assert WorkerOk(c, s.store, x) && Ripe(s.now, x);
    DiscarderIsFine(k, c, s, x);
    MoveSupplies(k, s, w, DiscardPhase(s, x));
  }

  lemma DiscarderIsFine(k: Focus, c: Config, s: System, x: Worker)
    requires x.Writing? && WorkerOk(c, s.store, x) && LeaseOk(k, ViewOf(k, s), x) && Ripe(s.now, x)
    requires Discards(c, x.write)
    requires k.blocked ==> Unreachable !in c.discard
    ensures
      var y := DiscardPhase(s, x);
      LeaseOk(k, ViewOf(k, s), y) && SettlementOk(y) && y.item == x.item && (Spent(x) ==> Spent(y)) && !GivesUp(k, s, x)
  {
  }

  lemma SaveStepSupplies(k: Focus, c: Config, s: System, w: Id, f: Fault)
    requires Consistent(c, s) && Exclusive(s) && Supplied(k, s) && At(s, w).Writing? && Orderly(k, s, Save(w, f))
    requires k.blocked ==> Unreachable !in c.discard
    ensures Supplied(k, WorkerApply(c, s, Save(w, f)))
  {
    var wr := At(s, w).write;
    if Discards(c, wr) { StartDiscardSupplies(k, c, s, w); }
    else if wr.next.id == k.id && Acceptable(s, wr) { AcceptedSaveSupplies(k, c, s, w); }
    else { OtherSaveSupplies(k, c, s, w, f); }
  }

  // ---- The other worker steps ----

  lemma LoaderIsFine(k: Focus, s: System, x: Worker, fails: bool)
    requires x.Got? && LeaseOk(k, ViewOf(k, s), x)
    ensures LeaseOk(k, ViewOf(k, s), AfterLoad(s, x.item, fails))
  {
  }

  lemma DeciderIsFine(k: Focus, c: Config, s: System, x: Worker, ago: nat)
    requires x.Loaded? && WorkerOk(c, s.store, x) && LeaseOk(k, ViewOf(k, s), x)
    ensures
      var y := AfterDecide(c, x.item, x.base, x.seqNo, s.now - ago, s.now);
      LeaseOk(k, ViewOf(k, s), y) && SettlementOk(y) && (!y.Idle? ==> y.item == x.item)
  {
  }

  lemma ResolverIsFine(k: Focus, c: Config, s: System, x: Worker, fails: bool)
    requires x.Resolving? && WorkerOk(c, s.store, x) && LeaseOk(k, ViewOf(k, s), x)
    ensures
      var y := AfterResolve(s, x, fails);
      LeaseOk(k, ViewOf(k, s), y) && SettlementOk(y) && (!y.Idle? ==> y.item == x.item)
  {
  }

  /** Removing a task never strands anything. */
  lemma RemoveSupplies(k: Focus, s: System, id: string)
    requires Supplied(k, s)
    ensures Supplied(k, Removed(s, id))
    ensures id == k.id ==> !ViewOf(k, Removed(s, id)).owed
    ensures id != k.id ==> ViewOf(k, Removed(s, id)) == ViewOf(k, s)
  {
    var v, v' := ViewOf(k, s), ViewOf(k, Removed(s, id));
    assert v'.item == v.item;
    TurnSupplies(k, s, Removed(s, id));
  }

  lemma DiscardSupplies(k: Focus, c: Config, s: System, w: Id)
    requires Supplied(k, s) && At(s, w).Discarding?
    ensures Supplied(k, WorkerApply(c, s, CommitDiscard(w)))
  {
    var x := At(s, w);
    RemoveSupplies(k, s, x.item.id);
    MoveSupplies(k, AfterDiscard(s, x), w, Settling(x.item, x.how, None));
  }

  /** The task as seen after a settlement: at most the item is gone, and care is added. */
  lemma SettleView(k: Focus, s: System, w: Id, f: Fault)
    requires At(s, w).Settling?
    ensures
      var x, s' := At(s, w), AfterSettle(s, w, At(s, w), f);
      var v, v' := ViewOf(k, s), ViewOf(k, s');
      && v'.last == v.last && v'.owed == v.owed && (v.cared ==> v'.cared)
      && (v'.item == v.item || (v'.item == None && Removes(x.how) && Mine(k, x) && v.item == Some(x.item.n)))
  {
    var s' := AfterSettle(s, w, At(s, w), f);
    var q := s.(queue := s'.queue);
    MoveView(k, q, w, s'.workers[w]);
    assert ViewOf(k, q) == ViewOf(k, s).(item := ItemOf(k, s'));
  }

  /** Settling strands nothing: the item goes only if the task is seen to, by the worker
      itself if it is giving the task up. */
  lemma SettlerIsFine(k: Focus, c: Config, s: System, w: Id, f: Fault)
    requires At(s, w).Settling? && WorkerOk(c, s.store, At(s, w))
    requires LeaseOk(k, ViewOf(k, s), At(s, w)) && Kept(ViewOf(k, s))
    ensures
      var x, s' := At(s, w), AfterSettle(s, w, At(s, w), f);
      var v, v' := ViewOf(k, s), ViewOf(k, s');
      && Kept(v') && Undisturbed(v, v') && Spent(s'.workers[w]) && SettlementOk(s'.workers[w])
      && (v'.item == v.item || (v'.item == None && Claims(k, v.item, x)))
  {
    var s' := AfterSettle(s, w, At(s, w), f);
    SettleView(k, s, w, f);
    if ItemOf(k, s') != ItemOf(k, s) && !Relieved(ViewOf(k, s)) {
      assert Abandons(s'.workers[w], k.id, LastFor(s'.store, k.id));
    }
  }

  lemma SettleSupplies(k: Focus, c: Config, s: System, w: Id, f: Fault)
    requires Consistent(c, s) && Supplied(k, s) && At(s, w).Settling?
    ensures Supplied(k, WorkerApply(c, s, Settle(w, f)))
  {
    var x, s' := At(s, w), AfterSettle(s, w, At(s, w), f);
    var v, v' := ViewOf(k, s), ViewOf(k, s');
    assert WorkerOk(c, s.store, x);
    SettlerIsFine(k, c, s, w, f);
    forall o | o in s.workers && o != w
      ensures LeaseOk(k, v', s.workers[o]) && Continues(k, v, v', s.workers[o])
    {
      assert Apart(k, v.item, s.workers[o], x);
      LeaseStays(k, v, v', s.workers[o]);
    }
    StepSupplies(k, s, s', w, s'.workers[w]);
  }

  lemma DeliverSupplies(k: Focus, s: System, w: Id, id: string)
    requires Supplied(k, s) && WorkerEnabled(s, Deliver(w, id)) && Orderly(k, s, Deliver(w, id))
    ensures Supplied(k, Moved(s, w, Got(Item(id, s.queue[id]))))
  {
    var y := Got(Item(id, s.queue[id]));
    var v, v' := ViewOf(k, s), ViewOf(k, Moved(s, w, y));
    MoveView(k, s, w, y);
    forall o | o in s.workers && o != w ensures LeaseOk(k, v', s.workers[o]) && Apart(k, v'.item, s.workers[o], y) {
      assert id == k.id ==> !Claims(k, v.item, s.workers[o]);
      LeaseStays(k, v, v', s.workers[o]);
    }
    StepSupplies(k, s, Moved(s, w, y), w, y);
  }

  /** A worker that moves on with its item keeps its lease in order. */
  lemma PhaseIsFine(k: Focus, c: Config, s: System, step: Step)
    requires Plain(step) && WorkerEnabled(s, step) && !step.Deliver?
    requires WorkerOk(c, s.store, At(s, step.w)) && LeaseOk(k, ViewOf(k, s), At(s, step.w))
    ensures
      var x, y := At(s, step.w), NextPhase(c, s, step);
      && LeaseOk(k, ViewOf(k, s), y) && SettlementOk(y)
      && (!y.Idle? ==> !x.Idle? && !Spent(x) && y.item == x.item)
  {
    var x := At(s, step.w);
    match step
    case Load(_, fails) => LoaderIsFine(k, s, x, fails);
    case Decide(_, ago) => DeciderIsFine(k, c, s, x, ago);
    case Resolve(_, fails) => ResolverIsFine(k, c, s, x, fails);
    case Finish(_, o) => FinisherIsFine(k, c, s, x, o);
    case Crash(_) =>
  }

  lemma FinisherIsFine(k: Focus, c: Config, s: System, x: Worker, o: Outcome)
    requires x.Running? && LeaseOk(k, ViewOf(k, s), x)
    ensures LeaseOk(k, ViewOf(k, s), AfterFinish(c, s, x, o)) && SettlementOk(AfterFinish(c, s, x, o))
  {
  }

  lemma PlainStepSupplies(k: Focus, c: Config, s: System, step: Step)
    requires Consistent(c, s) && Supplied(k, s) && WorkerEnabled(s, step) && Orderly(k, s, step) && Plain(step)
    ensures Supplied(k, Moved(s, step.w, NextPhase(c, s, step)))
  {
    if step.Deliver? {
      DeliverSupplies(k, s, step.w, step.id);
    } else {
      assert WorkerOk(c, s.store, At(s, step.w));
      PhaseIsFine(k, c, s, step);
      MoveSupplies(k, s, step.w, NextPhase(c, s, step));
    }
  }

  lemma WorkerStepSupplies(k: Focus, c: Config, s: System, step: Step)
    requires Consistent(c, s) && Exclusive(s) && Supplied(k, s) && WorkerEnabled(s, step) && Orderly(k, s, step)
    requires k.blocked ==> Unreachable !in c.discard
    ensures Supplied(k, WorkerApply(c, s, step))
  {
    if Plain(step) {
      PlainStepSupplies(k, c, s, step);
    } else {
      match step
      case Save(w, f) => SaveStepSupplies(k, c, s, w, f);
      case CommitDiscard(w) => DiscardSupplies(k, c, s, w);
      case Settle(w, f) => SettleSupplies(k, c, s, w, f);
    }
  }

  // ---- Producer steps ----

  /** A producer that was not enqueueing the current version may do something else. */
  lemma TurnView(k: Focus, s: System, p: Id, x: Producer)
    requires p in s.producers ==> !Enqueueing(s.producers[p], k.id, LastFor(s.store, k.id))
    ensures
      var v, v' := ViewOf(k, s), ViewOf(k, Turned(s, p, x));
      v' == v.(cared := v'.cared) && (v.cared ==> v'.cared)
  {
    var s' := Turned(s, p, x);
    if BeingEnqueued(s, k.id) {
      var q :| q in s.producers && Enqueueing(s.producers[q], k.id, LastFor(s.store, k.id));
      assert s'.producers[q] == s.producers[q];
    }
  }

  lemma EnqueueingCares(k: Focus, s: System, p: Id)
    requires p in s.producers && Enqueueing(s.producers[p], k.id, LastFor(s.store, k.id))
    ensures ViewOf(k, s).cared
  {
  }

  lemma BeginSupplies(k: Focus, s: System, p: Id, x: Producer)
    requires Supplied(k, s) && p in s.producers && s.producers[p].Free?
    ensures Supplied(k, Turned(s, p, x))
  {
    TurnView(k, s, p, x);
    TurnSupplies(k, s, Turned(s, p, x));
  }

  /** A store that is not one of this task, or is refused, changes nothing for it. */
  lemma OtherStoreSupplies(k: Focus, s: System, p: Id, wr: Write, f: Fault, x: Producer)
    requires Supplied(k, s) && p in s.producers && (s.producers[p] == Storing(wr) || s.producers[p] == Failing(wr))
    requires wr.next.id != k.id || !Applied(s, wr, f)
    requires s.producers[p].Failing? ==> wr.next.id != k.id || f.Delivered?
    ensures Supplied(k, Turned(AfterWrite(s, wr, f), p, x))
  {
    var m := AfterWrite(s, wr, f);
    WriteView(k, s, wr, f);
    TurnView(k, m, p, x);
    TurnSupplies(k, s, Turned(m, p, x));
  }

  lemma StoreSupplies(k: Focus, c: Config, s: System, p: Id, f: Fault)
    requires Consistent(c, s) && Supplied(k, s) && Of(s, p).Storing? && Orderly(k, s, StoreTask(p, f))
    ensures Supplied(k, ProducerApply(c, s, StoreTask(p, f)))
  {
    var wr, s' := Of(s, p).write, ProducerApply(c, s, StoreTask(p, f));
    if wr.next.id != k.id || !Applied(s, wr, f) {
      OtherStoreSupplies(k, s, p, wr, f, s'.producers[p]);
    } else {
      EnqueueingCares(k, s', p);
      assert ItemOf(k, s') == ItemOf(k, s);
      TurnSupplies(k, s, s');
    }
  }

  lemma FailureSupplies(k: Focus, c: Config, s: System, p: Id, f: Fault)
    requires Consistent(c, s) && Supplied(k, s) && Of(s, p).Failing? && Orderly(k, s, SaveFailure(p, f))
    ensures Supplied(k, ProducerApply(c, s, SaveFailure(p, f)))
  {
    var wr, s' := Of(s, p).write, ProducerApply(c, s, SaveFailure(p, f));
    assert ProducerOk(c, s.store, Of(s, p));
    if wr.next.id != k.id || !Applied(s, wr, f) {
      OtherStoreSupplies(k, s, p, wr, f, Free);
    } else {
      FailureOwesNothing(k, c, s, p, f);
      TurnSupplies(k, s, s');
    }
  }

  lemma FailureOwesNothing(k: Focus, c: Config, s: System, p: Id, f: Fault)
    requires Of(s, p).Failing? && ProducerOk(c, s.store, Of(s, p))
    requires Of(s, p).write.next.id == k.id && Applied(s, Of(s, p).write, f)
    ensures
      var v' := ViewOf(k, ProducerApply(c, s, SaveFailure(p, f)));
      !v'.owed && v'.item == ItemOf(k, s)
  {
  }

  /** The task goes on being cared for unless its item was added. */
  lemma PublishView(k: Focus, s: System, p: Id, r: PublishResult)
    requires Of(s, p).Publishing?
    ensures
      var v, v' := ViewOf(k, s), ViewOf(k, AfterPublish(s, p, Of(s, p), r));
      && v'.last == v.last && v'.owed == v.owed
      && v'.item == (if r.NotPublished? || Of(s, p).task.id != k.id then v.item else Some(s.nextItem))
      && (v.cared ==> v'.cared || (r.Published? && Of(s, p).task.id == k.id))
  {
    var x, s' := Of(s, p), AfterPublish(s, p, Of(s, p), r);
    var q := s.(queue := s'.queue, nextItem := s'.nextItem);
    if Enqueueing(x, k.id, LastFor(s.store, k.id)) {
      if !r.Published? { EnqueueingCares(k, s', p); }
    } else {
      assert ViewOf(k, q) == ViewOf(k, s).(item := ItemOf(k, q));
      TurnView(k, q, p, s'.producers[p]);
    }
  }

  lemma PublishSupplies(k: Focus, c: Config, s: System, p: Id, r: PublishResult)
    requires Supplied(k, s) && Of(s, p).Publishing? && Orderly(k, s, Publish(p, r))
    ensures Supplied(k, ProducerApply(c, s, Publish(p, r)))
  {
    var s' := AfterPublish(s, p, Of(s, p), r);
    var v, v' := ViewOf(k, s), ViewOf(k, s');
    PublishView(k, s, p, r);
    forall w | w in s.workers ensures Continues(k, v, v', s.workers[w]) && LeaseOk(k, v', s.workers[w]) {
      assert LeaseOk(k, v, s.workers[w]);
      assert v'.item != v.item && Mine(k, s.workers[w]) ==> Handling(s.workers[w]);
    }
    forall w, w' | w in s.workers && w' in s.workers && w != w' ensures Apart(k, v'.item, s.workers[w], s.workers[w']) {
      assert Apart(k, v.item, s.workers[w], s.workers[w']);
    }
  }

  lemma ProducerStepSupplies(k: Focus, c: Config, s: System, step: Step)
    requires Consistent(c, s) && Supplied(k, s) && ProducerEnabled(s, step) && Orderly(k, s, step)
    ensures Supplied(k, ProducerApply(c, s, step))
  {
    match step
    case Advance(_) => TurnSupplies(k, s, ProducerApply(c, s, step));
    case Enqueue(p, _) => BeginSupplies(k, s, p, ProducerApply(c, s, step).producers[p]);
    case RetryById(p, _) => BeginSupplies(k, s, p, ProducerApply(c, s, step).producers[p]);
    case Reenqueue(p, _) => BeginSupplies(k, s, p, ProducerApply(c, s, step).producers[p]);
    case StoreTask(p, f) => StoreSupplies(k, c, s, p, f);
    case Publish(p, r) => PublishSupplies(k, c, s, p, r);
    case SaveFailure(p, f) => FailureSupplies(k, c, s, p, f);
    case RemoveTask(id) => RemoveSupplies(k, s, id);
  }

  lemma SuppliedOneMore(k: Focus, c: Config, s: System, step: Step)
    requires Consistent(c, s) && Exclusive(s) && Supplied(k, s) && Orderly(k, s, step)
    requires k.blocked ==> Unreachable !in c.discard
    ensures Enabled(s, step) ==> Supplied(k, Apply(c, s, step))
  {
    if WorkerEnabled(s, step) { WorkerStepSupplies(k, c, s, step); }
    else if ProducerEnabled(s, step) { ProducerStepSupplies(k, c, s, step); }
  }

  lemma {:induction false} RunIsSupplied(k: Focus, c: Config, s: System, steps: seq<Step>)
    requires Initial(s) && OrderlyRun(k, c, s, steps) && (k.blocked ==> Unreachable !in c.discard)
    ensures Supplied(k, After(c, s, steps))
  {
    if steps != [] {
      var init := steps[..|steps| - 1];
      RunIsSupplied(k, c, s, init);
      RunIsConsistent(c, s, init);
      RunIsExclusive(c, s, init);
      SuppliedOneMore(k, c, After(c, s, init), steps[|steps| - 1]);
    }
  }

  /** With workers crashing at any step, manual retries also of a running task, deletions,
      discards, failing publishes, lost settlements, and anything at all happening to other
      tasks: a task stored as new, to be retried or active has an item in the queue or is
      being enqueued, provided its own saves fail only by the sequence check, its item is
      not handed out while a worker is busy with it, and not replaced while its holder may
      still take the task up. */
  lemma NoStrandedWork(c: Config, s: System, steps: seq<Step>, id: string)
    requires Initial(s) && OrderlyRun(Focus(id, false), c, s, steps)
    requires Owed(Focus(id, false), After(c, s, steps).store)
    ensures id in After(c, s, steps).queue || BeingEnqueued(After(c, s, steps), id)
  {
    RunIsSupplied(Focus(id, false), c, s, steps);
    assert Kept(ViewOf(Focus(id, false), After(c, s, steps)));
  }

  /** A task that is blocked as well has an item, is being enqueued, or a worker is about to
      record it as unreachable, provided moreover that no worker crashes between terminating
      the item and that record. Unreachable is not a state a client may discard. */
  lemma NoStrandedWaiting(c: Config, s: System, steps: seq<Step>, id: string)
    requires Unreachable !in c.discard && Initial(s) && OrderlyRun(Focus(id, true), c, s, steps)
    requires Owed(Focus(id, true), After(c, s, steps).store)
    ensures
      var e := After(c, s, steps);
      id in e.queue || BeingEnqueued(e, id) || BeingGivenUp(e, id)
  {
    RunIsSupplied(Focus(id, true), c, s, steps);
    assert Kept(ViewOf(Focus(id, true), After(c, s, steps)));
  }

  // ---- Exactly when that holds ----

  /** What may befall a task in a deployment: saves of it that do not arrive or whose answers
      do not, its item handed out while a worker is still busy with it or replaced while a
      worker that was handed it may still take the task up, and a worker crashing between
      terminating the item and recording the task as unreachable. */
  datatype Hazards = Hazards(lostSaves: bool, outlivedLeases: bool, replacedItems: bool, brokenOff: bool)

  predicate Tolerated(h: Hazards, k: Focus, s: System, step: Step) {
    || Orderly(k, s, step)
    || (h.lostSaves && (step.Save? || step.StoreTask? || step.SaveFailure?))
    || (h.outlivedLeases && step.Deliver?)
    || (h.replacedItems && step.Publish?)
    || (h.brokenOff && step.Crash?)
  }

  predicate ToleratedRun(h: Hazards, k: Focus, c: Config, s: System, steps: seq<Step>) {
    steps == [] ||
      (var init := steps[..|steps| - 1];
       ToleratedRun(h, k, c, s, init) && Tolerated(h, k, After(c, s, init), steps[|steps| - 1]))
  }

  lemma {:induction false} SafeRunIsOrderly(h: Hazards, k: Focus, c: Config, s: System, steps: seq<Step>)
    requires !h.lostSaves && !h.outlivedLeases && !h.replacedItems && (k.blocked ==> !h.brokenOff)
    requires ToleratedRun(h, k, c, s, steps)
    ensures OrderlyRun(k, c, s, steps)
  {
    if steps != [] { SafeRunIsOrderly(h, k, c, s, steps[..|steps| - 1]); }
  }

  /** `e` is reached from `s` by a run tolerated for the task. */
  ghost predicate Reached(h: Hazards, k: Focus, c: Config, s: System, steps: seq<Step>, e: System) {
    k.id == "t" && ToleratedRun(h, k, c, s, steps) && e == After(c, s, steps)
  }

  lemma Go(h: Hazards, k: Focus, c: Config, s: System, steps: seq<Step>, e: System, step: Step)
    returns (steps': seq<Step>, e': System)
    requires Reached(h, k, c, s, steps, e) && Tolerated(h, k, e, step) && Enabled(e, step)
    ensures Reached(h, k, c, s, steps', e') && e' == Apply(c, e, step)
  {
    steps' := steps + [step];
    e' := After(c, s, steps');
    AfterOneMore(c, s, steps, step);
    assert steps'[..|steps'| - 1] == steps;
  }

  const CHORE := Task("t", "mail", "", [], map[], false, [], None, 10, None, New, 0, None, 0, "", "")

  /** Two idle workers and one producer, on nothing. */
  const EMPTY := System(0, Store(map[], 0), map[], [], map[], 0, map[0 := Idle, 1 := Idle], map[0 := Free])

  /** Nobody will ever take this task up again by itself. */
  predicate Stranded(k: Focus, s: System) {
    && Owed(k, s.store) && k.id !in s.queue && !BeingEnqueued(s, k.id)
    && forall w :: w in s.workers ==> s.workers[w].Idle?
  }

  lemma StoredChore(h: Hazards, k: Focus, c: Config, s: System, steps: seq<Step>, e: System, f: Fault)
    returns (steps': seq<Step>, e': System)
    requires Reached(h, k, c, s, steps, e) && "t" !in e.store.tasks && e.producers == map[0 := Free]
    requires !f.Dropped? && (f.Delivered? || h.lostSaves)
    ensures
      var t := CHORE.(queue := c.queue);
      && Reached(h, k, c, s, steps', e') && e'.store == Put(e.store, t)
      && e'.queue == e.queue && e'.nextItem == e.nextItem && e'.workers == e.workers && e'.now == e.now
      && e'.producers == map[0 := if f.Delivered? then Publishing(t, e.store.lastSeq + 1) else Free]
  {
    var t := CHORE.(queue := c.queue);
    var wr := Write(t, 0, t, Creating);
    var t1, e1 := Go(h, k, c, s, steps, e, Enqueue(0, CHORE));
    assert e1 == Turned(e, 0, Storing(wr));
    steps', e' := StoreLands(h, k, c, s, t1, e1, wr, f);
  }

  /** The producer's store is accepted. */
  lemma StoreLands(h: Hazards, k: Focus, c: Config, s: System, steps: seq<Step>, e: System, wr: Write, f: Fault)
    returns (steps': seq<Step>, e': System)
    requires Reached(h, k, c, s, steps, e) && Of(e, 0) == Storing(wr) && Acceptable(e, wr)
    requires !f.Dropped? && (f.Delivered? || h.lostSaves)
    ensures Reached(h, k, c, s, steps', e')
    ensures e' == Turned(WithVersion(e, wr), 0, if f.Delivered? then Publishing(wr.next, e.store.lastSeq + 1) else Free)
  {
    steps', e' := Go(h, k, c, s, steps, e, StoreTask(0, f));
  }

  /** A lost answer to the first store is enough: the task is there and nobody goes on to
      add its item. */
  lemma LostSaveStrandsWork(k: Focus, c: Config) returns (s: System, steps: seq<Step>)
    requires k.id == "t"
    ensures Initial(s) && ToleratedRun(Hazards(true, false, false, false), k, c, s, steps)
    ensures Stranded(k, After(c, s, steps))
  {
    s := EMPTY;
    var e;
    steps, e := StoredChore(Hazards(true, false, false, false), k, c, s, [], s, AckLost);
  }

  lemma EnqueuedChore(h: Hazards, k: Focus, c: Config) returns (s: System, steps: seq<Step>, e: System)
    requires k.id == "t"
    ensures Initial(s) && Reached(h, k, c, s, steps, e)
    ensures e.store == Store(map["t" := Stored(CHORE.(queue := c.queue), 1)], 1)
    ensures e.queue == map["t" := 0] && e.nextItem == 1 && e.producers == map[0 := Free]
    ensures e.workers == map[0 := Idle, 1 := Idle]
  {
    s := EMPTY;
    var t1, e1 := StoredChore(h, k, c, s, [], s, Delivered);
    steps, e := Go(h, k, c, s, t1, e1, Publish(0, Published));
    assert e == AfterPublish(e1, 0, Publishing(CHORE.(queue := c.queue), 1), Published);
  }

  // ---- An item handed out twice ----

  /** A worker that was handed the item goes on to its running handler. */
  lemma HolderStarts(h: Hazards, k: Focus, c: Config, s: System, steps: seq<Step>, e: System, w: Id, item: Item)
    returns (steps': seq<Step>, e': System)
    requires Reached(h, k, c, s, steps, e) && w in e.workers && e.workers[w] == Got(item) && item.id == "t"
    requires "t" in e.store.tasks && e.store.tasks["t"].task.id == "t"
    requires Check(c, e.store.tasks["t"].task, e.now).Startable?
    ensures Reached(h, k, c, s, steps', e')
    ensures
      var next := Activated(e.store.tasks["t"].task, e.now);
      && e'.store == Put(e.store, next) && e'.queue == e.queue && e'.now == e.now && e'.producers == e.producers
      && e'.nextItem == e.nextItem && e'.workers == e.workers[w := Running(item, next, e.store.lastSeq + 1)]
  {
    var v := e.store.tasks["t"];
    var t1, e1 := HolderDecides(h, k, c, s, steps, e, w, item);
    var x := e1.workers[w];
    steps', e' := Go(h, k, c, s, t1, e1, Save(w, Delivered));
    assert e' == AfterSave(c, e1, w, x, Delivered);
  }

  lemma HolderDecides(h: Hazards, k: Focus, c: Config, s: System, steps: seq<Step>, e: System, w: Id, item: Item)
    returns (steps': seq<Step>, e': System)
    requires Reached(h, k, c, s, steps, e) && w in e.workers && e.workers[w] == Got(item) && item.id == "t"
    requires "t" in e.store.tasks && Check(c, e.store.tasks["t"].task, e.now).Startable?
    ensures Reached(h, k, c, s, steps', e')
    ensures
      var v := e.store.tasks["t"];
      var wr := Write(v.task, v.seqNo, Activated(v.task, e.now), Activating);
      e' == e.(workers := e.workers[w := Writing(item, wr, Leave)])
  {
    var v := e.store.tasks["t"];
    var t1, e1 := Go(h, k, c, s, steps, e, Load(w, false));
    assert e1 == Moved(e, w, Loaded(item, v.task, v.seqNo));
    assert v.task.(depResults := v.task.depResults) == v.task;
    steps', e' := Go(h, k, c, s, t1, e1, Decide(w, 0));
  }

  lemma WorkerStarts(h: Hazards, k: Focus, c: Config, s: System, steps: seq<Step>, e: System, w: Id)
    returns (steps': seq<Step>, e': System)
    requires Reached(h, k, c, s, steps, e) && w in e.workers && e.workers[w].Idle?
    requires h.outlivedLeases || !Leased(k, e)
    requires "t" in e.queue && "t" in e.store.tasks && e.store.tasks["t"].task.id == "t"
    requires Check(c, e.store.tasks["t"].task, e.now).Startable?
    ensures Reached(h, k, c, s, steps', e')
    ensures
      var next := Activated(e.store.tasks["t"].task, e.now);
      && e'.store == Put(e.store, next) && e'.queue == e.queue && e'.now == e.now && e'.producers == e.producers
      && e'.workers == e.workers[w := Running(Item("t", e.queue["t"]), next, e.store.lastSeq + 1)]
  {
    var t1, e1 := Go(h, k, c, s, steps, e, Deliver(w, "t"));
    assert e1 == Moved(e, w, Got(Item("t", e.queue["t"])));
    steps', e' := HolderStarts(h, k, c, s, t1, e1, w, Item("t", e.queue["t"]));
  }

  /** Worker 0 is about to acknowledge its item, or to discard the version it found. */
  predicate Withdrawing(x: Worker, found: nat) {
    && (x.Settling? || (x.Discarding? && x.read == found))
    && x.item == Item("t", 0) && x.how.Ack? && (x.Settling? ==> x.followUp.None?)
  }

  /** A worker that succeeds after the task was taken over cannot save its outcome, or
      sets out to discard what the other worker stored. */
  lemma LateSuccess(h: Hazards, k: Focus, c: Config, s: System, steps: seq<Step>, e: System)
    returns (steps': seq<Step>, e': System)
    requires Reached(h, k, c, s, steps, e) && 0 in e.workers && e.workers[0].Running?
    requires e.workers[0].base.id == "t" && e.workers[0].item == Item("t", 0)
    requires "t" in e.store.tasks && e.store.tasks["t"].seqNo != e.workers[0].seqNo
    ensures Reached(h, k, c, s, steps', e') && e'.store == e.store && e'.queue == e.queue && e'.producers == e.producers
    ensures e'.now == e.now
    ensures 0 in e'.workers && Withdrawing(e'.workers[0], e.store.tasks["t"].seqNo)
    ensures e'.workers == e.workers[0 := e'.workers[0]]
  {
    var x := AfterFinish(c, e, e.workers[0], Success("ok"));
    var t1, e1 := Go(h, k, c, s, steps, e, Finish(0, Success("ok")));
    assert e1 == Moved(e, 0, x) && x.write.next.id == "t";
    steps', e' := Go(h, k, c, s, t1, e1, Save(0, Delivered));
    assert e' == AfterSave(c, e1, 0, x, Delivered);
  }

  /** It then acknowledges the item, whatever became of the version it wanted to discard. */
  lemma Acknowledges(h: Hazards, k: Focus, c: Config, s: System, steps: seq<Step>, e: System, found: nat)
    returns (steps': seq<Step>, e': System)
    requires Reached(h, k, c, s, steps, e) && 0 in e.workers && Withdrawing(e.workers[0], found)
    requires LastFor(e.store, "t") != found && e.queue == map["t" := 0]
    ensures Reached(h, k, c, s, steps', e') && e'.store == e.store && e'.queue == map[] && e'.producers == e.producers
    ensures e'.workers == e.workers[0 := Idle]
  {
    var y := Settling(Item("t", 0), Ack, None);
    var t1, e1 := steps, e;
    if e.workers[0].Discarding? {
      t1, e1 := Go(h, k, c, s, steps, e, CommitDiscard(0));
    }
    assert e1 == Moved(e, 0, y);
    steps', e' := Go(h, k, c, s, t1, e1, Settle(0, Delivered));
    assert e' == AfterSettle(e1, 0, y, Delivered);
  }

  /** A worker takes the task over once the active mark is old enough. */
  lemma TakesOver(h: Hazards, k: Focus, c: Config, s: System, steps: seq<Step>, e: System)
    returns (steps': seq<Step>, e': System)
    requires Reached(h, k, c, s, steps, e) && h.outlivedLeases && 1 in e.workers && e.workers[1].Idle?
    requires e.queue == map["t" := 0] && "t" in e.store.tasks
    requires exists mark :: mark <= e.now && e.store.tasks["t"].task == Activated(CHORE.(queue := c.queue), mark)
    ensures Reached(h, k, c, s, steps', e') && e'.queue == e.queue && e'.producers == e.producers
    ensures "t" in e'.store.tasks
    ensures e'.store.tasks["t"] == Stored(Activated(CHORE.(queue := c.queue), e'.now), e.store.lastSeq + 1)
    ensures e'.store.lastSeq == e.store.lastSeq + 1
    ensures 1 in e'.workers && e'.workers[1].Running? && e'.workers == e.workers[1 := e'.workers[1]]
  {
    var wait := if c.maxRunTime >= 0 then c.maxRunTime else 0;
    var t1, e1 := Go(h, k, c, s, steps, e, Advance(wait));
    assert e1 == e.(now := e.now + wait);
    steps', e' := WorkerStarts(h, k, c, s, t1, e1, 1);
  }

  /** Once an item may be handed out while a worker is busy with it, work can be lost: the
      task ends up active with neither an item nor anybody working on it. */
  lemma OutlivedLeaseStrandsWork(k: Focus, c: Config) returns (s: System, steps: seq<Step>)
    requires k.id == "t"
    ensures Initial(s) && ToleratedRun(Hazards(false, true, false, false), k, c, s, steps)
    ensures Stranded(k, After(c, s, steps))
  {
    var h := Hazards(false, true, false, false);
    var e;
    s, steps, e := EnqueuedChore(h, k, c);
    steps, e := WorkerStarts(h, k, c, s, steps, e, 0);
    steps, e := TakesOver(h, k, c, s, steps, e);
    steps, e := LateSuccess(h, k, c, s, steps, e);
    steps, e := Go(h, k, c, s, steps, e, Crash(1));
    steps, e := TakesOver(h, k, c, s, steps, e);
    steps, e := Acknowledges(h, k, c, s, steps, e, 3);
    steps, e := Go(h, k, c, s, steps, e, Crash(1));
  }

  // ---- An item replaced under its holder ----

  /** A manual retry stores the task anew and replaces its item. */
  lemma ChoreRetried(h: Hazards, k: Focus, c: Config, s: System, steps: seq<Step>, e: System)
    returns (steps': seq<Step>, e': System)
    requires Reached(h, k, c, s, steps, e) && h.replacedItems && e.producers == map[0 := Free]
    requires e.queue == map["t" := 0]
    requires e.store == Store(map["t" := Stored(CHORE.(queue := c.queue), 1)], 1) && e.nextItem == 1
    ensures Reached(h, k, c, s, steps', e') && e'.workers == e.workers
    ensures e'.producers == map[0 := Free] && e'.queue == map["t" := 1]
  {
    var t1, e1 := RetryStored(h, k, c, s, steps, e);
    steps', e' := Go(h, k, c, s, t1, e1, Publish(0, Published));
    assert e' == AfterPublish(e1, 0, e1.producers[0], Published);
  }

  lemma RetryStored(h: Hazards, k: Focus, c: Config, s: System, steps: seq<Step>, e: System)
    returns (steps': seq<Step>, e': System)
    requires Reached(h, k, c, s, steps, e) && e.producers == map[0 := Free]
    requires e.store == Store(map["t" := Stored(CHORE.(queue := c.queue), 1)], 1)
    ensures Reached(h, k, c, s, steps', e') && e'.queue == e.queue && e'.nextItem == e.nextItem
    ensures e'.workers == e.workers
    ensures e'.producers.Keys == {0} && e'.producers[0].Publishing? && e'.producers[0].task.id == "t"
  {
    var b := CHORE.(queue := c.queue);
    var wr := Write(b, 1, RetriedInto(b, c.queue), Retrying);
    var t1, e1 := Go(h, k, c, s, steps, e, RetryById(0, "t"));
    assert e1 == Turned(e, 0, Storing(wr));
    steps', e' := StoreLands(h, k, c, s, t1, e1, wr, Delivered);
  }

  /** Worker 0 is handed the item of a task that is then retried: it keeps the old item
      while worker 1 is handed the new one. */
  lemma ItemReplaced(h: Hazards, k: Focus, c: Config) returns (s: System, steps: seq<Step>, e: System)
    requires h.replacedItems && k.id == "t"
    ensures Initial(s) && Reached(h, k, c, s, steps, e) && e.producers == map[0 := Free]
    ensures e.queue == map["t" := 1] && e.workers == map[0 := Got(Item("t", 0)), 1 := Got(Item("t", 1))]
  {
    s, steps, e := EnqueuedChore(h, k, c);
    steps, e := Go(h, k, c, s, steps, e, Deliver(0, "t"));
    steps, e := ChoreRetried(h, k, c, s, steps, e);
    steps, e := Go(h, k, c, s, steps, e, Deliver(1, "t"));
  }

  /** The task is deleted before worker 1 loads it, so that worker 1 is about to terminate
      the item, and created again. */
  lemma TaskRecreated(h: Hazards, k: Focus, c: Config, s: System, steps: seq<Step>, e: System)
    returns (steps': seq<Step>, e': System)
    requires Reached(h, k, c, s, steps, e) && e.producers == map[0 := Free]
    requires e.workers == map[0 := Got(Item("t", 0)), 1 := Got(Item("t", 1))]
    ensures Reached(h, k, c, s, steps', e') && e'.queue == e.queue
    ensures e'.workers == map[0 := Got(Item("t", 0)), 1 := Settling(Item("t", 1), Term, None)]
    ensures
      var t := CHORE.(queue := c.queue);
      && "t" in e'.store.tasks && e'.store.tasks["t"] == Stored(t, e'.store.lastSeq)
      && e'.producers == map[0 := Publishing(t, e'.store.lastSeq)]
  {
    var t1, e1 := Go(h, k, c, s, steps, e, RemoveTask("t"));
    assert e1 == Removed(e, "t");
    var t2, e2 := Go(h, k, c, s, t1, e1, Load(1, false));
    assert e2 == Moved(e1, 1, Settling(Item("t", 1), Term, None));
    steps', e' := StoredChore(h, k, c, s, t2, e2, Delivered);
  }

  /** The producer's publish fails, and its report of that is refused because the task was
      taken up meanwhile. */
  lemma PublishGivenUp(h: Hazards, k: Focus, c: Config, s: System, steps: seq<Step>, e: System, seqNo: nat)
    returns (steps': seq<Step>, e': System)
    requires Reached(h, k, c, s, steps, e) && LastFor(e.store, "t") != seqNo
    requires e.producers == map[0 := Publishing(CHORE.(queue := c.queue), seqNo)]
    ensures Reached(h, k, c, s, steps', e') && e'.store == e.store && e'.queue == e.queue && e'.workers == e.workers
    ensures e'.producers == map[0 := Free]
  {
    var t := CHORE.(queue := c.queue);
    var t1, e1 := Go(h, k, c, s, steps, e, Publish(0, NotPublished("duplicate")));
    assert e1 == Turned(e, 0, Failing(Write(t, seqNo, QueueFailed(t, "duplicate"), QueueFailing)));
    steps', e' := Go(h, k, c, s, t1, e1, SaveFailure(0, Delivered));
  }

  /** Worker 1 terminates the new item, and worker 0 crashes. */
  lemma ItemTerminated(h: Hazards, k: Focus, c: Config, s: System, steps: seq<Step>, e: System)
    returns (steps': seq<Step>, e': System)
    requires Reached(h, k, c, s, steps, e) && e.queue == map["t" := 1]
    requires e.workers.Keys == {0, 1} && e.workers[0].Running? && e.workers[1] == Settling(Item("t", 1), Term, None)
    ensures Reached(h, k, c, s, steps', e') && e'.store == e.store && e'.producers == e.producers
    ensures e'.queue == map[] && e'.workers == map[0 := Idle, 1 := Idle]
  {
    var t1, e1 := Go(h, k, c, s, steps, e, Settle(1, Delivered));
    assert e1 == AfterSettle(e, 1, Settling(Item("t", 1), Term, None), Delivered);
    steps', e' := Go(h, k, c, s, t1, e1, Crash(0));
  }

  /** Once an item may be replaced while its holder may still take the task up, work can be
      lost with no time passing, no save lost and no item handed out twice. */
  lemma ReplacedItemStrandsWork(k: Focus, c: Config) returns (s: System, steps: seq<Step>)
    requires k.id == "t"
    ensures Initial(s) && ToleratedRun(Hazards(false, false, true, false), k, c, s, steps)
    ensures Stranded(k, After(c, s, steps))
  {
    var h := Hazards(false, false, true, false);
    var e;
    s, steps, e := ItemReplaced(h, k, c);
    steps, e := TaskRecreated(h, k, c, s, steps, e);
    var seqNo := e.store.lastSeq;
    steps, e := HolderStarts(h, k, c, s, steps, e, 0, Item("t", 0));
    steps, e := PublishGivenUp(h, k, c, s, steps, e, seqNo);
    steps, e := ItemTerminated(h, k, c, s, steps, e);
  }

  // ---- A worker that breaks off giving a task up ----

  /** A task that waits for a parent nobody has created. */
  const WAITING_CHORE := CHORE.(deps := ["p"], state := Blocked)

  lemma WaitingChore(h: Hazards, k: Focus, c: Config) returns (s: System, steps: seq<Step>, e: System)
    requires k.id == "t"
    ensures Initial(s) && Reached(h, k, c, s, steps, e) && e.workers == map[0 := Idle, 1 := Idle]
    ensures e.store == Store(map["t" := Stored(WAITING_CHORE.(queue := c.queue), 1)], 1)
    ensures e.queue == map["t" := 0] && e.producers == map[0 := Free]
  {
    var t := WAITING_CHORE.(queue := c.queue);
    s := EMPTY;
    var t1, e1 := Go(h, k, c, s, [], s, Enqueue(0, WAITING_CHORE));
    assert e1 == Turned(s, 0, Storing(Write(t, 0, t, Creating)));
    var t2, e2 := StoreLands(h, k, c, s, t1, e1, Write(t, 0, t, Creating), Delivered);
    steps, e := Go(h, k, c, s, t2, e2, Publish(0, Published));
    assert e == AfterPublish(e2, 0, Publishing(t, 1), Published);
  }

  /** A worker finds the parent missing. */
  lemma ParentMissing(h: Hazards, k: Focus, c: Config, s: System, steps: seq<Step>, e: System, t: Task)
    returns (steps': seq<Step>, e': System)
    requires Reached(h, k, c, s, steps, e) && e.workers == map[0 := Idle, 1 := Idle] && e.queue == map["t" := 0]
    requires e.store == Store(map["t" := Stored(t, 1)], 1) && t == WAITING_CHORE.(queue := c.queue)
    ensures Reached(h, k, c, s, steps', e') && e'.store == e.store && e'.producers == e.producers && e'.queue == e.queue
    ensures e'.workers == map[0 := Resolving(Item("t", 0), t, 1, 0, true, t.depResults), 1 := Idle]
  {
    var item := Item("t", 0);
    var t1, e1 := Go(h, k, c, s, steps, e, Deliver(0, "t"));
    assert e1 == Moved(e, 0, Got(item));
    var t2, e2 := Go(h, k, c, s, t1, e1, Load(0, false));
    assert e2 == Moved(e1, 0, Loaded(item, t, 1));
    steps', e' := Go(h, k, c, s, t2, e2, Decide(0, 0));
  }

  /** It terminates the item, and is about to record the task as unreachable. */
  lemma ItemGivenUp(h: Hazards, k: Focus, c: Config, s: System, steps: seq<Step>, e: System, x: Worker)
    returns (steps': seq<Step>, e': System)
    requires Reached(h, k, c, s, steps, e) && e.queue == map["t" := 0] && "p" !in e.store.tasks
    requires x.Resolving? && x.item == Item("t", 0) && x.base.deps == ["p"] && x.k == 0
    requires e.workers == map[0 := x, 1 := Idle]
    ensures Reached(h, k, c, s, steps', e') && e'.store == e.store && e'.producers == e.producers && e'.queue == map[]
    ensures e'.workers.Keys == {0, 1} && e'.workers[0].Writing? && e'.workers[1] == Idle
  {
    var t1, e1 := VerdictReached(h, k, c, s, steps, e, x);
    steps', e' := ItemSettled(h, k, c, s, t1, e1, e1.workers[0]);
  }

  lemma VerdictReached(h: Hazards, k: Focus, c: Config, s: System, steps: seq<Step>, e: System, x: Worker)
    returns (steps': seq<Step>, e': System)
    requires Reached(h, k, c, s, steps, e) && "p" !in e.store.tasks
    requires x.Resolving? && x.base.deps == ["p"] && x.k == 0 && 0 in e.workers && e.workers[0] == x
    ensures Reached(h, k, c, s, steps', e') && 0 in e'.workers && e' == Moved(e, 0, e'.workers[0])
    ensures
      var y := e'.workers[0];
      y.Settling? && y.item == x.item && y.how == Term && y.followUp.Some?
  {
    steps', e' := Go(h, k, c, s, steps, e, Resolve(0, false));
  }

  lemma ItemSettled(h: Hazards, k: Focus, c: Config, s: System, steps: seq<Step>, e: System, y: Worker)
    returns (steps': seq<Step>, e': System)
    requires Reached(h, k, c, s, steps, e) && e.queue == map["t" := 0] && e.workers == map[0 := y, 1 := Idle]
    requires y.Settling? && y.item == Item("t", 0) && y.how == Term && y.followUp.Some?
    ensures Reached(h, k, c, s, steps', e') && e'.store == e.store && e'.producers == e.producers && e'.queue == map[]
    ensures e'.workers.Keys == {0, 1} && e'.workers[0].Writing? && e'.workers[1] == Idle
  {
    steps', e' := Go(h, k, c, s, steps, e, Settle(0, Delivered));
    assert e' == AfterSettle(e, 0, y, Delivered);
  }

  /** A crash between terminating the item and recording the task as unreachable leaves it
      blocked with no item. */
  lemma BrokenOffStrandsWork(c: Config) returns (s: System, steps: seq<Step>)
    ensures
      var h, k := Hazards(false, false, false, true), Focus("t", true);
      Initial(s) && ToleratedRun(h, k, c, s, steps) && Stranded(k, After(c, s, steps))
  {
    var h, k := Hazards(false, false, false, true), Focus("t", true);
    var e;
    s, steps, e := WaitingChore(h, k, c);
    steps, e := ParentMissing(h, k, c, s, steps, e, WAITING_CHORE.(queue := c.queue));
    steps, e := ItemGivenUp(h, k, c, s, steps, e, e.workers[0]);
    steps, e := Go(h, k, c, s, steps, e, Crash(0));
  }

  // ---- The exact condition ----

  /** No run tolerated for a task strands it, whatever happens to the others. */
  ghost predicate NeverStrands(h: Hazards, c: Config, blocked: bool) {
    forall s, steps, id ::
      Initial(s) && ToleratedRun(h, Focus(id, blocked), c, s, steps) ==>
          !Stranded(Focus(id, blocked), After(c, s, steps))
  }

  predicate Within(h: Hazards, g: Hazards) {
    && (h.lostSaves ==> g.lostSaves) && (h.outlivedLeases ==> g.outlivedLeases)
    && (h.replacedItems ==> g.replacedItems) && (h.brokenOff ==> g.brokenOff)
  }

  lemma {:induction false} MoreIsTolerated(h: Hazards, g: Hazards, k: Focus, c: Config, s: System, steps: seq<Step>)
    requires ToleratedRun(h, k, c, s, steps) && Within(h, g)
    ensures ToleratedRun(g, k, c, s, steps)
  {
    if steps != [] { MoreIsTolerated(h, g, k, c, s, steps[..|steps| - 1]); }
  }

  lemma RunStrands(h: Hazards, g: Hazards, k: Focus, c: Config, s: System, steps: seq<Step>)
    requires Within(h, g) && Initial(s) && ToleratedRun(h, k, c, s, steps) && Stranded(k, After(c, s, steps))
    ensures !NeverStrands(g, c, k.blocked)
  {
    MoreIsTolerated(h, g, k, c, s, steps);
    assert k == Focus(k.id, k.blocked);
  }

  /** For every client, no run strands a task that is new, to be retried or active if and
      only if none of the first three hazards befalls it; none strands a blocked task either
      if and only if the fourth does not. */
  lemma NeverStrandsExactly(h: Hazards, c: Config, blocked: bool)
    requires blocked ==> Unreachable !in c.discard
    ensures NeverStrands(h, c, blocked) <==>
              !h.lostSaves && !h.outlivedLeases && !h.replacedItems && (blocked ==> !h.brokenOff)
  {
    var k := Focus("t", blocked);
    if h.lostSaves {
      var s, steps := LostSaveStrandsWork(k, c);
      RunStrands(Hazards(true, false, false, false), h, k, c, s, steps);
    } else if h.outlivedLeases {
      var s, steps := OutlivedLeaseStrandsWork(k, c);
      RunStrands(Hazards(false, true, false, false), h, k, c, s, steps);
    } else if h.replacedItems {
      var s, steps := ReplacedItemStrandsWork(k, c);
      RunStrands(Hazards(false, false, true, false), h, k, c, s, steps);
    } else if blocked && h.brokenOff {
      var s, steps := BrokenOffStrandsWork(c);
      RunStrands(Hazards(false, false, false, true), h, k, c, s, steps);
    } else {
      forall s, steps, id | Initial(s) && ToleratedRun(h, Focus(id, blocked), c, s, steps)
        ensures !Stranded(Focus(id, blocked), After(c, s, steps))
      {
        SafeRunStrandsNothing(h, Focus(id, blocked), c, s, steps);
      }
    }
  }

  lemma SafeRunStrandsNothing(h: Hazards, k: Focus, c: Config, s: System, steps: seq<Step>)
    requires !h.lostSaves && !h.outlivedLeases && !h.replacedItems && (k.blocked ==> !h.brokenOff)
    requires (k.blocked ==> Unreachable !in c.discard) && Initial(s) && ToleratedRun(h, k, c, s, steps)
    ensures !Stranded(k, After(c, s, steps))
  {
    SafeRunIsOrderly(h, k, c, s, steps);
    if Owed(k, After(c, s, steps).store) {
      if k.blocked { NoStrandedWaiting(c, s, steps, k.id); } else { NoStrandedWork(c, s, steps, k.id); }
    }
  }
}

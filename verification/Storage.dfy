/**
  The JetStream storage as an object: the task stream and the work queue, updated in
  place by the operations of the storage interface. `TaskRecord` is a task in memory
  together with the sequence it was last stored under.
 */
module Storage {
  import opened Prelude
  import opened Tasks
  import opened TaskStore
  import TaskSystem

  type Fault = TaskSystem.Fault
  type Item = TaskSystem.Item
  type PublishResult = TaskSystem.PublishResult

  class TaskRecord {
    var task: Task
    var meta: Option<nat>

    constructor (task: Task, meta: Option<nat>)
      ensures this.task == task && this.meta == meta
    {
      this.task, this.meta := task, meta;
    }

    function Expected(): nat
      reads this`meta
    {
      ExpectedBy(meta)
    }
  }

  /** The last sequence a writer announces: zero for a task it never stored or loaded. */
  function ExpectedBy(meta: Option<nat>): nat {
    if meta.Some? then meta.value else 0
  }

  /** The store after a save, given the sequence the writer expects. */
  function Saved(st: Store, t: Task, expected: nat, f: Fault): Store {
    if Accepts(st, t.id, expected) && !f.Dropped? then Put(st, t) else st
  }

  predicate SaveOk(st: Store, t: Task, expected: nat, f: Fault) {
    Accepts(st, t.id, expected) && f.Delivered?
  }

  /** The sequence a task remembers after a save: the new one as soon as the answer was
      read, also if the event about it then fails and with it the save. */
  function Remembered(st: Store, t: Task, meta: Option<nat>, f: Fault): Option<nat> {
    if Accepts(st, t.id, ExpectedBy(meta)) && (f.Delivered? || f.EventLost?) then Some(st.lastSeq + 1) else meta
  }

  /** Deleting the message found under a sequence, which does nothing once it was replaced. */
  function Deleted(st: Store, id: string, read: nat): Store {
    if LastFor(st, id) == read then Remove(st, id) else st
  }

  datatype LoadError = Found | NotFound | LoadFailed

  /** The queue once an item was acknowledged or terminated. */
  function Dropped(q: map<string, nat>, item: Item): map<string, nat> {
    if item.id in q && q[item.id] == item.n then q - {item.id} else q
  }

  datatype EnqueueError = NoError | CannotEnqueue | SaveFailed | PublishFailed | TaskNotFound | TaskNotLoaded

  /** What enqueueing does to store and queue; both saves and the publish may go wrong. */
  datatype Enqueued = Enqueued(store: Store, queue: map<string, nat>, task: Task, meta: Option<nat>, err: EnqueueError)

  function EnqueueEffect(st: Store, q: map<string, nat>, n: nat, t: Task, meta: Option<nat>, queue: string,
                         f: Fault, r: PublishResult, g: Fault): Enqueued {
    if !Enqueueable(t) then Enqueued(st, q, t, meta, CannotEnqueue)
    else
      var t1 := t.(queue := queue);
      var st1, meta1 := Saved(st, t1, ExpectedBy(meta), f), Remembered(st, t1, meta, f);
      if !SaveOk(st, t1, ExpectedBy(meta), f) then Enqueued(st1, q, t1, meta1, SaveFailed)
      else PublishEffect(st1, q, n, t1, meta1, r, g)
  }

  /** Adding the item of a task just stored; a failure is recorded on that version. */
  function PublishEffect(st: Store, q: map<string, nat>, n: nat, t: Task, meta: Option<nat>, r: PublishResult,
      g: Fault): Enqueued {
    var q' := if r.NotPublished? then q else q[t.id := n];
    if r.Published? then Enqueued(st, q', t, meta, NoError)
    else
      var t' := QueueFailed(t, r.err);
      Enqueued(Saved(st, t', ExpectedBy(meta), g), q', t', Remembered(st, t', meta, g),
               if SaveOk(st, t', ExpectedBy(meta), g) then PublishFailed else SaveFailed)
  }

  /** What a save requires and leaves: the store holds what it held, or the task as well. */
  predicate Stores(st: Store, st': Store, t: Task) {
    st' == Store(st.tasks[t.id := Stored(t, st.lastSeq + 1)], st.lastSeq + 1)
  }

  /** What adding the item of a version just stored means: without an error the item is
      there; a reported failure is recorded on that version, whether or not the item is. */
  lemma PublishOutcome(st: Store, q: map<string, nat>, n: nat, t: Task, r: PublishResult, g: Fault)
    requires t.id in st.tasks && st.tasks[t.id].seqNo == st.lastSeq
    ensures
      var e := PublishEffect(st, q, n, t, Some(st.lastSeq), r, g);
      var trouble := t.(state := QueueError, lastErr := r.Reason());
      && e.err == (if r.Published? then NoError else if g.Delivered? then PublishFailed else SaveFailed)
      && e.queue == (if r.NotPublished? then q else q[t.id := n])
      && (r.Published? ==> e.store == st && e.task == t && e.meta == Some(st.lastSeq))
      && (!r.Published? ==> e.task == trouble && if g.Dropped? then e.store == st else Stores(st, e.store, trouble))
      && (e.err == PublishFailed ==> e.meta == Some(st.lastSeq + 1))
  {
  }

  /** What each end of enqueueing means: a task in another state is refused and nothing
      happens; otherwise it goes into the queue's name and, if the sequence it remembers is
      the current one and the request arrives, into the store. Only if that was answered is
      an item added, with the ends above. */
  lemma EnqueueOutcome(st: Store, q: map<string, nat>, n: nat, t: Task, meta: Option<nat>, queue: string,
                       f: Fault, r: PublishResult, g: Fault)
    ensures
      var e := EnqueueEffect(st, q, n, t, meta, queue, f, r, g);
      var last := if t.id in st.tasks then st.tasks[t.id].seqNo else 0;
      var lands := last == (if meta.Some? then meta.value else 0) && !f.Dropped?;
      && (e.err == CannotEnqueue <==> t.state !in {New, Retry, Blocked})
      && (e.err == CannotEnqueue ==> e == Enqueued(st, q, t, meta, CannotEnqueue))
      && (e.err != CannotEnqueue && !(lands && f.Delivered?) ==>
            && e.err == SaveFailed && e.queue == q && e.task == t.(queue := queue)
            && if lands then Stores(st, e.store, e.task) else e.store == st)
      && (e.err != CannotEnqueue && lands && f.Delivered? ==>
            exists st' :: Stores(st, st', t.(queue := queue))
              && e == PublishEffect(st', q, n, t.(queue := queue), Some(st'.lastSeq), r, g))
  {
    var t' := t.(queue := queue);
    var st' := Store(st.tasks[t.id := Stored(t', st.lastSeq + 1)], st.lastSeq + 1);
    assert Stores(st, st', t');
  }

  class TaskStorage {
    var tasks: map<string, Stored>
    var lastSeq: nat
    var queue: map<string, nat>
    var nextItem: nat

    function View(): Store
      reads this
    {
      Store(tasks, lastSeq)
    }

    constructor ()
      ensures View() == Store(map[], 0) && queue == map[]
    {
      tasks, lastSeq, queue, nextItem := map[], 0, map[], 0;
    }

    method SaveTaskState(r: TaskRecord, f: Fault) returns (ok: bool)
      modifies this`tasks, this`lastSeq, r`meta
      ensures View() == Saved(old(View()), r.task, old(r.Expected()), f)
      ensures ok == SaveOk(old(View()), r.task, old(r.Expected()), f)
      ensures r.meta == Remembered(old(View()), r.task, old(r.meta), f)
      ensures
        var last := if r.task.id in old(tasks) then old(tasks)[r.task.id].seqNo else 0;
        var current := last == (if old(r.meta).Some? then old(r.meta).value else 0);
        && ok == (current && f == TaskSystem.Delivered)
        && (current && f != TaskSystem.Dropped ==>
              lastSeq == old(lastSeq) + 1 && tasks == old(tasks)[r.task.id := Stored(r.task, lastSeq)])
        && (!current || f == TaskSystem.Dropped ==> lastSeq == old(lastSeq) && tasks == old(tasks))
        && r.meta == (if current && (ok || f == TaskSystem.EventLost) then Some(lastSeq) else old(r.meta))
    {
      ok := false;
      if LastFor(View(), r.task.id) == r.Expected() && !f.Dropped? {
        lastSeq := lastSeq + 1;
        tasks := tasks[r.task.id := Stored(r.task, lastSeq)];
        if f.AckLost? {
          return;
        }
        r.meta := Some(lastSeq);
        ok := f.Delivered?;
      }
    }

    /** `fails` stands for every failure but absence: the request, the decoding. */
    method LoadTaskByID(id: string, fails: bool) returns (r: TaskRecord?, err: LoadError)
      ensures err == if fails then LoadFailed else if id in tasks then Found else NotFound
      ensures r != null <==> err.Found?
      ensures r != null ==> fresh(r) && r.task == tasks[id].task && r.meta == Some(tasks[id].seqNo)
    {
      if fails {
        return null, LoadFailed;
      }
      if id !in tasks {
        return null, NotFound;
      }
      r := new TaskRecord(tasks[id].task, Some(tasks[id].seqNo));
      err := Found;
    }

    /** Reads the last message of the task and deletes that message. What somebody else
        stores between the two requests, of this or another task, survives. */
    method DeleteTaskByID(id: string, meanwhile: Option<Task>) returns (found: bool)
      modifies this`tasks, this`lastSeq
      ensures found == (id in old(tasks))
      ensures
        var st := if meanwhile.Some? then Put(old(View()), meanwhile.value) else old(View());
        View() == if found then Deleted(st, id, old(tasks)[id].seqNo) else old(View())
      ensures meanwhile.None? ==> tasks == old(tasks) - {id} && lastSeq == old(lastSeq)
      ensures found && meanwhile.Some? ==>
        var spared := old(tasks)[meanwhile.value.id := Stored(meanwhile.value, old(lastSeq) + 1)];
        old(tasks)[id].seqNo <= old(lastSeq) ==> tasks == if meanwhile.value.id == id then spared else spared - {id}
    {
      found := id in tasks;
      if !found {
        return;
      }
      var read := tasks[id].seqNo;
      if meanwhile.Some? {
        lastSeq := lastSeq + 1;
        tasks := tasks[meanwhile.value.id := Stored(meanwhile.value, lastSeq)];
      }
      if id in tasks && tasks[id].seqNo == read {
        tasks := tasks - {id};
      }
    }

    method RemoveItem(item: Item)
      modifies this`queue
      ensures queue == Dropped(old(queue), item)
      ensures item.id in queue ==> queue[item.id] != item.n
      ensures forall id :: id in old(queue) && (id != item.id || old(queue)[id] != item.n) ==>
                id in queue && queue[id] == old(queue)[id]
      ensures queue.Keys <= old(queue).Keys
    {
      if item.id in queue && queue[item.id] == item.n {
        queue := queue - {item.id};
      }
    }

    /** The second half of `EnqueueTask`. */
    method PublishItem(r: TaskRecord, p: PublishResult, g: Fault) returns (err: EnqueueError)
      modifies this, r
      ensures
        var e := PublishEffect(old(View()), old(queue), old(nextItem), old(r.task), old(r.meta), p, g);
        View() == e.store && queue == e.queue && r.task == e.task && r.meta == e.meta && err == e.err
      ensures err == NoError ==>
        && r.task == old(r.task) && r.meta == old(r.meta) && tasks == old(tasks)
        && r.task.id in queue && queue[r.task.id] == old(nextItem)
    {
      if !p.NotPublished? {
        queue := queue[r.task.id := nextItem];
        nextItem := nextItem + 1;
      }
      if p.Published? {
        return NoError;
      }
      r.task := QueueFailed(r.task, p.err);
      var ok := SaveTaskState(r, g);
      err := if ok then PublishFailed else SaveFailed;
    }

    method EnqueueTask(r: TaskRecord, queueName: string, f: Fault, p: PublishResult, g: Fault)
      returns (err: EnqueueError)
      modifies this, r
      ensures
        var e := EnqueueEffect(old(View()), old(queue), old(nextItem), old(r.task), old(r.meta), queueName, f, p, g);
        View() == e.store && queue == e.queue && r.task == e.task && r.meta == e.meta && err == e.err
      ensures err == NoError ==>
        && r.task == old(r.task).(queue := queueName) && r.task.state in {New, Retry, Blocked}
        && r.task.id in tasks && tasks[r.task.id].task == r.task && r.meta == Some(tasks[r.task.id].seqNo)
        && r.task.id in queue && queue[r.task.id] == old(nextItem)
    {
      if !r.task.state.New? && !r.task.state.Retry? && !r.task.state.Blocked? {
        return CannotEnqueue;
      }
      r.task := r.task.(queue := queueName);
      var ok := SaveTaskState(r, f);
      if !ok {
        return SaveFailed;
      }
      err := PublishItem(r, p, g);
    }

    method RetryTaskByID(queueName: string, id: string, loadFails: bool, f: Fault, p: PublishResult, g: Fault)
      returns (err: EnqueueError)
      modifies this
      ensures loadFails || id !in old(tasks) ==>
        && err == (if loadFails then TaskNotLoaded else TaskNotFound)
        && View() == old(View()) && queue == old(queue)
      ensures !loadFails && id in old(tasks) ==>
        var e := EnqueueEffect(old(View()), old(queue), old(nextItem),
                               old(tasks)[id].task.(state := Retry, result := None),
                               Some(old(tasks)[id].seqNo), queueName, f, p, g);
        View() == e.store && queue == e.queue && err == e.err
    {
      var r, problem := LoadTaskByID(id, loadFails);
      if r == null {
        return if problem.LoadFailed? then TaskNotLoaded else TaskNotFound;
      }
      r.task := r.task.(state := Retry, result := None);
      err := EnqueueTask(r, queueName, f, p, g);
    }
  }
}

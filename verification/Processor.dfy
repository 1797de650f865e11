/**
  The client's lifecycle operations and the processor that drives them, as objects: a
  delivered item is loaded, checked, possibly held back by its dependencies, marked
  active and handled, all under a fixed number of limiter tokens.
 */
module Processor {
  import opened Prelude
  import opened Tasks
  import opened TaskStore
  import opened Storage
  import TaskSystem

  // ---- What processing an item does ----

  /** `saveOrDiscardTaskIfDesired`. */
  function SavedOrDiscarded(c: Config, st: Store, t: Task, expected: nat, f: Fault): Store {
    if t.state in c.discard then Remove(st, t.id) else Saved(st, t, expected, f)
  }

  /** How a call of `processMessage` ends: with an error, without one, or with a handler. */
  datatype Exit = Errored | Returned | Started

  datatype Effect = Effect(store: Store, queue: map<string, nat>, exit: Exit)

  /** What can go wrong with the requests made: the task's or a parent's load, and the save. */
  datatype Faults = Faults(loadFails: bool, broken: set<string>, save: Fault)

  function Activation(st: Store, q: map<string, nat>, t: Task, expected: nat, f: Fault): Effect {
    Effect(Saved(st, t, expected, f), q, if SaveOk(st, t, expected, f) then Started else Errored)
  }

  function Processed(c: Config, st: Store, q: map<string, nat>, item: Item, now: int, x: Faults): Effect {
    if x.loadFails then Effect(st, q, Errored)
    else if item.id !in st.tasks then Effect(st, Dropped(q, item), Returned)
    else
      var t, n := st.tasks[item.id].task, st.tasks[item.id].seqNo;
      match Check(c, t, now)
      case AlreadyActive => Effect(st, q, Errored)
      case Finished => Effect(st, Dropped(q, item), Errored)
      case Overdue => Effect(SavedOrDiscarded(c, st, ExpiredNow(t), n, x.save), q, Errored)
      case Startable => Activation(st, q, Activated(t, now), n, x.save)
      case NeedsParents =>
        match Survey(st, x.broken, t.deps, t.loadDeps, t.depResults)
        case AllDone(results) => Activation(st, q, Activated(t.(depResults := results), now), n, x.save)
        case SomeWaiting(_) => Effect(st, q, Returned)
        case Unloadable(_) => Effect(st, q, Returned)
        case SomeFailed(results, missing) =>
          var unreached := Unreached(t.(depResults := results), TaskSystem.DEPENDENCIES_FAILED, now);
          Effect(SavedOrDiscarded(c, st, unreached, n, x.save),
                 Dropped(q, item), if missing then Returned else Errored)
  }

  /** Recording a handler's outcome and settling its item. */
  function Handled(c: Config, st: Store, q: map<string, nat>, item: Item, t: Task, expected: nat,
                   o: Outcome, now: int, f: Fault): Effect
  {
    Effect(SavedOrDiscarded(c, st, Concluded(c, t, o, now), expected, f),
           if o.Failure? then q else Dropped(q, item), Returned)
  }

  // ---- What that means for the task ----

  /** This item is no longer in the queue, and all others are. */
  predicate Settled(q: map<string, nat>, q': map<string, nat>, item: Item) {
    && (item.id in q' ==> q'[item.id] != item.n) && q'.Keys <= q.Keys
    && forall id :: id in q && (id != item.id || q[id] != item.n) ==> id in q' && q'[id] == q[id]
  }

  predicate Loadable(st: Store, item: Item, x: Faults) {
    !x.loadFails && item.id in st.tasks && st.tasks[item.id].task.id == item.id
  }

  predicate Recent(c: Config, t: Task, now: int) {
    t.state == Active && (t.lastTriedAt.None? || now < t.lastTriedAt.value + c.maxRunTime)
  }

  predicate Late(t: Task, now: int) {
    (t.deadline.Some? && t.deadline.value < now) || 0 < t.maxTries <= t.tries
  }

  /** A handler is started exactly for a task that loads, is not final, not active within its
      window, neither past its deadline nor out of tries, and, if blocked, has all its
      dependencies completed, provided the active mark is stored and answered. It is then
      stored as active since now, with their results if wanted. */
  lemma StartsExactly(c: Config, st: Store, q: map<string, nat>, item: Item, now: int, x: Faults)
    requires KeyedById(st)
    ensures
      var e := Processed(c, st, q, item, now, x);
      (e.exit.Started? <==>
        && Loadable(st, item, x) && x.save.Delivered?
        && var t := st.tasks[item.id].task;
           && t.state !in {Completed, Expired, Unreachable} && !Recent(c, t, now) && !Late(t, now)
           && (t.state == Blocked ==> AllPassable(st, x.broken, t.deps) && AllMet(st, t.deps)))
    ensures
      var e := Processed(c, st, q, item, now, x);
      e.exit.Started? ==>
        var t := st.tasks[item.id].task;
        var results := if t.state == Blocked && t.loadDeps then t.depResults + ResultsOf(st, t.deps) else t.depResults;
        var active := t.(state := Active, lastTriedAt := Some(now), lastErr := "", depResults := results);
        e.store == Store(st.tasks[item.id := Stored(active, st.lastSeq + 1)], st.lastSeq + 1) && e.queue == q
  {
    if Loadable(st, item, x) {
      var t := st.tasks[item.id].task;
      CheckMeans(c, t, now);
      SurveyMeans(st, x.broken, t.deps, t.loadDeps, t.depResults);
      assert t.deps[..|t.deps|] == t.deps;
      if AllPassable(st, x.broken, t.deps) { SurveyResults(st, x.broken, t.deps, t.loadDeps, t.depResults, |t.deps|); }
      assert t.deps == [] ==> t.depResults + ResultsOf(st, t.deps) == t.depResults;
      assert t.(depResults := t.depResults) == t;
    }
  }

  /** The item of a task that is gone or final is taken off the queue and nothing else
      happens; one of a task active within its window stays; a task that is too late or out
      of tries is stored as expired, or discarded, its item left. */
  lemma NotStartedMeans(c: Config, st: Store, q: map<string, nat>, item: Item, now: int, x: Faults)
    requires !x.loadFails
    ensures
      var e := Processed(c, st, q, item, now, x);
      if item.id !in st.tasks then e.exit == Returned && e.store == st && Settled(q, e.queue, item)
      else
        var t := st.tasks[item.id].task;
        if t.state in {Completed, Expired, Unreachable}
        then e.exit == Errored && e.store == st && Settled(q, e.queue, item)
        else if Recent(c, t, now) then e.exit == Errored && e.store == st && e.queue == q
        else Late(t, now) && t.id == item.id ==>
          && e.exit == Errored && e.queue == q
          && e.store.tasks == (if Expired in c.discard then st.tasks - {t.id}
                               else if x.save.Dropped? then st.tasks
                               else st.tasks[t.id := Stored(t.(state := Expired), st.lastSeq + 1)])
  {
    if item.id in st.tasks { CheckMeans(c, st.tasks[item.id].task, now); }
  }

  /** A blocked task that is otherwise fit to start: if the first dependency that cannot be
      got past is hopeless its item is taken off the queue and it is stored as unreachable,
      or discarded; if one is still to be waited for or cannot be loaded nothing happens. */
  lemma BlockedMeans(c: Config, st: Store, q: map<string, nat>, item: Item, now: int, x: Faults)
    requires Loadable(st, item, x) && st.tasks[item.id].task.state == Blocked && !Late(st.tasks[item.id].task, now)
    requires st.tasks[item.id].task.deps != []
    ensures
      var t, e := st.tasks[item.id].task, Processed(c, st, q, item, now, x);
      var missing, failed := FailsAtSome(st, x.broken, t.deps, true), FailsAtSome(st, x.broken, t.deps, false);
      && (missing || failed ==>
            && Settled(q, e.queue, item) && e.exit == (if missing then Returned else Errored)
            && (Unreachable in c.discard ==> e.store.tasks == st.tasks - {t.id})
            && (Unreachable !in c.discard && !x.save.Dropped? ==>
                  && t.id in e.store.tasks && e.store.tasks[t.id].seqNo == st.lastSeq + 1
                  && var u := e.store.tasks[t.id].task;
                     u == t.(state := Unreachable, lastTriedAt := Some(now), lastErr := u.lastErr,
                             depResults := u.depResults)))
      && (!missing && !failed && !(AllPassable(st, x.broken, t.deps) && AllMet(st, t.deps)) ==>
            e.exit == Returned && e.store == st && e.queue == q)
  {
    var t := st.tasks[item.id].task;
    CheckMeans(c, t, now);
    SurveyMeans(st, x.broken, t.deps, t.loadDeps, t.depResults);
  }

  // ---- Tokens over any interleaving ----

  /** The limiter, the handlers, and what the poll loop is doing; handlers finish at any
      time, also between the poll loop's taking a token and its using it. */
  datatype Tokens = Tokens(limiter: nat, running: nat, loop: Loop)

  datatype Loop = Selecting | Working | Ended(kept: nat)

  datatype TokenStep = Take | PollFails | PollStops | Stop | Exits(exit: Exit) | HandlerEnds

  predicate TokenEnabled(k: Tokens, step: TokenStep) {
    match step
    case Take => k.loop.Selecting? && k.limiter > 0
    case PollFails => k.loop.Working?
    case PollStops => k.loop.Working?
    case Stop => k.loop.Selecting?
    case Exits(_) => k.loop.Working?
    case HandlerEnds => k.running > 0
  }

  /** Whether the step sends a token to the limiter. */
  predicate Sends(step: TokenStep) {
    step.PollFails? || step.HandlerEnds? || (step.Exits? && !step.exit.Started?)
  }

  function TokenApply(k: Tokens, step: TokenStep): Tokens
    requires TokenEnabled(k, step)
  {
    match step
    case Take => k.(limiter := k.limiter - 1, loop := Working)
    case PollFails => k.(limiter := k.limiter + 1, loop := Selecting)
    case PollStops => k.(loop := Ended(1))
    case Stop => k.(loop := Ended(0))
    case Exits(exit) =>
      if exit.Started? then k.(running := k.running + 1, loop := Selecting)
      else k.(limiter := k.limiter + 1, loop := Selecting)
    case HandlerEnds => k.(limiter := k.limiter + 1, running := k.running - 1)
  }

  function TokensAfter(concurrency: nat, steps: seq<TokenStep>): Tokens {
    if steps == [] then Tokens(concurrency, 0, Selecting)
    else
      var k := TokensAfter(concurrency, steps[..|steps| - 1]);
      if TokenEnabled(k, steps[|steps| - 1]) then TokenApply(k, steps[|steps| - 1]) else k
  }

  function InHand(l: Loop): nat {
    match l
    case Selecting => 0
    case Working => 1
    case Ended(kept) => kept
  }

  /** In every reachable state the tokens add up to the concurrency, so sending one back
      always finds room, and handlers never exceed the limit. */
  lemma {:induction false} TokenConservation(concurrency: nat, steps: seq<TokenStep>)
    ensures
      var k := TokensAfter(concurrency, steps);
      && k.limiter + k.running + InHand(k.loop) == concurrency
      && (forall step :: TokenEnabled(k, step) && Sends(step) ==> k.limiter < concurrency)
      && k.running <= concurrency
  {
    if steps != [] {
      TokenConservation(concurrency, steps[..|steps| - 1]);
    }
  }

  // ---- The client ----

  class Client {
    const c: Config
    const storage: TaskStorage

    constructor (c: Config, storage: TaskStorage)
      ensures this.c == c && this.storage == storage
    {
      this.c, this.storage := c, storage;
    }

    method SetTaskActive(r: TaskRecord, now: int, f: Fault) returns (ok: bool)
      modifies storage`tasks, storage`lastSeq, r
      ensures r.task == Activated(old(r.task), now)
      ensures storage.View() == Saved(old(storage.View()), r.task, old(r.Expected()), f)
      ensures ok == SaveOk(old(storage.View()), r.task, old(r.Expected()), f)
      ensures r.meta == Remembered(old(storage.View()), r.task, old(r.meta), f)
      ensures r.task == old(r.task).(state := Active, lastTriedAt := Some(now), lastErr := "")
      ensures ok ==> r.task.id in storage.tasks && storage.tasks[r.task.id] == Stored(r.task, storage.lastSeq)
    {
      r.task := r.task.(state := Active, lastTriedAt := Some(now), lastErr := "");
      ok := storage.SaveTaskState(r, f);
    }

    method SaveOrDiscardIfDesired(r: TaskRecord, f: Fault)
      modifies storage`tasks, storage`lastSeq, r`meta
      ensures storage.View() == SavedOrDiscarded(c, old(storage.View()), r.task, old(r.Expected()), f)
      ensures r.task.state in c.discard ==>
        storage.tasks == old(storage.tasks) - {r.task.id} && storage.lastSeq == old(storage.lastSeq)
      ensures r.task.state !in c.discard ==>
        var last := if r.task.id in old(storage.tasks) then old(storage.tasks)[r.task.id].seqNo else 0;
        var lands := last == old(r.Expected()) && !f.Dropped?;
        storage.tasks == if lands then old(storage.tasks)[r.task.id := Stored(r.task, old(storage.lastSeq) + 1)]
                         else old(storage.tasks)
    {
      if r.task.state !in c.discard {
        var _ := storage.SaveTaskState(r, f);
      } else {
        assert r.task.id !in storage.tasks ==> storage.tasks - {r.task.id} == storage.tasks;
        var _ := storage.DeleteTaskByID(r.task.id, None);
      }
    }

    method SetTaskSuccess(r: TaskRecord, payload: string, now: int, f: Fault)
      modifies storage`tasks, storage`lastSeq, r
      ensures r.task == Succeeded(old(r.task), payload, now)
      ensures r.task == old(r.task).(state := Completed, result := Some(TaskResult(payload, now)),
                                     lastTriedAt := Some(now), lastErr := "")
      ensures storage.View() == SavedOrDiscarded(c, old(storage.View()), r.task, old(r.Expected()), f)
    {
      r.task := r.task.(lastTriedAt := Some(now), state := Completed, lastErr := "");
      r.task := r.task.(result := Some(TaskResult(payload, now)));
      SaveOrDiscardIfDesired(r, f);
    }

    method HandleTaskTerminated(r: TaskRecord, err: string, now: int, f: Fault)
      modifies storage`tasks, storage`lastSeq, r
      ensures r.task == TerminatedBy(old(r.task), err, now)
      ensures r.task == old(r.task).(state := Terminated, lastTriedAt := Some(now), lastErr := err)
      ensures storage.View() == SavedOrDiscarded(c, old(storage.View()), r.task, old(r.Expected()), f)
    {
      r.task := r.task.(lastErr := err, lastTriedAt := Some(now), state := Terminated);
      SaveOrDiscardIfDesired(r, f);
    }

    method HandleTaskExpired(r: TaskRecord, f: Fault)
      modifies storage`tasks, storage`lastSeq, r
      ensures r.task == ExpiredNow(old(r.task))
      ensures r.task == old(r.task).(state := Expired)
      ensures storage.View() == SavedOrDiscarded(c, old(storage.View()), r.task, old(r.Expected()), f)
    {
      r.task := r.task.(state := Expired);
      SaveOrDiscardIfDesired(r, f);
    }

    method HandleTaskError(r: TaskRecord, err: string, dependenciesFailed: bool, now: int, f: Fault)
      modifies storage`tasks, storage`lastSeq, r
      ensures r.task == if dependenciesFailed then Unreached(old(r.task), err, now)
          else FailedWith(c, old(r.task), err, now)
      ensures
        var lastTry := r.task.queue != "" && r.task.queue == c.queue && r.task.tries == c.queueMaxTries;
        var state := if dependenciesFailed then Unreachable else if lastTry then Expired else Retry;
        r.task == old(r.task).(state := state, lastTriedAt := Some(now), lastErr := err)
      ensures storage.View() == SavedOrDiscarded(c, old(storage.View()), r.task, old(r.Expected()), f)
    {
      r.task := r.task.(lastErr := err, lastTriedAt := Some(now), state := Retry);
      if dependenciesFailed {
        r.task := r.task.(state := Unreachable);
      } else if r.task.queue != "" && r.task.queue == c.queue {
        if c.queueMaxTries == r.task.tries {
          r.task := r.task.(state := Expired);
        }
      }
      SaveOrDiscardIfDesired(r, f);
    }
  }

  // ---- The processor ----

  datatype DependencyError = NoProblem | ParentMissing | ParentNotLoaded

  class TaskProcessor {
    const client: Client
    const concurrency: nat
    /** Tokens in the limiter channel. */
    var limiter: nat
    /** Handlers running. */
    var running: nat
    /** Whether the poll loop holds a token. */
    var holding: bool

    /** Tokens are neither lost nor made: those in the channel, those of running handlers
        and the one the poll loop may hold add up to the configured concurrency. */
    predicate Valid()
      reads this
    {
      limiter + running + (if holding then 1 else 0) == concurrency
    }

    constructor (client: Client, concurrency: nat)
      ensures Valid() && this.client == client && this.concurrency == concurrency
      ensures limiter == concurrency && running == 0 && !holding
    {
      this.client, this.concurrency := client, concurrency;
      limiter, running, holding := 0, 0, false;
      new;
      for i := 0 to concurrency
        invariant limiter == i && running == 0 && !holding
      {
        ReturnToken();
      }
    }

    /** Sending on the limiter channel, which must have room or the sender blocks. */
    method ReturnToken()
      requires limiter < concurrency
      modifies this`limiter
      ensures limiter == old(limiter) + 1
    {
      limiter := limiter + 1;
    }

    /** `loadDependencies`: fills in the results of completed parents as it goes. */
    method LoadDependencies(r: TaskRecord, broken: set<string>)
      returns (ready: bool, failed: bool, err: DependencyError)
      modifies r`task
      ensures
        var t := old(r.task);
        var v := Survey(client.storage.View(), broken, t.deps, t.loadDeps, t.depResults);
        && r.task == t.(depResults := v.results)
        && ready == v.AllDone?
        && failed == v.SomeFailed?
        && err == (match v
                   case SomeFailed(_, missing) => if missing then ParentMissing else NoProblem
                   case Unloadable(_) => ParentNotLoaded
                   case _ => NoProblem)
      ensures
        var st, deps := client.storage.View(), old(r.task).deps;
        && (failed <==> err.ParentMissing? || FailsAtSome(st, broken, deps, false))
        && (err.ParentMissing? <==> FailsAtSome(st, broken, deps, true))
        && (err.ParentNotLoaded? <==> BreaksAtSome(st, broken, deps))
        && (ready <==> AllPassable(st, broken, deps) && AllMet(st, deps))
    {
      SurveyMeans(client.storage.View(), broken, r.task.deps, r.task.loadDeps, r.task.depResults);
      ready, failed, err := true, false, NoProblem;
      ghost var t := r.task;
      ghost var st := client.storage.View();
      var i := 0;
      while i < |r.task.deps|
        invariant 0 <= i <= |t.deps| && r.task == t.(depResults := r.task.depResults)
        invariant !failed && err == NoProblem
        invariant
          var rest := Survey(st, broken, t.deps[i..], t.loadDeps, r.task.depResults);
          Survey(st, broken, t.deps, t.loadDeps, t.depResults)
            == (if !ready && rest.AllDone? then SomeWaiting(rest.results) else rest)
        decreases |t.deps| - i
      {
        var parent := r.task.deps[i];
        assert t.deps[i..][0] == parent && t.deps[i..][1..] == t.deps[i + 1..];
        if parent in broken {
          return false, false, ParentNotLoaded;
        }
        if parent !in client.storage.tasks {
          return false, true, ParentMissing;
        }
        var pt := client.storage.tasks[parent].task;
        match pt.state {
          case Completed =>
            if r.task.loadDeps {
              r.task := r.task.(depResults := r.task.depResults[pt.id := pt.result]);
            }
          case Expired | Terminated | QueueError | Unknown =>
            return false, true, NoProblem;
          case _ =>
            ready := false;
        }
        i := i + 1;
      }
    }

    /** `processDependencies`: whether the task may start, and whether its dependencies are
        reported as failed. A parent that does not exist also makes the task unreachable,
        but is reported like one that is not ready. */
    method ProcessDependencies(item: Item, r: TaskRecord, now: int, x: Faults) returns (should: bool, failed: bool)
      modifies client.storage, r
      ensures
        var t := old(r.task);
        var v := Survey(old(client.storage.View()), x.broken, t.deps, t.loadDeps, t.depResults);
        && should == v.AllDone? && failed == (v.SomeFailed? && !v.missing)
        && (!v.SomeFailed? ==>
              && r.task == t.(depResults := v.results) && r.meta == old(r.meta)
              && client.storage.View() == old(client.storage.View())
              && client.storage.queue == old(client.storage.queue))
        && (v.SomeFailed? ==>
              && client.storage.queue == Dropped(old(client.storage.queue), item)
              && client.storage.View() == SavedOrDiscarded(client.c, old(client.storage.View()),
                   Unreached(t.(depResults := v.results), TaskSystem.DEPENDENCIES_FAILED, now),
                   old(r.Expected()), x.save))
    {
      var ready, bad, problem := LoadDependencies(r, x.broken);
      if bad {
        client.storage.RemoveItem(item);
        client.HandleTaskError(r, TaskSystem.DEPENDENCIES_FAILED, true, now, x.save);
        return false, problem.NoProblem?;
      }
      return ready, false;
    }

    /** `processMessage`. The limiter gets its token back here only where neither an error
        nor a started handler will return it later. */
    method ProcessMessage(item: Item, now: int, x: Faults) returns (err: bool, started: TaskRecord?)
      requires Valid() && holding
      modifies this`limiter, this`holding, this`running, client.storage
      ensures
        var e := Processed(client.c, old(client.storage.View()), old(client.storage.queue), item, now, x);
        && client.storage.View() == e.store && client.storage.queue == e.queue
        && err == e.exit.Errored? && (started != null <==> e.exit.Started?)
      ensures started != null ==>
        && fresh(started)
        && started.task.id in client.storage.tasks && client.storage.tasks[started.task.id].task == started.task
        && started.meta == Some(client.storage.lastSeq)
      ensures Valid()
      ensures holding == err
      ensures limiter == old(limiter) + (if !err && started == null then 1 else 0)
      ensures running == old(running) + (if started != null then 1 else 0)
    {
      var storage := client.storage;
      err, started := true, null;
      var r, problem := storage.LoadTaskByID(item.id, x.loadFails);
      if problem.LoadFailed? {
        return;
      }
      if r == null {
        storage.RemoveItem(item);
        holding := false;
        ReturnToken();
        return false, null;
      }
      match Check(client.c, r.task, now) {
        case AlreadyActive =>
          return;
        case Finished =>
          storage.RemoveItem(item);
          return;
        case Overdue =>
          client.HandleTaskExpired(r, x.save);
          return;
        case NeedsParents =>
          var should, failed := ProcessDependencies(item, r, now, x);
          if failed {
            return;
          }
          if !should {
            holding := false;
            ReturnToken();
            return false, null;
          }
        case Startable =>
      }
      var ok := client.SetTaskActive(r, now, x.save);
      if ok {
        holding, running := false, running + 1;
        return false, r;
      }
    }

    /** `handle`, given what the task's handler returns. Its token goes back at the end. */
    method Handle(r: TaskRecord, item: Item, o: Outcome, now: int, f: Fault)
      requires Valid() && running > 0
      modifies this`limiter, this`running, client.storage, r
      ensures
        var e := Handled(client.c, old(client.storage.View()), old(client.storage.queue), item, old(r.task),
            old(r.Expected()), o, now, f);
        client.storage.View() == e.store && client.storage.queue == e.queue
      ensures r.task == Concluded(client.c, old(r.task), o, now)
      ensures
        var t := old(r.task).(tries := old(r.task).tries + 1, lastTriedAt := Some(now));
        var lastTry := t.queue != "" && t.queue == client.c.queue && t.tries == client.c.queueMaxTries;
        match o
        case Success(payload) =>
          && r.task == t.(state := Completed, lastErr := "", result := Some(TaskResult(payload, now)))
          && (item.id in client.storage.queue ==> client.storage.queue[item.id] != item.n)
        case Terminate(err) =>
          && r.task == t.(state := Terminated, lastErr := err)
          && (item.id in client.storage.queue ==> client.storage.queue[item.id] != item.n)
        case Failure(err) =>
          && r.task == t.(state := if lastTry then Expired else Retry, lastErr := err)
          && client.storage.queue == old(client.storage.queue)
      ensures Valid() && running == old(running) - 1 && limiter == old(limiter) + 1 && holding == old(holding)
    {
      r.task := r.task.(tries := r.task.tries + 1);
      match o {
        case Terminate(err) =>
          client.HandleTaskTerminated(r, err, now, f);
          client.storage.RemoveItem(item);
        case Failure(err) =>
          client.HandleTaskError(r, err, false, now, f);
        case Success(payload) =>
          client.SetTaskSuccess(r, payload, now, f);
          client.storage.RemoveItem(item);
      }
      running := running - 1;
      ReturnToken();
    }

    /** One turn of `processMessages`: take a token, wait for an item, process it. A poll
        that ends because the processor stops keeps its token; every other turn returns it
        or leaves it to the handler it started. */
    method ProcessNext(polled: Option<Item>, stopping: bool, now: int, x: Faults) returns (started: TaskRecord?)
      requires Valid() && !holding && limiter > 0
      modifies this`limiter, this`holding, this`running, client.storage
      ensures Valid() && running <= concurrency
      ensures holding <==> stopping && polled.None?
      ensures limiter == old(limiter) - (if holding || started != null then 1 else 0)
      ensures
        var taken := Tokens(old(limiter) - 1, old(running), Working);
        var st, q := old(client.storage.View()), old(client.storage.queue);
        var how := if polled.Some? then Exits(Processed(client.c, st, q, polled.value, now, x).exit)
                   else if stopping then PollStops else PollFails;
        Tokens(limiter, running, if holding then Ended(1) else Selecting) == TokenApply(taken, how)
      ensures running == old(running) + (if started != null then 1 else 0)
      ensures polled.Some? ==>
        var e := Processed(client.c, old(client.storage.View()), old(client.storage.queue), polled.value, now, x);
        && client.storage.View() == e.store && client.storage.queue == e.queue && (started != null <==> e.exit.Started?)
      ensures polled.None? ==> started == null && client.storage.View() == old(client.storage.View())
    {
      limiter, holding := limiter - 1, true;
      if polled.None? {
        if !stopping {
          holding := false;
          ReturnToken();
        }
        return null;
      }
      var err;
      err, started := ProcessMessage(polled.value, now, x);
      if err {
        holding := false;
        ReturnToken();
      }
    }
  }
}

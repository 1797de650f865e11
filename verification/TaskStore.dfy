/**
  The task store: one message per task id, each write carrying the sequence the
  writer believes to be the last one for that id, zero standing for none.
 */
module TaskStore {
  import opened Prelude
  import opened Tasks

  datatype Stored = Stored(task: Task, seqNo: nat)

  datatype Store = Store(tasks: map<string, Stored>, lastSeq: nat)

  function LastFor(st: Store, id: string): nat {
    if id in st.tasks then st.tasks[id].seqNo else 0
  }

  predicate Accepts(st: Store, id: string, expected: nat) {
    LastFor(st, id) == expected
  }

  function Put(st: Store, t: Task): Store {
    Store(st.tasks[t.id := Stored(t, st.lastSeq + 1)], st.lastSeq + 1)
  }

  function Remove(st: Store, id: string): Store {
    st.(tasks := st.tasks - {id})
  }

  // ---- Looking at the parents of a blocked task ----

  datatype Parent = Missing | Done(id: string, result: Option<TaskResult>) | Failed | Waiting

  /** How `loadDependencies` classifies a parent. Unreachable, like every state not
      named here, counts as not ready rather than failed. */
  function ParentOf(st: Store, id: string): Parent {
    if id !in st.tasks then Missing
    else
      var t := st.tasks[id].task;
      match t.state
      case Completed => Done(t.id, t.result)
      case Expired => Failed
      case Terminated => Failed
      case QueueError => Failed
      case Unknown => Failed
      case _ => Waiting
  }

  type Results = map<string, Option<TaskResult>>

  function WithResult(loadDeps: bool, results: Results, p: Parent): Results {
    if p.Done? && loadDeps then results[p.id := p.result] else results
  }

  /** The verdict of going over all parents in one go; `missing` tells a failure because a
      parent does not exist from one because of its state. */
  datatype Parents =
    | AllDone(results: Results)
    | SomeWaiting(results: Results)
    | SomeFailed(results: Results, missing: bool)
    | Unloadable(results: Results)

  /** Parents are visited in order and the first missing, failed or unloadable one ends the
      visit; `broken` are the ids whose load fails for another reason than absence. */
  function Survey(st: Store, broken: set<string>, deps: seq<string>, loadDeps: bool, results: Results): Parents {
    if deps == [] then AllDone(results)
    else if deps[0] in broken then Unloadable(results)
    else
      var p := ParentOf(st, deps[0]);
      if p.Missing? || p.Failed? then SomeFailed(results, p.Missing?)
      else
        var rest := Survey(st, broken, deps[1..], loadDeps, WithResult(loadDeps, results, p));
        if rest.AllDone? && p.Waiting? then SomeWaiting(rest.results) else rest
  }

  // ---- What the verdict says about the stored states ----

  /** A dependency that can no longer be met: it does not exist or ended without a result. */
  predicate Hopeless(st: Store, d: string) {
    d !in st.tasks || st.tasks[d].task.state in {Expired, Terminated, QueueError, Unknown}
  }

  predicate Met(st: Store, d: string) {
    d in st.tasks && st.tasks[d].task.state == Completed
  }

  predicate Passable(st: Store, broken: set<string>, d: string) {
    d !in broken && !Hopeless(st, d)
  }

  /** The first dependency the visit does not get past. */
  predicate StopsAt(st: Store, broken: set<string>, deps: seq<string>, i: nat) {
    && i < |deps| && !Passable(st, broken, deps[i])
    && forall j :: 0 <= j < i ==> Passable(st, broken, deps[j])
  }

  lemma StopShifts(st: Store, broken: set<string>, deps: seq<string>, i: nat)
    requires deps != [] && Passable(st, broken, deps[0])
    ensures StopsAt(st, broken, deps, i + 1) <==> StopsAt(st, broken, deps[1..], i)
  {
    if StopsAt(st, broken, deps[1..], i) {
      forall j | 0 <= j < i + 1 ensures Passable(st, broken, deps[j]) {
        if j > 0 { assert deps[1..][j - 1] == deps[j]; }
      }
    }
    if StopsAt(st, broken, deps, i + 1) {
      forall j | 0 <= j < i ensures Passable(st, broken, deps[1..][j]) { assert deps[1..][j] == deps[j + 1]; }
    }
  }

  ghost predicate FailsAtSome(st: Store, broken: set<string>, deps: seq<string>, missing: bool) {
    exists i: nat :: StopsAt(st, broken, deps, i) && deps[i] !in broken && missing == (deps[i] !in st.tasks)
  }

  ghost predicate BreaksAtSome(st: Store, broken: set<string>, deps: seq<string>) {
    exists i: nat :: StopsAt(st, broken, deps, i) && deps[i] in broken
  }

  predicate AllPassable(st: Store, broken: set<string>, deps: seq<string>) {
    forall i :: 0 <= i < |deps| ==> Passable(st, broken, deps[i])
  }

  predicate AllMet(st: Store, deps: seq<string>) {
    forall i :: 0 <= i < |deps| ==> Met(st, deps[i])
  }

  /** The visit gets past a passable first dependency, whatever comes after. */
  lemma FirstIsPassed(st: Store, broken: set<string>, deps: seq<string>)
    requires deps != [] && Passable(st, broken, deps[0])
    ensures forall missing :: FailsAtSome(st, broken, deps, missing) <==> FailsAtSome(st, broken, deps[1..], missing)
    ensures BreaksAtSome(st, broken, deps) <==> BreaksAtSome(st, broken, deps[1..])
    ensures AllPassable(st, broken, deps) <==> AllPassable(st, broken, deps[1..])
    ensures AllMet(st, deps) <==> Met(st, deps[0]) && AllMet(st, deps[1..])
  {
    forall i: nat ensures StopsAt(st, broken, deps, i + 1) <==> StopsAt(st, broken, deps[1..], i) {
      StopShifts(st, broken, deps, i);
    }
    forall missing ensures FailsAtSome(st, broken, deps, missing) <==> FailsAtSome(st, broken, deps[1..], missing) {
      FailureShifts(st, broken, deps, missing);
    }
    if BreaksAtSome(st, broken, deps) {
      var i: nat :| StopsAt(st, broken, deps, i) && deps[i] in broken;
      StopShifts(st, broken, deps, i - 1);
    }
    if BreaksAtSome(st, broken, deps[1..]) {
      var i: nat :| StopsAt(st, broken, deps[1..], i) && deps[1..][i] in broken;
      assert StopsAt(st, broken, deps, i + 1);
    }
    assert deps == [deps[0]] + deps[1..];
  }

  lemma FailureShifts(st: Store, broken: set<string>, deps: seq<string>, missing: bool)
    requires deps != [] && Passable(st, broken, deps[0])
    ensures FailsAtSome(st, broken, deps, missing) <==> FailsAtSome(st, broken, deps[1..], missing)
  {
    if FailsAtSome(st, broken, deps, missing) {
      var i: nat :| StopsAt(st, broken, deps, i) && deps[i] !in broken && missing == (deps[i] !in st.tasks);
      StopShifts(st, broken, deps, i - 1);
      assert deps[1..][i - 1] == deps[i];
    }
    if FailsAtSome(st, broken, deps[1..], missing) {
      var rest := deps[1..];
      var i: nat :| StopsAt(st, broken, rest, i) && rest[i] !in broken && missing == (rest[i] !in st.tasks);
      StopShifts(st, broken, deps, i);
    }
  }

  /** The verdict read off the stored states: failed exactly if the first dependency the
      visit does not get past is missing, expired, terminated, in a queue error or unknown;
      unloadable exactly if it cannot be loaded; otherwise done exactly if all are
      completed. Active, new, blocked and unreachable dependencies are waited for. */
  lemma {:induction false} SurveyMeans(st: Store, broken: set<string>, deps: seq<string>, loadDeps: bool,
                                       results: Results)
    ensures
      var v := Survey(st, broken, deps, loadDeps, results);
      && (forall missing :: (v.SomeFailed? && v.missing == missing) <==> FailsAtSome(st, broken, deps, missing))
      && (v.Unloadable? <==> BreaksAtSome(st, broken, deps))
      && (v.AllDone? <==> AllPassable(st, broken, deps) && AllMet(st, deps))
      && (v.SomeWaiting? <==> AllPassable(st, broken, deps) && !AllMet(st, deps))
  {
    if deps != [] {
      var d := deps[0];
      if !Passable(st, broken, d) {
        assert StopsAt(st, broken, deps, 0);
        assert forall i: nat :: StopsAt(st, broken, deps, i) ==> i == 0;
      } else {
        SurveyMeans(st, broken, deps[1..], loadDeps, WithResult(loadDeps, results, ParentOf(st, d)));
        FirstIsPassed(st, broken, deps);
      }
    }
  }

  predicate KeyedById(st: Store) {
    forall id :: id in st.tasks ==> st.tasks[id].task.id == id
  }

  /** The results of the dependencies met among these. */
  function ResultsOf(st: Store, deps: seq<string>): Results {
    map d | d in deps && Met(st, d) :: st.tasks[d].task.result
  }

  lemma ResultIsAdded(st: Store, d: string, rest: seq<string>, loadDeps: bool, results: Results)
    requires KeyedById(st) && !Hopeless(st, d)
    ensures
      var r := WithResult(loadDeps, results, ParentOf(st, d));
      if loadDeps then r + ResultsOf(st, rest) == results + ResultsOf(st, [d] + rest) else r == results
  {
  }

  /** If results are wanted, those stored with the completed dependencies visited are added;
      the visit ends before dependency `n`, the first it does not get past. */
  lemma {:induction false} SurveyResults(st: Store, broken: set<string>, deps: seq<string>, loadDeps: bool,
                                         results: Results, n: nat)
    requires KeyedById(st) && n <= |deps| && AllPassable(st, broken, deps[..n])
    requires n < |deps| ==> !Passable(st, broken, deps[n])
    ensures Survey(st, broken, deps, loadDeps, results).results
         == if loadDeps then results + ResultsOf(st, deps[..n]) else results
  {
    if n == 0 {
      assert results + ResultsOf(st, deps[..0]) == results;
    } else {
      var d, rest := deps[0], deps[1..];
      assert deps[..n] == [d] + rest[..n - 1];
      PassableRest(st, broken, d, rest[..n - 1]);
      SurveyStep(st, broken, deps, loadDeps, results);
      SurveyResults(st, broken, rest, loadDeps, WithResult(loadDeps, results, ParentOf(st, d)), n - 1);
      ResultIsAdded(st, d, rest[..n - 1], loadDeps, results);
    }
  }

  lemma PassableRest(st: Store, broken: set<string>, d: string, rest: seq<string>)
    requires AllPassable(st, broken, [d] + rest)
    ensures Passable(st, broken, d) && AllPassable(st, broken, rest)
  {
    assert ([d] + rest)[0] == d;
    forall i | 0 <= i < |rest| ensures Passable(st, broken, rest[i]) { assert ([d] + rest)[i + 1] == rest[i]; }
  }

  lemma SurveyStep(st: Store, broken: set<string>, deps: seq<string>, loadDeps: bool, results: Results)
    requires deps != [] && Passable(st, broken, deps[0])
    ensures
      var next := WithResult(loadDeps, results, ParentOf(st, deps[0]));
      Survey(st, broken, deps, loadDeps, results).results == Survey(st, broken, deps[1..], loadDeps, next).results
  {
  }
}

/**
  The stored versions of one task from its creation on, and what any such lineage
  satisfies merely because each version follows from its immediate predecessor.
 */
module Lineage {
  import opened Prelude
  import opened Tasks

  datatype Version = Version(task: Task, seqNo: nat, kind: Kind)

  ghost predicate LinkedAt(c: Config, l: seq<Version>, i: nat)
    requires 0 < i < |l|
  {
    l[i - 1].seqNo < l[i].seqNo && Follows(c, l[i - 1].task, l[i].kind, l[i].task)
  }

  ghost predicate Linear(c: Config, l: seq<Version>) {
    && l != [] && l[0].kind.Creating? && Fresh(l[0].task) && l[0].task.queue == c.queue && l[0].seqNo >= 1
    && forall i :: 0 < i < |l| ==> LinkedAt(c, l, i)
  }

  lemma LinearPrefix(c: Config, l: seq<Version>, n: nat)
    requires Linear(c, l) && 0 < n <= |l|
    ensures Linear(c, l[..n])
  {
    forall i | 0 < i < n ensures LinkedAt(c, l[..n], i) { assert LinkedAt(c, l, i); }
  }

  lemma LinearAppend(c: Config, l: seq<Version>, v: Version)
    requires Linear(c, l) && l[|l| - 1].seqNo < v.seqNo && Follows(c, l[|l| - 1].task, v.kind, v.task)
    ensures Linear(c, l + [v])
  {
    var m := l + [v];
    forall i | 0 < i < |m| ensures LinkedAt(c, m, i) {
      if i < |l| { assert LinkedAt(c, l, i); }
    }
  }

  lemma {:induction false} NumbersGrow(c: Config, l: seq<Version>, i: nat, j: nat)
    requires Linear(c, l) && i <= j < |l|
    ensures l[i].seqNo <= l[j].seqNo
    decreases j
  {
    if i < j {
      NumbersGrow(c, l, i, j - 1);
      assert LinkedAt(c, l, j);
    }
  }

  /** How many of these versions record the outcome of a handler. */
  function Outcomes(l: seq<Version>): nat {
    if l == [] then 0
    else Outcomes(l[..|l| - 1]) + (if l[|l| - 1].kind.Concluding? then 1 else 0)
  }

  /** What the creator fixed and no lifecycle step changes. */
  predicate SameIdentity(a: Task, b: Task) {
    && a.id == b.id && a.ttype == b.ttype && a.deps == b.deps && a.loadDeps == b.loadDeps
    && a.payload == b.payload && a.deadline == b.deadline && a.maxTries == b.maxTries
    && a.createdAt == b.createdAt && a.signature == b.signature
  }

  /** Attempt accounting for the newest version, given how many outcomes were recorded. */
  predicate Accounted(c: Config, first: Task, t: Task, outcomes: nat) {
    && t.tries == outcomes
    && (t.maxTries > 0 ==> t.tries <= t.maxTries && (t.state.Active? ==> t.tries < t.maxTries))
    && (t.result.Some? <==> t.state.Completed?)
    && SameIdentity(first, t)
    && t.queue == c.queue
  }

  lemma FollowsAccounted(c: Config, first: Task, prev: Task, kind: Kind, next: Task, outcomes: nat)
    requires Accounted(c, first, prev, outcomes) && Follows(c, prev, kind, next)
    ensures Accounted(c, first, next, outcomes + (if kind.Concluding? then 1 else 0))
  {
    if kind.Concluding? {
      var o, now :| next == Concluded(c, prev, o, now);
      ConcludingAccounted(c, first, prev, o, now, outcomes);
    }
  }

  lemma ConcludingAccounted(c: Config, first: Task, prev: Task, o: Outcome, now: int, outcomes: nat)
    requires Accounted(c, first, prev, outcomes) && prev.state.Active?
    ensures Accounted(c, first, Concluded(c, prev, o, now), outcomes + 1)
  {
  }

  /** Attempt accounting: a version's `tries` is the number of handler outcomes
      recorded so far, it stays within a positive `maxTries`, the task's identity and
      queue never change, and a result is stored exactly when the task is completed. */
  lemma {:induction false} LineageFacts(c: Config, l: seq<Version>)
    requires Linear(c, l)
    ensures Accounted(c, l[0].task, l[|l| - 1].task, Outcomes(l))
  {
    var n := |l| - 1;
    if n == 0 {
      assert l[..0] == [];
    } else {
      LinearPrefix(c, l, n);
      LineageFacts(c, l[..n]);
      assert LinkedAt(c, l, n);
      FollowsAccounted(c, l[0].task, l[n - 1].task, l[n].kind, l[n].task, Outcomes(l[..n]));
    }
  }

  /** Stored tries grow by at most one per version, by one exactly at an outcome. */
  lemma TriesGrowByOutcome(c: Config, l: seq<Version>, i: nat)
    requires Linear(c, l) && 0 < i < |l|
    ensures l[i].task.tries == l[i - 1].task.tries + (if l[i].kind.Concluding? then 1 else 0)
  {
    assert LinkedAt(c, l, i);
  }

  /** What an outcome is stored as: completed, with its result, or terminated; otherwise the
      attempt failed, and the task is expired exactly if that was the queue's last try. */
  lemma OutcomeStates(c: Config, l: seq<Version>, i: nat)
    requires Linear(c, l) && i < |l| && l[i].kind.Concluding?
    ensures
      var t := l[i].task;
      && t.state in {Completed, Terminated, Expired, Retry}
      && (t.state == Completed <==> t.result.Some?)
      && (t.state !in {Completed, Terminated} ==>
            (t.state == Expired <==> c.queue != "" && t.tries == c.queueMaxTries))
      && t.lastTriedAt.Some?
  {
    assert LinkedAt(c, l, i);
    LinearPrefix(c, l, i);
    LineageFacts(c, l[..i]);
    var o, now :| l[i].task == Concluded(c, l[i - 1].task, o, now);
  }

  /** Completed, Expired and Unreachable are left only by a manual retry. */
  lemma FinalLeftOnlyByRetry(c: Config, l: seq<Version>, i: nat)
    requires Linear(c, l) && 0 < i < |l| && Final(l[i - 1].task.state)
    ensures l[i].kind.Retrying?
  {
    assert LinkedAt(c, l, i);
  }

  /** The version after an active mark records its outcome, comes from a manual retry, or is
      an active mark at least `maxRunTime` later, if the lineage goes on to another mark. */
  lemma TakeoverIsLate(c: Config, l: seq<Version>, i: nat, j: nat)
    requires Linear(c, l) && i < j < |l| && l[i].kind.Activating? && l[j].kind.Activating?
    requires !l[i + 1].kind.Concluding? && forall k :: i < k < |l| ==> !l[k].kind.Retrying?
    ensures l[i].task.lastTriedAt.Some? && l[i + 1].kind.Activating? && l[i + 1].task.lastTriedAt.Some?
    ensures l[i + 1].task.lastTriedAt.value >= l[i].task.lastTriedAt.value + c.maxRunTime
  {
    assert LinkedAt(c, l, i + 1) && LinkedAt(c, l, i);
    if Final(l[i + 1].task.state) { FinalIsLast(c, l, i + 1); }
  }

  /** Without a manual retry among the later versions, a final state is the end. */
  lemma {:induction false} FinalIsLast(c: Config, l: seq<Version>, i: nat)
    requires Linear(c, l) && i < |l| && Final(l[i].task.state)
    requires forall k :: i < k < |l| ==> !l[k].kind.Retrying?
    ensures i == |l| - 1
  {
    if i + 1 < |l| {
      FinalLeftOnlyByRetry(c, l, i + 1);
      assert false;
    }
  }

  lemma FinalStays(c: Config, l: seq<Version>, i: nat)
    requires Linear(c, l) && i < |l| && Final(l[i].task.state)
    ensures i + 1 < |l| ==> l[i + 1].kind.Retrying?
    ensures (forall k :: i < k < |l| ==> !l[k].kind.Retrying?) ==> i == |l| - 1
  {
    if i + 1 < |l| { FinalLeftOnlyByRetry(c, l, i + 1); }
    if forall k :: i < k < |l| ==> !l[k].kind.Retrying? { FinalIsLast(c, l, i); }
  }

  /** Exclusion on the record: if two versions both mark the task active and neither an
      outcome nor a manual retry was recorded in between, the second mark is at least
      `maxRunTime` later than the first. */
  lemma {:induction false} ActiveMarksAreSpaced(c: Config, l: seq<Version>, i: nat, j: nat)
    requires Linear(c, l) && c.maxRunTime >= 0 && i < j < |l|
    requires l[i].kind.Activating? && l[j].kind.Activating?
    requires forall k :: i < k < j ==> !l[k].kind.Concluding? && !l[k].kind.Retrying?
    ensures l[i].task.lastTriedAt.Some? && l[j].task.lastTriedAt.Some?
    ensures l[j].task.lastTriedAt.value >= l[i].task.lastTriedAt.value + c.maxRunTime
    decreases j
  {
    assert LinkedAt(c, l, j);
    MarkedOrFinal(c, l, i, j - 1);
    if j > i + 1 {
      assert LinkedAt(c, l, j - 1);
      ActiveMarksAreSpaced(c, l, i, j - 1);
    } else if i > 0 {
      assert LinkedAt(c, l, i);
    }
  }

  /** After an active mark and until an outcome or a retry, every version is another
      active mark or final. */
  lemma {:induction false} MarkedOrFinal(c: Config, l: seq<Version>, i: nat, j: nat)
    requires Linear(c, l) && i <= j < |l| && l[i].kind.Activating?
    requires forall k :: i < k <= j ==> !l[k].kind.Concluding? && !l[k].kind.Retrying?
    ensures l[j].kind.Activating? || Final(l[j].task.state)
    decreases j
  {
    if j > i {
      MarkedOrFinal(c, l, i, j - 1);
      assert LinkedAt(c, l, j);
      assert j > 1 ==> LinkedAt(c, l, j - 1);
    }
  }
}

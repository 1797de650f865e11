/**
  The election against the clock. Events happen at strictly increasing times; a
  running node ticks exactly when its ticker is due. The gap to its next tick is the
  plain campaign interval, or what a Backoff gives for the number of lost campaigns,
  which is zero for a leader: leaders wait between `lo` and `hi`, candidates anything
  up to `wait`. The key ages out `ttl` after its last write, and others may expire,
  delete or overwrite it at any time. Each node also carries the `leader` flag that its
  task scheduler sets from the election's callbacks and tests before enqueueing.
 */
module ElectionTimed {
  import opened Prelude
  import opened KeyValue
  import opened Election
  import Scheduler

  type Id = nat

  /** `contextErrors`: whether a leader's Update may end in a context error although
      the node keeps running. */
  datatype Config = Config(lo: real, hi: real, wait: real, ttl: real, contextErrors: bool)

  datatype Clocked = Clocked(node: Node, running: bool, due: real, gate: bool)

  datatype System = System(now: real, bucket: Bucket, nodes: map<Id, Clocked>)

  datatype Step =
    | Join(i: Id, at: real, name: string, fault: Fault, gap: real)
    | Tick(i: Id, at: real, name: string, fault: Fault, gap: real)
    | Leave(i: Id, at: real)
    | Crash(i: Id, at: real)
    | Foreign(op: ForeignOp, at: real)

  const ABSENT := Clocked(NEW_NODE, false, 0.0, false)

  function Lookup(s: System, i: Id): Clocked {
    if i in s.nodes then s.nodes[i] else ABSENT
  }

  predicate Running(s: System, i: Id) {
    i in s.nodes && s.nodes[i].running
  }

  predicate Leading(s: System, i: Id) {
    Running(s, i) && s.nodes[i].node.role.LeaderState?
  }

  /** The node is up and reports itself leader. */
  predicate Announced(s: System, i: Id) {
    Running(s, i) && IsLeader(s.nodes[i].node)
  }

  predicate Initial(s: System) {
    s.bucket == Bucket(None, 0) && s.nodes == map[]
  }

  /** Time does not pass a running node's due tick, and that instant is the node's own. */
  ghost predicate Punctual(s: System, at: real, actor: Option<Id>) {
    && s.now < at
    && forall j :: Running(s, j) ==> at < s.nodes[j].due || (at == s.nodes[j].due && actor == Some(j))
  }

  predicate FaultAllowed(c: Config, n: Node, f: Fault) {
    f.ContextError? && n.role.LeaderState? ==> c.contextErrors
  }

  /** The gap after a tick that leaves the node as `n`. */
  predicate GapAllowed(c: Config, n: Node, gap: real) {
    0.0 < gap && (if n.role.LeaderState? then c.lo <= gap <= c.hi else gap <= c.wait)
  }

  ghost predicate Enabled(c: Config, s: System, step: Step) {
    match step
    case Join(i, at, name, f, gap) =>
      && Punctual(s, at, Some(i)) && !Running(s, i)
      && GapAllowed(c, Tried(Begun(Lookup(s, i).node), Aged(c, s.bucket, at), name, at, f).node, gap)
    case Tick(i, at, name, f, gap) =>
      && Punctual(s, at, Some(i)) && Running(s, i) && at == s.nodes[i].due && FaultAllowed(c, s.nodes[i].node, f)
      && GapAllowed(c, Tried(s.nodes[i].node, Aged(c, s.bucket, at), name, at, f).node, gap)
    case Leave(i, at) => Punctual(s, at, Some(i)) && Running(s, i)
    case Crash(i, at) => Punctual(s, at, Some(i)) && Running(s, i)
    case Foreign(op, at) => Punctual(s, at, None)
  }

  /** The bucket as a request at time `at` finds it. */
  function Aged(c: Config, b: Bucket, at: real): Bucket {
    if b.entry.Some? && b.entry.value.writtenAt + c.ttl <= at then b.(entry := None) else b
  }

  function AfterTick(c: Config, s: System, i: Id, from: Node, at: real, name: string, f: Fault, gap: real): System {
    var r := Tried(from, Aged(c, s.bucket, at), name, at, f);
    System(at, r.bucket,
           s.nodes[i := Clocked(r.node, true, at + gap, Scheduler.Gate(Lookup(s, i).gate, r.calls))])
  }

  function Left(n: Clocked): Clocked {
    Clocked(Stopped(n.node), false, 0.0, Scheduler.Gate(n.gate, ShutdownCalls(n.node)))
  }

  function Apply(c: Config, s: System, step: Step): System {
    match step
    case Join(i, at, name, f, gap) => AfterTick(c, s, i, Begun(Lookup(s, i).node), at, name, f, gap)
    case Tick(i, at, name, f, gap) => AfterTick(c, s, i, Lookup(s, i).node, at, name, f, gap)
    case Leave(i, at) => System(at, s.bucket, s.nodes[i := Left(Lookup(s, i))])
    case Crash(i, at) => System(at, s.bucket, s.nodes[i := ABSENT])
    case Foreign(op, at) => System(at, AfterForeign(Aged(c, s.bucket, at), op, at), s.nodes)
  }

  /** The state after a run from `s`; a step that is not possible changes nothing. */
  ghost function After(c: Config, s: System, steps: seq<Step>): System {
    if steps == [] then s
    else
      var before := After(c, s, steps[..|steps| - 1]);
      if Enabled(c, before, steps[|steps| - 1]) then Apply(c, before, steps[|steps| - 1]) else before
  }

  // ---- What every run keeps ----

  predicate Steady(c: Config, s: System, i: Id) {
    i in s.nodes ==>
      && (s.nodes[i].running ==> s.now < s.nodes[i].due && !s.nodes[i].node.role.UnknownState?)
      && (s.nodes[i].running && !s.nodes[i].node.role.LeaderState? ==> s.nodes[i].due <= s.now + c.wait)
      && (s.nodes[i].node.role.LeaderState? ==>
            && s.nodes[i].running && s.nodes[i].due <= s.now + c.hi
            && s.nodes[i].node.tries == 0 && s.nodes[i].node.lastSeq <= s.bucket.lastRevision)
  }

  ghost predicate Regular(c: Config, s: System) {
    && WellFormed(s.bucket)
    && (forall i :: i in s.nodes ==> Steady(c, s, i))
    && (forall i, j :: i != j && Leading(s, i) && Leading(s, j) ==> s.nodes[i].node.lastSeq != s.nodes[j].node.lastSeq)
  }

  /** The node about to tick: a running one at its due time, or one that joins. */
  ghost predicate Ticks(s: System, i: Id, from: Node, at: real) {
    && Punctual(s, at, Some(i))
    && if Running(s, i) then at == s.nodes[i].due && from == s.nodes[i].node else from == Begun(Lookup(s, i).node)
  }

  /** What one tick can do, seen from the node alone. */
  lemma TickEffect(n: Node, b: Bucket, name: string, at: real, f: Fault)
    requires WellFormed(b) && !n.role.UnknownState?
    requires n.role.LeaderState? ==> n.tries == 0 && n.lastSeq <= b.lastRevision
    ensures
      var r := Tried(n, b, name, at, f);
      && WellFormed(r.bucket) && b.lastRevision <= r.bucket.lastRevision <= b.lastRevision + 1
      && (r.bucket.lastRevision == b.lastRevision ==> r.bucket == b)
      && !r.node.role.UnknownState?
      && (r.node.role.LeaderState? ==> r.node.tries == 0 && r.node.lastSeq <= r.bucket.lastRevision)
      && (r.node.role.LeaderState? && r.node != n ==> r.node.lastSeq == r.bucket.lastRevision == b.lastRevision + 1)
  {
  }

  lemma TickIsRegular(c: Config, s: System, i: Id, from: Node, at: real, name: string, f: Fault, gap: real)
    requires Regular(c, s) && Ticks(s, i, from, at)
    requires GapAllowed(c, Tried(from, Aged(c, s.bucket, at), name, at, f).node, gap)
    ensures Regular(c, AfterTick(c, s, i, from, at, name, f, gap))
  {
    var s' := AfterTick(c, s, i, from, at, name, f, gap);
    assert i in s.nodes ==> Steady(c, s, i);
    TickEffect(from, Aged(c, s.bucket, at), name, at, f);
    forall j | j in s'.nodes ensures Steady(c, s', j) {
      assert j != i ==> Steady(c, s, j) && (Running(s, j) ==> at < s.nodes[j].due);
    }
    forall j | j != i && Leading(s', i) && Leading(s', j) ensures s'.nodes[i].node.lastSeq != s'.nodes[j].node.lastSeq {
      assert Leading(s, j) && Steady(c, s, j);
    }
  }

  lemma DepartureIsRegular(c: Config, s: System, i: Id, at: real, s': System)
    requires Regular(c, s) && Punctual(s, at, Some(i)) && s'.now == at && s'.bucket == s.bucket
    requires exists n: Clocked :: !n.running && !n.node.role.LeaderState? && s'.nodes == s.nodes[i := n]
    ensures Regular(c, s')
  {
    forall j | j in s'.nodes ensures Steady(c, s', j) {
      assert j != i ==> Steady(c, s, j) && (Running(s, j) ==> at < s.nodes[j].due);
    }
    assert forall j :: Leading(s', j) ==> Leading(s, j) && s'.nodes[j] == s.nodes[j];
  }

  lemma ForeignIsRegular(c: Config, s: System, op: ForeignOp, at: real)
    requires Regular(c, s) && Punctual(s, at, None)
    ensures Regular(c, Apply(c, s, Foreign(op, at)))
  {
    var s' := Apply(c, s, Foreign(op, at));
    forall j | j in s'.nodes ensures Steady(c, s', j) {
      assert Steady(c, s, j) && (Running(s, j) ==> at < s.nodes[j].due);
    }
    assert forall j :: Leading(s', j) <==> Leading(s, j);
  }

  lemma StepIsRegular(c: Config, s: System, step: Step)
    requires Regular(c, s) && Enabled(c, s, step)
    ensures Regular(c, Apply(c, s, step))
  {
    match step
    case Tick(i, at, name, f, gap) => TickIsRegular(c, s, i, s.nodes[i].node, at, name, f, gap);
    case Join(i, at, name, f, gap) => TickIsRegular(c, s, i, Begun(Lookup(s, i).node), at, name, f, gap);
    case Leave(i, at) => DepartureIsRegular(c, s, i, at, Apply(c, s, step));
    case Crash(i, at) => DepartureIsRegular(c, s, i, at, Apply(c, s, step));
    case Foreign(op, at) => ForeignIsRegular(c, s, op, at);
  }

  lemma {:induction false} RunIsRegular(c: Config, s: System, steps: seq<Step>)
    requires Initial(s)
    ensures Regular(c, After(c, s, steps))
  {
    if steps != [] {
      RunIsRegular(c, s, steps[..|steps| - 1]);
      var before := After(c, s, steps[..|steps| - 1]);
      if Enabled(c, before, steps[|steps| - 1]) { StepIsRegular(c, before, steps[|steps| - 1]); }
    }
  }

  /** In every run a leader has lost no campaign since it won, so that a Backoff gives it
      the same gap as a node that never lost one. */
  lemma {:induction false} LeadersCountNoTries(c: Config, s: System, steps: seq<Step>, i: Id)
    requires Initial(s) && i in After(c, s, steps).nodes && After(c, s, steps).nodes[i].node.role.LeaderState?
    ensures After(c, s, steps).nodes[i].node.tries == 0
  {
    RunIsRegular(c, s, steps);
    assert Steady(c, After(c, s, steps), i);
  }

  // ---- At most one announced leader ----

  /** Two leaders can coexist only so: the newer one, by revision, has not been
      announced yet, and the older one's tick comes first. */
  predicate Staggered(older: Clocked, newer: Clocked) {
    older.node.lastSeq < newer.node.lastSeq ==> newer.node.notifyNext && older.due < newer.due
  }

  ghost predicate Safe(c: Config, s: System) {
    && Regular(c, s)
    && (forall i :: i in s.nodes ==> s.nodes[i].gate == IsLeader(s.nodes[i].node))
    && (forall i, j :: i != j && Leading(s, i) && Leading(s, j) ==> Staggered(s.nodes[i], s.nodes[j]))
  }

  /** A leader's refresh is accepted only if no other leader is left. */
  lemma RefreshMeansAlone(c: Config, s: System, i: Id, j: Id, at: real)
    requires Safe(c, s) && Leading(s, i) && Leading(s, j) && i != j
    requires Punctual(s, at, Some(i)) && at == s.nodes[i].due
    ensures !Updatable(Aged(c, s.bucket, at), s.nodes[i].node.lastSeq)
  {
    assert Steady(c, s, i) && Steady(c, s, j);
    assert Staggered(s.nodes[i], s.nodes[j]) && Staggered(s.nodes[j], s.nodes[i]);
  }

  /** The scheduler's flag follows the callbacks of a tick. */
  lemma GateFollows(n: Node, b: Bucket, name: string, at: real, f: Fault)
    ensures
      var r := Tried(n, b, name, at, f);
      && Scheduler.Gate(IsLeader(n), r.calls) == IsLeader(r.node)
      && (r.node.role.LeaderState? && !n.role.LeaderState? ==> r.node.notifyNext)
      && (r.node.role.LeaderState? && n.role.LeaderState? && !f.ContextError? ==> Updatable(b, n.lastSeq))
  {
  }

  lemma TickIsSafe(c: Config, s: System, i: Id, from: Node, at: real, name: string, f: Fault, gap: real)
    requires c.lo == c.hi && Safe(c, s) && Ticks(s, i, from, at)
    requires GapAllowed(c, Tried(from, Aged(c, s.bucket, at), name, at, f).node, gap)
    requires from.role.LeaderState? ==> !f.ContextError?
    ensures Safe(c, AfterTick(c, s, i, from, at, name, f, gap))
  {
    var s' := AfterTick(c, s, i, from, at, name, f, gap);
    var b := Aged(c, s.bucket, at);
    assert i in s.nodes ==> Steady(c, s, i);
    TickIsRegular(c, s, i, from, at, name, f, gap);
    TickEffect(from, b, name, at, f);
    GateFollows(from, b, name, at, f);
    forall j | j != i && Leading(s', i) && Leading(s', j)
      ensures Staggered(s'.nodes[i], s'.nodes[j]) && Staggered(s'.nodes[j], s'.nodes[i])
    {
      assert Leading(s, j) && s'.nodes[j] == s.nodes[j] && Steady(c, s, j);
      if from.role.LeaderState? {
        RefreshMeansAlone(c, s, i, j, at);
      }
    }
  }

  lemma DepartureIsSafe(c: Config, s: System, i: Id, at: real, s': System)
    requires Safe(c, s) && Running(s, i) && Regular(c, s') && s'.bucket == s.bucket
    requires s'.nodes == s.nodes[i := ABSENT]
          || s'.nodes == s.nodes[i := Left(s.nodes[i])]
    ensures Safe(c, s')
  {
    assert forall j :: Leading(s', j) ==> Leading(s, j) && s'.nodes[j] == s.nodes[j];
  }

  lemma StepIsSafe(c: Config, s: System, step: Step)
    requires c.lo == c.hi && !c.contextErrors
    requires Safe(c, s) && Enabled(c, s, step)
    ensures Safe(c, Apply(c, s, step))
  {
    match step
    case Tick(i, at, name, f, gap) => TickIsSafe(c, s, i, s.nodes[i].node, at, name, f, gap);
    case Join(i, at, name, f, gap) => TickIsSafe(c, s, i, Begun(Lookup(s, i).node), at, name, f, gap);
    case Foreign(op, at) =>
      ForeignIsRegular(c, s, op, at);
      assert forall j :: Leading(Apply(c, s, step), j) <==> Leading(s, j);
    case _ =>
      StepIsRegular(c, s, step);
      DepartureIsSafe(c, s, step.i, step.at, Apply(c, s, step));
  }

  lemma {:induction false} RunIsSafe(c: Config, s: System, steps: seq<Step>)
    requires c.lo == c.hi && !c.contextErrors && Initial(s)
    ensures Safe(c, After(c, s, steps))
  {
    if steps != [] {
      RunIsSafe(c, s, steps[..|steps| - 1]);
      var before := After(c, s, steps[..|steps| - 1]);
      if Enabled(c, before, steps[|steps| - 1]) { StepIsSafe(c, before, steps[|steps| - 1]); }
    }
  }

  ghost predicate OneLeader(s: System) {
    forall i, j :: Announced(s, i) && Announced(s, j) ==> i == j
  }

  /** With any number of nodes, leaders ticking at one common period and candidates at any
      gaps, and the key expiring, deleted or overwritten at any time, at most one node
      ever reports itself leader, and at most one scheduler ever passes its enqueue gate. */
  lemma TimedSingleLeader(c: Config, s: System, steps: seq<Step>)
    requires c.lo == c.hi && !c.contextErrors && Initial(s)
    ensures OneLeader(After(c, s, steps))
    ensures
      var e := After(c, s, steps);
      forall i, j :: i in e.nodes && e.nodes[i].gate && j in e.nodes && e.nodes[j].gate ==> i == j
  {
    RunIsSafe(c, s, steps);
    var e := After(c, s, steps);
    forall i, j | i in e.nodes && IsLeader(e.nodes[i].node) && j in e.nodes && IsLeader(e.nodes[j].node)
      ensures i == j
    {
      assert Steady(c, e, i) && Steady(c, e, j);
      assert Leading(e, i) && Leading(e, j);
      assert i != j ==> Staggered(e.nodes[i], e.nodes[j]) && Staggered(e.nodes[j], e.nodes[i]);
    }
  }

  // ---- Exactly when that holds ----

  ghost predicate AlwaysOneLeader(c: Config) {
    forall s, steps :: Initial(s) ==> OneLeader(After(c, s, steps))
  }

  lemma AfterOneMore(c: Config, s: System, steps: seq<Step>, step: Step)
    ensures After(c, s, steps + [step])
         == (var before := After(c, s, steps); if Enabled(c, before, step) then Apply(c, before, step) else before)
  {
    assert (steps + [step])[..|steps + [step]| - 1] == steps;
  }

  /** Node 0 wins and is announced at `1 + lo`; the key is deleted; node 1 wins. */
  function TakeoverRun(c: Config, gap: real, e: real): seq<Step> {
    [Join(0, 1.0, "a", Delivered, c.lo), Tick(0, 1.0 + c.lo, "a", Delivered, gap),
     Foreign(Delete, 1.0 + c.lo + e), Join(1, 1.0 + c.lo + 2.0 * e, "b", Delivered, c.lo)]
  }

  lemma Takeover(c: Config, gap: real, e: real) returns (end: System)
    requires 0.0 < c.lo <= gap <= c.hi && c.lo < c.ttl && 0.0 < e && 2.0 * e < gap
    ensures end == After(c, System(0.0, Bucket(None, 0), map[]), TakeoverRun(c, gap, e))
    ensures end.now == 1.0 + c.lo + 2.0 * e
    ensures end.nodes.Keys == {0, 1}
    ensures end.nodes[0] == Clocked(Node(LeaderState, 2, 0, false, true), true, 1.0 + c.lo + gap, true)
    ensures end.nodes[1] == Clocked(Node(LeaderState, 4, 0, true, true), true, end.now + c.lo, false)
    ensures end.bucket == Bucket(Some(Entry(4, "b", end.now)), 4)
  {
    var s0 := System(0.0, Bucket(None, 0), map[]);
    var t := TakeoverRun(c, gap, e);
    AfterOneMore(c, s0, [], t[0]);
    var s1 := After(c, s0, [t[0]]);
    assert s1 == System(1.0, Bucket(Some(Entry(1, "a", 1.0)), 1),
                        map[0 := Clocked(Node(LeaderState, 1, 0, true, true), true, 1.0 + c.lo, false)]);
    AfterOneMore(c, s0, [t[0]], t[1]);
    var s2 := After(c, s0, [t[0]] + [t[1]]);
    assert s2 == System(1.0 + c.lo, Bucket(Some(Entry(2, "a", 1.0 + c.lo)), 2),
                        map[0 := Clocked(Node(LeaderState, 2, 0, false, true), true, 1.0 + c.lo + gap, true)]);
    AfterOneMore(c, s0, [t[0]] + [t[1]], t[2]);
    var s3 := After(c, s0, [t[0]] + [t[1]] + [t[2]]);
    assert s3 == System(1.0 + c.lo + e, Bucket(None, 3), s2.nodes);
    AfterOneMore(c, s0, [t[0]] + [t[1]] + [t[2]], t[3]);
    end := After(c, s0, [t[0]] + [t[1]] + [t[2]] + [t[3]]);
    assert [t[0]] + [t[1]] + [t[2]] + [t[3]] == t;
    assert end == Apply(c, s3, t[3]);
  }

  /** Once leaders' gaps may differ, as with a Backoff that varies for the same number of
      tries or differs between nodes, two nodes can be announced at once. */
  lemma UnequalGapsBreakIt(c: Config)
    requires 0.0 < c.lo < c.hi && c.lo < c.ttl
    ensures !AlwaysOneLeader(c)
  {
    var s0 := System(0.0, Bucket(None, 0), map[]);
    var e := (c.hi - c.lo) / 4.0;
    var end := Takeover(c, c.hi, e);
    var last := Tick(1, end.nodes[1].due, "b", Delivered, c.lo);
    AfterOneMore(c, s0, TakeoverRun(c, c.hi, e), last);
    assert Enabled(c, end, last);
    var fin := After(c, s0, TakeoverRun(c, c.hi, e) + [last]);
    assert Announced(fin, 0) && Announced(fin, 1);
    assert Initial(s0) && !OneLeader(fin);
  }

  /** A leader that keeps running through a context error keeps its announcement too:
      even with equal gaps, another node can be announced meanwhile. */
  lemma ContextErrorsBreakIt(c: Config)
    requires 0.0 < c.lo == c.hi < c.ttl && c.contextErrors
    ensures !AlwaysOneLeader(c)
  {
    var s0 := System(0.0, Bucket(None, 0), map[]);
    var e := c.lo / 4.0;
    var run := TakeoverRun(c, c.lo, e);
    var end := Takeover(c, c.lo, e);
    var stuck := Tick(0, end.nodes[0].due, "a", ContextError(false), c.lo);
    AfterOneMore(c, s0, run, stuck);
    assert Enabled(c, end, stuck);
    var mid := Apply(c, end, stuck);
    assert mid.nodes[0].node == end.nodes[0].node && mid.bucket == end.bucket;
    var last := Tick(1, mid.nodes[1].due, "b", Delivered, c.lo);
    AfterOneMore(c, s0, run + [stuck], last);
    assert Enabled(c, mid, last);
    var fin := After(c, s0, run + [stuck] + [last]);
    assert Announced(fin, 0) && Announced(fin, 1);
    assert Initial(s0) && !OneLeader(fin);
  }

  /** If leaders wait at least as long as the key lives, no refresh ever succeeds. */
  predicate Doomed(c: Config, s: System, i: Id) {
    Leading(s, i) ==>
      && s.nodes[i].node.notifyNext
      && (Updatable(s.bucket, s.nodes[i].node.lastSeq) ==> s.bucket.entry.value.writtenAt + c.ttl <= s.nodes[i].due)
  }

  ghost predicate AllDoomed(c: Config, s: System) {
    forall i :: Doomed(c, s, i)
  }

  lemma TickIsDoomed(c: Config, s: System, i: Id, from: Node, at: real, name: string, f: Fault, gap: real)
    requires c.ttl <= c.lo && Regular(c, s) && AllDoomed(c, s) && Ticks(s, i, from, at)
    requires GapAllowed(c, Tried(from, Aged(c, s.bucket, at), name, at, f).node, gap)
    ensures AllDoomed(c, AfterTick(c, s, i, from, at, name, f, gap))
  {
    var s' := AfterTick(c, s, i, from, at, name, f, gap);
    assert Doomed(c, s, i) && (i in s.nodes ==> Steady(c, s, i));
    TickEffect(from, Aged(c, s.bucket, at), name, at, f);
    forall j ensures Doomed(c, s', j) {
      if j != i && Leading(s', j) { assert Steady(c, s, j) && Doomed(c, s, j); }
    }
  }

  lemma StepIsDoomed(c: Config, s: System, step: Step)
    requires c.ttl <= c.lo && Regular(c, s) && AllDoomed(c, s) && Enabled(c, s, step)
    ensures AllDoomed(c, Apply(c, s, step))
  {
    match step
    case Tick(i, at, name, f, gap) => TickIsDoomed(c, s, i, s.nodes[i].node, at, name, f, gap);
    case Join(i, at, name, f, gap) => TickIsDoomed(c, s, i, Begun(Lookup(s, i).node), at, name, f, gap);
    case _ =>
      forall j ensures Doomed(c, Apply(c, s, step), j) {
        assert Doomed(c, s, j) && (j in s.nodes ==> Steady(c, s, j));
      }
  }

  lemma {:induction false} NobodyIsAnnounced(c: Config, s: System, steps: seq<Step>)
    requires c.ttl <= c.lo && Initial(s)
    ensures AllDoomed(c, After(c, s, steps))
    ensures forall i :: !Announced(After(c, s, steps), i)
  {
    if steps != [] {
      NobodyIsAnnounced(c, s, steps[..|steps| - 1]);
      RunIsRegular(c, s, steps[..|steps| - 1]);
      var before := After(c, s, steps[..|steps| - 1]);
      if Enabled(c, before, steps[|steps| - 1]) { StepIsDoomed(c, before, steps[|steps| - 1]); }
    }
    forall i ensures !Announced(After(c, s, steps), i) { assert Doomed(c, After(c, s, steps), i); }
  }

  /** At most one announced leader in every run, if and only if all leaders' gaps are equal
      and no leader runs on through a context error, or leaders wait so long that the key
      always expires and nobody is ever announced. */
  lemma SingleLeaderExactly(c: Config)
    requires 0.0 < c.lo <= c.hi
    ensures AlwaysOneLeader(c) <==> (c.lo == c.hi && !c.contextErrors) || c.ttl <= c.lo
  {
    if c.ttl <= c.lo {
      forall s, steps | Initial(s) ensures OneLeader(After(c, s, steps)) {
        NobodyIsAnnounced(c, s, steps);
      }
    } else if c.lo < c.hi {
      UnequalGapsBreakIt(c);
    } else if c.contextErrors {
      ContextErrorsBreakIt(c);
    } else {
      forall s, steps | Initial(s) ensures OneLeader(After(c, s, steps)) {
        TimedSingleLeader(c, s, steps);
      }
    }
  }

  // ---- Holding the key ----

  /** This leader's key is its own last write and lives until its next tick. */
  predicate Holder(c: Config, s: System, i: Id) {
    && Leading(s, i) && Updatable(s.bucket, s.nodes[i].node.lastSeq)
    && s.nodes[i].due < s.bucket.entry.value.writtenAt + c.ttl
  }

  predicate Departs(step: Step, i: Id) {
    (step.Leave? || step.Crash?) && step.i == i
  }

  /** Nobody outside the election touches the key, and this node's requests are answered. */
  predicate Attended(step: Step, i: Id) {
    !step.Foreign? && ((step.Join? || step.Tick?) && step.i == i ==> step.fault.Delivered?)
  }

  predicate AttendedRun(steps: seq<Step>, i: Id) {
    forall k :: 0 <= k < |steps| ==> Attended(steps[k], i)
  }

  /** A node whose tick was answered and that leads after it holds the key. */
  lemma AnsweredMeansHolder(c: Config, s: System, i: Id, from: Node, at: real, name: string, gap: real)
    requires c.hi < c.ttl && Ticks(s, i, from, at)
    requires GapAllowed(c, Tried(from, Aged(c, s.bucket, at), name, at, Delivered).node, gap)
    ensures
      var s' := AfterTick(c, s, i, from, at, name, Delivered, gap);
      && (Leading(s', i) ==> Holder(c, s', i))
      && (s'.bucket.lastRevision > s.bucket.lastRevision ==> Leading(s', i))
  {
  }

  /** A holder's tick is accepted and announces it. */
  lemma HolderTicks(c: Config, s: System, i: Id, at: real, name: string, gap: real)
    requires Holder(c, s, i) && at == s.nodes[i].due
    ensures Announced(AfterTick(c, s, i, s.nodes[i].node, at, name, Delivered, gap), i)
  {
  }

  /** Whatever another node's request does, it leaves the holder's key alone. */
  lemma OthersLeaveKey(c: Config, s: System, i: Id, j: Id, from: Node, at: real, name: string, f: Fault, gap: real)
    requires Regular(c, s) && Holder(c, s, i) && i != j && Ticks(s, j, from, at)
    ensures AfterTick(c, s, j, from, at, name, f, gap).bucket == s.bucket
  {
    assert j in s.nodes ==> Steady(c, s, j);
    assert Leading(s, j) ==> s.nodes[i].node.lastSeq != s.nodes[j].node.lastSeq;
  }

  lemma HolderStays(c: Config, s: System, step: Step, i: Id)
    requires c.hi < c.ttl && Regular(c, s) && Holder(c, s, i) && Enabled(c, s, step) && Attended(step, i)
    requires !Departs(step, i)
    ensures
      var s' := Apply(c, s, step);
      && Holder(c, s', i) && (Announced(s, i) ==> Announced(s', i))
      && (s'.nodes[i].due == s.nodes[i].due || Announced(s', i))
  {
    match step
    case Tick(j, at, name, f, gap) =>
      if j == i {
        HolderTicks(c, s, i, at, name, gap);
        AnsweredMeansHolder(c, s, i, s.nodes[i].node, at, name, gap);
      } else {
        OthersLeaveKey(c, s, i, j, s.nodes[j].node, at, name, f, gap);
      }
    case Join(j, at, name, f, gap) => OthersLeaveKey(c, s, i, j, Begun(Lookup(s, j).node), at, name, f, gap);
    case Leave(j, _) =>
    case Crash(j, _) =>
  }

  lemma LeadingMeansHolder(c: Config, s: System, step: Step, i: Id)
    requires c.hi < c.ttl && Regular(c, s) && Enabled(c, s, step) && Attended(step, i)
    requires Leading(s, i) ==> Holder(c, s, i)
    ensures Leading(Apply(c, s, step), i) ==> Holder(c, Apply(c, s, step), i)
  {
    if Leading(s, i) && !Departs(step, i) {
      HolderStays(c, s, step, i);
    } else if step.Tick? && step.i == i {
      AnsweredMeansHolder(c, s, i, s.nodes[i].node, step.at, step.name, step.gap);
    } else if step.Join? && step.i == i {
      AnsweredMeansHolder(c, s, i, Begun(Lookup(s, i).node), step.at, step.name, step.gap);
    }
  }

  lemma {:induction false} LeaderHolds(c: Config, s: System, steps: seq<Step>, more: seq<Step>, i: Id)
    requires c.hi < c.ttl && Initial(s) && !Leading(After(c, s, steps), i) && AttendedRun(more, i)
    ensures Leading(After(c, s, steps + more), i) ==> Holder(c, After(c, s, steps + more), i)
  {
    if more == [] {
      assert steps + more == steps;
    } else {
      var init, last := more[..|more| - 1], more[|more| - 1];
      LeaderHolds(c, s, steps, init, i);
      assert steps + more == steps + init + [last];
      AfterOneMore(c, s, steps + init, last);
      RunIsRegular(c, s, steps + init);
      if Enabled(c, After(c, s, steps + init), last) { LeadingMeansHolder(c, After(c, s, steps + init), last, i); }
    }
  }

  /** Whatever happened while a node did not lead: if from then on nobody outside writes the
      key and the node's own requests are answered, then whenever it leads it has the key,
      whatever becomes of the other nodes and their requests. The live entry is its own last
      write, not yet aged out, and its next tick succeeds. */
  lemma {:induction false} LeaderNeverLosesKey(c: Config, s: System, steps: seq<Step>, more: seq<Step>, i: Id)
    requires c.hi < c.ttl && Initial(s) && !Leading(After(c, s, steps), i) && AttendedRun(more, i)
    requires Leading(After(c, s, steps + more), i)
    ensures
      var e := After(c, s, steps + more);
      && Updatable(e.bucket, e.nodes[i].node.lastSeq)
      && e.now < e.bucket.entry.value.writtenAt + c.ttl
      && (forall at, name, gap :: Enabled(c, e, Tick(i, at, name, Delivered, gap)) ==>
            Announced(Apply(c, e, Tick(i, at, name, Delivered, gap)), i))
  {
    LeaderHolds(c, s, steps, more, i);
    RunIsRegular(c, s, steps + more);
    var e := After(c, s, steps + more);
    assert Steady(c, e, i);
    forall at, name, gap | Enabled(c, e, Tick(i, at, name, Delivered, gap))
      ensures Announced(Apply(c, e, Tick(i, at, name, Delivered, gap)), i)
    {
      HolderTicks(c, e, i, at, name, gap);
    }
  }

  predicate StaysRun(steps: seq<Step>, i: Id) {
    forall k :: 0 <= k < |steps| ==> Attended(steps[k], i) && !Departs(steps[k], i)
  }

  /** A holder that stays goes on holding the key, and is announced from its next tick on. */
  lemma {:induction false} HolderIsAnnounced(c: Config, s: System, steps: seq<Step>, more: seq<Step>, i: Id)
    requires c.hi < c.ttl && Initial(s) && Holder(c, After(c, s, steps), i) && StaysRun(more, i)
    ensures
      var k, e := After(c, s, steps), After(c, s, steps + more);
      && Holder(c, e, i) && (e.nodes[i].due == k.nodes[i].due || Announced(e, i))
      && (k.nodes[i].due <= e.now ==> Announced(e, i))
  {
    RunIsRegular(c, s, steps + more);
    if more == [] {
      assert steps + more == steps;
    } else {
      var init, last := more[..|more| - 1], more[|more| - 1];
      HolderIsAnnounced(c, s, steps, init, i);
      assert steps + more == steps + init + [last];
      AfterOneMore(c, s, steps + init, last);
      RunIsRegular(c, s, steps + init);
      if Enabled(c, After(c, s, steps + init), last) { HolderStays(c, After(c, s, steps + init), last, i); }
    }
    assert Steady(c, After(c, s, steps + more), i);
  }

  // ---- Bounded failover ----

  /** The key, last written at `w` as revision `r`, has not been written since; a candidate
      is watching it. */
  predicate Pending(c: Config, s: System, cand: Id, w: real, r: nat) {
    && s.bucket.lastRevision == r && (s.bucket.entry.Some? ==> s.bucket.entry.value.writtenAt == w)
    && Running(s, cand) && s.nodes[cand].node.role.CandidateState? && s.nodes[cand].due < w + c.ttl + c.wait
  }

  /** The key was written again before `limit`, in this step; if the writer got the answer, it
      leads and holds the key. */
  predicate Rewritten(c: Config, s: System, step: Step, r: nat, limit: real) {
    && s.bucket.lastRevision > r && s.now < limit && (step.Join? || step.Tick?)
    && (step.fault.Delivered? ==> Holder(c, s, step.i))
  }

  lemma PendingTick(c: Config, s: System, cand: Id, w: real, r: nat, i: Id, from: Node, at: real, name: string,
      f: Fault, gap: real)
    requires c.hi < c.ttl && Regular(c, s) && Pending(c, s, cand, w, r) && Ticks(s, i, from, at)
    requires GapAllowed(c, Tried(from, Aged(c, s.bucket, at), name, at, f).node, gap) && (i == cand ==> f.Delivered?)
    ensures
      var s' := AfterTick(c, s, i, from, at, name, f, gap);
      || Pending(c, s', cand, w, r)
      || (s'.bucket.lastRevision > r && s'.now < w + c.ttl + c.wait && (f.Delivered? ==> Holder(c, s', i)))
  {
    assert i in s.nodes ==> Steady(c, s, i);
    TickEffect(from, Aged(c, s.bucket, at), name, at, f);
    if f.Delivered? { AnsweredMeansHolder(c, s, i, from, at, name, gap); }
  }

  lemma PendingStep(c: Config, s: System, cand: Id, w: real, r: nat, step: Step)
    requires c.hi < c.ttl && Regular(c, s) && Pending(c, s, cand, w, r)
    requires Enabled(c, s, step) && Attended(step, cand) && !Departs(step, cand)
    ensures Pending(c, Apply(c, s, step), cand, w, r) || Rewritten(c, Apply(c, s, step), step, r, w + c.ttl + c.wait)
  {
    match step
    case Tick(i, at, name, f, gap) => PendingTick(c, s, cand, w, r, i, s.nodes[i].node, at, name, f, gap);
    case Join(i, at, name, f, gap) => PendingTick(c, s, cand, w, r, i, Begun(Lookup(s, i).node), at, name, f, gap);
    case Leave(_, _) =>
    case Crash(_, _) =>
  }

  /** Either the key is still pending at the end, or step `n` wrote it in time. */
  lemma {:induction false} FailoverRun(c: Config, s: System, steps: seq<Step>, more: seq<Step>, cand: Id, w: real,
      r: nat)
    returns (n: nat)
    requires c.hi < c.ttl && Initial(s) && StaysRun(more, cand) && Pending(c, After(c, s, steps), cand, w, r)
    ensures n <= |more|
    ensures n == 0 ==> Pending(c, After(c, s, steps + more), cand, w, r)
    ensures n > 0 ==> Rewritten(c, After(c, s, steps + more[..n]), more[n - 1], r, w + c.ttl + c.wait)
  {
    if more == [] {
      assert steps + more == steps;
      return 0;
    }
    var init, last := more[..|more| - 1], more[|more| - 1];
    n := FailoverRun(c, s, steps, init, cand, w, r);
    if n > 0 {
      assert init[..n] == more[..n];
      return;
    }
    assert steps + more == steps + init + [last];
    AfterOneMore(c, s, steps + init, last);
    RunIsRegular(c, s, steps + init);
    var before := After(c, s, steps + init);
    if Enabled(c, before, last) {
      PendingStep(c, before, cand, w, r, last);
      if !Pending(c, After(c, s, steps + more), cand, w, r) {
        n := |more|;
        assert more[..n] == more;
      }
    }
  }

  /** Whatever happened before, if the key was last written at `w`, a candidate is running
      before it ages out and stays with its requests answered, and nobody outside touches
      the key, then some step writes the key again before `w + ttl + wait`, whichever other
      nodes leave or crash or lose their requests. If that node got its answer it leads,
      and if it stays it is announced from `w + ttl + wait + hi` on. */
  lemma {:induction false} BoundedFailover(c: Config, s: System, steps: seq<Step>, more: seq<Step>, cand: Id, w: real)
    returns (n: nat)
    requires c.hi < c.ttl && Initial(s) && StaysRun(more, cand)
    requires Running(After(c, s, steps), cand) && !Leading(After(c, s, steps), cand)
    requires After(c, s, steps).bucket.entry.Some? && After(c, s, steps).bucket.entry.value.writtenAt == w
    requires After(c, s, steps).now < w + c.ttl && w + c.ttl + c.wait <= After(c, s, steps + more).now
    ensures 0 < n <= |more|
    ensures
      var k, p, e := After(c, s, steps), After(c, s, steps + more[..n]), After(c, s, steps + more);
      var last := more[n - 1];
      && Rewritten(c, p, last, k.bucket.lastRevision, w + c.ttl + c.wait)
      && (last.fault.Delivered? && StaysRun(more[n..], last.i) && w + c.ttl + c.wait + c.hi <= e.now ==>
            Announced(e, last.i))
  {
    var k, e := After(c, s, steps), After(c, s, steps + more);
    RunIsRegular(c, s, steps);
    RunIsRegular(c, s, steps + more);
    assert Steady(c, k, cand);
    n := FailoverRun(c, s, steps, more, cand, w, k.bucket.lastRevision);
    assert cand in e.nodes ==> Steady(c, e, cand);
    if n == 0 {
      assert false;
    }
    var i := more[n - 1].i;
    if more[n - 1].fault.Delivered? && StaysRun(more[n..], i) {
      RunIsRegular(c, s, steps + more[..n]);
      assert Steady(c, After(c, s, steps + more[..n]), i);
      HolderIsAnnounced(c, s, steps + more[..n], more[n..], i);
      assert steps + more[..n] + more[n..] == steps + more;
    }
  }
}

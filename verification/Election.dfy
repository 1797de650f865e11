/**
  One participant of the leader election: the fields of the `election` struct,
  what a tick does to them and to the bucket, and which callbacks it fires.
 */
module Election {
  import opened Prelude
  import opened KeyValue

  datatype Role = UnknownState | CandidateState | LeaderState

  datatype Node = Node(role: Role, lastSeq: nat, tries: nat, notifyNext: bool, started: bool)

  datatype Callback = Won | Lost

  /** The effect of one tick. */
  datatype Effect = Effect(node: Node, bucket: Bucket, calls: seq<Callback>, failed: bool)

  /** The sentinel `math.MaxUint64` held while not leading. */
  const NO_SEQUENCE: nat := 0xFFFF_FFFF_FFFF_FFFF

  const NEW_NODE := Node(UnknownState, NO_SEQUENCE, 0, false, false)

  /** Leadership as the outside sees it: announced, not merely won. */
  predicate IsLeader(n: Node) {
    n.role.LeaderState? && !n.notifyNext
  }

  /** A candidate's tick: try to create the key. */
  function Campaigned(n: Node, b: Bucket, name: string, now: real, f: Fault): Effect {
    var b' := AfterCreate(b, name, now, f);
    match ReplyTo(b, Creatable(b), f)
    case Accepted(seq_) =>
      Effect(n.(lastSeq := seq_, role := LeaderState, tries := 0, notifyNext := true), b', [], false)
    case _ => Effect(n.(tries := n.tries + 1), b', [], false)
  }

  /** A leader's tick: refresh the key against the last revision seen. */
  function Maintained(n: Node, b: Bucket, name: string, now: real, f: Fault): Effect {
    var b' := AfterUpdate(b, name, n.lastSeq, now, f);
    match ReplyTo(b, Updatable(b, n.lastSeq), f)
    case Cancelled => Effect(n, b', [], true)
    case Refused =>
      Effect(n.(role := CandidateState, lastSeq := NO_SEQUENCE, tries := 0, notifyNext := false), b',
             if n.notifyNext then [] else [Lost], true)
    case Accepted(seq_) =>
      Effect(n.(lastSeq := seq_, notifyNext := false), b', if n.notifyNext then [Won] else [], false)
  }

  function Tried(n: Node, b: Bucket, name: string, now: real, f: Fault): Effect {
    match n.role
    case LeaderState => Maintained(n, b, name, now, f)
    case CandidateState => Campaigned(n, b, name, now, f)
    case UnknownState => Effect(n, b, [], true)
  }

  function Begun(n: Node): Node {
    n.(started := true, role := CandidateState)
  }

  /** `stop`: note that `notifyNext` and `tries` survive it. */
  function Stopped(n: Node): Node {
    n.(started := false, role := CandidateState, lastSeq := NO_SEQUENCE)
  }

  function ShutdownCalls(n: Node): seq<Callback> {
    if IsLeader(n) then [Lost] else []
  }

  // ---- Callback discipline ----

  ghost predicate Alternates(calls: seq<Callback>) {
    forall i :: 0 <= i < |calls| ==> calls[i] == (if i % 2 == 0 then Won else Lost)
  }

  /** What links the node's fields to the callbacks fired so far. */
  ghost predicate Disciplined(n: Node, calls: seq<Callback>) {
    && Alternates(calls)
    && (IsLeader(n) <==> |calls| % 2 == 1)
    && (!n.started ==> !n.role.LeaderState?)
  }

  /** Events of one participant; the bucket a tick finds is arbitrary. */
  datatype Event = StartCalled | Ticked(bucket: Bucket, name: string, now: real, fault: Fault) | ContextDone

  datatype Observed = Observed(node: Node, calls: seq<Callback>)

  /** Ticks and shutdown only happen inside a running `Start`; a second `Start` is refused. */
  function Observe(o: Observed, e: Event): Observed {
    match e
    case StartCalled => if o.node.started then o else o.(node := Begun(o.node))
    case Ticked(b, name, now, f) =>
      if !o.node.started then o
      else
        var r := Tried(o.node, b, name, now, f);
        Observed(r.node, o.calls + r.calls)
    case ContextDone =>
      if !o.node.started then o
      else Observed(Stopped(o.node), o.calls + ShutdownCalls(o.node))
  }

  function ObserveAll(events: seq<Event>): Observed {
    if events == [] then Observed(NEW_NODE, [])
    else Observe(ObserveAll(events[..|events| - 1]), events[|events| - 1])
  }

  lemma TickIsDisciplined(n: Node, calls: seq<Callback>, b: Bucket, name: string, now: real, f: Fault)
    requires Disciplined(n, calls) && n.started
    ensures Disciplined(Tried(n, b, name, now, f).node, calls + Tried(n, b, name, now, f).calls)
    ensures Tried(n, b, name, now, f).node.started
  {
  }

  lemma ShutdownIsDisciplined(n: Node, calls: seq<Callback>)
    requires Disciplined(n, calls)
    ensures Disciplined(Stopped(n), calls + ShutdownCalls(n))
    ensures |calls + ShutdownCalls(n)| % 2 == 0
  {
  }

  /** Over any sequence of starts, ticks and shutdowns, whatever the bucket holds
      and however requests fail, OnWon and OnLost strictly alternate beginning with
      OnWon, they are balanced whenever no `Start` is running, and `IsLeader` holds
      exactly while the last call was OnWon. */
  lemma {:induction false} CallbackDiscipline(events: seq<Event>)
    ensures
      var o := ObserveAll(events);
      && Disciplined(o.node, o.calls)
      && (IsLeader(o.node) <==> o.calls != [] && o.calls[|o.calls| - 1] == Won)
      && (!o.node.started ==> |o.calls| % 2 == 0)
  {
    if events != [] {
      var before := ObserveAll(events[..|events| - 1]);
      CallbackDiscipline(events[..|events| - 1]);
      match events[|events| - 1]
      case StartCalled =>
      case Ticked(b, name, now, f) =>
        if before.node.started { TickIsDisciplined(before.node, before.calls, b, name, now, f); }
      case ContextDone =>
        if before.node.started { ShutdownIsDisciplined(before.node, before.calls); }
    }
  }

  // ---- The count a Backoff is asked with ----

  /** How many campaigns in a row were lost since the last one won. */
  function LosingStreak(events: seq<Event>): nat {
    if events == [] then 0
    else
      var init := events[..|events| - 1];
      match events[|events| - 1]
      case Ticked(b, _, _, f) =>
        var n := ObserveAll(init).node;
        if !n.started || n.role != CandidateState then LosingStreak(init)
        else if b.entry == None && f == Delivered then 0
        else LosingStreak(init) + 1
      case _ => LosingStreak(init)
  }

  /** Over any sequence of starts, ticks and shutdowns, `tries` is the number of campaigns
      lost since the last win, and so zero while leading. */
  lemma {:induction false} TriesCountLosses(events: seq<Event>)
    ensures ObserveAll(events).node.tries == LosingStreak(events)
    ensures ObserveAll(events).node.role == LeaderState ==> LosingStreak(events) == 0
  {
    if events != [] { TriesCountLosses(events[..|events| - 1]); }
  }

  // ---- The participant as a mutable object ----

  /** One turn of the campaign loop: what others did to the key since the last
      turn, when the tick fires, and how its request fares. */
  datatype Turn = Turn(before: seq<ForeignOp>, now: real, fault: Fault)

  datatype Progress = Progress(node: Node, bucket: Bucket, calls: seq<Callback>)

  function TurnTaken(p: Progress, name: string, t: Turn): Progress {
    var r := Tried(p.node, AfterForeignOps(p.bucket, t.before, t.now), name, t.now, t.fault);
    Progress(r.node, r.bucket, p.calls + r.calls)
  }

  function TurnsTaken(p: Progress, name: string, turns: seq<Turn>): Progress {
    if turns == [] then p
    else TurnTaken(TurnsTaken(p, name, turns[..|turns| - 1]), name, turns[|turns| - 1])
  }

  class Participant {
    const name: string
    const bucket: KvBucket
    var role: Role
    var lastSeq: nat
    var tries: nat
    var notifyNext: bool
    var started: bool
    /** The user callbacks invoked so far. */
    var calls: seq<Callback>

    function Snapshot(): Node
      reads this
    {
      Node(role, lastSeq, tries, notifyNext, started)
    }

    function State(): Progress
      reads this, bucket
    {
      Progress(Snapshot(), bucket.View(), calls)
    }

    constructor (name: string, bucket: KvBucket)
      ensures this.name == name && this.bucket == bucket
      ensures Snapshot() == Node(UnknownState, 0xFFFF_FFFF_FFFF_FFFF, 0, false, false) && calls == []
    {
      this.name, this.bucket := name, bucket;
      role, lastSeq, tries, notifyNext, started := UnknownState, NO_SEQUENCE, 0, false, false;
      calls := [];
    }

    method CampaignForLeadership(now: real, f: Fault)
      modifies this, bucket
      ensures
        var r := Campaigned(old(Snapshot()), old(bucket.View()), name, now, f);
        State() == Progress(r.node, r.bucket, old(calls))
      ensures
        var won := old(bucket.entry) == None && f == Delivered;
        && role == (if won then LeaderState else old(role)) && notifyNext == (won || old(notifyNext))
        && lastSeq == (if won then old(bucket.lastRevision) + 1 else old(lastSeq))
        && tries == (if won then 0 else old(tries) + 1) && started == old(started)
    {
      var reply := bucket.Create(name, now, f);
      if reply.Accepted? {
        lastSeq := reply.revision;
        role := LeaderState;
        tries := 0;
        notifyNext := true;
      } else {
        tries := tries + 1;
      }
    }

    /** Returns the callbacks to fire once the mutex is released. */
    method MaintainLeadership(now: real, f: Fault) returns (won: bool, lost: bool, err: bool)
      modifies this, bucket
      ensures
        var r := Maintained(old(Snapshot()), old(bucket.View()), name, now, f);
        && State() == Progress(r.node, r.bucket, old(calls))
        && err == r.failed
        && !(won && lost)
        && r.calls == (if lost then [Lost] else if won then [Won] else [])
      ensures
        var held := old(bucket.entry).Some? && old(bucket.entry).value.revision == old(lastSeq);
        && started == old(started)
        && (err <==> !held || f != Delivered)
        && (!err ==>
              && role == old(role) && lastSeq == old(bucket.lastRevision) + 1 && tries == old(tries)
              && !notifyNext && won == old(notifyNext) && !lost)
        && (f.ContextError? ==>
              && role == old(role) && lastSeq == old(lastSeq) && tries == old(tries)
              && notifyNext == old(notifyNext) && !won && !lost)
        && (err && !f.ContextError? ==>
              && role == CandidateState && lastSeq == 0xFFFF_FFFF_FFFF_FFFF && tries == 0
              && !notifyNext && !won && lost == !old(notifyNext))
    {
      won, lost, err := false, false, false;
      var reply := bucket.Update(name, lastSeq, now, f);
      match reply
      case Cancelled =>
        err := true;
      case Refused =>
        role := CandidateState;
        lastSeq := NO_SEQUENCE;
        tries := 0;
        err := true;
        if notifyNext {
          notifyNext := false;
        } else {
          lost := true;
        }
      case Accepted(revision) =>
        lastSeq := revision;
        if notifyNext {
          notifyNext := false;
          won := true;
        }
    }

    method Try(now: real, f: Fault) returns (err: bool)
      modifies this, bucket
      ensures
        var r := Tried(old(Snapshot()), old(bucket.View()), name, now, f);
        && State() == Progress(r.node, r.bucket, old(calls) + r.calls)
        && err == r.failed
      ensures old(role) == UnknownState ==> err && State() == old(State())
      ensures old(role) == CandidateState ==> !err && calls == old(calls)
    {
      var won, lost := false, false;
      err := false;
      match role {
        case LeaderState => won, lost, err := MaintainLeadership(now, f);
        case CandidateState => CampaignForLeadership(now, f);
        case UnknownState => err := true;
      }
      if lost { calls := calls + [Lost]; }
      if won { calls := calls + [Won]; }
    }

    method Stop()
      modifies this
      ensures Snapshot() == Stopped(old(Snapshot())) && calls == old(calls)
      ensures role == CandidateState && lastSeq == 0xFFFF_FFFF_FFFF_FFFF && !started
      ensures tries == old(tries) && notifyNext == old(notifyNext)
    {
      started := false;
      role := CandidateState;
      lastSeq := NO_SEQUENCE;
    }

    /** What others did to the key, then a tick. */
    method TakeTurn(t: Turn)
      requires started
      modifies this, bucket
      ensures State() == TurnTaken(old(State()), name, t) && started
      ensures old(Disciplined(Snapshot(), calls)) ==> Disciplined(Snapshot(), calls)
    {
      bucket.Interfere(t.before, t.now);
      ghost var found, soFar, seen := Snapshot(), calls, bucket.View();
      var _ := Try(t.now, t.fault);
      if Disciplined(found, soFar) { TickIsDisciplined(found, soFar, seen, name, t.now, t.fault); }
    }

    /** A whole `Start`: the initial campaign, a tick per later turn, then shutdown. */
    method Start(first: Turn, rest: seq<Turn>) returns (err: bool)
      modifies this, bucket
      ensures err <==> old(started)
      ensures err ==> State() == old(State())
      ensures !err ==>
        var begun := Node(CandidateState, old(lastSeq), old(tries), old(notifyNext), true);
        var p := TurnsTaken(Progress(begun, old(bucket.View()), old(calls)), name, [first] + rest);
        && role == CandidateState && lastSeq == 0xFFFF_FFFF_FFFF_FFFF && !started
        && tries == p.node.tries && notifyNext == p.node.notifyNext && bucket.View() == p.bucket
        && calls == p.calls + (if p.node.role == LeaderState && !p.node.notifyNext then [Lost] else [])
      ensures !err && Disciplined(old(Snapshot()), old(calls)) ==>
        Disciplined(Snapshot(), calls) && |calls| % 2 == 0 && !started
    {
      if started {
        return true;
      }
      err := false;
      started := true;
      role := CandidateState;
      ghost var begun := State();
      ghost var orderly := Disciplined(old(Snapshot()), old(calls));
      var turns := [first] + rest;
      for i := 0 to |turns|
        invariant State() == TurnsTaken(begun, name, turns[..i])
        invariant orderly ==> Disciplined(Snapshot(), calls)
        invariant started
      {
        assert turns[..i + 1][..i] == turns[..i];
        TakeTurn(turns[i]);
      }
      assert turns[..|turns|] == turns;
      var wasLeader := IsLeader(Snapshot());
      if orderly { ShutdownIsDisciplined(Snapshot(), calls); }
      Stop();
      if wasLeader {
        calls := calls + [Lost];
      }
    }
  }
}

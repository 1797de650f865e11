/**
  Any number of participants on one key, with no assumption on timing: ticks,
  starts, stops, crashes, lost requests and answers, expiry, deletes and foreign
  writes interleave freely. A term is the span of revisions from a participant's
  acknowledged Create to its last acknowledged Update before stepping down.
 */
module ElectionTerms {
  import opened Prelude
  import opened KeyValue
  import opened Election

  type Id = nat

  datatype Term = Term(node: Id, first: nat, last: nat)

  /** `author[r]` is who produced revision `r`, None for anyone outside the
      election; `terms` lists the terms in order of their Create and `current`
      points each leader at its own. Both only record; no step reads them. */
  datatype System = System(bucket: Bucket, nodes: map<Id, Node>,
                           author: seq<Option<Id>>, terms: seq<Term>, current: map<Id, nat>)

  datatype Step =
    | StartNode(i: Id)
    | TickNode(i: Id, name: string, now: real, fault: Fault)
    | StopNode(i: Id)
    | CrashNode(i: Id)
    | Foreign(op: ForeignOp, now: real)

  predicate Initial(s: System) {
    && s.bucket == Bucket(None, 0)
    && (forall i :: i in s.nodes ==> s.nodes[i] == NEW_NODE)
    && s.author == [None] && s.terms == [] && s.current == map[]
  }

  predicate Enabled(s: System, step: Step) {
    match step
    case StartNode(i) => i in s.nodes && !s.nodes[i].started
    case TickNode(i, _, _, _) => i in s.nodes && s.nodes[i].started
    case StopNode(i) => i in s.nodes && s.nodes[i].started
    case CrashNode(i) => i in s.nodes
    case Foreign(_, _) => true
  }

  function Signed(author: seq<Option<Id>>, b: Bucket, b': Bucket, who: Option<Id>): seq<Option<Id>> {
    if b'.lastRevision > b.lastRevision then author + [who] else author
  }

  function AfterTick(s: System, i: Id, name: string, now: real, f: Fault): System
    requires i in s.nodes
  {
    var n := s.nodes[i];
    var r := Tried(n, s.bucket, name, now, f);
    var s' := s.(bucket := r.bucket, nodes := s.nodes[i := r.node],
                 author := Signed(s.author, s.bucket, r.bucket, Some(i)));
    if !r.node.role.LeaderState? then s'
    else if !n.role.LeaderState? then
      s'.(terms := s.terms + [Term(i, r.node.lastSeq, r.node.lastSeq)], current := s.current[i := |s.terms|])
    else if i in s.current && s.current[i] < |s.terms| then
      s'.(terms := s.terms[s.current[i] := s.terms[s.current[i]].(last := r.node.lastSeq)])
    else s'
  }

  function Apply(s: System, step: Step): System
    requires Enabled(s, step)
  {
    match step
    case StartNode(i) => s.(nodes := s.nodes[i := Begun(s.nodes[i])])
    case TickNode(i, name, now, f) => AfterTick(s, i, name, now, f)
    case StopNode(i) => s.(nodes := s.nodes[i := Stopped(s.nodes[i])])
    case CrashNode(i) => s.(nodes := s.nodes[i := NEW_NODE])
    case Foreign(op, now) =>
      var b' := AfterForeign(s.bucket, op, now);
      s.(bucket := b', author := Signed(s.author, s.bucket, b', None))
  }

  /** The state after a run from `s`; a step that is not possible changes nothing. */
  function After(s: System, steps: seq<Step>): System {
    if steps == [] then s
    else
      var before := After(s, steps[..|steps| - 1]);
      if Enabled(before, steps[|steps| - 1]) then Apply(before, steps[|steps| - 1]) else before
  }

  // ---- What holds throughout ----

  /** A term's revisions were all produced by its own node. */
  predicate Owned(author: seq<Option<Id>>, t: Term) {
    && t.first <= t.last < |author|
    && forall r :: t.first <= r <= t.last ==> author[r] == Some(t.node)
  }

  predicate Ordered(terms: seq<Term>) {
    forall j, k :: 0 <= j < k < |terms| ==> terms[j].last < terms[k].first
  }

  predicate Tracked(s: System, i: Id)
    requires i in s.nodes
  {
    s.nodes[i].role.LeaderState? ==>
      && i in s.current
      && s.current[i] < |s.terms|
      && s.terms[s.current[i]].node == i
      && s.terms[s.current[i]].last == s.nodes[i].lastSeq
  }

  predicate Sound(s: System) {
    && WellFormed(s.bucket)
    && |s.author| == s.bucket.lastRevision + 1
    && Ordered(s.terms)
    && (forall k :: 0 <= k < |s.terms| ==> Owned(s.author, s.terms[k]))
    && (forall i :: i in s.nodes ==> Tracked(s, i))
  }

  lemma OwnedGrows(author: seq<Option<Id>>, who: Option<Id>, t: Term)
    requires Owned(author, t)
    ensures Owned(author + [who], t)
  {
  }

  lemma OwnedExtends(author: seq<Option<Id>>, t: Term)
    requires Owned(author, t) && t.last == |author| - 1
    ensures Owned(author + [Some(t.node)], t.(last := |author|))
  {
  }

  /** A term whose last revision is the newest of all is the last term. */
  lemma NewestIsLast(s: System, k: nat)
    requires Sound(s) && k < |s.terms| && s.terms[k].last == s.bucket.lastRevision
    ensures k == |s.terms| - 1
  {
    assert Owned(s.author, s.terms[|s.terms| - 1]);
  }

  /** Frame: a step that leaves every other node alone and only appends to the
      record keeps it sound, given the new terms are. */
  lemma OthersStayTracked(s: System, s': System, i: Id)
    requires Sound(s) && s'.nodes.Keys == s.nodes.Keys && i in s.nodes
    requires forall j :: j in s.nodes && j != i ==> s'.nodes[j] == s.nodes[j]
    requires s'.current - {i} == s.current - {i}
    requires |s.terms| <= |s'.terms|
    requires forall k :: 0 <= k < |s.terms| && s.terms[k].node != i ==> s'.terms[k] == s.terms[k]
    requires Tracked(s', i)
    ensures forall j :: j in s'.nodes ==> Tracked(s', j)
  {
    forall j | j in s'.nodes ensures Tracked(s', j) {
      assert Tracked(s, j);
      if j != i && j in s.current {
        assert j in s.current - {i} && (s.current - {i})[j] == s.current[j];
        assert j in s'.current - {i} && (s'.current - {i})[j] == s'.current[j];
      }
    }
  }

  /** The record after some node's write became the newest revision. */
  lemma TermsStayOwned(s: System, who: Option<Id>)
    requires Sound(s)
    ensures forall k :: 0 <= k < |s.terms| ==> Owned(s.author + [who], s.terms[k])
  {
    forall k | 0 <= k < |s.terms| ensures Owned(s.author + [who], s.terms[k]) {
      OwnedGrows(s.author, who, s.terms[k]);
    }
  }

  lemma CandidateTickIsSound(s: System, i: Id, name: string, now: real, f: Fault)
    requires Sound(s) && i in s.nodes && s.nodes[i].role.CandidateState?
    ensures Sound(AfterTick(s, i, name, now, f))
  {
    var s' := AfterTick(s, i, name, now, f);
    TermsStayOwned(s, Some(i));
    if s'.nodes[i].role.LeaderState? {
      var won := s'.terms[|s.terms|];
      assert Owned(s'.author, won);
      forall k | 0 <= k < |s.terms| ensures s'.terms[k].last < won.first {
        assert Owned(s.author, s.terms[k]);
      }
    }
    OthersStayTracked(s, s', i);
  }

  lemma LeaderTickIsSound(s: System, i: Id, name: string, now: real, f: Fault)
    requires Sound(s) && i in s.nodes && s.nodes[i].role.LeaderState?
    ensures Sound(AfterTick(s, i, name, now, f))
  {
    var s' := AfterTick(s, i, name, now, f);
    TermsStayOwned(s, Some(i));
    assert Tracked(s, i);
    var k := s.current[i];
    if Updatable(s.bucket, s.nodes[i].lastSeq) && f.Delivered? {
      NewestIsLast(s, k);
      OwnedExtends(s.author, s.terms[k]);
    }
    OthersStayTracked(s, s', i);
  }

  lemma StepIsSound(s: System, step: Step)
    requires Sound(s) && Enabled(s, step)
    ensures Sound(Apply(s, step))
  {
    var s' := Apply(s, step);
    match step
    case TickNode(i, name, now, f) =>
      match s.nodes[i].role {
        case LeaderState => LeaderTickIsSound(s, i, name, now, f);
        case CandidateState => CandidateTickIsSound(s, i, name, now, f);
        case UnknownState => OthersStayTracked(s, s', i);
      }
    case Foreign(op, now) =>
      TermsStayOwned(s, None);
      forall j | j in s'.nodes ensures Tracked(s', j) { assert Tracked(s, j); }
    case StartNode(i) => OthersStayTracked(s, s', i);
    case StopNode(i) => OthersStayTracked(s, s', i);
    case CrashNode(i) => OthersStayTracked(s, s', i);
  }

  lemma {:induction false} RunIsSound(s: System, steps: seq<Step>)
    requires Initial(s)
    ensures Sound(After(s, steps))
  {
    if steps != [] {
      RunIsSound(s, steps[..|steps| - 1]);
      var before := After(s, steps[..|steps| - 1]);
      if Enabled(before, steps[|steps| - 1]) { StepIsSound(before, steps[|steps| - 1]); }
    }
  }

  /** In every run, terms never overlap in revision order, and every revision
      inside a term's span was written by the term's own node: nobody else,
      participant or outsider, wrote or deleted the key in between. */
  lemma DisjointTerms(s: System, steps: seq<Step>, j: nat, k: nat)
    requires Initial(s)
    requires j < k < |After(s, steps).terms|
    ensures
      var e := After(s, steps);
      && e.terms[j].first <= e.terms[j].last < e.terms[k].first <= e.terms[k].last < |e.author|
      && (forall r :: e.terms[j].first <= r <= e.terms[j].last ==> e.author[r] == Some(e.terms[j].node))
      && (forall r :: e.terms[k].first <= r <= e.terms[k].last ==> e.author[r] == Some(e.terms[k].node))
  {
    RunIsSound(s, steps);
    var e := After(s, steps);
    assert Owned(e.author, e.terms[j]) && Owned(e.author, e.terms[k]);
  }

  /** In every reachable state two different leaders remember different revisions,
      so at most one of them can still refresh the key. */
  lemma AtMostOneHolder(s: System, steps: seq<Step>, i: Id, j: Id)
    requires Initial(s)
    requires i in After(s, steps).nodes && After(s, steps).nodes[i].role.LeaderState?
    requires j in After(s, steps).nodes && After(s, steps).nodes[j].role.LeaderState?
    requires i != j
    ensures
      var e := After(s, steps);
      && e.nodes[i].lastSeq != e.nodes[j].lastSeq
      && !(Updatable(e.bucket, e.nodes[i].lastSeq) && Updatable(e.bucket, e.nodes[j].lastSeq))
  {
    RunIsSound(s, steps);
    var e := After(s, steps);
    assert Tracked(e, i) && Tracked(e, j);
    var a, b := e.current[i], e.current[j];
    assert Owned(e.author, e.terms[a]) && Owned(e.author, e.terms[b]);
    assert a < b ==> e.terms[a].last < e.terms[b].first;
    assert b < a ==> e.terms[b].last < e.terms[a].first;
  }
}

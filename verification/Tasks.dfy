/**
  Tasks, their states, and how each lifecycle function of the client changes a task
  before saving it. Times are integers (nanoseconds on one clock).
 */
module Tasks {
  import opened Prelude

  datatype TaskState =
    | Unknown | New | Active | Retry | Expired | Terminated
    | Completed | QueueError | Blocked | Unreachable

  type Byte = b: int | 0 <= b < 256

  datatype TaskResult = TaskResult(payload: string, completedAt: int)

  datatype Task = Task(
    id: string, ttype: string, queue: string,
    deps: seq<string>, depResults: map<string, Option<TaskResult>>, loadDeps: bool,
    payload: seq<Byte>, deadline: Option<int>, maxTries: int,
    result: Option<TaskResult>, state: TaskState,
    createdAt: int, lastTriedAt: Option<int>, tries: nat, lastErr: string, signature: string)

  /** The queue a client works on, and the states it discards instead of saving. */
  datatype Config = Config(queue: string, queueMaxTries: int, maxRunTime: int, discard: set<TaskState>)

  // ---- Creating tasks ----

  const DEFAULT_MAX_TRIES := 10

  predicate ValidNameChar(c: char) {
    'a' <= c <= 'z' || 'A' <= c <= 'Z' || '0' <= c <= '9' || c == '_' || c == ':' || c == '-'
  }

  predicate IsValidName(name: string) {
    name != "" && forall i :: 0 <= i < |name| ==> ValidNameChar(name[i])
  }

  predicate Listed(ch: char) {
    ch in {'a', 'b', 'c', 'd', 'e', 'f', 'g', 'h', 'i', 'j', 'k', 'l', 'm',
           'n', 'o', 'p', 'q', 'r', 's', 't', 'u', 'v', 'w', 'x', 'y', 'z',
           'A', 'B', 'C', 'D', 'E', 'F', 'G', 'H', 'I', 'J', 'K', 'L', 'M',
           'N', 'O', 'P', 'Q', 'R', 'S', 'T', 'U', 'V', 'W', 'X', 'Y', 'Z',
           '0', '1', '2', '3', '4', '5', '6', '7', '8', '9', '_', ':', '-'}
  }

  /** Names are made of exactly these characters. */
  lemma NamesAreSpelled(name: string)
    ensures IsValidName(name) <==> |name| > 0 && forall i :: 0 <= i < |name| ==> Listed(name[i])
  {
    forall i | 0 <= i < |name| ensures ValidNameChar(name[i]) <==> Listed(name[i]) { NameChar(name[i]); }
  }

  lemma NameChar(ch: char)
    ensures ValidNameChar(ch) <==> Listed(ch)
  {
    assert ch == (ch as int) as char;
  }

  datatype NewTaskResult = Created(task: Task) | TypeInvalid | IdInvalid

  /** What the options given to `NewTask` add up to; `id` is generated or user chosen, and
      `maxTries` is there only if an option set it. */
  datatype TaskOptions = TaskOptions(id: string, deps: seq<string>, loadDeps: bool, deadline: Option<int>,
      maxTries: Option<int>)

  /** The task carries what it was given. */
  predicate Carries(t: Task, ttype: string, payload: seq<Byte>, now: int, o: TaskOptions) {
    && t.ttype == ttype && t.payload == payload && t.createdAt == now
    && t.id == o.id && t.deps == o.deps && t.loadDeps == o.loadDeps && t.deadline == o.deadline
    && (o.maxTries.Some? ==> t.maxTries == o.maxTries.value) && (o.maxTries.None? ==> t.maxTries == 10)
    && t.queue == "" && t.signature == "" && t.lastErr == ""
  }

  function NewTask(ttype: string, payload: seq<Byte>, now: int, o: TaskOptions): (r: NewTaskResult)
    ensures r.Created? <==> IsValidName(ttype) && IsValidName(o.id)
    ensures r.TypeInvalid? <==> !IsValidName(ttype)
    ensures r.Created? ==> Fresh(r.task) && Carries(r.task, ttype, payload, now, o)
  {
    if !IsValidName(ttype) then TypeInvalid
    else if !IsValidName(o.id) then IdInvalid
    else
      var t := Task(o.id, ttype, "", o.deps, map[], o.loadDeps, payload, o.deadline, DEFAULT_MAX_TRIES, None,
                    New, now, None, 0, "", "");
      var limited := if o.maxTries.Some? then t.(maxTries := o.maxTries.value) else t;
      Created(if o.deps != [] then limited.(state := Blocked) else limited)
  }

  /** What every task made by `NewTask` satisfies until it is first stored. */
  predicate Fresh(t: Task) {
    && t.state == (if t.deps != [] then Blocked else New)
    && t.tries == 0 && t.result.None? && t.lastTriedAt.None? && t.depResults == map[]
  }

  ghost predicate NoDuplicates(s: seq<string>) {
    forall i, j :: 0 <= i < j < |s| ==> s[i] != s[j]
  }

  /** Where an id is first mentioned. */
  function FirstAt(ids: seq<string>, d: string): (i: nat)
    requires d in ids
    ensures i < |ids| && ids[i] == d && d !in ids[..i]
  {
    if ids[0] == d then 0 else
      var i := 1 + FirstAt(ids[1..], d);
      assert ids[..i] == [ids[0]] + ids[1..][..i - 1];
      i
  }

  lemma FirstMention(ids: seq<string>, k: nat)
    requires k < |ids| && ids[k] !in ids[..k]
    ensures FirstAt(ids, ids[k]) == k
  {
  }

  /** `TaskDependsOnIDs`: append the ids not yet listed, in order of first mention; no id
      is listed twice however often options repeat it. */
  method DependOn(existing: seq<string>, ids: seq<string>) returns (deps: seq<string>)
    ensures existing <= deps
    ensures forall d :: d in deps <==> d in existing || d in ids
    ensures NoDuplicates(existing) ==> NoDuplicates(deps)
    ensures forall i :: |existing| <= i < |deps| ==> deps[i] in ids && deps[i] !in existing
    ensures forall i, j :: |existing| <= i < j < |deps| ==> FirstAt(ids, deps[i]) < FirstAt(ids, deps[j])
  {
    deps := existing;
    for k := 0 to |ids|
      invariant existing <= deps
      invariant forall d :: d in deps <==> d in existing || d in ids[..k]
      invariant NoDuplicates(existing) ==> NoDuplicates(deps)
      invariant forall i :: |existing| <= i < |deps| ==>
          deps[i] in ids && deps[i] !in existing && FirstAt(ids, deps[i]) < k
      invariant forall i, j :: |existing| <= i < j < |deps| ==> FirstAt(ids, deps[i]) < FirstAt(ids, deps[j])
    {
      if ids[k] !in deps {
        FirstMention(ids, k);
        deps := deps + [ids[k]];
      }
    }
  }

  // ---- The lifecycle functions of the client ----

  function Activated(t: Task, now: int): Task {
    t.(state := Active, lastTriedAt := Some(now), lastErr := "")
  }

  function Succeeded(t: Task, payload: string, now: int): Task {
    t.(lastTriedAt := Some(now), state := Completed, lastErr := "", result := Some(TaskResult(payload, now)))
  }

  function TerminatedBy(t: Task, err: string, now: int): Task {
    t.(lastErr := err, lastTriedAt := Some(now), state := Terminated)
  }

  function ExpiredNow(t: Task): Task {
    t.(state := Expired)
  }

  /** A failed attempt: retry, unless the queue's limit is reached exactly. */
  function FailedWith(c: Config, t: Task, err: string, now: int): Task {
    t.(lastErr := err, lastTriedAt := Some(now),
       state := if t.queue != "" && t.queue == c.queue && c.queueMaxTries == t.tries then Expired else Retry)
  }

  function Unreached(t: Task, err: string, now: int): Task {
    t.(lastErr := err, lastTriedAt := Some(now), state := Unreachable)
  }

  /** What a handler reports. */
  datatype Outcome = Success(payload: string) | Failure(err: string) | Terminate(err: string)

  /** The task after a handler ran: one more try, and the outcome. */
  function Concluded(c: Config, t: Task, o: Outcome, now: int): Task {
    var tried := t.(tries := t.tries + 1);
    match o
    case Success(payload) => Succeeded(tried, payload, now)
    case Failure(err) => FailedWith(c, tried, err, now)
    case Terminate(err) => TerminatedBy(tried, err, now)
  }

  function RetriedInto(t: Task, queue: string): Task {
    t.(state := Retry, result := None, queue := queue)
  }

  function QueueFailed(t: Task, err: string): Task {
    t.(state := QueueError, lastErr := err)
  }

  predicate Enqueueable(t: Task) {
    t.state.New? || t.state.Retry? || t.state.Blocked?
  }

  // ---- The checks made on a delivered task ----

  predicate IsPastDeadline(t: Task, now: int) {
    t.deadline.Some? && now > t.deadline.value
  }

  datatype Verdict = AlreadyActive | Finished | Overdue | NeedsParents | Startable

  function Check(c: Config, t: Task, now: int): Verdict {
    if t.state.Active? && (t.lastTriedAt.None? || now - t.lastTriedAt.value < c.maxRunTime) then AlreadyActive
    else if t.state.Unreachable? || t.state.Completed? || t.state.Expired? then Finished
    else if IsPastDeadline(t, now) then Overdue
    else if t.maxTries > 0 && t.tries >= t.maxTries then Overdue
    else if t.state.Blocked? && t.deps != [] then NeedsParents
    else Startable
  }

  /** The verdict in terms of the task's fields: too late, or out of tries, is told from
      final and from active within `maxRunTime` first. */
  lemma CheckMeans(c: Config, t: Task, now: int)
    ensures
      var recent := t.state == Active && (t.lastTriedAt.None? || now < t.lastTriedAt.value + c.maxRunTime);
      var over := t.state in {Unreachable, Completed, Expired};
      var late := (t.deadline.Some? && t.deadline.value < now) || (0 < t.maxTries <= t.tries);
      var waits := t.state == Blocked && |t.deps| > 0;
      && (Check(c, t, now) == AlreadyActive <==> recent)
      && (Check(c, t, now) == Finished <==> over)
      && (Check(c, t, now) == Overdue <==> !recent && !over && late)
      && (Check(c, t, now) == NeedsParents <==> !recent && !over && !late && waits)
      && (Check(c, t, now) == Startable <==> !recent && !over && !late && !waits)
  {
  }

  // ---- One stored version following another ----

  datatype Kind = Creating | Retrying | Reenqueueing | QueueFailing | Activating | Concluding | Expiring | Abandoning

  predicate Final(s: TaskState) {
    s.Completed? || s.Expired? || s.Unreachable?
  }

  ghost predicate ConcludedFrom(c: Config, prev: Task, next: Task) {
    exists o, now :: next == Concluded(c, prev, o, now)
  }

  predicate ActivatedFrom(c: Config, prev: Task, next: Task) {
    && next.lastTriedAt.Some?
    && next == Activated(prev.(depResults := next.depResults), next.lastTriedAt.value)
    && !Final(prev.state)
    && (prev.maxTries > 0 ==> prev.tries < prev.maxTries)
    && (prev.state.Active? ==>
          prev.lastTriedAt.Some? && next.lastTriedAt.value >= prev.lastTriedAt.value + c.maxRunTime)
    && (!(prev.state.Blocked? && prev.deps != []) ==> next.depResults == prev.depResults)
  }

  /** How a version of a task may follow its immediate predecessor. */
  ghost predicate Follows(c: Config, prev: Task, kind: Kind, next: Task) {
    match kind
    case Creating => false
    case Retrying => next == RetriedInto(prev, c.queue)
    case Reenqueueing => Enqueueable(prev) && next == prev.(queue := c.queue)
    case QueueFailing => Enqueueable(prev) && next == QueueFailed(prev, next.lastErr)
    case Activating => ActivatedFrom(c, prev, next)
    case Concluding => prev.state.Active? && ConcludedFrom(c, prev, next)
    case Expiring => !Final(prev.state) && next == ExpiredNow(prev)
    case Abandoning =>
      && prev.state.Blocked? && prev.deps != [] && next.lastTriedAt.Some?
      && next == Unreached(prev.(depResults := next.depResults), next.lastErr, next.lastTriedAt.value)
  }
}

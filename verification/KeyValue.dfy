/**
  The one key of a JetStream key-value bucket that an election is held on: an
  optional entry and the revision counter of the stream behind the bucket.
  Create and revisioned Update are atomic; what can go wrong between a caller
  and the server is a `Fault`.
 */
module KeyValue {
  import opened Prelude

  datatype Entry = Entry(revision: nat, value: string, writtenAt: real)

  datatype Bucket = Bucket(entry: Option<Entry>, lastRevision: nat)

  /** How a request fares: answered, lost on the way in, applied with its answer
      lost, or cut short by the caller's context before or after being applied. */
  datatype Fault = Delivered | Dropped | AckLost | ContextError(applied: bool)

  datatype Reply = Accepted(revision: nat) | Refused | Cancelled

  /** What others may do to the key: write it, delete it (which leaves a marker
      and so consumes a revision) or let it age out. */
  datatype ForeignOp = Put(value: string) | Delete | Expire

  predicate Reaches(f: Fault) {
    f.Delivered? || f.AckLost? || (f.ContextError? && f.applied)
  }

  function Written(b: Bucket, value: string, now: real): Bucket {
    Bucket(Some(Entry(b.lastRevision + 1, value, now)), b.lastRevision + 1)
  }

  predicate Creatable(b: Bucket) {
    b.entry.None?
  }

  predicate Updatable(b: Bucket, expected: nat) {
    b.entry.Some? && b.entry.value.revision == expected
  }

  function AfterCreate(b: Bucket, value: string, now: real, f: Fault): Bucket {
    if Creatable(b) && Reaches(f) then Written(b, value, now) else b
  }

  function AfterUpdate(b: Bucket, value: string, expected: nat, now: real, f: Fault): Bucket {
    if Updatable(b, expected) && Reaches(f) then Written(b, value, now) else b
  }

  function ReplyTo(b: Bucket, allowed: bool, f: Fault): Reply {
    match f
    case Delivered => if allowed then Accepted(b.lastRevision + 1) else Refused
    case Dropped => Refused
    case AckLost => Refused
    case ContextError(_) => Cancelled
  }

  function AfterForeign(b: Bucket, op: ForeignOp, now: real): Bucket {
    match op
    case Put(value) => Written(b, value, now)
    case Delete => Bucket(None, b.lastRevision + 1)
    case Expire => Bucket(None, b.lastRevision)
  }

  function AfterForeignOps(b: Bucket, ops: seq<ForeignOp>, now: real): Bucket {
    if ops == [] then b
    else AfterForeign(AfterForeignOps(b, ops[..|ops| - 1], now), ops[|ops| - 1], now)
  }

  /** The live entry is always the newest revision of the key. */
  predicate WellFormed(b: Bucket) {
    b.entry.Some? ==> b.entry.value.revision == b.lastRevision
  }

  /** The bucket as a shared mutable object. */
  class KvBucket {
    var entry: Option<Entry>
    var lastRevision: nat

    function View(): Bucket
      reads this
    {
      Bucket(entry, lastRevision)
    }

    constructor ()
      ensures View() == Bucket(None, 0)
    {
      entry, lastRevision := None, 0;
    }

    method Create(value: string, now: real, f: Fault) returns (reply: Reply)
      modifies this
      ensures View() == AfterCreate(old(View()), value, now, f)
      ensures reply == ReplyTo(old(View()), Creatable(old(View())), f)
    {
      reply := ReplyTo(View(), entry.None?, f);
      if entry.None? && Reaches(f) {
        lastRevision := lastRevision + 1;
        entry := Some(Entry(lastRevision, value, now));
      }
    }

    method Update(value: string, expected: nat, now: real, f: Fault) returns (reply: Reply)
      modifies this
      ensures View() == AfterUpdate(old(View()), value, expected, now, f)
      ensures reply == ReplyTo(old(View()), Updatable(old(View()), expected), f)
    {
      reply := ReplyTo(View(), Updatable(View(), expected), f);
      if Updatable(View(), expected) && Reaches(f) {
        lastRevision := lastRevision + 1;
        entry := Some(Entry(lastRevision, value, now));
      }
    }

    method Interfere(ops: seq<ForeignOp>, now: real)
      modifies this
      ensures View() == AfterForeignOps(old(View()), ops, now)
    {
      for i := 0 to |ops|
        invariant View() == AfterForeignOps(old(View()), ops[..i], now)
      {
        assert ops[..i + 1][..i] == ops[..i];
        var after := AfterForeign(View(), ops[i], now);
        entry, lastRevision := after.entry, after.lastRevision;
      }
      assert ops[..|ops|] == ops;
    }
  }
}

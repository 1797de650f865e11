/**
  The leader gate of the task scheduler: a flag set by the election callbacks and
  read before a scheduled task is enqueued.
 */
module Scheduler {
  import opened Election

  /** The flag after the election fired `calls`, in order. */
  function Gate(leader: bool, calls: seq<Callback>): bool {
    if calls == [] then leader else calls[|calls| - 1] == Won
  }

  class TaskScheduler {
    var leader: bool
    var tasks: set<string>
    /** Names of the schedules whose trigger got as far as enqueueing a task. */
    var enqueued: seq<string>

    constructor ()
      ensures !leader && tasks == {} && enqueued == []
    {
      leader, tasks, enqueued := false, {}, [];
    }

    method OnWon()
      modifies this`leader
      ensures leader
    {
      leader := true;
    }

    method OnLost()
      modifies this`leader
      ensures !leader
    {
      leader := false;
    }

    /** A cron trigger: unknown schedules and followers stop before enqueueing. */
    method Trigger(name: string)
      modifies this`enqueued
      ensures enqueued == old(enqueued) + (if name in tasks && leader then [name] else [])
    {
      if name !in tasks {
        return;
      }
      if !leader {
        return;
      }
      enqueued := enqueued + [name];
    }

    /** The callbacks of an election delivered one after the other. */
    method Deliver(calls: seq<Callback>)
      modifies this`leader
      ensures leader == Gate(old(leader), calls)
      ensures calls != [] ==> (leader <==> calls[|calls| - 1] == Won)
      ensures calls == [] ==> leader == old(leader)
    {
      for k := 0 to |calls|
        invariant leader == Gate(old(leader), calls[..k])
      {
        match calls[k] {
          case Won => OnWon();
          case Lost => OnLost();
        }
      }
      assert calls[..|calls|] == calls;
    }
  }
}

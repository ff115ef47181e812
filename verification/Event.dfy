/** Registering and releasing wakers; a waker is known by the task it wakes. */
module Events {
  import opened OutputMachine

  class Event {
    var wakers: seq<nat>

    /** Tasks whose wake() was called and which the executor has not polled since. */
    var woken: set<nat>

    constructor ()
      ensures wakers == [] && woken == {}
    {
      wakers, woken := [], {};
    }

    method Wait(task: nat)
      modifies this
      ensures wakers == old(wakers) + [task] && woken == old(woken)
    {
      wakers := wakers + [task];
    }

    /** Drains the registered wakers, waking each. */
    method Notify()
      modifies this
      ensures wakers == [] && woken == old(woken) + Tasks(old(wakers))
    {
      ghost var all := wakers;
      ghost var before := woken;
      ghost var done := 0;
      while wakers != []
        invariant done + |wakers| == |all| && wakers == all[done..]
        invariant woken == before + Tasks(all[..done])
        decreases |wakers|
      {
        TasksSnoc(all, done);
        woken := woken + {wakers[0]};
        wakers := wakers[1..];
        done := done + 1;
      }
      assert all[..done] == all;
    }

    /** The executor polls a task. */
    method Run(task: nat)
      modifies this`woken
      ensures woken == old(woken) - {task}
    {
      woken := woken - {task};
    }
  }

  lemma TasksSnoc(all: seq<nat>, n: nat)
    requires n < |all|
    ensures Tasks(all[..n + 1]) == Tasks(all[..n]) + {all[n]}
  {
    forall x | x in Tasks(all[..n]) + {all[n]} ensures x in Tasks(all[..n + 1]) {
      if x == all[n] {
        assert all[..n + 1][n] == x;
      } else {
        var i :| 0 <= i < n && all[..n][i] == x;
        assert all[..n + 1][i] == x;
      }
    }
  }
}

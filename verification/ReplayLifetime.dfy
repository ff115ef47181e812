/** The life of a replay: connections come and go, and at some point merging is finalized. */
module ReplayLifetimes {
  import opened Bytes
  import opened EmptyCounters
  import HeaderFormat
  import opened ReplayHeaders
  import opened ReplayMergers

  /** How far `regular_lifetime` has got. */
  datatype Stage =
    | WaitingForWriters(wait: EmptyWait)
    | Draining(wait: EmptyWait)
    | Saving
    | WaitingForReaders(wait: EmptyWait)
    | Over

  /** What happens to the merge strategy. */
  datatype Call = Accepted(id: nat) | Reported(id: nat) | Left(id: nat) | Finalized

  /** The protocol of the merge strategy: whether a call may follow those made so far. */
  ghost predicate Legal(calls: seq<Call>, c: Call) {
    && Finalized !in calls
    && match c
       case Accepted(id) => Accepted(id) !in calls
       case Reported(id) => Accepted(id) in calls && Left(id) !in calls
       case Left(id) => Accepted(id) in calls && Left(id) !in calls
       case Finalized => forall id :: Accepted(id) in calls ==> Left(id) in calls
  }

  ghost predicate Orderly(calls: seq<Call>) {
    forall i :: 0 <= i < |calls| ==> Legal(calls[..i], calls[i])
  }

  lemma OrderlySnoc(calls: seq<Call>, c: Call)
    requires Orderly(calls) && Legal(calls, c)
    ensures Orderly(calls + [c])
  {
    hide Legal;
    var longer := calls + [c];
    forall i | 0 <= i < |longer| ensures Legal(longer[..i], longer[i]) {
      if i < |calls| {
        assert longer[..i] == calls[..i];
      } else {
        assert longer[..i] == calls;
      }
    }
  }

  /** Finalizing happens once, after every accepted writer has left, and nothing follows it. */
  lemma FinalizedIsLast(calls: seq<Call>, i: nat)
    requires Orderly(calls) && i < |calls| && calls[i] == Finalized
    ensures i == |calls| - 1
    ensures forall id :: Accepted(id) in calls ==> Left(id) in calls[..i]
  {
    var last := |calls| - 1;
    assert Legal(calls[..i], calls[i]) && Legal(calls[..last], calls[last]);
    assert forall j :: 0 <= j < last ==> calls[..last][j] == calls[j];
    assert calls == calls[..i] + [Finalized];
  }

  /** A writer is reported and leaves once it has been accepted, and not after it has left. */
  lemma CallsAreBetween(calls: seq<Call>, i: nat, id: nat)
    requires Orderly(calls) && i < |calls|
    ensures calls[i] == Accepted(id) ==> forall k :: 0 <= k < i ==> calls[k] != Accepted(id)
    ensures calls[i] == Reported(id) || calls[i] == Left(id) ==>
              && (exists j :: 0 <= j < i && calls[j] == Accepted(id))
              && forall k :: 0 <= k < i ==> calls[k] != Left(id) && calls[k] != Finalized
  {
    assert Legal(calls[..i], calls[i]);
    assert forall k :: 0 <= k < i ==> calls[..i][k] == calls[k];
  }

  /** What the calls made so far say about the connections. */
  ghost predicate CallsFit(calls: seq<Call>, tasks: map<nat, Phase>, open: bool) {
    && Orderly(calls) && (Finalized in calls <==> !open)
    && (forall id :: Accepted(id) in calls <==> id in tasks)
    && (forall id :: Left(id) in calls <==> id in tasks && tasks[id].Closed?)
  }

  lemma AcceptFits(calls: seq<Call>, tasks: map<nat, Phase>, id: nat)
    requires CallsFit(calls, tasks, true) && id !in tasks
    ensures CallsFit(calls + [Accepted(id)], tasks[id := AwaitingHeader], true)
    ensures |OpenTasks(tasks[id := AwaitingHeader])| == |OpenTasks(tasks)| + 1
  {
    OrderlySnoc(calls, Accepted(id));
    assert OpenTasks(tasks[id := AwaitingHeader]) == OpenTasks(tasks) + {id};
  }

  lemma ReportFits(calls: seq<Call>, tasks: map<nat, Phase>, newTasks: map<nat, Phase>, id: nat)
    requires CallsFit(calls, tasks, true) && id in OpenTasks(tasks)
    requires id in newTasks && !newTasks[id].Closed? && newTasks == tasks[id := newTasks[id]]
    ensures CallsFit(calls + [Reported(id)], newTasks, true) && OpenTasks(newTasks) == OpenTasks(tasks)
  {
    OrderlySnoc(calls, Reported(id));
  }

  lemma LeaveFits(calls: seq<Call>, tasks: map<nat, Phase>, id: nat)
    requires CallsFit(calls, tasks, true) && id in OpenTasks(tasks)
    ensures CallsFit(calls + [Left(id)], tasks[id := Closed], true)
    ensures |OpenTasks(tasks[id := Closed])| == |OpenTasks(tasks)| - 1
  {
    OrderlySnoc(calls, Left(id));
    assert OpenTasks(tasks[id := Closed]) == OpenTasks(tasks) - {id};
  }

  lemma FinalizeFits(calls: seq<Call>, tasks: map<nat, Phase>)
    requires CallsFit(calls, tasks, true) && OpenTasks(tasks) == {}
    ensures CallsFit(calls + [Finalized], tasks, false)
  {
    assert forall id :: id in tasks && !tasks[id].Closed? ==> id in OpenTasks(tasks);
    OrderlySnoc(calls, Finalized);
  }

  ghost function OpenTasks(tasks: map<nat, Phase>): set<nat> {
    set id | id in tasks && !tasks[id].Closed?
  }

  class Replay {
    const merger: ReplayMerger
    const writerCount: EmptyCounter
    const readerCount: EmptyCounter
    const timeWithZeroWriters: nat
    var shouldStopAccepting: bool
    var cancelled: bool
    var stage: Stage
    /** The clock. */
    var now: nat

    ghost var calls: seq<Call>
    /** What the wait for writers has seen, with the passing of time. */
    ghost var timeline: seq<Timeline>
    /** The waiter has had its turn after every change before time passed. */
    ghost var prompt: bool

    ghost function Waiter(): set<object>
      reads this`stage
    {
      match stage
      case WaitingForWriters(w) => {w}
      case Draining(w) => {w}
      case WaitingForReaders(w) => {w}
      case _ => {}
    }

    predicate BeforeFinalizing()
      reads this`stage
    {
      stage.WaitingForWriters? || stage.Draining?
    }

    ghost predicate CountersOk()
      reads merger, writerCount, readerCount
    {
      && writerCount != readerCount && writerCount.count == |OpenTasks(merger.tasks)|
      && (readerCount.version == 0 ==> readerCount.count == 0)
    }

    /** A wait without a timeout is never left sleeping. */
    ghost predicate WaitFits(w: EmptyWait, counter: EmptyCounter, timeout: nat)
      reads this`now, w, counter
    {
      && w.counter == counter && w.timeout == timeout && w.Valid() && !w.w.done
      && (timeout == 0 && w.w.deadline.Some? ==> w.w.deadline.value <= now)
    }

    ghost predicate WaiterOk()
      reads this`stage, this`now, Waiter(), writerCount, readerCount
    {
      && writerCount != readerCount && (writerCount.version == 0 ==> writerCount.count == 0)
      && match stage
         case WaitingForWriters(w) => WaitFits(w, writerCount, timeWithZeroWriters)
         case Draining(w) => WaitFits(w, writerCount, 0)
         case WaitingForReaders(w) => WaitFits(w, readerCount, 0)
         case _ => true
    }

    /** While the waiter gets its turns, the timeline is a run of the wait up to now. */
    ghost predicate TimeOk()
      reads this`stage, this`now, this`timeline, this`prompt, Waiter(), writerCount
    {
      stage.WaitingForWriters? && prompt ==>
        && IsRun(timeWithZeroWriters, timeline)
        && var t := timeline[|timeline| - 1];
           t == Timeline(now, writerCount.count, writerCount.version, t.quiet, t.calm, stage.wait.w)
    }

    ghost predicate WaitingOk()
      reads this`stage, this`now, this`timeline, this`prompt, Waiter(), writerCount, readerCount
    {
      WaiterOk() && TimeOk()
    }

    /** For how long no time has passed with a writer connected. */
    ghost function Quiet(): nat
      reads this`timeline
    {
      if timeline == [] then 0 else timeline[|timeline| - 1].quiet
    }

    /** For how long no writer has come or gone. */
    ghost function Calm(): nat
      reads this`timeline
    {
      if timeline == [] then 0 else timeline[|timeline| - 1].calm
    }

    ghost predicate Apart()
      reads this`stage, merger, merger.mergeStrategy.s
    {
      && this !in merger.Repr() && writerCount !in merger.Repr() && readerCount !in merger.Repr()
      && Waiter() !! merger.Repr()
    }

    ghost predicate Valid()
      reads this, Waiter(), writerCount, readerCount
      reads merger, merger.mergeStrategy, merger.mergeStrategy.s, merger.mergeStrategy.s.repr, merger.owner.Keys
    {
      && Apart() && CountersOk() && WaitingOk() && CallsFit(calls, merger.tasks, BeforeFinalizing())
      && (if BeforeFinalizing() then merger.Ready()
          else merger.Valid() && merger.View().canonFinished && OpenTasks(merger.tasks) == {})
      && (shouldStopAccepting <==> !stage.WaitingForWriters?)
    }

    constructor (merger: ReplayMerger, timeWithZeroWriters: nat, now: nat)
      requires merger.Ready() && merger.tasks == map[]
      ensures Valid() && this.merger == merger && calls == [] && stage.WaitingForWriters? && prompt
      ensures this.timeWithZeroWriters == timeWithZeroWriters && this.now == now && Quiet() == 0
    {
      hide ReplayMerger.Ready;
      hide ReplayMerger.Valid;
      this.merger, this.timeWithZeroWriters, this.now := merger, timeWithZeroWriters, now;
      shouldStopAccepting, cancelled, calls := false, false, [];
      var writers := new EmptyCounter();
      var readers := new EmptyCounter();
      writerCount, readerCount := writers, readers;
      var wait := new EmptyWait(writers, timeWithZeroWriters);
      stage, timeline, prompt := WaitingForWriters(wait), [Begin(now, 0, 0)], true;
    }

    // ---- Counting ----

    /** What a step of one writer leaves alone. */
    twostate lemma OthersStay()
      requires old(Apart()) && old(WaitingOk()) && merger.Grown()
      requires stage == old(stage) && now == old(now) && timeline == old(timeline) && prompt == old(prompt)
      requires unchanged(writerCount) && unchanged(readerCount)
      requires forall o :: o in Waiter() ==> unchanged(o)
      ensures Apart() && WaitingOk()
    {
    }

    method CountWriter()
      requires WaitingOk()
      modifies this`timeline, writerCount
      ensures WaitingOk() && writerCount.count == old(writerCount.count) + 1
    {
      if stage.WaitingForWriters? && prompt {
        ghost var s := timeline[|timeline| - 1];
        ghost var t := s.(count := s.count + 1, version := s.version + 1, calm := 0);
        TimelineGoesOn(timeWithZeroWriters, timeline, Inc, t);
        timeline := timeline + [t];
      }
      writerCount.Inc();
    }

    method UncountWriter()
      requires WaitingOk() && writerCount.count > 0
      modifies this`timeline, writerCount
      ensures WaitingOk() && writerCount.count == old(writerCount.count) - 1
    {
      if stage.WaitingForWriters? && prompt {
        ghost var s := timeline[|timeline| - 1];
        ghost var t := s.(count := s.count - 1, version := s.version + 1, calm := 0);
        TimelineGoesOn(timeWithZeroWriters, timeline, Dec, t);
        timeline := timeline + [t];
      }
      writerCount.Dec();
    }

    /** Time passes; the waiter has to be parked for its turns to remain prompt. */
    method PassTime(time: nat)
      requires Valid()
      modifies this`now, this`timeline, this`prompt
      ensures Valid() && now == old(now) + time
      ensures stage.WaitingForWriters? ==>
                prompt == (old(prompt) && Parked(stage.wait.w, writerCount.version, old(now)))
      ensures stage.WaitingForWriters? && prompt ==>
                Quiet() == if writerCount.count == 0 then old(Quiet()) + time else if time == 0 then old(Quiet()) else 0
    {
      hide ReplayMerger.Ready;
      hide ReplayMerger.Valid;
      hide CallsFit;
      hide CountersOk;
      hide WaitingOk;
      MoveClock(time);
    }

    method MoveClock(time: nat)
      requires WaitingOk()
      modifies this`now, this`timeline, this`prompt
      ensures WaitingOk() && now == old(now) + time
      ensures stage.WaitingForWriters? ==>
                prompt == (old(prompt) && Parked(stage.wait.w, writerCount.version, old(now)))
      ensures stage.WaitingForWriters? && prompt ==>
                Quiet() == if writerCount.count == 0 then old(Quiet()) + time else if time == 0 then old(Quiet()) else 0
    {
      if stage.WaitingForWriters? {
        prompt := prompt && Parked(stage.wait.w, writerCount.version, now);
        if prompt {
          ghost var s := timeline[|timeline| - 1];
          ghost var t := s.(now := s.now + time, calm := s.calm + time,
                            quiet := if s.count == 0 then s.quiet + time else if time == 0 then s.quiet else 0);
          TimelineGoesOn(timeWithZeroWriters, timeline, Pass(time), t);
          timeline := timeline + [t];
        }
      }
      now := now + time;
    }

    // ---- Writers ----

    /** Accepts a writer, or turns it away when the write phase is over. */
    method AcceptWriter(c: Connection) returns (id: Option<nat>)
      requires Valid() && c !in merger.Repr()
      modifies this`calls, this`timeline, writerCount, merger, merger.mergeStrategy, merger.mergeStrategy.s.repr
      ensures Valid() && (id.None? <==> shouldStopAccepting)
      ensures id.None? ==> calls == old(calls) && merger.tasks == old(merger.tasks)
      ensures id.Some? ==> calls == old(calls) + [Accepted(id.value)]
      ensures id.Some? ==> merger.tasks == old(merger.tasks)[id.value := AwaitingHeader]
      ensures id.Some? ==> merger.connections == old(merger.connections)[id.value := c]
    {
      hide ReplayMerger.Valid;
      hide Added;
      hide ReplayMerger.Ready;
      hide CallsFit;
      hide OpenTasks;
      hide WaitingOk;
      if shouldStopAccepting {
        return None;
      }
      CountWriter();
      ghost var tasks := merger.tasks;
      var token := merger.Connect(c);
      id := Some(token);
      AcceptFits(calls, tasks, token);
      calls := calls + [Accepted(token)];
    }

    /** As long as a writer is connected, merging has not been finalized. */
    lemma WhileOneIsOpen(id: nat)
      requires Valid() && id in merger.tasks && !merger.tasks[id].Closed?
      ensures BeforeFinalizing() && merger.Ready() && id in OpenTasks(merger.tasks) && writerCount.count > 0
    {
    }

    /** The replay has been removed from the strategy; the writer counts no longer. */
    method Leave(id: nat, ghost tasks: map<nat, Phase>)
      requires Apart() && WaitingOk() && BeforeFinalizing() && merger.Ready() && CallsFit(calls, tasks, true)
      requires merger.tasks == tasks[id := Closed] && id in OpenTasks(tasks)
      requires writerCount != readerCount && (readerCount.version == 0 ==> readerCount.count == 0)
      requires writerCount.count == |OpenTasks(tasks)|
      requires shouldStopAccepting <==> !stage.WaitingForWriters?
      modifies this`calls, this`timeline, writerCount
      ensures Valid() && calls == old(calls) + [Left(id)]
    {
      hide ReplayMerger.Valid;
      hide ReplayMerger.Ready;
      hide CallsFit;
      hide OpenTasks;
      hide WaitingOk;
      LeaveFits(calls, tasks, id);
      UncountWriter();
      calls := calls + [Left(id)];
    }

    /** The strategy has been told of a change to a replay. */
    ghost method Reports(id: nat, tasks: map<nat, Phase>)
      requires Apart() && WaitingOk() && BeforeFinalizing() && merger.Ready() && CallsFit(calls, tasks, true)
      requires id in merger.tasks && !merger.tasks[id].Closed? && merger.tasks == tasks[id := merger.tasks[id]]
      requires id in OpenTasks(tasks) && writerCount.count == |OpenTasks(tasks)|
      requires writerCount != readerCount && (readerCount.version == 0 ==> readerCount.count == 0)
      requires shouldStopAccepting <==> !stage.WaitingForWriters?
      modifies this`calls
      ensures Valid() && calls == old(calls) + [Reported(id)]
    {
      hide ReplayMerger.Valid;
      hide ReplayMerger.Ready;
      hide CallsFit;
      hide OpenTasks;
      hide WaitingOk;
      ReportFits(calls, tasks, merger.tasks, id);
      calls := calls + [Reported(id)];
    }

    /** The header comes in and is reported; without one the writer leaves. */
    method WriterHeader(id: nat)
      requires Valid() && id in merger.tasks && merger.tasks[id].AwaitingHeader? && id in merger.connections
      modifies this`calls, this`timeline, writerCount, merger.connections[id]
      modifies merger`tasks, merger`owner, merger`history, merger.mergeStrategy, merger.mergeStrategy.s.repr
      ensures Valid() && id in old(merger.inputs)
      ensures var header := HeaderFormat.FromConnection(old(merger.inputs)[id]);
              calls == old(calls) + [if header.Some? then Reported(id) else Left(id)]
    {
      hide ReplayMerger.Valid;
      hide EndedOnly;
      hide ReplayMerger.Ready;
      hide CallsFit;
      hide OpenTasks;
      hide WaitingOk;
      hide HeaderFormat.FromConnection;
      WhileOneIsOpen(id);
      ghost var tasks := merger.tasks;
      merger.ReadHeader(id);
      OthersStay();
      if merger.tasks[id].Closed? {
        Leave(id, tasks);
      } else {
        Reports(id, tasks);
      }
    }

    /** Data comes in, which is not reported at once; at the end of the connection the writer leaves. */
    method WriterData(id: nat)
      requires Valid() && id in merger.tasks && merger.tasks[id].Streaming? && id in merger.connections
      requires id in merger.View().replays && |merger.View().replays[id].log| + READ_SIZE <= USIZE_MAX
      modifies this`calls, this`timeline, writerCount, merger.connections[id]
      modifies merger`tasks, merger`history, merger.mergeStrategy, merger.mergeStrategy.s.repr
      ensures Valid()
      ensures calls == old(calls) + if old(merger.connections[id].rest) == [] then [Left(id)] else []
    {
      hide ReplayMerger.Valid;
      hide EndedOnly;
      hide ReplayMerger.Ready;
      hide CallsFit;
      hide OpenTasks;
      hide WaitingOk;
      WhileOneIsOpen(id);
      ghost var tasks := merger.tasks;
      merger.ReadData(id);
      OthersStay();
      if merger.tasks[id].Closed? {
        Leave(id, tasks);
      }
    }

    /** One cycle of the delay line, reported when something has changed. */
    method WriterCycle(id: nat)
      requires Valid() && id in merger.tasks && merger.tasks[id].Streaming?
      modifies this`calls, merger.tasks[id].loop, merger.tasks[id].loop.posQueue
      modifies merger`history, merger.mergeStrategy, merger.mergeStrategy.s.repr
      ensures Valid()
      ensures (calls == old(calls) && merger.View() == old(merger.View())) || calls == old(calls) + [Reported(id)]
    {
      hide ReplayMerger.Valid;
      hide Ticked;
      hide ReplayMerger.Ready;
      hide CallsFit;
      hide OpenTasks;
      hide WaitingOk;
      WhileOneIsOpen(id);
      var changed := merger.DelayCycle(id);
      OthersStay();
      if changed {
        Reports(id, merger.tasks);
      }
    }

    /** The connection is lost or cancelled. */
    method WriterEnds(id: nat)
      requires Valid() && id in merger.tasks && !merger.tasks[id].Closed?
      modifies this`calls, this`timeline, writerCount
      modifies merger`tasks, merger`history, merger.mergeStrategy, merger.mergeStrategy.s.repr
      ensures Valid() && calls == old(calls) + [Left(id)]
    {
      hide ReplayMerger.Valid;
      hide EndedOnly;
      hide ReplayMerger.Ready;
      hide CallsFit;
      hide OpenTasks;
      hide WaitingOk;
      WhileOneIsOpen(id);
      ghost var tasks := merger.tasks;
      merger.Close(id);
      OthersStay();
      Leave(id, tasks);
    }

    // ---- Readers ----

    method AcceptReader() returns (ok: bool)
      requires Valid()
      modifies readerCount
      ensures Valid() && (ok <==> !shouldStopAccepting)
      ensures readerCount.count == old(readerCount.count) + if ok then 1 else 0
    {
      hide ReplayMerger.Ready;
      hide ReplayMerger.Valid;
      hide CallsFit;
      ok := !shouldStopAccepting;
      if ok {
        readerCount.Inc();
      }
    }

    method ReaderEnds()
      requires Valid() && readerCount.count > 0
      modifies readerCount
      ensures Valid() && readerCount.count == old(readerCount.count) - 1
    {
      hide ReplayMerger.Ready;
      hide ReplayMerger.Valid;
      hide CallsFit;
      readerCount.Dec();
    }

    // ---- The lifetime itself ----

    /** Shutdown or the forced timeout. */
    method Cancel()
      requires Valid()
      modifies this`cancelled
      ensures Valid() && cancelled
    {
      hide ReplayMerger.Ready;
      hide ReplayMerger.Valid;
      hide CallsFit;
      cancelled := true;
    }

    /** The turn of the waiter, on record. */
    method PollWait(wait: EmptyWait, sleepFirst: bool) returns (empty: bool)
      requires WaitingOk() && stage == WaitingForWriters(wait)
      modifies this`timeline, wait
      ensures wait.Valid() && empty == wait.w.done && (empty ==> writerCount.count == 0) && (!empty ==> WaitingOk())
      ensures prompt ==> Quiet() == old(Quiet()) && Calm() == old(Calm())
      ensures prompt && empty ==> Quiet() >= timeWithZeroWriters
      ensures prompt && writerCount.count == 0 && Calm() >= timeWithZeroWriters ==> empty
    {
      if prompt {
        ghost var s := timeline[|timeline| - 1];
        ghost var t := s.(w := Polled(s.w, s.count, s.version, s.now, timeWithZeroWriters, sleepFirst));
        WaitEndsExactly(timeWithZeroWriters, timeline, sleepFirst, t);
        TimelineGoesOn(timeWithZeroWriters, timeline, Poll(sleepFirst), t);
        timeline := timeline + [t];
      }
      empty := wait.Poll(now, sleepFirst);
    }

    /**
     * The wait for writers ends when it is cancelled, or when there have been no writers for as long as
     * configured; it does end when none has come or gone for that long.
     */
    method PollWriters(sleepFirst: bool, cancelledFirst: bool)
      requires Valid() && stage.WaitingForWriters?
      modifies this`stage, this`shouldStopAccepting, this`timeline, stage.wait
      ensures Valid() && BeforeFinalizing()
      ensures cancelled ==> stage.Draining?
      ensures stage.Draining? && !cancelled ==> writerCount.count == 0 && (prompt ==> Quiet() >= timeWithZeroWriters)
      ensures prompt && writerCount.count == 0 && old(Calm()) >= timeWithZeroWriters ==> stage.Draining?
      ensures prompt ==> Quiet() == old(Quiet())
    {
      hide ReplayMerger.Ready;
      hide ReplayMerger.Valid;
      hide CallsFit;
      hide CountersOk;
      var over := cancelled && cancelledFirst;
      if !over {
        var empty := PollWait(stage.wait, sleepFirst);
        over := empty || cancelled;
      }
      if over {
        shouldStopAccepting := true;
        var wait := new EmptyWait(writerCount, 0);
        stage := Draining(wait);
      }
    }

    /**
     * At its first turn after the last writer has left, merging is finalized: this happens at most once,
     * with no writer connected, and C is complete from then on.
     */
    method PollDraining(sleepFirst: bool)
      requires Valid() && stage.Draining?
      modifies this`stage, this`calls, stage.wait, merger`history, merger.mergeStrategy.s.repr
      ensures Valid() && stage == if writerCount.count == 0 then Saving else old(stage)
      ensures calls == old(calls) + if writerCount.count == 0 then [Finalized] else []
      ensures merger.View() == if writerCount.count == 0 then old(merger.View()).(canonFinished := true)
                               else old(merger.View())
    {
      hide ReplayMerger.Ready;
      hide ReplayMerger.Valid;
      hide CallsFit;
      hide OpenTasks;
      ZeroWaitEnds(stage.wait.w, writerCount.count, writerCount.version, now, sleepFirst);
      var empty := stage.wait.Poll(now, sleepFirst);
      if empty {
        FinalizeMerging();
      }
    }

    method FinalizeMerging()
      requires Apart() && CountersOk() && CallsFit(calls, merger.tasks, true) && merger.Ready()
      requires writerCount != readerCount && (writerCount.version == 0 ==> writerCount.count == 0)
      requires shouldStopAccepting && stage.Draining? && writerCount.count == 0
      modifies this`stage, this`calls, merger`history, merger.mergeStrategy.s.repr
      ensures Valid() && stage.Saving? && calls == old(calls) + [Finalized]
      ensures merger.View() == old(merger.View()).(canonFinished := true)
    {
      hide ReplayMerger.Ready;
      hide ReplayMerger.Valid;
      hide CallsFit;
      NobodyIsOpen();
      FinalizeFits(calls, merger.tasks);
      calls := calls + [Finalized];
      stage := Saving;
      merger.Finalize();
      ApartStays();
    }

    twostate lemma ApartStays()
      requires old(Apart()) && merger.Grown() && Waiter() == {}
      ensures Apart()
    {
    }

    lemma NobodyIsOpen()
      requires CountersOk() && writerCount.count == 0
      ensures OpenTasks(merger.tasks) == {}
      ensures forall id :: id in merger.tasks ==> merger.tasks[id].Closed?
    {
      forall id | id in merger.tasks ensures merger.tasks[id].Closed? {
        assert id !in OpenTasks(merger.tasks);
      }
    }

    /** The replay has been saved. */
    method Saved()
      requires Valid() && stage.Saving?
      modifies this`stage
      ensures Valid() && stage.WaitingForReaders?
    {
      hide ReplayMerger.Ready;
      hide ReplayMerger.Valid;
      hide CallsFit;
      var wait := new EmptyWait(readerCount, 0);
      stage := WaitingForReaders(wait);
    }

    /** The replay ends at the first turn after the last reader has left. */
    method PollReaders(sleepFirst: bool)
      requires Valid() && stage.WaitingForReaders?
      modifies this`stage, this`cancelled, stage.wait
      ensures Valid() && stage == if readerCount.count == 0 then Over else old(stage)
      ensures cancelled == (old(cancelled) || readerCount.count == 0)
    {
      hide ReplayMerger.Ready;
      hide ReplayMerger.Valid;
      hide CallsFit;
      ZeroWaitEnds(stage.wait.w, readerCount.count, readerCount.version, now, sleepFirst);
      var empty := stage.wait.Poll(now, sleepFirst);
      if empty {
        stage := Over;
        cancelled := true;
      }
    }
  }
}

/** The merger: what each connection does between two of its awaits, in any interleaving. */
module ReplayMergers {
  import opened Bytes
  import HeaderFormat
  import opened MergedReplays
  import OutputMachine
  import opened QuorumInvariant
  import opened QuorumMachine
  import opened QuorumMatching
  import opened QuorumStrategies
  import opened QuorumTheorems
  import opened QuorumUpdates
  import opened ReplayDelays
  import opened ReplayHeaders
  import opened SharedStates
  import opened WriterReplays

  /** Where a connection stands in `handle_connection`. */
  datatype Phase = AwaitingHeader | Streaming(loop: UpdateLoop) | Closed

  /** What the phase says about the replay. */
  ghost predicate PhaseFits(p: Phase, r: Replay, header: Option<seq<byte>>) {
    match p
    case AwaitingHeader => !r.finished && r.log == [] && r.delayed == 0
    case Streaming(_) => !r.finished && header.Some?
    case Closed => r.finished
  }

  /** No data without a header. */
  ghost predicate HeaderFirst(v: State, header: Option<seq<byte>>) {
    forall id :: id in v.replays && v.replays[id].log != [] ==> header.Some?
  }

  ghost predicate CanTick(v: State, id: nat, n: nat) {
    Open(v, id) && v.replays[id].delayed <= n <= |v.replays[id].log|
  }

  /** `w` is what the machine settles in after the delayed position has been set and reported. */
  ghost predicate Ticked(v: State, id: nat, n: nat, w: State) {
    && CanTick(v, id, n) && WellFormed(Delayed(v, id, n))
    && Settles(UpdateCall(Delayed(v, id, n), id), w) && SameStreams(Delayed(v, id, n), w)
  }

  ghost predicate CanRemove(v: State, id: nat) {
    Open(v, id) && v.replays[id].delayed == |v.replays[id].log|
  }

  /** `w` is what the machine settles in after the replay has been finished and removed. */
  ghost predicate Removed(v: State, id: nat, w: State) {
    && CanRemove(v, id) && WellFormed(Finished(v, id))
    && Settles(EndCall(Finished(v, id), id), w) && SameStreams(Finished(v, id), w)
  }

  /** One delayed position has been set; everything else is, to the connections, as before. */
  ghost predicate MovedOnly(v: State, id: nat, n: nat, w: State) {
    && id in v.replays && w.replays.Keys == v.replays.Keys
    && (forall i :: i in v.replays && i != id ==> SameStream(v.replays[i], w.replays[i]))
    && w.replays[id].log == v.replays[id].log && w.replays[id].delayed == n
    && w.replays[id].finished == v.replays[id].finished
  }

  /** One replay has been finished; all others are, to their connections, as before. */
  ghost predicate EndedOnly(v: State, id: nat, w: State) {
    && id in v.replays && w.replays.Keys == v.replays.Keys
    && (forall i :: i in v.replays && i != id ==> SameStream(v.replays[i], w.replays[i]))
    && w.replays[id].log == v.replays[id].log && w.replays[id].finished
    && w.replays[id].delayed == |w.replays[id].log|
  }

  /** `w` is what the machine settles in after an empty replay has been added. */
  ghost predicate Added(v: State, w: State) {
    Settles(AddCall(v), w) && SameStreams(AddCall(v), w)
  }

  /** Size of the buffer of `read_data`. */
  const READ_SIZE: nat := 4096

  /** The id is fresh and the new replay empty; all others are as before. */
  ghost predicate AddedAs(v: State, id: nat, w: State) {
    && id == v.token && id !in v.replays && w.replays.Keys == v.replays.Keys + {id}
    && (forall i :: i in v.replays ==> SameStream(v.replays[i], w.replays[i]))
    && SameStream(Replay([], 0, 0, false, 0), w.replays[id])
  }

  /** The connection had `input` to deliver: a header, the data in `log`, and what it still has. */
  ghost predicate Fed(input: seq<byte>, log: seq<byte>, rest: seq<byte>) {
    var header := HeaderFormat.FromConnection(input);
    header.Some? && input == header.value + log + rest
  }

  /** What has become of the bytes of a connection. A closed one may not have got through its header. */
  ghost predicate Delivered(p: Phase, input: seq<byte>, log: seq<byte>, rest: seq<byte>, header: Option<seq<byte>>) {
    match p
    case AwaitingHeader => rest == input
    case Streaming(_) => Fed(input, log, rest)
    case Closed =>
      || (header.Some? && Fed(input, log, rest))
      || (log == [] && (rest == input || HeaderFormat.FromConnection(input).None?))
  }

  /** The header a connection has to deliver, if the format accepts one. */
  function HeadOf(input: seq<byte>): (head: seq<byte>)
    ensures head <= input
  {
    var header := HeaderFormat.FromConnection(input);
    if header.Some? then header.value else []
  }

  /** All that follows it. */
  function TailOf(input: seq<byte>): seq<byte> {
    input[|HeadOf(input)|..]
  }

  lemma HeadAndTail(input: seq<byte>)
    ensures HeadOf(input) + TailOf(input) == input
  {
  }

  /** What has been taken off a connection behind its header, if it got so far. */
  function DataTaken(input: seq<byte>, rest: seq<byte>): seq<byte> {
    var (header, end) := (HeaderFormat.FromConnection(input), |input| - |rest|);
    if header.Some? && |header.value| <= end then input[|header.value|..end] else []
  }

  lemma DeliveredIsTaken(p: Phase, input: seq<byte>, log: seq<byte>, rest: seq<byte>, header: Option<seq<byte>>)
    requires Delivered(p, input, log, rest, header) && (p.AwaitingHeader? ==> log == [])
    ensures log == DataTaken(input, rest)
  {
    if Fed(input, log, rest) {
      var h := HeaderFormat.FromConnection(input).value;
      assert input[|h|..|h| + |log|] == log;
    }
  }

  /** C's header is that of a connection. */
  ghost predicate HeaderSent(header: Option<seq<byte>>, inputs: map<nat, seq<byte>>) {
    header.Some? ==> exists id :: id in inputs && HeaderFormat.FromConnection(inputs[id]) == header
  }

  class ReplayMerger {
    const mergeStrategy: QuorumMergeStrategy
    const delay: nat
    const sleep: nat
    var tasks: map<nat, Phase>
    var connections: map<nat, Connection>

    /** The bytes each connection had to deliver when it was accepted. */
    ghost var inputs: map<nat, seq<byte>>
    /** The run of the merge machine that has led here. */
    ghost var history: seq<State>
    /** Which task a connection and the objects of an update loop belong to. */
    ghost var owner: map<object, nat>

    ghost function View(): State
      reads mergeStrategy, mergeStrategy.s
    {
      mergeStrategy.View()
    }

    ghost function Repr(): set<object>
      reads this, mergeStrategy.s
    {
      {this, mergeStrategy, mergeStrategy.s} + mergeStrategy.s.repr + owner.Keys
    }

    /** Only fresh objects have joined. */
    twostate predicate Grown()
      reads this, mergeStrategy.s
    {
      old(Repr()) <= Repr() && fresh(Repr() - old(Repr()))
    }

    ghost function Header(): Option<seq<byte>>
      reads mergeStrategy.s
    {
      mergeStrategy.s.canon.header
    }

    /** The update loop of a streaming connection knows the replay's delayed position. */
    ghost predicate LoopFits(id: nat, loop: UpdateLoop, r: Replay)
      reads this, owner.Keys
    {
      && loop in owner && owner[loop] == id
      && loop.posQueue in owner && owner[loop.posQueue] == id
      && loop.Valid() && loop.prevDelayed == r.delayed && loop.prevCurrent <= |r.log|
      && sleep > 0 && loop.posQueue.historySize == Cycles(delay, sleep) + 1
    }

    ghost predicate SourceFits(id: nat, p: Phase, r: Replay)
      reads this, mergeStrategy.s, owner.Keys
    {
      && id in connections && id in inputs
      && connections[id] in owner && owner[connections[id]] == id
      && Delivered(p, inputs[id], r.log, connections[id].rest, Header())
    }

    ghost predicate TaskOk(id: nat)
      requires id in tasks && id in View().replays
      reads this, mergeStrategy, mergeStrategy.s, owner.Keys
    {
      && PhaseFits(tasks[id], View().replays[id], Header())
      && (tasks[id].Streaming? ==> LoopFits(id, tasks[id].loop, View().replays[id]))
      && SourceFits(id, tasks[id], View().replays[id])
    }

    ghost predicate Recorded()
      reads this`history, mergeStrategy, mergeStrategy.s
    {
      && mergeStrategy.s.targetQuorumSize >= 1
      && QuorumMachine.IsRun(mergeStrategy.s.Cfg(), history) && Last(history) == View()
    }

    /** Connections and update loops are apart from everything the strategy may touch. */
    ghost predicate LoopsApart()
      reads this`owner, mergeStrategy.s
    {
      && this !in mergeStrategy.s.repr && this !in owner && mergeStrategy !in owner
      && owner.Keys !! mergeStrategy.s.repr
    }

    /** Every task, with the possible exception of one, is in order. */
    ghost predicate TasksOk(but: Option<nat>)
      reads this, mergeStrategy, mergeStrategy.s, owner.Keys
    {
      && sleep > 0 && tasks.Keys == View().replays.Keys && inputs.Keys == tasks.Keys
      && HeaderFirst(View(), Header()) && HeaderSent(Header(), inputs)
      && forall id :: id in tasks && Some(id) != but ==> TaskOk(id)
    }

    /** The strategy is in order, and what it has done so far is on record. */
    ghost predicate Sound()
      reads this`history, mergeStrategy, mergeStrategy.s, mergeStrategy.s.repr
    {
      mergeStrategy.Valid() && this !in mergeStrategy.s.repr && Recorded()
    }

    /** Nothing is being merged and C is still open. */
    ghost predicate Steady()
      reads this`history, mergeStrategy, mergeStrategy.s, mergeStrategy.s.repr
    {
      Sound() && !View().canonFinished && !ShouldChange(View())
    }

    ghost predicate Valid()
      reads this, mergeStrategy, mergeStrategy.s, mergeStrategy.s.repr, owner.Keys
    {
      Sound() && LoopsApart() && TasksOk(None)
    }

    ghost predicate Ready()
      reads this, mergeStrategy, mergeStrategy.s, mergeStrategy.s.repr, owner.Keys
    {
      Steady() && LoopsApart() && TasksOk(None)
    }

    constructor (quorumSize: nat, cmpDistance: nat, delay: nat, sleep: nat)
      requires quorumSize >= 1 && sleep > 0
      ensures Ready() && fresh(Repr()) && tasks == map[]
      ensures View() == Init(Config(quorumSize, cmpDistance))
    {
      this.delay, this.sleep := delay, sleep;
      mergeStrategy := new QuorumMergeStrategy(quorumSize, cmpDistance);
      tasks, connections, inputs, owner := map[], map[], map[], map[];
      history := [Init(Config(quorumSize, cmpDistance))];
      new;
      hide QuorumMachine.IsRun;
      hide ShouldChange;
      hide QuorumMergeStrategy.Valid;
      InitIsRun(Config(quorumSize, cmpDistance));
    }

    // ---- Frames ----

    /** A task whose replay and objects are as before is as before. */
    twostate lemma TaskStays(i: nat)
      requires i in old(tasks) && i in tasks && tasks[i] == old(tasks)[i]
      requires i in old(connections) && i in connections && connections[i] == old(connections)[i]
      requires i in old(inputs) && i in inputs && inputs[i] == old(inputs)[i]
      requires i in old(View()).replays && i in View().replays && old(TaskOk(i))
      requires SameStream(old(View()).replays[i], View().replays[i])
      requires old(Header()).Some? ==> Header().Some?
      requires forall o :: o in old(owner) && old(owner)[o] == i ==>
                 unchanged(o) && o in owner && owner[o] == i
      ensures TaskOk(i)
    {
    }

    /** Nothing has happened to the other tasks and their objects. */
    twostate predicate Framed(id: nat)
      reads this, mergeStrategy, mergeStrategy.s, owner.Keys
    {
      && tasks.Keys == old(tasks).Keys && (forall i :: i in tasks && i != id ==> tasks[i] == old(tasks)[i])
      && connections == old(connections) && inputs == old(inputs)
      && (forall i :: i in tasks && i != id ==>
            && i in old(View()).replays && i in View().replays
            && SameStream(old(View()).replays[i], View().replays[i]))
      && (old(Header()).Some? ==> Header().Some?)
      && old(owner.Keys) <= owner.Keys
      && forall o :: o in old(owner) && old(owner)[o] != id ==> unchanged(o) && owner[o] == old(owner)[o]
    }

    twostate lemma OthersStay(id: nat)
      requires old(TasksOk(Some(id))) && Framed(id)
      ensures forall i :: i in tasks && i != id ==> i in View().replays && TaskOk(i)
    {
      hide TaskOk;
      forall i | i in tasks && i != id ensures i in View().replays && TaskOk(i) {
        HasSource(i);
        TaskStays(i);
      }
    }

    /** Only one task has changed, and it is in order again. */
    twostate lemma TasksKept(id: nat)
      requires old(TasksOk(Some(id))) && Framed(id) && tasks.Keys == View().replays.Keys
      requires HeaderFirst(View(), Header()) && Header() == old(Header())
      requires id in tasks && id in View().replays && TaskOk(id)
      ensures TasksOk(None)
    {
      hide TaskOk;
      OthersStay(id);
    }

    twostate lemma OldKeys(but: Option<nat>)
      requires old(TasksOk(but))
      ensures old(tasks).Keys == old(View()).replays.Keys == old(inputs).Keys
      ensures old(HeaderFirst(View(), Header())) && old(HeaderSent(Header(), inputs))
    {
    }

    twostate lemma OldTask(id: nat)
      requires old(TasksOk(None)) && id in old(tasks)
      ensures id in old(View()).replays && old(TaskOk(id)) && old(TasksOk(Some(id)))
    {
    }

    /** Nothing that matters to a task has changed. */
    twostate lemma AllStay()
      requires old(TasksOk(None)) && tasks == old(tasks) && connections == old(connections)
      requires inputs == old(inputs) && owner == old(owner) && forall o :: o in owner ==> unchanged(o)
      requires View().replays == old(View()).replays && Header() == old(Header())
      ensures TasksOk(None)
    {
      hide TaskOk;
      forall i | i in tasks ensures TaskOk(i) {
        HasSource(i);
        TaskStays(i);
      }
    }

    twostate lemma HasSource(i: nat)
      requires i in old(tasks) && i in old(View()).replays && old(TaskOk(i))
      ensures i in old(connections) && i in old(inputs)
    {
    }

    // ---- Telling the strategy ----

    /** What the strategy has done is on record, and it has stayed apart from the objects of the tasks. */
    twostate predicate Told()
      reads this, mergeStrategy, mergeStrategy.s, mergeStrategy.s.repr
    {
      && Steady() && old(mergeStrategy.s.repr) <= mergeStrategy.s.repr
      && fresh(mergeStrategy.s.repr - old(mergeStrategy.s.repr)) && Header() == old(Header())
    }

    /** Writes to a replay, which the strategy does not hear of. */
    method Write(id: nat, bytes: seq<byte>)
      requires Steady() && Open(View(), id) && |View().replays[id].log| + |bytes| <= USIZE_MAX
      modifies this`history, mergeStrategy.s.repr
      ensures Told() && View() == Appended(old(View()), id, bytes)
    {
      hide SharedState.Valid;
      hide QuorumStrategies.Groups;
      hide QuorumMachine.IsRun;
      hide ShouldChange;
      mergeStrategy.s.Shape();
      AppendExtendsRun(View().cfg, history, id, bytes);
      mergeStrategy.s.WriterAddData(id, bytes);
      history := history + [View()];
    }

    /** Sets the delayed position and reports it, with nothing in between. */
    method SetAndReport(id: nat, n: nat)
      requires Steady() && CanTick(View(), id, n)
      modifies this`history, mergeStrategy, mergeStrategy.s.repr
      ensures Told() && Ticked(old(View()), id, n, View())
    {
      hide SharedState.Valid;
      hide QuorumMergeStrategy.ModeValid;
      hide QuorumMachine.IsRun;
      hide ShouldChange;
      hide Settles;
      hide Core;
      hide SameStreams;
      ghost var v := View();
      mergeStrategy.s.Shape();
      TickKeepsCore(v.cfg, history, id, n);
      mergeStrategy.s.WriterSetDelayedDataLen(id, n);
      assert View() == Delayed(v, id, n);
      mergeStrategy.ReplayDataUpdated(id);
      ghost var longer := TickExtendsRun(v.cfg, history, id, n, View());
      history := longer;
    }

    /** Finishes a replay and reports its end, with nothing in between. */
    method FinishAndReport(id: nat)
      requires Steady() && CanRemove(View(), id)
      modifies this`history, mergeStrategy, mergeStrategy.s.repr
      ensures Told() && Removed(old(View()), id, View())
    {
      hide SharedState.Valid;
      hide QuorumMergeStrategy.ModeValid;
      hide QuorumMachine.IsRun;
      hide ShouldChange;
      hide Settles;
      hide Core;
      hide SameStreams;
      ghost var v := View();
      mergeStrategy.s.Shape();
      RemoveKeepsCore(v.cfg, history, id);
      mergeStrategy.s.WriterFinish(id);
      assert View() == Finished(v, id);
      mergeStrategy.ReplayRemoved(id);
      ghost var longer := RemoveExtendsRun(v.cfg, history, id, View());
      history := longer;
    }

    /** Hands the strategy an empty replay. */
    method AddAndReport() returns (id: nat)
      requires Steady()
      modifies this`history, mergeStrategy, mergeStrategy.s.repr
      ensures Told() && Added(old(View()), View()) && AddedAs(old(View()), id, View())
    {
      hide SharedState.Valid;
      hide QuorumMergeStrategy.ModeValid;
      hide QuorumMachine.IsRun;
      hide ShouldChange;
      hide Settles;
      hide Core;
      hide SameStreams;
      ghost var v := View();
      CoreInRun(v.cfg, history);
      var replay := new WriterReplay();
      id := mergeStrategy.ReplayAdded(replay);
      ghost var longer := AddExtendsRun(v.cfg, history, View());
      AddedFacts(v.cfg, history, View());
      history := longer;
    }

    // ---- Connections ----

    /** A connection has been accepted. */
    method Connect(c: Connection) returns (id: nat)
      requires Ready() && c !in Repr()
      modifies this, mergeStrategy, mergeStrategy.s.repr
      ensures Ready() && old(Repr()) <= Repr() && fresh(Repr() - old(Repr()) - {c})
      ensures id !in old(tasks) && tasks == old(tasks)[id := AwaitingHeader]
      ensures connections == old(connections)[id := c] && inputs == old(inputs)[id := old(c.rest)]
      ensures Added(old(View()), View()) && owner == old(owner)[c := id] && Header() == old(Header())
    {
      hide Steady;
      hide Added;
      hide TasksOk;
      hide AddedAs;
      KnownIds();
      id := AddAndReport();
      tasks, connections := tasks[id := AwaitingHeader], connections[id := c];
      inputs, owner := inputs[id := c.rest], owner[c := id];
      Joined(id, c);
    }

    lemma KnownIds()
      requires TasksOk(None)
      ensures tasks.Keys == View().replays.Keys
    {
    }

    twostate lemma Joined(id: nat, new c: Connection)
      requires old(TasksOk(None)) && AddedAs(old(View()), id, View()) && Header() == old(Header())
      requires tasks == old(tasks)[id := AwaitingHeader] && connections == old(connections)[id := c]
      requires inputs == old(inputs)[id := c.rest] && owner == old(owner)[c := id]
      requires c !in old(owner) && forall o :: o in old(owner) ==> unchanged(o)
      ensures TasksOk(None) && id !in old(tasks)
    {
      hide TaskOk;
      hide HeaderSent;
      OldKeys(None);
      FreshTaskOk(id);
      InputJoins(Header(), old(inputs), id, c.rest);
      forall i | i in old(tasks) ensures TaskOk(i) {
        StaysAtJoin(id, c, i);
      }
    }

    twostate lemma StaysAtJoin(id: nat, new c: Connection, new i: nat)
      requires old(TasksOk(None)) && AddedAs(old(View()), id, View()) && Header() == old(Header())
      requires tasks == old(tasks)[id := AwaitingHeader] && connections == old(connections)[id := c]
      requires inputs == old(inputs)[id := c.rest] && owner == old(owner)[c := id]
      requires c !in old(owner) && forall o :: o in old(owner) ==> unchanged(o)
      requires i in old(tasks) && id !in old(tasks)
      ensures i in View().replays && TaskOk(i)
    {
      hide TaskOk;
      hide TasksOk;
      OldTask(i);
      HasSource(i);
      TaskStays(i);
    }

    lemma FreshTaskOk(id: nat)
      requires id in tasks && tasks[id] == AwaitingHeader && id in View().replays
      requires id in connections && connections[id] in owner && owner[connections[id]] == id
      requires id in inputs && inputs[id] == connections[id].rest
      requires SameStream(Replay([], 0, 0, false, 0), View().replays[id])
      ensures TaskOk(id)
    {
    }

    /** Takes the header off the connection and starts to stream, or gives the connection up. */
    method ReadHeader(id: nat)
      requires Ready() && id in tasks && tasks[id].AwaitingHeader? && id in connections
      modifies this`tasks, this`owner, this`history, mergeStrategy, mergeStrategy.s.repr, connections[id]
      ensures Ready() && Grown() && id in old(inputs)
      ensures match HeaderFormat.FromConnection(old(inputs)[id])
              case Some(h) =>
                && id in tasks && tasks[id].Streaming? && tasks == old(tasks)[id := tasks[id]]
                && View() == old(View()) && Header() == (if old(Header()).Some? then old(Header()) else Some(h))
              case None =>
                && tasks == old(tasks)[id := Closed] && EndedOnly(old(View()), id, View())
                && Header() == old(Header())
    {
      hide Steady;
      hide TasksOk;
      hide HeaderFormat.FromConnection;
      hide EndedOnly;
      hide Open;
      AwaitingFacts(id);
      var header := ReadFromConnection(connections[id]);
      Taken(id);
      if header.Some? {
        Start(id, header.value);
      } else {
        EndTask(id);
      }
    }

    /** Taking something off a connection concerns its own task only. */
    twostate lemma Taken(id: nat)
      requires old(TasksOk(None)) && tasks == old(tasks) && connections == old(connections)
      requires inputs == old(inputs) && owner == old(owner)
      requires View() == old(View()) && Header() == old(Header())
      requires forall o :: o in owner && owner[o] != id ==> unchanged(o)
      ensures TasksOk(Some(id))
    {
      hide TaskOk;
      hide Framed;
      OldKeys(None);
      TakenIsFramed(id);
      OthersStay(id);
    }

    twostate lemma TakenIsFramed(id: nat)
      requires tasks == old(tasks) && connections == old(connections)
      requires inputs == old(inputs) && owner == old(owner) && tasks.Keys == old(View()).replays.Keys
      requires View() == old(View()) && Header() == old(Header())
      requires forall o :: o in owner && owner[o] != id ==> unchanged(o)
      ensures Framed(id)
    {
    }

    lemma AwaitingFacts(id: nat)
      requires TasksOk(None) && id in tasks && tasks[id].AwaitingHeader?
      ensures Open(View(), id) && View().replays[id].log == [] && View().replays[id].delayed == 0
      ensures id in connections && id in inputs && inputs[id] == connections[id].rest
      ensures connections[id] in owner && owner[connections[id]] == id
    {
    }

    /** The task has nothing but a connection, of which a header has just been read. */
    ghost predicate HasRead(id: nat, header: seq<byte>)
      reads this, mergeStrategy, mergeStrategy.s, owner.Keys
    {
      && id in tasks && Open(View(), id) && View().replays[id].log == [] && View().replays[id].delayed == 0
      && id in connections && connections[id] in owner && owner[connections[id]] == id && id in inputs
      && HeaderFormat.FromConnection(inputs[id]) == Some(header) && inputs[id] == header + connections[id].rest
    }

    /** The connection starts to stream, with a delay line of its own. */
    method Start(id: nat, header: seq<byte>)
      requires Steady() && LoopsApart() && TasksOk(Some(id)) && HasRead(id, header)
      modifies this`tasks, this`owner, mergeStrategy.s.repr
      ensures Ready() && Grown() && id in tasks && tasks[id].Streaming? && tasks == old(tasks)[id := tasks[id]]
      ensures View() == old(View())
      ensures Header() == if old(Header()).Some? then old(Header()) else Some(header)
    {
      hide QuorumMachine.IsRun;
      hide QuorumMergeStrategy.Valid;
      hide ShouldChange;
      hide TasksOk;
      hide HasRead;
      hide UpdateLoop.Valid;
      StartFacts(id, header);
      GiveHeader(id, header);
      var loop := new UpdateLoop(delay, sleep);
      tasks := tasks[id := Streaming(loop)];
      owner := owner[loop := id][loop.posQueue := id];
      Started(id, loop, header);
    }

    lemma StartFacts(id: nat, header: seq<byte>)
      requires Steady() && TasksOk(Some(id)) && HasRead(id, header)
      ensures id in View().replays && sleep > 0 && (Header().None? ==> View().canon == [])
    {
      CanonNeedsHeader();
    }

    twostate lemma Started(id: nat, new loop: UpdateLoop, new header: seq<byte>)
      requires old(TasksOk(Some(id))) && old(HasRead(id, header)) && View() == old(View())
      requires Header() == if old(Header()).Some? then old(Header()) else Some(header)
      requires tasks == old(tasks)[id := Streaming(loop)] && fresh(loop) && fresh(loop.posQueue)
      requires owner == old(owner)[loop := id][loop.posQueue := id]
      requires connections == old(connections) && inputs == old(inputs)
      requires loop.Valid() && loop.prevDelayed == 0 && loop.prevCurrent == 0
      requires loop.posQueue.historySize == Cycles(delay, sleep) + 1
      requires forall o :: o in old(owner) ==> unchanged(o)
      ensures TasksOk(None)
    {
      hide TaskOk;
      hide HeaderFormat.FromConnection;
      StartedTaskOk(id, loop, header);
      OthersStay(id);
    }

    method GiveHeader(id: nat, header: seq<byte>)
      requires mergeStrategy.Valid() && id in View().replays && !View().canonFinished
      requires Header().None? ==> View().canon == []
      modifies mergeStrategy.s.repr
      ensures mergeStrategy.Valid() && mergeStrategy.s.Kept() && View() == old(View())
      ensures Header() == if old(Header()).Some? then old(Header()) else Some(header)
    {
      hide SharedState.Valid;
      hide QuorumMergeStrategy.ModeValid;
      mergeStrategy.s.Shape();
      mergeStrategy.s.WriterAddHeader(id, header);
      mergeStrategy.ReplayHeaderAdded(id);
    }

    /** Without a header C is empty, as all replays are. */
    lemma CanonNeedsHeader()
      requires Recorded() && HeaderFirst(View(), Header())
      ensures Header().None? ==> View().canon == []
    {
      CoreInRun(mergeStrategy.s.Cfg(), history);
    }

    lemma HeaderComesFirst()
      requires Valid()
      ensures Header().None? ==> View().canon == []
    {
      CanonNeedsHeader();
    }

    twostate lemma StartedTaskOk(id: nat, new loop: UpdateLoop, new header: seq<byte>)
      requires old(TasksOk(Some(id))) && old(HasRead(id, header)) && View() == old(View()) && Header().Some?
      requires id in tasks && tasks[id] == Streaming(loop)
      requires owner == old(owner)[loop := id][loop.posQueue := id] && fresh(loop) && fresh(loop.posQueue)
      requires connections == old(connections) && inputs == old(inputs) && unchanged(connections[id])
      requires loop.Valid() && loop.prevDelayed == 0 && loop.prevCurrent == 0
      requires loop.posQueue.historySize == Cycles(delay, sleep) + 1
      ensures TaskOk(id)
    {
      hide HeaderFormat.FromConnection;
      assert header + [] + connections[id].rest == header + connections[id].rest;
    }

    lemma StreamingFacts(id: nat)
      requires TasksOk(None) && id in tasks && tasks[id].Streaming?
      ensures Open(View(), id) && Header().Some? && LoopFits(id, tasks[id].loop, View().replays[id])
      ensures id in connections && connections[id] in owner && owner[connections[id]] == id
      ensures id in inputs && Fed(inputs[id], View().replays[id].log, connections[id].rest)
    {
    }

    /** One read into a buffer; nothing comes only when the connection is over. */
    method ReadData(id: nat)
      requires Ready() && id in tasks && tasks[id].Streaming? && id in connections
      requires id in View().replays && |View().replays[id].log| + READ_SIZE <= USIZE_MAX
      modifies this`tasks, this`history, mergeStrategy, mergeStrategy.s.repr, connections[id]
      ensures Ready() && Grown() && owner == old(owner) && Header() == old(Header())
      ensures var rest := old(connections[id].rest);
              if rest == [] then
                tasks == old(tasks)[id := Closed] && EndedOnly(old(View()), id, View())
              else
                tasks == old(tasks) &&
                (exists n :: 0 < n <= |rest| && n <= READ_SIZE &&
                   View() == Appended(old(View()), id, rest[..n]) && connections[id].rest == rest[n..])
    {
      hide Sound;
      hide ShouldChange;
      hide TasksOk;
      hide LoopFits;
      hide Fed;
      hide EndedOnly;
      StreamingFacts(id);
      var c := connections[id];
      var n: nat :| n <= READ_SIZE && n <= |c.rest| && (n == 0 ==> c.rest == []);
      var bytes := c.rest[..n];
      if bytes != [] {
        c.rest := c.rest[n..];
        Write(id, bytes);
        StreamGrew(id, n);
      } else {
        Close(id);
      }
    }

    lemma FedOn(input: seq<byte>, log: seq<byte>, rest: seq<byte>, n: nat)
      requires Fed(input, log, rest) && n <= |rest|
      ensures Fed(input, log + rest[..n], rest[n..])
    {
      hide HeaderFormat.FromConnection;
      var header := HeaderFormat.FromConnection(input);
      assert rest[..n] + rest[n..] == rest;
      Regroup(header.value, log, rest[..n], rest[n..]);
    }

    twostate lemma StreamGrew(id: nat, new n: nat)
      requires old(TasksOk(None)) && id in tasks && tasks == old(tasks) && tasks[id].Streaming?
      requires id in old(View()).replays && connections == old(connections) && inputs == old(inputs)
      requires id in connections && n <= |old(connections[id].rest)|
      requires connections[id].rest == old(connections[id].rest)[n..]
      requires View() == Appended(old(View()), id, old(connections[id].rest)[..n])
      requires Header() == old(Header()) && owner == old(owner)
      requires forall o :: o in owner && o != connections[id] ==> unchanged(o)
      ensures TasksOk(None)
    {
      hide TaskOk;
      hide TasksOk;
      hide Framed;
      OldKeys(None);
      OldTask(id);
      OldStream(id);
      GrownTaskOk(id, n);
      GrownIsFramed(id, old(connections[id].rest)[..n]);
      TasksKept(id);
    }

    twostate lemma GrownIsFramed(id: nat, new bytes: seq<byte>)
      requires tasks == old(tasks) && connections == old(connections) && inputs == old(inputs)
      requires tasks.Keys == old(View()).replays.Keys && id in tasks
      requires View() == Appended(old(View()), id, bytes)
      requires Header() == old(Header()) && owner == old(owner)
      requires forall o :: o in owner && owner[o] != id ==> unchanged(o)
      ensures Framed(id)
    {
    }

    twostate lemma OldStream(id: nat)
      requires old(TasksOk(None)) && id in old(tasks) && old(tasks)[id].Streaming?
      ensures old(Header()).Some? && id in old(connections)
      ensures old(connections)[id] in old(owner) && old(owner)[old(connections)[id]] == id
    {
      assert old(TaskOk(id));
    }

    twostate lemma GrownTaskOk(id: nat, new n: nat)
      requires id in old(tasks) && id in old(View()).replays && old(TaskOk(id))
      requires tasks == old(tasks) && tasks[id].Streaming?
      requires connections == old(connections) && inputs == old(inputs)
      requires id in connections && n <= |old(connections[id].rest)|
      requires connections[id].rest == old(connections[id].rest)[n..]
      requires View() == Appended(old(View()), id, old(connections[id].rest)[..n])
      requires Header() == old(Header()) && owner == old(owner)
      requires forall o :: o in owner && o != connections[id] ==> unchanged(o)
      ensures TaskOk(id)
    {
      hide Fed;
      FedOn(inputs[id], old(View()).replays[id].log, old(connections[id].rest), n);
    }

    /** The strategy hears of a cycle when something has changed. */
    method CycleAndReport(id: nat, loop: UpdateLoop) returns (delayed: nat, changed: bool)
      requires Steady() && Open(View(), id) && loop.Valid() && {loop, loop.posQueue} !! mergeStrategy.s.repr
      requires loop.prevDelayed == View().replays[id].delayed && loop.prevCurrent <= |View().replays[id].log|
      modifies this`history, mergeStrategy, mergeStrategy.s.repr, loop, loop.posQueue
      ensures Told() && loop.Valid() && MovedOnly(old(View()), id, delayed, View())
      ensures id in View().replays && View().replays[id].delayed == delayed
      ensures loop.prevDelayed == delayed && loop.prevCurrent == |old(View()).replays[id].log|
      ensures loop.posQueue.pushed == old(loop.posQueue.pushed) + [|old(View()).replays[id].log|]
      ensures changed <==> loop.prevCurrent != old(loop.prevCurrent) || delayed != old(loop.prevDelayed)
      ensures if changed then Ticked(old(View()), id, delayed, View()) else View() == old(View())
    {
      hide Recorded;
      hide QuorumMergeStrategy.ModeValid;
      hide SharedState.Valid;
      hide ShouldChange;
      hide Ticked;
      hide MovedOnly;
      hide UpdateLoop.Valid;
      ghost var v := View();
      mergeStrategy.s.Shape();
      var current := mergeStrategy.s.DataLen(id);
      delayed, changed := loop.Cycle(current);
      if changed {
        SetAndReport(id, delayed);
        TickedFacts(v, id, delayed, View());
      } else {
        NothingMoved(v, id);
      }
      MovedTo(v, id, delayed, View());
    }

    /** One cycle of the update loop of a connection. */
    method DelayCycle(id: nat) returns (changed: bool)
      requires Ready() && id in tasks && tasks[id].Streaming?
      modifies this`history, mergeStrategy, mergeStrategy.s.repr, tasks[id].loop, tasks[id].loop.posQueue
      ensures Ready() && Grown() && tasks == old(tasks) && Header() == old(Header())
      ensures id in old(View()).replays && tasks[id].loop.posQueue.pushed ==
              old(tasks[id].loop.posQueue.pushed) + [|old(View()).replays[id].log|]
      ensures id in View().replays && View().replays[id].delayed ==
              DelayedAt(tasks[id].loop.posQueue.pushed, Cycles(delay, sleep))
      ensures changed <==> View().replays[id].delayed != old(View()).replays[id].delayed ||
                           |old(View()).replays[id].log| != LastPushed(old(tasks[id].loop.posQueue.pushed))
      ensures !changed ==> View() == old(View())
      ensures changed ==> Ticked(old(View()), id, tasks[id].loop.prevDelayed, View())
    {
      hide Steady;
      hide TasksOk;
      hide Ticked;
      hide MovedOnly;
      hide UpdateLoop.Valid;
      StreamingFacts(id);
      tasks[id].loop.KnowsLastPushed();
      ghost var delayed;
      delayed, changed := CycleAndReport(id, tasks[id].loop);
      tasks[id].loop.ShowsDelayed();
      Moved(id, delayed);
    }

    twostate lemma Moved(id: nat, new delayed: nat)
      requires old(TasksOk(None)) && id in tasks && tasks == old(tasks) && tasks[id].Streaming?
      requires connections == old(connections) && inputs == old(inputs)
      requires MovedOnly(old(View()), id, delayed, View())
      requires var (r, loop) := (old(View()).replays[id], tasks[id].loop);
               loop.Valid() && loop.prevDelayed == delayed && loop.prevCurrent == |r.log|
      requires Header() == old(Header()) && owner == old(owner)
      requires forall o :: o in owner && o != tasks[id].loop && o != tasks[id].loop.posQueue ==> unchanged(o)
      ensures TasksOk(None)
    {
      hide TaskOk;
      hide TasksOk;
      hide Framed;
      hide MovedOnly;
      hide UpdateLoop.Valid;
      OldKeys(None);
      OldTask(id);
      MovedKeepsHeaderFirst(old(View()), id, delayed, View(), Header());
      LoopOwned(id);
      LoopMoved(id, delayed);
      MovedIsFramed(id, delayed);
      TasksKept(id);
    }

    twostate lemma MovedIsFramed(id: nat, new delayed: nat)
      requires tasks == old(tasks) && connections == old(connections) && inputs == old(inputs)
      requires tasks.Keys == old(View()).replays.Keys && MovedOnly(old(View()), id, delayed, View())
      requires Header() == old(Header()) && owner == old(owner)
      requires forall o :: o in owner && owner[o] != id ==> unchanged(o)
      ensures Framed(id)
    {
    }

    twostate lemma LoopOwned(id: nat)
      requires old(TasksOk(None)) && id in old(tasks) && old(tasks)[id].Streaming?
      ensures var loop := old(tasks)[id].loop;
              && loop in old(owner) && old(owner)[loop] == id
              && loop.posQueue in old(owner) && old(owner)[loop.posQueue] == id
    {
      assert old(TaskOk(id));
    }

    twostate lemma LoopMoved(id: nat, new delayed: nat)
      requires id in old(tasks) && id in old(View()).replays && old(TaskOk(id))
      requires tasks == old(tasks) && tasks[id].Streaming?
      requires connections == old(connections) && inputs == old(inputs)
      requires MovedOnly(old(View()), id, delayed, View())
      requires var (r, loop) := (old(View()).replays[id], tasks[id].loop);
               loop.Valid() && loop.prevDelayed == delayed && loop.prevCurrent == |r.log|
      requires Header() == old(Header()) && owner == old(owner)
      requires forall o :: o in owner && o != tasks[id].loop && o != tasks[id].loop.posQueue ==> unchanged(o)
      ensures id in View().replays && TaskOk(id)
    {
    }

    /** The final delayed position, its report, the end and its report. */
    method EndReplay(id: nat)
      requires Steady() && Open(View(), id)
      modifies this`history, mergeStrategy, mergeStrategy.s.repr
      ensures Told() && EndedOnly(old(View()), id, View())
    {
      hide Recorded;
      hide QuorumMergeStrategy.ModeValid;
      hide SharedState.Valid;
      hide ShouldChange;
      hide Ticked;
      hide Removed;
      ghost var v := View();
      mergeStrategy.s.Shape();
      var finalLen := mergeStrategy.s.DataLen(id);
      EndIsInReach(id);
      SetAndReport(id, finalLen);
      ghost var u := View();
      TickedFacts(v, id, finalLen, u);
      FinishAndReport(id);
      RemovedFacts(u, id, View());
    }

    lemma EndIsInReach(id: nat)
      requires Steady() && Open(View(), id)
      ensures CanTick(View(), id, |View().replays[id].log|)
    {
      CanReachEnd(mergeStrategy.s.Cfg(), history, id);
    }

    /** The connection is over: the rest of its data is due at once, and the replay is finished and removed. */
    method EndTask(id: nat)
      requires Steady() && LoopsApart() && TasksOk(Some(id)) && id in tasks && Open(View(), id)
      requires SourceFits(id, Closed, View().replays[id])
      modifies this`tasks, this`history, mergeStrategy, mergeStrategy.s.repr
      ensures Ready() && Grown() && tasks == old(tasks)[id := Closed] && Header() == old(Header())
      ensures EndedOnly(old(View()), id, View())
    {
      hide Sound;
      hide ShouldChange;
      hide TasksOk;
      hide SourceFits;
      hide EndedOnly;
      EndReplay(id);
      tasks := tasks[id := Closed];
      Ended(id);
    }

    twostate lemma Ended(id: nat)
      requires old(TasksOk(Some(id))) && id in old(tasks) && tasks == old(tasks)[id := Closed]
      requires old(Open(View(), id)) && old(SourceFits(id, Closed, View().replays[id]))
      requires EndedOnly(old(View()), id, View())
      requires owner == old(owner) && connections == old(connections) && inputs == old(inputs)
      requires Header() == old(Header()) && forall o :: o in owner ==> unchanged(o)
      ensures TasksOk(None)
    {
      hide TaskOk;
      hide TasksOk;
      hide SourceFits;
      hide Framed;
      hide EndedOnly;
      OldKeys(Some(id));
      EndedKeepsHeaderFirst(old(View()), id, View(), Header());
      ClosedTaskOk(id);
      EndedIsFramed(id);
      TasksKept(id);
    }

    twostate lemma EndedIsFramed(id: nat)
      requires id in old(tasks) && tasks == old(tasks)[id := Closed]
      requires old(tasks).Keys == old(View()).replays.Keys && EndedOnly(old(View()), id, View())
      requires owner == old(owner) && connections == old(connections) && inputs == old(inputs)
      requires Header() == old(Header()) && forall o :: o in owner ==> unchanged(o)
      ensures Framed(id)
    {
    }

    twostate lemma ClosedTaskOk(id: nat)
      requires old(Open(View(), id)) && old(SourceFits(id, Closed, View().replays[id]))
      requires id in tasks && tasks[id] == Closed && EndedOnly(old(View()), id, View())
      requires owner == old(owner) && connections == old(connections) && inputs == old(inputs)
      requires Header() == old(Header()) && forall o :: o in owner ==> unchanged(o)
      ensures id in View().replays && TaskOk(id)
    {
    }

    /** The connection ends, is lost or is cancelled. */
    method Close(id: nat)
      requires Ready() && id in tasks && !tasks[id].Closed?
      modifies this`tasks, this`history, mergeStrategy, mergeStrategy.s.repr
      ensures Ready() && Grown() && tasks == old(tasks)[id := Closed] && Header() == old(Header())
      ensures EndedOnly(old(View()), id, View())
    {
      hide Steady;
      hide TasksOk;
      hide EndedOnly;
      OpenTask(id);
      EndTask(id);
    }

    lemma OpenTask(id: nat)
      requires TasksOk(None) && id in tasks && !tasks[id].Closed?
      ensures TasksOk(Some(id)) && Open(View(), id) && SourceFits(id, Closed, View().replays[id])
    {
      assert TaskOk(id);
    }

    /** All connections are over: the strategy is ready to finish, so that nothing is lost or asserted wrongly. */
    method Finalize()
      requires Ready() && forall id :: id in tasks ==> tasks[id].Closed?
      modifies this`history, mergeStrategy.s.repr
      ensures Valid() && Grown() && ReadyToFinish(old(View())) && View() == old(View()).(canonFinished := true)
      ensures tasks == old(tasks) && mergeStrategy.s.canon == OutputMachine.Ended(old(mergeStrategy.s.canon))
    {
      hide QuorumMergeStrategy.ModeValid;
      hide SharedState.Valid;
      hide QuorumMachine.IsRun;
      hide ShouldChange;
      hide TasksOk;
      AllTasksClosed();
      ghost var v := View();
      FinishExtendsRun(v.cfg, history);
      mergeStrategy.s.Shape();
      mergeStrategy.Finish();
      history := history + [View()];
      AllStay();
    }

    lemma AllTasksClosed()
      requires TasksOk(None) && forall id :: id in tasks ==> tasks[id].Closed?
      ensures AllFinished(View())
    {
    }

    // ---- Readers ----

    ghost function HeaderData(): seq<byte>
      reads mergeStrategy.s
    {
      OutputMachine.HeaderBytes(mergeStrategy.s.canon)
    }

    method JoinReader(task: nat) returns (reader: MReplayReader)
      requires Valid() && task !in mergeStrategy.s.readers
      modifies mergeStrategy.s
      ensures Valid() && View() == old(View()) && Header() == old(Header())
      ensures fresh(reader) && reader.replay == mergeStrategy.s.canonicalStream && reader.position == 0
      ensures mergeStrategy.s.readers ==
              old(mergeStrategy.s.readers)[task := OutputMachine.Reader(0, [], false, false)]
    {
      hide QuorumMergeStrategy.ModeValid;
      hide SharedState.Valid;
      hide QuorumMachine.IsRun;
      hide TasksOk;
      mergeStrategy.s.Shape();
      reader := mergeStrategy.s.Join(task);
      AllStay();
    }

    /** A reader reads between any two steps of the connections. */
    method PollReader(reader: MReplayReader, task: nat, capacity: nat) returns (outcome: OutputMachine.Outcome)
      requires Valid() && reader.replay == mergeStrategy.s.canonicalStream
      requires reader !in mergeStrategy.s.repr && reader !in owner
      requires task in mergeStrategy.s.readers && mergeStrategy.s.readers[task].position == reader.position
      requires !mergeStrategy.s.readers[task].ended && capacity > 0
      modifies reader, mergeStrategy.s.repr
      ensures Valid() && View() == old(View()) && Header() == old(Header())
      ensures task in mergeStrategy.s.readers && reader.position == mergeStrategy.s.readers[task].position
      ensures outcome.Ready? ==>
                mergeStrategy.s.readers[task].received ==
                old(mergeStrategy.s.readers[task].received) + outcome.bytes
    {
      hide QuorumMergeStrategy.ModeValid;
      hide SharedState.Valid;
      hide QuorumMachine.IsRun;
      hide TasksOk;
      mergeStrategy.s.Shape();
      outcome := mergeStrategy.s.Poll(reader, task, capacity);
      AllStay();
    }

    /** Once C is finished, copying to a reader comes to its end, with all of C. */
    method CopyToEnd(reader: MReplayReader, task: nat, capacity: nat) returns (sent: seq<byte>)
      requires Valid() && View().canonFinished && reader.replay == mergeStrategy.s.canonicalStream
      requires reader !in mergeStrategy.s.repr && reader !in owner
      requires task in mergeStrategy.s.readers && mergeStrategy.s.readers[task].position == reader.position
      requires !mergeStrategy.s.readers[task].ended && capacity > 0
      modifies reader, mergeStrategy.s.repr
      ensures Valid() && View() == old(View()) && Header() == old(Header())
      ensures task in mergeStrategy.s.readers && mergeStrategy.s.readers[task].ended
      ensures old(mergeStrategy.s.readers[task].received) + sent == mergeStrategy.s.readers[task].received
      ensures mergeStrategy.s.readers[task].received == HeaderData() + View().canon
    {
      hide QuorumMergeStrategy.ModeValid;
      hide SharedState.Valid;
      hide QuorumMachine.IsRun;
      hide TasksOk;
      mergeStrategy.s.Shape();
      sent := mergeStrategy.s.PollToEnd(reader, task, capacity);
      AllStay();
    }

    /** What a reader has received at any moment, and what it has received when it is told of the end. */
    lemma ReceivedIsMerged(task: nat)
      requires Valid() && task in mergeStrategy.s.readers
      ensures var (received, h, v) := (mergeStrategy.s.readers[task].received, HeaderData(), View());
              && v.canonDelayed <= |v.canon| && received <= h + v.canon[..v.canonDelayed]
              && (v.canon != [] ==> Header().Some?)
              && (mergeStrategy.s.readers[task].ended ==> v.canonFinished && received == h + v.canon)
    {
      HeaderComesFirst();
      mergeStrategy.s.EveryoneIsServed();
      var (s, r) := (mergeStrategy.s.canon, mergeStrategy.s.readers[task]);
      assert OutputMachine.HasPrefix(s, r);
    }

    /**
     * From connections to readers: with a quorum of one or two and a comparison distance that covers
     * all but the last byte, a reader that was told of the end has received C's header followed by
     * all the data of one of the writers.
     */
    lemma ReaderGetsOneSentReplay(task: nat)
      requires Valid() && task in mergeStrategy.s.readers && mergeStrategy.s.readers[task].ended
      requires mergeStrategy.s.targetQuorumSize <= 2 && tasks != map[]
      requires Short(View(), mergeStrategy.s.streamCmpDistance + 1)
      ensures exists id :: id in tasks && id in View().replays &&
                mergeStrategy.s.readers[task].received == HeaderData() + View().replays[id].log
    {
      ReceivedIsMerged(task);
      CanonIsOneSentReplay(mergeStrategy.s.Cfg(), history);
    }

    /** When all writers follow one stream, such a reader has received all that any of them sent of it. */
    lemma ReaderGetsLongestReplay(task: nat, stream: seq<byte>)
      requires Valid() && task in mergeStrategy.s.readers && mergeStrategy.s.readers[task].ended
      requires AllFollow(View(), stream)
      ensures forall id :: id in tasks ==>
                id in View().replays && HeaderData() + View().replays[id].log <= mergeStrategy.s.readers[task].received
      ensures mergeStrategy.s.readers[task].received <= HeaderData() + stream
    {
      ReceivedIsMerged(task);
      CommonStreamIsKeptWhole(mergeStrategy.s.Cfg(), history, stream);
      forall id | id in tasks
        ensures HeaderData() + View().replays[id].log <= HeaderData() + View().canon
      {
        OutputMachine.PrefixOfConcat(HeaderData(), View().replays[id].log, View().canon);
      }
      OutputMachine.PrefixOfConcat(HeaderData(), View().canon, stream);
    }

    // ---- From the bytes of connections to those of readers ----

    /** The data taken off a connection so far. */
    ghost function Data(id: nat): seq<byte>
      reads this, connections.Values
    {
      if id in inputs && id in connections then DataTaken(inputs[id], connections[id].rest) else []
    }

    /** What is in a replay is what its connection delivered behind its header. */
    lemma LogIsDelivered(id: nat)
      requires Valid() && id in tasks
      ensures id in View().replays && id in inputs && id in connections
      ensures View().replays[id].log == DataTaken(inputs[id], connections[id].rest) == Data(id)
      ensures View().replays[id].log == [] || Fed(inputs[id], View().replays[id].log, connections[id].rest)
    {
      hide DataTaken;
      assert TaskOk(id);
      DeliveredIsTaken(tasks[id], inputs[id], View().replays[id].log, connections[id].rest, Header());
    }

    lemma LogsAreDelivered()
      requires Valid()
      ensures tasks.Keys == View().replays.Keys == inputs.Keys
      ensures forall id :: id in tasks ==> View().replays[id].log == Data(id)
    {
      hide Sound;
      hide TaskOk;
      hide DataTaken;
      hide Data;
      forall id | id in tasks ensures View().replays[id].log == Data(id) {
        LogIsDelivered(id);
      }
    }

    /** The header of one connection, followed by the data taken off one, maybe another. */
    ghost predicate Composed(received: seq<byte>, i: nat, j: nat)
      reads this, connections.Values
    {
      && i in tasks && j in tasks && i in inputs
      && HeaderFormat.FromConnection(inputs[i]).Some? && received == HeadOf(inputs[i]) + Data(j)
    }

    /** C's header is that of a connection; without one there is no data either. */
    lemma HeaderIsSent() returns (i: nat)
      requires Valid()
      ensures Header().None? ==> HeaderData() + View().canon == []
      ensures Header().Some? ==> i in tasks && i in inputs && HeaderFormat.FromConnection(inputs[i]) == Header()
      ensures Header().Some? ==> HeaderData() == HeadOf(inputs[i])
    {
      hide HeaderFormat.FromConnection;
      HeaderComesFirst();
      i := 0;
      if Header().Some? {
        i :| i in inputs && HeaderFormat.FromConnection(inputs[i]) == Header();
      }
    }

    /**
     * From the bytes of connections to those of readers, in every run: with a quorum of one or two and a
     * comparison distance that covers all but the last byte of data, a reader that was told of the end
     * has received the header of some connection followed by all that was taken as data off some
     * connection, which need not be the same. It is nothing at all if no header came in.
     */
    lemma ReaderGetsHeaderAndData(task: nat)
      requires Valid() && task in mergeStrategy.s.readers && mergeStrategy.s.readers[task].ended
      requires mergeStrategy.s.targetQuorumSize <= 2 && tasks != map[]
      requires forall id :: id in tasks ==> |Data(id)| <= mergeStrategy.s.streamCmpDistance + 1
      ensures Header().None? ==> mergeStrategy.s.readers[task].received == []
      ensures Header().Some? ==> exists i, j :: Composed(mergeStrategy.s.readers[task].received, i, j)
    {
      hide Sound;
      hide TasksOk;
      hide Data;
      LogsAreDelivered();
      ReceivedIsMerged(task);
      ReaderGetsOneSentReplay(task);
      var i := HeaderIsSent();
      var j :| j in tasks && j in View().replays &&
        mergeStrategy.s.readers[task].received == HeaderData() + View().replays[j].log;
      if Header().Some? {
        assert Composed(mergeStrategy.s.readers[task].received, i, j);
      }
    }

    /**
     * For any quorum size and comparison distance: when the data of all connections follows one stream, it
     * has received the header of some connection followed by the longest data that was taken off any.
     */
    lemma ReaderGetsHeaderAndLongest(task: nat, stream: seq<byte>)
      requires Valid() && task in mergeStrategy.s.readers && mergeStrategy.s.readers[task].ended
      requires tasks != map[] && forall id :: id in tasks ==> Data(id) <= stream
      ensures Header().None? ==> mergeStrategy.s.readers[task].received == []
      ensures Header().Some? ==>
                exists i, j :: Composed(mergeStrategy.s.readers[task].received, i, j) &&
                  forall k :: k in tasks ==> Data(k) <= Data(j)
    {
      hide TasksOk;
      hide Data;
      var v := View();
      LogsAreDelivered();
      ReceivedIsMerged(task);
      assert AllFollow(v, stream);
      CommonStreamIsKeptWhole(mergeStrategy.s.Cfg(), history, stream);
      var i := HeaderIsSent();
      var j :| j in v.replays && v.replays[j].log == v.canon;
      if Header().Some? {
        assert Composed(mergeStrategy.s.readers[task].received, i, j);
        assert forall k :: k in tasks ==> Data(k) <= Data(j);
      }
    }

    // ---- Connections that have been read to the end ----

    /** Every connection has been read to the end and had a header, of whatever bytes. */
    ghost predicate AllRead()
      reads this, connections.Values
    {
      forall id :: id in tasks ==>
        && id in connections && connections[id].rest == []
        && id in inputs && HeaderFormat.FromConnection(inputs[id]).Some?
    }

    /** The data of such a connection is all that follows its header, and C has a header. */
    lemma WholeConnection(id: nat)
      requires Valid() && View().canonFinished && AllRead() && id in tasks
      ensures Header().Some? && id in inputs && Data(id) == TailOf(inputs[id])
    {
      hide Sound;
      hide TaskOk;
      hide HeaderFormat.FromConnection;
      ClosedAtTheEnd(id);
      HeaderIsLong(inputs[id]);
    }

    lemma ClosedAtTheEnd(id: nat)
      requires Valid() && View().canonFinished && id in tasks
      ensures id in View().replays && id in inputs && id in connections
      ensures Delivered(Closed, inputs[id], View().replays[id].log, connections[id].rest, Header())
    {
      hide HeaderFormat.FromConnection;
      FinishedRun(mergeStrategy.s.Cfg(), history);
      assert TaskOk(id);
    }

    lemma WholeConnections()
      requires Valid() && View().canonFinished && AllRead() && tasks != map[]
      ensures Header().Some? && tasks.Keys == inputs.Keys
      ensures forall id :: id in tasks ==> Data(id) == TailOf(inputs[id])
    {
      hide Sound;
      hide TasksOk;
      hide Data;
      hide TailOf;
      LogsAreDelivered();
      var id :| id in tasks;
      WholeConnection(id);
      forall i | i in tasks ensures Data(i) == TailOf(inputs[i]) {
        WholeConnection(i);
      }
    }

    /** `received` is the header of one connection followed by all the data of one, maybe another. */
    ghost predicate Joins(received: seq<byte>, i: nat, j: nat)
      reads this
    {
      && i in tasks && j in tasks && i in inputs && j in inputs
      && received == HeadOf(inputs[i]) + TailOf(inputs[j])
    }

    /** Then a reader has received a whole header and the whole data of one of them. */
    lemma ReaderGetsWholeData(task: nat)
      requires Valid() && task in mergeStrategy.s.readers && mergeStrategy.s.readers[task].ended
      requires mergeStrategy.s.targetQuorumSize <= 2 && tasks != map[] && AllRead()
      requires forall id :: id in tasks ==> |TailOf(inputs[id])| <= mergeStrategy.s.streamCmpDistance + 1
      ensures exists i, j :: Joins(mergeStrategy.s.readers[task].received, i, j)
    {
      hide Sound;
      hide TasksOk;
      hide Data;
      hide AllRead;
      hide HeadOf;
      hide TailOf;
      ReceivedIsMerged(task);
      WholeConnections();
      ReaderGetsHeaderAndData(task);
      var i, j :| Composed(mergeStrategy.s.readers[task].received, i, j);
      assert Joins(mergeStrategy.s.readers[task].received, i, j);
    }

    /** And when the data of all follows one stream, the whole data of one that sent the most of it. */
    lemma ReaderGetsLongestData(task: nat, stream: seq<byte>)
      requires Valid() && task in mergeStrategy.s.readers && mergeStrategy.s.readers[task].ended
      requires tasks != map[] && AllRead() && forall id :: id in tasks ==> TailOf(inputs[id]) <= stream
      ensures exists i, j :: Joins(mergeStrategy.s.readers[task].received, i, j) &&
                forall k :: k in tasks ==> k in inputs && TailOf(inputs[k]) <= TailOf(inputs[j])
    {
      hide Sound;
      hide TasksOk;
      hide Data;
      hide AllRead;
      hide HeadOf;
      hide TailOf;
      ReceivedIsMerged(task);
      WholeConnections();
      ReaderGetsHeaderAndLongest(task, stream);
      var i, j :| Composed(mergeStrategy.s.readers[task].received, i, j) &&
        forall k :: k in tasks ==> Data(k) <= Data(j);
      assert Joins(mergeStrategy.s.readers[task].received, i, j);
      assert forall k :: k in tasks ==> TailOf(inputs[k]) <= TailOf(inputs[j]);
    }

    // ---- One header ----

    /** Moreover, all had the same header, as when there is only one connection. */
    ghost predicate AllReadWith(header: seq<byte>)
      reads this, connections.Values
    {
      AllRead() && forall id :: id in tasks ==> id in inputs && HeadOf(inputs[id]) == header
    }

    /** In that case a reader has received, byte for byte, what one of the connections sent. */
    lemma ReaderGetsOneConnection(task: nat, header: seq<byte>)
      requires Valid() && task in mergeStrategy.s.readers && mergeStrategy.s.readers[task].ended
      requires mergeStrategy.s.targetQuorumSize <= 2 && tasks != map[] && AllReadWith(header)
      requires forall id :: id in tasks ==> |inputs[id]| <= |header| + mergeStrategy.s.streamCmpDistance + 1
      ensures exists id :: id in tasks && id in inputs && mergeStrategy.s.readers[task].received == inputs[id]
    {
      hide Valid;
      hide HeadOf;
      forall id | id in tasks
        ensures |TailOf(inputs[id])| <= mergeStrategy.s.streamCmpDistance + 1
      {
        HeadAndTail(inputs[id]);
      }
      ReaderGetsWholeData(task);
      var i, j :| Joins(mergeStrategy.s.readers[task].received, i, j);
      HeadAndTail(inputs[j]);
    }

    /** When what they sent is cut off from one stream, it is the longest of that, for any configuration. */
    lemma ReaderGetsLongestConnection(task: nat, header: seq<byte>, stream: seq<byte>)
      requires Valid() && task in mergeStrategy.s.readers && mergeStrategy.s.readers[task].ended
      requires tasks != map[] && AllReadWith(header)
      requires forall id :: id in tasks ==> inputs[id] <= header + stream
      ensures forall id :: id in tasks ==> id in inputs && inputs[id] <= mergeStrategy.s.readers[task].received
      ensures exists id :: id in tasks && id in inputs && mergeStrategy.s.readers[task].received == inputs[id]
    {
      hide Valid;
      hide HeadOf;
      hide TailOf;
      forall id | id in tasks ensures TailOf(inputs[id]) <= stream {
        HeadAndTail(inputs[id]);
        TailFollows(header, TailOf(inputs[id]), stream);
      }
      ReaderGetsLongestData(task, stream);
      var i, j :| Joins(mergeStrategy.s.readers[task].received, i, j) &&
        forall k :: k in tasks ==> k in inputs && TailOf(inputs[k]) <= TailOf(inputs[j]);
      HeadAndTail(inputs[j]);
      forall id | id in tasks ensures inputs[id] <= inputs[j] {
        HeadAndTail(inputs[id]);
        OutputMachine.PrefixOfConcat(header, TailOf(inputs[id]), TailOf(inputs[j]));
      }
    }

    method GetMergedReplay() returns (m: MergedReplay)
      ensures m == mergeStrategy.s.canonicalStream
    {
      m := mergeStrategy.GetMergedReplay();
    }
  }

  lemma Regroup(a: seq<byte>, b: seq<byte>, c: seq<byte>, d: seq<byte>)
    ensures a + (b + c) + d == a + b + (c + d)
  {
  }

  lemma HeaderIsLong(input: seq<byte>)
    requires HeaderFormat.FromConnection(input).Some?
    ensures input != []
  {
  }

  lemma TailFollows(header: seq<byte>, log: seq<byte>, stream: seq<byte>)
    requires header + log <= header + stream
    ensures log <= stream
  {
    assert log == (header + log)[|header|..] && stream == (header + stream)[|header|..];
  }

  lemma InitIsRun(cfg: Config)
    ensures IsRun(cfg, [Init(cfg)]) && !ShouldChange(Init(cfg))
  {
  }

  lemma InputJoins(header: Option<seq<byte>>, inputs: map<nat, seq<byte>>, id: nat, input: seq<byte>)
    requires HeaderSent(header, inputs) && id !in inputs
    ensures HeaderSent(header, inputs[id := input])
  {
    if header.Some? {
      var i :| i in inputs && HeaderFormat.FromConnection(inputs[i]) == header;
      assert inputs[id := input][i] == inputs[i];
    }
  }

  lemma AppendExtendsRun(cfg: Config, run: seq<State>, id: nat, buf: seq<byte>)
    requires cfg.quorumSize >= 1 && IsRun(cfg, run) && Open(Last(run), id)
    requires !ShouldChange(Last(run)) && !Last(run).canonFinished
    requires |Last(run).replays[id].log| + |buf| <= USIZE_MAX
    ensures var u := Appended(Last(run), id, buf); IsRun(cfg, run + [u]) && !ShouldChange(u)
  {
    hide Inv;
    hide ShouldChange;
    var v := Last(run);
    var u := Appended(v, id, buf);
    RunInvariant(cfg, run);
    AppendKeepsStable(v, id, buf);
    assert Takes(v, QuorumMachine.Append(id, buf), u);
    assert Step(v, u);
    RunSnoc(cfg, run, u);
  }

  lemma AppendKeepsStable(v: State, id: nat, buf: seq<byte>)
    requires Inv(v) && Open(v, id) && |v.replays[id].log| + |buf| <= USIZE_MAX
    ensures WellFormed(v) && ShouldChange(Appended(v, id, buf)) == ShouldChange(v)
  {
    EvolveKeepsCore(v, Appended(v, id, buf), id);
  }

  lemma TickKeepsCore(cfg: Config, run: seq<State>, id: nat, n: nat)
    requires cfg.quorumSize >= 1 && IsRun(cfg, run) && CanTick(Last(run), id, n)
    ensures Core(Delayed(Last(run), id, n)) && WellFormed(Delayed(Last(run), id, n))
  {
    RunInvariant(cfg, run);
    EvolveKeepsCore(Last(run), Delayed(Last(run), id, n), id);
  }

  lemma TickExtendsRun(cfg: Config, run: seq<State>, id: nat, n: nat, w: State) returns (longer: seq<State>)
    requires cfg.quorumSize >= 1 && IsRun(cfg, run) && CanTick(Last(run), id, n)
    requires !ShouldChange(Last(run)) && !Last(run).canonFinished
    requires WellFormed(Delayed(Last(run), id, n)) && Settles(UpdateCall(Delayed(Last(run), id, n), id), w)
    ensures IsRun(cfg, longer) && run <= longer && Last(longer) == w && !ShouldChange(w) && !w.canonFinished
    ensures Ticked(Last(run), id, n, w)
  {
    hide ShouldChange;
    var (v, u) := (Last(run), UpdateCall(Delayed(Last(run), id, n), id));
    KnownInRun(cfg, run);
    assert !u.canonFinished;
    assert Takes(v, QuorumMachine.Tick(id, n), u);
    longer := CallbackExtendsRun(cfg, run, QuorumMachine.Tick(id, n), u, w);
    SettlingKeepsStreams(u, w);
  }

  lemma KnownInRun(cfg: Config, run: seq<State>)
    requires cfg.quorumSize >= 1 && IsRun(cfg, run)
    ensures WellFormed(Last(run)) && Last(run).cfg == cfg
  {
    RunInvariant(cfg, run);
  }

  lemma CoreInRun(cfg: Config, run: seq<State>)
    requires cfg.quorumSize >= 1 && IsRun(cfg, run)
    ensures Core(Last(run)) && Last(run).cfg == cfg
  {
    RunInvariant(cfg, run);
  }

  lemma RemoveKeepsCore(cfg: Config, run: seq<State>, id: nat)
    requires cfg.quorumSize >= 1 && IsRun(cfg, run) && CanRemove(Last(run), id)
    ensures Core(Finished(Last(run), id)) && WellFormed(Finished(Last(run), id))
  {
    RunInvariant(cfg, run);
    EvolveKeepsCore(Last(run), Finished(Last(run), id), id);
  }

  lemma RemoveExtendsRun(cfg: Config, run: seq<State>, id: nat, w: State) returns (longer: seq<State>)
    requires cfg.quorumSize >= 1 && IsRun(cfg, run) && CanRemove(Last(run), id)
    requires !ShouldChange(Last(run)) && !Last(run).canonFinished
    requires WellFormed(Finished(Last(run), id)) && Settles(EndCall(Finished(Last(run), id), id), w)
    ensures IsRun(cfg, longer) && run <= longer && Last(longer) == w && !ShouldChange(w) && !w.canonFinished
    ensures Removed(Last(run), id, w)
  {
    hide ShouldChange;
    var (v, u) := (Last(run), EndCall(Finished(Last(run), id), id));
    KnownInRun(cfg, run);
    assert !u.canonFinished;
    assert Takes(v, QuorumMachine.Remove(id), u);
    longer := CallbackExtendsRun(cfg, run, QuorumMachine.Remove(id), u, w);
    SettlingKeepsStreams(u, w);
  }

  lemma AddExtendsRun(cfg: Config, run: seq<State>, w: State) returns (longer: seq<State>)
    requires cfg.quorumSize >= 1 && IsRun(cfg, run)
    requires !ShouldChange(Last(run)) && !Last(run).canonFinished && Settles(AddCall(Last(run)), w)
    ensures IsRun(cfg, longer) && run <= longer && Last(longer) == w && !ShouldChange(w) && !w.canonFinished
    ensures Added(Last(run), w)
  {
    hide ShouldChange;
    var (v, u) := (Last(run), AddCall(Last(run)));
    KnownInRun(cfg, run);
    assert Takes(v, QuorumMachine.Add, u);
    longer := CallbackExtendsRun(cfg, run, QuorumMachine.Add, u, w);
    SettlingKeepsStreams(u, w);
  }

  lemma AddedFacts(cfg: Config, run: seq<State>, w: State)
    requires cfg.quorumSize >= 1 && IsRun(cfg, run) && Added(Last(run), w)
    ensures AddedAs(Last(run), Last(run).token, w)
  {
    RunInvariant(cfg, run);
    var (v, u) := (Last(run), AddCall(Last(run)));
    assert forall id :: id in v.replays ==> id in u.replays && u.replays[id] == v.replays[id];
  }

  lemma CanReachEnd(cfg: Config, run: seq<State>, id: nat)
    requires cfg.quorumSize >= 1 && IsRun(cfg, run) && Open(Last(run), id)
    ensures CanTick(Last(run), id, |Last(run).replays[id].log|)
  {
    RunInvariant(cfg, run);
  }

  lemma TickedFacts(v: State, id: nat, n: nat, w: State)
    requires Ticked(v, id, n, w)
    ensures w.replays.Keys == v.replays.Keys && MovedOnly(v, id, n, w)
    ensures id in w.replays && w.replays[id].log == v.replays[id].log && !w.replays[id].finished
  {
    var u := Delayed(v, id, n);
    assert forall i :: i in v.replays && i != id ==> i in u.replays && u.replays[i] == v.replays[i];
    assert id in u.replays;
  }

  lemma NothingMoved(v: State, id: nat)
    requires id in v.replays
    ensures MovedOnly(v, id, v.replays[id].delayed, v)
  {
  }

  lemma MovedTo(v: State, id: nat, n: nat, w: State)
    requires MovedOnly(v, id, n, w)
    ensures id in w.replays && w.replays[id].delayed == n
  {
  }

  lemma MovedKeepsHeaderFirst(v: State, id: nat, n: nat, w: State, header: Option<seq<byte>>)
    requires MovedOnly(v, id, n, w) && HeaderFirst(v, header)
    ensures HeaderFirst(w, header) && w.replays.Keys == v.replays.Keys
  {
  }

  lemma EndedKeepsHeaderFirst(v: State, id: nat, w: State, header: Option<seq<byte>>)
    requires EndedOnly(v, id, w) && HeaderFirst(v, header)
    ensures HeaderFirst(w, header) && w.replays.Keys == v.replays.Keys
  {
  }

  lemma RemovedFacts(v: State, id: nat, w: State)
    requires Removed(v, id, w)
    ensures w.replays.Keys == v.replays.Keys
    ensures forall i :: i in v.replays && i != id ==> SameStream(v.replays[i], w.replays[i])
    ensures w.replays[id].log == v.replays[id].log && w.replays[id].finished
    ensures w.replays[id].delayed == |w.replays[id].log|
  {
    var u := Finished(v, id);
    assert forall i :: i in v.replays && i != id ==> i in u.replays && u.replays[i] == v.replays[i];
    assert id in u.replays;
  }

  lemma FinishExtendsRun(cfg: Config, run: seq<State>)
    requires cfg.quorumSize >= 1 && IsRun(cfg, run) && AllFinished(Last(run))
    requires !ShouldChange(Last(run)) && !Last(run).canonFinished
    ensures ReadyToFinish(Last(run)) && IsRun(cfg, run + [Last(run).(canonFinished := true)])
  {
    hide ShouldChange;
    var (v, w) := (Last(run), Last(run).(canonFinished := true));
    FinishIsSafe(cfg, run);
    KnownInRun(cfg, run);
    assert Takes(v, QuorumMachine.Finish, w);
    assert Step(v, w);
    RunSnoc(cfg, run, w);
  }
}

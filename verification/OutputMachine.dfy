/** The merged replay and its readers as a machine on values: who has received what, who sleeps. */
module OutputMachine {
  import opened Bytes
  import opened BufDeques

  /** `waiting` are the tasks parked in the read event, `woken` those it has woken that did not run yet. */
  datatype Stream = Stream(
    header: Option<seq<byte>>, data: seq<byte>, delayed: nat, finished: bool,
    waiting: seq<nat>, woken: set<nat>)

  function HeaderBytes(s: Stream): seq<byte> {
    if s.header.Some? then s.header.value else []
  }

  /** What readers may see by now. */
  function Visible(s: Stream): seq<byte>
    requires s.delayed <= |s.data|
  {
    HeaderBytes(s) + s.data[..s.delayed]
  }

  function Whole(s: Stream): seq<byte> {
    HeaderBytes(s) + s.data
  }

  function Tasks(waiting: seq<nat>): set<nat> {
    set i | 0 <= i < |waiting| :: waiting[i]
  }

  function Notified(s: Stream): Stream {
    s.(waiting := [], woken := s.woken + Tasks(s.waiting))
  }

  function WithHeader(s: Stream, h: seq<byte>): Stream {
    Notified(s.(header := Some(h)))
  }

  function WithData(s: Stream, bytes: seq<byte>): Stream {
    s.(data := s.data + bytes)
  }

  function WithDelayed(s: Stream, n: nat): Stream {
    Notified(s.(delayed := n))
  }

  function Ended(s: Stream): Stream {
    Notified(s.(finished := true))
  }

  /** Where one read that starts before the visible end stops: at the end of the header, of a chunk, of
      the visible data or of the buffer. */
  function ReadEnd(s: Stream, position: nat, capacity: nat): (end: nat)
    requires s.delayed <= |s.data| && position < |Visible(s)|
    ensures position <= end <= |Visible(s)| && end <= position + capacity
    ensures capacity > 0 ==> position < end
  {
    var h := |HeaderBytes(s)|;
    if position < h then Min(h, position + capacity)
    else
      var p := position - h;
      position + Min(Min(|ChunkAt(s.data, p)|, s.delayed - p), capacity)
  }

  /** Outcome of one poll; no bytes mean the end of the stream. */
  datatype Outcome = Pending | Ready(bytes: seq<byte>)

  function PollOutcome(s: Stream, position: nat, capacity: nat): Outcome
    requires s.delayed <= |s.data|
  {
    if |Visible(s)| <= position then (if s.finished then Ready([]) else Pending)
    else Ready(Visible(s)[position..ReadEnd(s, position, capacity)])
  }

  function PollStream(s: Stream, position: nat, task: nat): Stream
    requires s.delayed <= |s.data|
  {
    if |Visible(s)| <= position && !s.finished then s.(waiting := s.waiting + [task]) else s
  }

  /** A poll before the end of the header delivers as much of the rest of it as the buffer takes. */
  lemma PollOfHeader(s: Stream, position: nat, capacity: nat)
    requires s.delayed <= |s.data| && s.header.Some? && position < |s.header.value|
    ensures var header := s.header.value;
            PollOutcome(s, position, capacity) ==
            Ready(header[position..position + Min(capacity, |header| - position)])
  {
    var (h, end) := (s.header.value, ReadEnd(s, position, capacity));
    assert Visible(s)[position..end] == h[position..end];
  }

  /**
   * Behind the header a poll delivers as much as the buffer takes of the data up to the next multiple of
   * 4096 or the delayed position; from there on the end of the stream, if C is finished, or nothing yet.
   */
  lemma PollOfData(s: Stream, p: nat, capacity: nat)
    requires s.delayed <= |s.data|
    ensures var position := p + if s.header.Some? then |s.header.value| else 0;
            PollOutcome(s, position, capacity) ==
            if p < s.delayed then Ready(s.data[p..p + Min(capacity, Min(s.delayed - p, 4096 - p % 4096))])
            else if s.finished then Ready([]) else Pending
  {
    hide ChunkAt;
    hide PollOutcome;
    if p < s.delayed {
      ChunkReaches(s.data, p);
      PollOfChunk(s, p, capacity);
    } else {
      PollPastData(s, p, capacity);
    }
  }

  lemma PollPastData(s: Stream, p: nat, capacity: nat)
    requires s.delayed <= |s.data| && s.delayed <= p
    ensures PollOutcome(s, p + |HeaderBytes(s)|, capacity) == if s.finished then Ready([]) else Pending
  {
  }

  lemma PollOfChunk(s: Stream, p: nat, capacity: nat)
    requires p < s.delayed <= |s.data|
    ensures var n := Min(Min(|ChunkAt(s.data, p)|, s.delayed - p), capacity);
            PollOutcome(s, p + |HeaderBytes(s)|, capacity) == Ready(s.data[p..p + n])
  {
    hide ChunkAt;
    var (h, n) := (|HeaderBytes(s)|, Min(Min(|ChunkAt(s.data, p)|, s.delayed - p), capacity));
    assert Visible(s)[h + p..h + p + n] == s.data[p..p + n];
  }

  lemma ChunkReaches(data: seq<byte>, p: nat)
    requires p < |data|
    ensures |ChunkAt(data, p)| == Min(|data| - p, 4096 - p % 4096)
  {
  }

  /** Who has been woken does not matter to what is read. */
  lemma SameOutcome(s: Stream, task: nat, position: nat, capacity: nat)
    requires s.delayed <= |s.data|
    ensures PollOutcome(s.(woken := s.woken - {task}), position, capacity) == PollOutcome(s, position, capacity)
  {
    hide ChunkAt;
    assert Visible(s.(woken := s.woken - {task})) == Visible(s);
  }

  // ---- Runs with readers ----

  datatype Reader = Reader(position: nat, received: seq<byte>, parked: bool, ended: bool)

  datatype Output = Output(stream: Stream, readers: map<nat, Reader>)

  datatype Action =
    | SetHeader(header: seq<byte>)
    | AddData(bytes: seq<byte>)
    | Advance(delayed: nat)
    | Finish
    | Join(task: nat)
    | Leave(task: nat)
    | Poll(task: nat, capacity: nat)

  const Start: Output := Output(Stream(None, [], 0, false, [], {}), map[])

  function Polled(o: Output, task: nat, capacity: nat): Output
    requires o.stream.delayed <= |o.stream.data| && task in o.readers
  {
    var s := o.stream.(woken := o.stream.woken - {task});
    var r := o.readers[task];
    var s' := PollStream(s, r.position, task);
    match PollOutcome(s, r.position, capacity)
    case Pending => Output(s', o.readers[task := r.(parked := true)])
    case Ready(bytes) =>
      Output(s', o.readers[task := Reader(r.position + |bytes|, r.received + bytes, false, bytes == [])])
  }

  /** What the strategy may do to the stream, and readers that come, go and read at any time. */
  ghost predicate Takes(o: Output, a: Action, p: Output) {
    var s := o.stream;
    match a
    case SetHeader(h) =>
      !s.finished && s.header.None? && s.data == [] && p == o.(stream := WithHeader(s, h))
    case AddData(bytes) =>
      !s.finished && p == o.(stream := WithData(s, bytes))
    case Advance(n) =>
      !s.finished && s.delayed <= n <= |s.data| && p == o.(stream := WithDelayed(s, n))
    case Finish =>
      !s.finished && s.delayed == |s.data| && p == o.(stream := Ended(s))
    case Join(task) =>
      task !in o.readers && p == o.(readers := o.readers[task := Reader(0, [], false, false)])
    case Leave(task) =>
      task in o.readers && p == o.(readers := o.readers - {task})
    case Poll(task, capacity) =>
      && capacity > 0 && task in o.readers && !o.readers[task].ended
      && s.delayed <= |s.data| && p == Polled(o, task, capacity)
  }

  ghost predicate Step(o: Output, p: Output) {
    exists a :: Takes(o, a, p)
  }

  ghost predicate IsRun(run: seq<Output>) {
    && run != [] && run[0] == Start
    && forall i :: 0 < i < |run| ==> Step(run[i - 1], run[i])
  }

  lemma RunSnoc(run: seq<Output>, a: Action, p: Output)
    requires IsRun(run) && Takes(run[|run| - 1], a, p)
    ensures IsRun(run + [p])
  {
    hide Takes;
    var longer := run + [p];
    forall i | 0 < i < |longer| ensures Step(longer[i - 1], longer[i]) {
      if i < |run| {
        assert Step(run[i - 1], run[i]);
      }
    }
  }

  lemma RunPrefix(run: seq<Output>, n: nat)
    requires IsRun(run) && 0 < n <= |run|
    ensures IsRun(run[..n])
  {
  }

  /**
   * Everyone who waits is woken, and nobody waits any longer, when a header comes in, the delayed position
   * is set or C is finished; new data, readers that come or go and polls wake nobody.
   */
  lemma WakesExactly(o: Output, a: Action, p: Output, task: nat)
    requires Takes(o, a, p)
    ensures a.SetHeader? || a.Advance? || a.Finish? ==>
              && p.stream.waiting == []
              && (task in p.stream.woken <==> task in o.stream.woken || task in o.stream.waiting)
    ensures a.AddData? || a.Join? || a.Leave? ==>
              p.stream.waiting == o.stream.waiting && p.stream.woken == o.stream.woken
    ensures a.Poll? ==> p.stream.woken == o.stream.woken - {a.task}
  {
  }

  // ---- What every run keeps ----

  ghost predicate StreamOk(s: Stream) {
    && s.delayed <= |s.data|
    && (s.finished ==> s.delayed == |s.data|)
  }

  /** A reader holds a prefix of what is visible, and has seen the end only with everything in hand. */
  ghost predicate HasPrefix(s: Stream, r: Reader)
    requires StreamOk(s)
  {
    && r.position == |r.received| && r.received <= Visible(s)
    && (r.ended ==> s.finished && r.received == Whole(s))
  }

  /** A parked reader that nothing has woken is registered and really has nothing to do. */
  ghost predicate SleepsRightly(s: Stream, task: nat, r: Reader)
    requires StreamOk(s)
  {
    r.parked && task !in s.woken ==>
      task in s.waiting && |Visible(s)| <= r.position && !s.finished
  }

  ghost predicate OutputOk(o: Output) {
    && StreamOk(o.stream)
    && forall task :: task in o.readers ==>
         HasPrefix(o.stream, o.readers[task]) && SleepsRightly(o.stream, task, o.readers[task])
  }

  lemma PrefixOfConcat(h: seq<byte>, a: seq<byte>, b: seq<byte>)
    requires a <= b
    ensures h + a <= h + b
  {
  }

  /** Whatever becomes of the stream, what was visible stays in place. */
  lemma VisibleGrows(o: Output, a: Action, p: Output)
    requires StreamOk(o.stream) && Takes(o, a, p)
    ensures StreamOk(p.stream) && Visible(o.stream) <= Visible(p.stream)
    ensures o.stream.finished ==> p.stream.finished && Whole(p.stream) == Whole(o.stream)
  {
    var (s, t) := (o.stream, p.stream);
    if a.SetHeader? {
      assert Visible(s) == [];
    } else {
      assert s.data[..s.delayed] <= t.data[..t.delayed];
      PrefixOfConcat(HeaderBytes(s), s.data[..s.delayed], t.data[..t.delayed]);
    }
  }

  /** Steps that shut a reader out of nothing: those that show more or finish also wake everyone. */
  lemma StreamStepKeeps(o: Output, a: Action, p: Output, task: nat)
    requires OutputOk(o) && Takes(o, a, p) && !a.Join? && !a.Leave? && !a.Poll? && task in o.readers
    ensures StreamOk(p.stream)
    ensures HasPrefix(p.stream, o.readers[task]) && SleepsRightly(p.stream, task, o.readers[task])
  {
    VisibleGrows(o, a, p);
    var (s, t, r) := (o.stream, p.stream, o.readers[task]);
    assert HasPrefix(s, r) && SleepsRightly(s, task, r);
    if a.AddData? {
      assert Visible(t) == Visible(s);
    } else {
      assert task in s.waiting ==> task in t.woken;
    }
  }

  lemma PollKeepsPrefix(s: Stream, t: Stream, r: Reader, capacity: nat, parked: bool)
    requires StreamOk(s) && HasPrefix(s, r) && !r.ended && capacity > 0
    requires t.header == s.header && t.data == s.data && t.delayed == s.delayed && t.finished == s.finished
    ensures match PollOutcome(s, r.position, capacity)
            case Pending => HasPrefix(t, r.(parked := parked))
            case Ready(bytes) =>
              HasPrefix(t, Reader(r.position + |bytes|, r.received + bytes, parked, bytes == []))
  {
    assert Visible(t) == Visible(s) && Whole(t) == Whole(s);
    if |Visible(s)| <= r.position {
      assert r.received == Visible(s);
      assert s.delayed == |s.data| ==> Visible(s) == Whole(s);
      assert r.received + [] == r.received;
    } else {
      var end := ReadEnd(s, r.position, capacity);
      assert Visible(s)[..r.position] + Visible(s)[r.position..end] == Visible(s)[..end];
    }
  }

  /** Once the stream is finished, a poll delivers something, or everything has been delivered. */
  lemma PollOfFinished(o: Output, task: nat, capacity: nat)
    requires OutputOk(o) && o.stream.finished && task in o.readers && !o.readers[task].ended && capacity > 0
    ensures var (p, r) := (Polled(o, task, capacity), o.readers[task]);
            var outcome := PollOutcome(o.stream, r.position, capacity);
            && outcome.Ready? && p.stream == o.stream.(woken := p.stream.woken)
            && p.readers == o.readers[task := Reader(r.position + |outcome.bytes|, r.received + outcome.bytes,
                                                     false, outcome.bytes == [])]
            && r.position + |outcome.bytes| <= |Whole(o.stream)|
            && (outcome.bytes == [] ==> r.received == Whole(o.stream))
  {
    assert HasPrefix(o.stream, o.readers[task]);
    assert Visible(o.stream) == Whole(o.stream);
  }

  /** Parking one task leaves every other one registered or woken as before. */
  lemma ParkKeepsSleepers(s: Stream, t: Stream, task: nat, i: nat, r: Reader)
    requires StreamOk(s) && StreamOk(t) && SleepsRightly(s, i, r) && i != task
    requires t.header == s.header && t.data == s.data && t.delayed == s.delayed && t.finished == s.finished
    requires t.woken == s.woken - {task} && s.waiting <= t.waiting
    ensures SleepsRightly(t, i, r)
  {
  }

  lemma PollKeeps(o: Output, task: nat, capacity: nat)
    requires OutputOk(o) && task in o.readers && capacity > 0 && !o.readers[task].ended
    ensures OutputOk(Polled(o, task, capacity))
  {
    var p := Polled(o, task, capacity);
    var (s, t) := (o.stream, p.stream);
    var polled := s.(woken := s.woken - {task});
    PollKeepsPrefix(polled, t, o.readers[task], capacity, p.readers[task].parked);
    assert SleepsRightly(t, task, p.readers[task]) by {
      if t.waiting != s.waiting { assert t.waiting[|s.waiting|] == task; }
    }
    forall i | i in p.readers && i != task
      ensures HasPrefix(t, p.readers[i]) && SleepsRightly(t, i, p.readers[i])
    {
      assert HasPrefix(s, o.readers[i]) && SleepsRightly(s, i, o.readers[i]);
      ParkKeepsSleepers(s, t, task, i, o.readers[i]);
    }
  }

  lemma StepKeepsOutput(o: Output, a: Action, p: Output)
    requires OutputOk(o) && Takes(o, a, p)
    ensures OutputOk(p)
  {
    VisibleGrows(o, a, p);
    if a.Poll? {
      PollKeeps(o, a.task, a.capacity);
    } else if !a.Join? && !a.Leave? {
      forall task | task in p.readers
        ensures HasPrefix(p.stream, p.readers[task]) && SleepsRightly(p.stream, task, p.readers[task])
      {
        StreamStepKeeps(o, a, p, task);
      }
    }
  }

  /**
   * Under every interleaving of the strategy with any number of readers, joining whenever they like:
   * each has received a prefix of header ++ visible data, has seen the end of the stream only after
   * receiving header ++ all data, and sleeps only while there is nothing for it to read.
   */
  lemma {:induction false} ReadersFollowTheStream(run: seq<Output>)
    requires IsRun(run)
    ensures OutputOk(run[|run| - 1])
    decreases |run|
  {
    var n := |run| - 1;
    if n > 0 {
      RunPrefix(run, n);
      ReadersFollowTheStream(run[..n]);
      assert Step(run[n - 1], run[n]);
      var a :| Takes(run[n - 1], a, run[n]);
      StepKeepsOutput(run[n - 1], a, run[n]);
    }
  }

  /** `t` may follow `s`: nothing visible changes, and after the end nothing changes at all. */
  ghost predicate Continues(s: Stream, t: Stream) {
    && StreamOk(s) && StreamOk(t) && Visible(s) <= Visible(t)
    && (s.finished ==> t.finished && Whole(t) == Whole(s))
  }

  lemma {:induction false} StreamAlongRun(run: seq<Output>, i: nat)
    requires IsRun(run) && i < |run|
    ensures Continues(run[i].stream, run[|run| - 1].stream)
    decreases |run|
  {
    hide Takes;
    hide Visible;
    hide Whole;
    var n := |run| - 1;
    if i == n {
      ReadersFollowTheStream(run);
    } else {
      RunPrefix(run, n);
      StreamAlongRun(run[..n], i);
      assert Step(run[n - 1], run[n]);
      var a :| Takes(run[n - 1], a, run[n]);
      VisibleGrows(run[n - 1], a, run[n]);
    }
  }

  lemma VisibleStartsWhole(s: Stream)
    requires StreamOk(s)
    ensures Visible(s) <= Whole(s)
  {
    PrefixOfConcat(HeaderBytes(s), s.data[..s.delayed], s.data);
  }

  /**
   * Every received byte is final: what a reader had at any moment starts the last state's
   * header ++ data, and is all of it if the reader had been told of the end.
   */
  lemma ReceivedIsFinal(run: seq<Output>, i: nat, task: nat)
    requires IsRun(run) && i < |run| && task in run[i].readers
    ensures var (r, last) := (run[i].readers[task], run[|run| - 1].stream);
            r.received <= Whole(last) && (r.ended ==> r.received == Whole(last))
  {
    RunPrefix(run, i + 1);
    ReadersFollowTheStream(run[..i + 1]);
    assert HasPrefix(run[i].stream, run[i].readers[task]);
    StreamAlongRun(run, i);
    VisibleStartsWhole(run[|run| - 1].stream);
  }
}

/** What both states of the strategy share: the writer replays and the canonical stream. */
module SharedStates {
  import opened Bytes
  import opened BufDeques
  import opened BufTraits
  import opened CommonPrefix
  import opened MergedReplays
  import opened OutputMachine
  import QuorumDecisions
  import opened QuorumMachine
  import opened QuorumInvariant
  import opened WriterReplays

  /** A writer replay with the length of data already known to match C. */
  class ReplayState {
    const r: WriterReplay
    const streamCmpDistance: nat
    var dataMatchingCanon: nat

    constructor (r: WriterReplay, streamCmpDistance: nat)
      ensures this.r == r && this.streamCmpDistance == streamCmpDistance && dataMatchingCanon == 0
    {
      this.r, this.streamCmpDistance, dataMatchingCanon := r, streamCmpDistance, 0;
    }

    ghost function View(): Replay
      reads this, r, r.data
    {
      Replay(r.data.log, r.data.WindowStart(), r.delayedDataLen, r.finished, dataMatchingCanon)
    }

    function MatchStartOptimization(canonLength: nat): nat {
      if canonLength > streamCmpDistance then canonLength - streamCmpDistance else 0
    }

    /** Compares with C from where it may start to; everything it reads is still in the window. */
    method DivergesAtStalemate(c: MergedReplay, ghost cfg: Config) returns (diverges: bool)
      requires r.Valid() && c.Valid() && cfg.cmpDistance == streamCmpDistance
      requires |c.data.log| <= |r.data.log| && dataMatchingCanon <= |c.data.log|
      requires ReserveOk(cfg, |c.data.log|, View())
      ensures diverges <==> Diverges(cfg, c.data.log, View())
      ensures diverges <==> QuorumDecisions.Differs(cfg, c.data.log, View())
    {
      QuorumDecisions.DivergesWhere(cfg, c.data.log, View());
      var optimizedMatchStart := MatchStartOptimization(c.DataLen());
      var matchStart := Max(dataMatchingCanon, optimizedMatchStart);
      var matchLen := CommonPrefixFrom(r.data, c.data, matchStart);
      PrefixIsLongest(r.data.log, c.data.log, matchStart, None);
      diverges := matchLen != c.DataLen();
    }

    method SetDiverged()
      requires r.Valid()
      modifies r.data
      ensures r.Valid() && r.data.buffers == old(r.data.buffers)
      ensures View() == Wipe(old(View()))
    {
      r.DiscardAll();
    }

    method SetMatching(canonLength: nat)
      requires r.Valid() && Max(canonLength, dataMatchingCanon) <= USIZE_MAX
      modifies this, r.data
      ensures r.Valid() && r.data.buffers == old(r.data.buffers)
      ensures View() == Match(old(View()), canonLength)
    {
      dataMatchingCanon := Max(canonLength, dataMatchingCanon);
      r.Discard(dataMatchingCanon);
    }

    method DiscardIfNotNeededForCheckingDivergence(canonLength: nat, ghost cfg: Config)
      requires r.Valid() && canonLength <= USIZE_MAX && cfg.cmpDistance == streamCmpDistance
      modifies r.data
      ensures r.Valid() && r.data.buffers == old(r.data.buffers)
      ensures View() == Trim(cfg, old(View()), canonLength)
    {
      r.Discard(MatchStartOptimization(canonLength));
    }
  }

  function Longer(r: Replay, buf: seq<byte>): Replay {
    r.(log := r.log + buf)
  }

  class SharedState {
    const streamCmpDistance: nat
    const targetQuorumSize: nat
    const canonicalStream: MergedReplay
    var token: nat
    var delayedDataStarted: bool
    var replays: map<nat, ReplayState>

    /** The replays as values of the merge machine, and the canonical stream as readers see it. */
    ghost var views: map<nat, Replay>
    ghost var canon: Stream
    /** Those who read C, and everything that has happened between C and them. */
    ghost var readers: map<nat, OutputMachine.Reader>
    ghost var shown: seq<Output>
    /** Which replay owns an object. */
    ghost var owner: map<object, nat>
    ghost var repr: set<object>

    /** The replay `id` is as `views` says, and all its objects are its own. */
    ghost predicate ReplayValid(id: nat)
      requires id in replays && id in views && owner.Keys <= repr
      reads this, repr
    {
      var s := replays[id];
      && s in owner && owner[s] == id && s.r in owner && owner[s.r] == id
      && s.r.data in owner && owner[s.r.data] == id
      && (forall a :: a in s.r.data.buffers ==> a in owner && owner[a] == id)
      && s.r.Valid() && s.streamCmpDistance == streamCmpDistance
      && s.View() == views[id]
    }

    ghost predicate CanonValid()
      reads this, repr
    {
      && canonicalStream in repr && canonicalStream.data in repr && canonicalStream.readEvent in repr
      && canonicalStream.data.buffers <= repr
      && canonicalStream !in owner && canonicalStream.data !in owner && canonicalStream.readEvent !in owner
      && (forall a :: a in canonicalStream.data.buffers ==> a !in owner)
      && canonicalStream.Valid() && canonicalStream.View() == canon
      && OutputMachine.IsRun(shown) && shown[|shown| - 1] == Output(canon, readers)
    }

    ghost predicate Valid()
      reads this, repr
    {
      && this in repr && this !in owner && owner.Keys <= repr
      && views.Keys == replays.Keys
      && (forall id :: id in replays ==> id < token && ReplayValid(id))
      && CanonValid()
    }

    constructor (targetQuorumSize: nat, streamCmpDistance: nat)
      ensures Valid() && fresh(repr)
      ensures this.targetQuorumSize == targetQuorumSize && this.streamCmpDistance == streamCmpDistance
      ensures token == 0 && !delayedDataStarted && replays == map[] && canon == Start.stream && readers == map[]
    {
      this.streamCmpDistance, this.targetQuorumSize := streamCmpDistance, targetQuorumSize;
      canonicalStream := new MergedReplay();
      token, delayedDataStarted, replays, views, owner := 0, false, map[], map[], map[];
      canon, readers, shown := Start.stream, map[], [Start];
      new;
      repr := {this, canonicalStream, canonicalStream.data, canonicalStream.readEvent};
    }

    // ---- Framing ----

    lemma Ownership(id: nat)
      requires Valid() && id in replays
      ensures replays[id].r.Valid() && replays[id].streamCmpDistance == streamCmpDistance
      ensures replays[id].View() == views[id]
      ensures var s := replays[id];
              && s in owner && owner[s] == id && s.r in owner && owner[s.r] == id
              && s.r.data in owner && owner[s.r.data] == id
              && forall a :: a in s.r.data.buffers ==> a in owner && owner[a] == id
    {
    }

    /** A replay none of whose objects change stays as it was. */
    twostate lemma OthersStay(i: nat)
      requires owner.Keys <= repr && old(owner.Keys <= repr)
      requires i in old(replays) && i in replays && replays[i] == old(replays)[i]
      requires i in views && i in old(views) && old(ReplayValid(i)) && views[i] == old(views)[i]
      requires forall o :: o in old(owner) && old(owner)[o] == i ==> unchanged(o) && o in owner && owner[o] == i
      ensures ReplayValid(i)
    {
    }

    twostate lemma CanonStays()
      requires old(CanonValid()) && old(repr) <= repr
      requires canon == old(canon) && readers == old(readers) && shown == old(shown)
      requires unchanged(canonicalStream) && unchanged(canonicalStream.data)
      requires unchanged(canonicalStream.readEvent) && unchanged(canonicalStream.data.buffers)
      requires forall o :: o in old(repr) && o in owner ==> o in old(owner)
      ensures CanonValid()
    {
    }

    /** A replay that keeps its identity and its window, with its new value. */
    twostate lemma ThisOneMoves(id: nat)
      requires old(owner.Keys <= repr) && owner.Keys <= repr && old(owner.Keys) <= owner.Keys
      requires forall o :: o in old(owner) ==> owner[o] == old(owner)[o]
      requires id in old(replays) && replays == old(replays) && id in views && id in old(views)
      requires old(ReplayValid(id)) && views[id] == replays[id].View() && replays[id].r.Valid()
      requires forall a :: a in replays[id].r.data.buffers ==>
                 a in old(replays[id].r.data.buffers) || (a in owner && owner[a] == id)
      ensures ReplayValid(id)
    {
    }

    /** Nothing but the replay `id` and C has changed since. */
    twostate predicate Kept()
      reads this
    {
      && repr == old(repr) && replays == old(replays) && token == old(token)
      && delayedDataStarted == old(delayedDataStarted) && readers == old(readers)
    }

    /** Changing one replay leaves everything else as it was. */
    twostate lemma OnlyThisOne(id: nat)
      requires old(Valid()) && id in old(replays) && replays == old(replays) && token == old(token)
      requires owner.Keys <= repr && old(repr) <= repr && this !in owner
      requires old(owner.Keys) <= owner.Keys && forall o :: o in old(owner) ==> owner[o] == old(owner)[o]
      requires forall o :: o in old(repr) && o in owner ==> o in old(owner)
      requires canon == old(canon) && readers == old(readers) && shown == old(shown)
      requires views == old(views)[id := replays[id].View()]
      requires replays[id].r.Valid()
      requires forall a :: a in replays[id].r.data.buffers ==>
                 a in old(replays[id].r.data.buffers) || (a in owner && owner[a] == id)
      requires forall o :: o in old(owner) && old(owner)[o] != id ==> unchanged(o)
      requires unchanged(canonicalStream) && unchanged(canonicalStream.data)
      requires unchanged(canonicalStream.readEvent) && unchanged(canonicalStream.data.buffers)
      ensures Valid()
    {
      hide ReplayValid;
      hide CanonValid;
      ThisOneMoves(id);
      forall i | i in replays && i != id ensures ReplayValid(i) {
        OthersStay(i);
      }
      CanonStays();
    }

    // ---- Changing one replay ----

    method MarkDiverged(id: nat)
      requires Valid() && id in replays
      modifies repr
      ensures Valid() && Kept() && canon == old(canon)
      ensures views == old(views)[id := Wipe(old(views)[id])]
    {
      hide ReplayValid;
      Ownership(id);
      replays[id].SetDiverged();
      views := views[id := Wipe(views[id])];
      OnlyThisOne(id);
    }

    method MarkMatching(id: nat, canonLength: nat)
      requires Valid() && id in replays && Max(canonLength, views[id].matched) <= USIZE_MAX
      modifies repr
      ensures Valid() && Kept() && canon == old(canon)
      ensures views == old(views)[id := Match(old(views)[id], canonLength)]
    {
      hide ReplayValid;
      Ownership(id);
      replays[id].SetMatching(canonLength);
      views := views[id := Match(views[id], canonLength)];
      OnlyThisOne(id);
    }

    method Trim(id: nat, canonLength: nat)
      requires Valid() && id in replays && canonLength <= USIZE_MAX
      modifies repr
      ensures Valid() && Kept() && canon == old(canon)
      ensures views == old(views)[id := QuorumMachine.Trim(Cfg(), old(views)[id], canonLength)]
    {
      hide ReplayValid;
      Ownership(id);
      replays[id].DiscardIfNotNeededForCheckingDivergence(canonLength, Cfg());
      views := views[id := QuorumMachine.Trim(Cfg(), views[id], canonLength)];
      OnlyThisOne(id);
    }

    // ---- Looking at replays ----

    method DataLen(id: nat) returns (n: nat)
      requires Valid() && id in replays
      ensures n == |views[id].log|
    {
      Ownership(id);
      n := replays[id].r.DataLen();
    }

    method DelayedDataLen(id: nat) returns (n: nat)
      requires Valid() && id in replays
      ensures n == views[id].delayed
    {
      Ownership(id);
      n := replays[id].r.delayedDataLen;
    }

    method IsFinished(id: nat) returns (b: bool)
      requires Valid() && id in replays
      ensures b == views[id].finished
    {
      Ownership(id);
      b := replays[id].r.finished;
    }

    /** What has been checked or discarded of a replay still allows the next check. */
    ghost predicate Readable(id: nat)
      reads this
    {
      id in views && ReplayOk(|canon.data|, views[id]) && ReserveOk(Cfg(), |canon.data|, views[id])
    }

    method Diverges(id: nat) returns (diverges: bool)
      requires Valid() && Readable(id) && |canon.data| < |views[id].log|
      ensures Judge(Cfg(), canon.data, views[id]) ==
              if diverges then Drop else Candidate(views[id].log[|canon.data|])
    {
      Ownership(id);
      diverges := replays[id].DivergesAtStalemate(canonicalStream, Cfg());
    }

    method ByteAt(id: nat, pos: nat) returns (x: byte)
      requires Valid() && id in replays && views[id].window <= pos < |views[id].log|
      ensures x == views[id].log[pos]
    {
      Ownership(id);
      x := At(replays[id].r.data, pos);
    }

    method CommonPrefix(me: nat, other: nat, start: nat, end: nat) returns (n: nat)
      requires Valid() && me in replays && other in replays
      requires views[me].window <= start && views[other].window <= start
      ensures n == PrefixFromTo(views[me].log, views[other].log, start, Some(end))
    {
      Ownership(me);
      Ownership(other);
      n := CommonPrefixFromTo(replays[me].r.data, replays[other].r.data, start, Some(end));
    }

    // ---- The canonical stream ----

    method CanonDataLen() returns (n: nat)
      requires Valid()
      ensures n == |canon.data|
    {
      n := canonicalStream.DataLen();
    }

    method CanonDelayedDataLen() returns (n: nat)
      requires Valid()
      ensures n == canon.delayed
    {
      n := canonicalStream.delayedDataLen;
    }

    /** Changing C leaves the replays as they were. */
    twostate lemma OnlyCanon()
      requires old(Valid()) && replays == old(replays) && token == old(token)
      requires owner == old(owner) && views == old(views) && old(repr) <= repr && CanonValid()
      requires forall o :: o in owner ==> unchanged(o)
      ensures Valid()
    {
      hide ReplayValid;
      hide CanonValid;
      forall i | i in replays ensures ReplayValid(i) {
        OthersStay(i);
      }
    }

    /** Records one step of C. */
    ghost method Show(a: OutputMachine.Action)
      requires OutputMachine.IsRun(shown) && shown[|shown| - 1] == Output(canon, readers)
      requires OutputMachine.Takes(Output(canon, readers), a, Output(canonicalStream.View(), readers))
      modifies this`canon, this`shown
      ensures canon == canonicalStream.View()
      ensures OutputMachine.IsRun(shown) && shown[|shown| - 1] == Output(canon, readers)
    {
      canon := canonicalStream.View();
      OutputMachine.RunSnoc(shown, a, Output(canon, readers));
      shown := shown + [Output(canon, readers)];
    }

    method AppendCanonData(id: nat, until: nat)
      requires Valid() && id in replays && !canon.finished
      requires |canon.data| <= until <= |views[id].log|
      requires |canon.data| < until ==> views[id].window <= |canon.data|
      modifies repr
      ensures Valid() && old(repr) <= repr && fresh(repr - old(repr))
      ensures replays == old(replays) && token == old(token) && readers == old(readers)
      ensures delayedDataStarted == old(delayedDataStarted) && views == old(views)
      ensures canon == WithData(old(canon), views[id].log[old(|canon.data|)..until])
    {
      hide ReplayValid;
      hide WriterReplay.Valid;
      hide BufDeque.Valid;
      hide OutputMachine.IsRun;
      Ownership(id);
      canonicalStream.AddData(replays[id].r, until);
      repr := repr + canonicalStream.data.buffers;
      Show(AddData(views[id].log[|canon.data|..until]));
      OnlyCanon();
    }

    method UpdateCanonDelayedDataLen(hint: nat)
      requires Valid() && !canon.finished
      modifies repr
      ensures Valid() && Kept() && views == old(views)
      ensures canon == (var n := Min(hint, old(|canon.data|));
                        if n <= old(canon.delayed) then old(canon) else WithDelayed(old(canon), n))
    {
      hide ReplayValid;
      var len := canonicalStream.DataLen();
      var n := Min(hint, len);
      if n <= canonicalStream.delayedDataLen {
        return;
      }
      canonicalStream.AdvanceDelayedData(n);
      Show(Advance(n));
      OnlyCanon();
    }

    method StartDelayedData()
      requires Valid()
      modifies this`delayedDataStarted
      ensures Valid() && delayedDataStarted
    {
      hide ReplayValid;
      delayedDataStarted := true;
      OnlyCanon();
    }

    method FinishCanon()
      requires Valid() && !canon.finished && canon.delayed == |canon.data|
      modifies repr
      ensures Valid() && Kept() && views == old(views) && canon == Ended(old(canon))
    {
      hide ReplayValid;
      canonicalStream.Finish();
      Show(OutputMachine.Finish);
      OnlyCanon();
    }

    // ---- Readers of C ----

    method Join(task: nat) returns (reader: MReplayReader)
      requires Valid() && task !in readers
      modifies this`readers, this`canon, this`shown
      ensures Valid() && views == old(views) && canon == old(canon)
      ensures fresh(reader) && reader.replay == canonicalStream && reader.position == 0
      ensures readers == old(readers)[task := OutputMachine.Reader(0, [], false, false)]
    {
      hide ReplayValid;
      reader := new MReplayReader(canonicalStream);
      ghost var joined := readers[task := OutputMachine.Reader(0, [], false, false)];
      OutputMachine.RunSnoc(shown, OutputMachine.Join(task), Output(canon, joined));
      readers := joined;
      shown := shown + [Output(canon, readers)];
      OnlyCanon();
    }

    /** The executor runs a reader's task, which polls. */
    method Poll(reader: MReplayReader, task: nat, capacity: nat) returns (outcome: Outcome)
      requires Valid() && reader.replay == canonicalStream && reader !in repr
      requires task in readers && readers[task].position == reader.position
      requires !readers[task].ended && capacity > 0
      modifies reader, repr
      ensures Valid() && views == old(views) && replays == old(replays) && token == old(token)
      ensures repr == old(repr) && delayedDataStarted == old(delayedDataStarted)
      ensures Output(canon, readers) == old(Polled(Output(canon, readers), task, capacity))
      ensures reader.position == readers[task].position
      ensures outcome == old(PollOutcome(canon, reader.position, capacity))
      ensures outcome.Ready? ==> readers[task].received == old(readers[task].received) + outcome.bytes
      ensures outcome.Pending? ==> readers[task] == old(readers[task]).(parked := true)
    {
      hide ReplayValid;
      hide OutputMachine.IsRun;
      hide BufDeque.Valid;
      hide PollOutcome;
      hide PollStream;
      ghost var p := Polled(Output(canon, readers), task, capacity);
      SameOutcome(canon, task, reader.position, capacity);
      canonicalStream.readEvent.Run(task);
      outcome := reader.PollRead(task, capacity);
      OutputMachine.RunSnoc(shown, OutputMachine.Poll(task, capacity), p);
      canon, readers, shown := p.stream, p.readers, shown + [p];
      OnlyCanon();
    }

    /** Once C is finished, repeated polls deliver exactly what is left of it, and then the end. */
    method PollToEnd(reader: MReplayReader, task: nat, capacity: nat) returns (sent: seq<byte>)
      requires Valid() && canon.finished && reader.replay == canonicalStream && reader !in repr
      requires task in readers && readers[task].position == reader.position
      requires !readers[task].ended && capacity > 0
      modifies reader, repr
      ensures Valid() && views == old(views) && replays == old(replays) && token == old(token)
      ensures repr == old(repr) && delayedDataStarted == old(delayedDataStarted)
      ensures canon == old(canon).(woken := canon.woken)
      ensures task in readers && readers == old(readers)[task := readers[task]]
      ensures readers[task].ended && reader.position == readers[task].position
      ensures readers[task].received == old(readers[task].received) + sent == Whole(canon)
    {
      hide Valid;
      hide PollOutcome;
      hide Polled;
      hide OutputOk;
      var done := false;
      sent := [];
      while !done
        invariant Valid() && views == old(views) && replays == old(replays) && token == old(token)
        invariant repr == old(repr) && delayedDataStarted == old(delayedDataStarted) && canon.finished
        invariant canon == old(canon).(woken := canon.woken)
        invariant task in readers && readers == old(readers)[task := readers[task]]
        invariant reader.position == readers[task].position
        invariant readers[task].received == old(readers[task].received) + sent
        invariant readers[task].ended == done && (done ==> readers[task].received == Whole(canon))
        decreases |Whole(canon)| - reader.position, if done then 0 else 1
      {
        EveryoneIsServed();
        PollOfFinished(Output(canon, readers), task, capacity);
        var outcome := Poll(reader, task, capacity);
        sent := sent + outcome.bytes;
        done := outcome.bytes == [];
      }
    }

    /**
     * At any moment, whatever connections and readers have done: everyone holds a prefix of what is
     * visible of C, has seen the end only with all of C in hand, and sleeps only while there is
     * nothing to read.
     */
    lemma EveryoneIsServed()
      requires Valid()
      ensures OutputOk(Output(canon, readers))
    {
      ReadersFollowTheStream(shown);
    }

    // ---- Headers and new replays ----

    /** The header of a replay, which can be taken once. */
    ghost predicate HasHeader(id: nat)
      reads this, repr
    {
      Valid() && id in replays && (Ownership(id); replays[id].r.header.Some?)
    }

    /** Takes the replay's header; the first one becomes C's. */
    method AddHeader(id: nat)
      requires HasHeader(id) && !canon.finished && (canon.header.None? ==> canon.data == [])
      modifies repr
      ensures Valid() && Kept() && views == old(views)
      ensures canon == if old(canon).header.Some? then old(canon)
                       else WithHeader(old(canon), old(replays[id].r.header.value))
    {
      hide ReplayValid;
      Ownership(id);
      hide WriterReplay.Valid;
      hide BufDeque.Valid;
      hide OutputMachine.IsRun;
      var header := replays[id].r.TakeHeader();
      OnlyThisOne(id);
      if canonicalStream.header.None? {
        label L:
        canonicalStream.AddHeader(header);
        Show(SetHeader(header));
        OnlyCanon@L();
      }
    }

    method AddReplay(r: WriterReplay) returns (id: nat)
      requires Valid() && r.Valid() && r !in repr && r.data !in repr && r.data.buffers == {}
      requires r.data.log == [] && r.data.WindowStart() == 0 && r.delayedDataLen == 0 && !r.finished
      modifies this
      ensures Valid() && old(repr) <= repr && fresh(repr - old(repr) - {r, r.data})
      ensures id == old(token) && token == id + 1 && delayedDataStarted == old(delayedDataStarted)
      ensures replays.Keys == old(replays).Keys + {id} && replays[id].r == r
      ensures forall i :: i in old(replays) ==> replays[i] == old(replays)[i]
      ensures canon == old(canon) && readers == old(readers)
      ensures views == old(views)[id := Replay([], 0, 0, false, 0)]
    {
      hide *;
      Shape();
      id := token;
      var replay := new ReplayState(r, streamCmpDistance);
      replays := replays[id := replay];
      token := token + 1;
      views := views[id := Replay([], 0, 0, false, 0)];
      owner := Granted(owner, {replay, r, r.data}, id);
      repr := repr + {replay, r, r.data};
      OneMoreReplay(id);
    }

    /** A new replay brings its own objects. */
    twostate lemma OneMoreReplay(id: nat)
      requires old(Valid()) && id == old(token) && token == id + 1
      requires canon == old(canon) && readers == old(readers) && shown == old(shown)
      requires id in replays && replays == old(replays)[id := replays[id]]
      requires views == old(views)[id := Replay([], 0, 0, false, 0)]
      requires var s := replays[id];
               && s !in old(repr) && s.r !in old(repr) && s.r.data !in old(repr)
               && owner == Granted(old(owner), {s, s.r, s.r.data}, id) && repr == old(repr) + {s, s.r, s.r.data}
               && s.r.Valid() && s.r.data.buffers == {} && s.streamCmpDistance == streamCmpDistance
               && s.dataMatchingCanon == 0 && s.r.data.log == [] && s.r.data.WindowStart() == 0
               && s.r.delayedDataLen == 0 && !s.r.finished
      requires forall o :: o in old(repr) && o != this ==> unchanged(o)
      ensures Valid()
    {
      hide ReplayValid;
      hide CanonValid;
      hide Granted;
      GrantedAll(old(owner), {replays[id], replays[id].r, replays[id].r.data}, id);
      NewReplay(id);
      CanonObjectsBefore();
      forall i | i in old(replays) ensures ReplayValid(i) {
        OthersStay(i);
      }
      CanonStays();
    }

    twostate lemma CanonObjectsBefore()
      requires old(CanonValid())
      ensures canonicalStream in old(repr) && canonicalStream.data in old(repr)
      ensures canonicalStream.readEvent in old(repr) && old(canonicalStream.data.buffers) <= old(repr)
    {
    }

    lemma NewReplay(id: nat)
      requires id in replays && id in views && owner.Keys <= repr
      requires var s := replays[id];
               && s in owner && owner[s] == id && s.r in owner && owner[s.r] == id
               && s.r.data in owner && owner[s.r.data] == id && s.r.data.buffers == {}
               && s.r.Valid() && s.streamCmpDistance == streamCmpDistance && s.View() == views[id]
      ensures ReplayValid(id)
    {
    }

    ghost function Granted(owner: map<object, nat>, objects: set<object>, id: nat): map<object, nat> {
      owner + map o | o in objects :: id
    }

    lemma GrantedAll(owner: map<object, nat>, objects: set<object>, id: nat)
      ensures forall o :: o in Granted(owner, objects, id) <==> o in owner || o in objects
      ensures forall o :: o in Granted(owner, objects, id) ==>
                Granted(owner, objects, id)[o] == if o in objects then id else owner[o]
    {
    }

    lemma Shape()
      requires Valid()
      ensures this in repr && this !in owner && owner.Keys <= repr && views.Keys == replays.Keys
      ensures token !in replays
    {
    }

    twostate lemma ShapeBefore()
      requires old(Valid())
      ensures old(this in repr && this !in owner && owner.Keys <= repr)
    {
    }

    twostate lemma OwnershipBefore(id: nat)
      requires old(Valid()) && id in old(replays)
      ensures old(replays[id].View()) == old(views)[id]
    {
    }

    lemma CanonIsApart(id: nat)
      requires Valid() && id in replays
      ensures canonicalStream !in owner && canonicalStream.data !in owner && canonicalStream.readEvent !in owner
      ensures canonicalStream.data.buffers !! replays[id].r.data.buffers
    {
    }

    // ---- What the connections do to their replays, unseen by the strategy until the next callback ----

    twostate lemma Lengthened(id: nat, new buf: seq<byte>)
      requires id in replays && id in old(replays) && replays[id] == old(replays)[id]
      requires unchanged(replays[id])
      requires unchanged(replays[id].r)
      requires replays[id].r.data.log == old(replays[id].r.data.log) + buf
      requires replays[id].r.data.WindowStart() == old(replays[id].r.data.WindowStart())
      ensures replays[id].View() == Longer(old(replays[id].View()), buf)
    {
    }

    /** The replay has more data, perhaps in new chunks. */
    twostate lemma WriterGrew(id: nat, new buf: seq<byte>)
      requires old(Valid()) && id in old(replays) && replays == old(replays) && token == old(token)
      requires var more := replays[id].r.data.buffers;
               && owner == Granted(old(owner), more, id) && repr == old(repr) + more
               && forall o: object :: o in more ==> (o in old(owner) && old(owner)[o] == id) || o !in old(repr)
      requires replays[id].r.Valid()
      requires unchanged(replays[id])
      requires unchanged(replays[id].r)
      requires replays[id].r.data.log == old(replays[id].r.data.log) + buf
      requires replays[id].r.data.WindowStart() == old(replays[id].r.data.WindowStart())
      requires canon == old(canon) && readers == old(readers) && shown == old(shown)
      requires views == old(views)[id := Longer(old(views)[id], buf)]
      requires forall o :: o in old(owner) && old(owner)[o] != id ==> unchanged(o)
      requires unchanged(canonicalStream) && unchanged(canonicalStream.data)
      requires unchanged(canonicalStream.readEvent) && unchanged(canonicalStream.data.buffers)
      ensures Valid()
    {
      assert views[id] == replays[id].View() by { OwnershipBefore(id); Lengthened(id, buf); }
      hide *;
      ShapeBefore();
      GrantedAll(old(owner), replays[id].r.data.buffers, id);
      OnlyThisOne(id);
    }

    method WriterAddData(id: nat, buf: seq<byte>)
      requires Valid() && id in replays
      modifies repr
      ensures Valid() && old(repr) <= repr && fresh(repr - old(repr))
      ensures replays == old(replays) && token == old(token) && readers == old(readers)
      ensures delayedDataStarted == old(delayedDataStarted) && canon == old(canon)
      ensures views == old(views)[id := Longer(old(views)[id], buf)]
    {
      hide ReplayValid;
      hide CanonValid;
      hide Granted;
      Ownership(id);
      CanonIsApart(id);
      replays[id].r.AddData(buf);
      owner := Granted(owner, replays[id].r.data.buffers, id);
      repr := repr + replays[id].r.data.buffers;
      views := views[id := Longer(views[id], buf)];
      WriterGrew(id, buf);
    }

    method WriterAddHeader(id: nat, header: seq<byte>)
      requires Valid() && id in replays
      modifies repr
      ensures Valid() && Kept() && canon == old(canon) && views == old(views)
      ensures HasHeader(id) && replays[id].r.header == Some(header)
    {
      hide ReplayValid;
      Ownership(id);
      replays[id].r.AddHeader(header);
      OnlyThisOne(id);
    }

    method WriterSetDelayedDataLen(id: nat, n: nat)
      requires Valid() && id in replays && views[id].delayed <= n
      modifies repr
      ensures Valid() && Kept() && canon == old(canon)
      ensures views == old(views)[id := old(views)[id].(delayed := n)]
    {
      hide ReplayValid;
      Ownership(id);
      replays[id].r.SetDelayedDataLen(n);
      views := views[id := replays[id].View()];
      OnlyThisOne(id);
    }

    method WriterFinish(id: nat)
      requires Valid() && id in replays
      modifies repr
      ensures Valid() && Kept() && canon == old(canon)
      ensures views == old(views)[id := old(views)[id].(finished := true)]
    {
      hide ReplayValid;
      Ownership(id);
      replays[id].r.Finish();
      views := views[id := replays[id].View()];
      OnlyThisOne(id);
    }

    ghost function Cfg(): Config {
      Config(targetQuorumSize, streamCmpDistance)
    }
  }
}

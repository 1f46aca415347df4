/**
 What every interleaving of the logger guarantees to its callers.
 */
module LoggerTheorems {
  import opened Wrappers
  import opened LoggerProtocol
  import opened LoggerDatabase
  import opened LoggerInvariants

  // ------------------------------------------------------------------- runs

  lemma StepKeepsInv(cfg: Config, s: State, a: Action)
    requires cfg.Valid() && Inv(cfg, s) && Enabled(cfg, s, a)
    ensures Inv(cfg, Apply(cfg, s, a))
  {
    match a
    case P(pa) => ProducerKeepsInv(cfg, s, pa);
    case F(fa) => FlushKeepsInv(cfg, s, fa);
    case C(ca) => CloseKeepsInv(cfg, s, ca);
    case W(wa) => WriterKeepsInv(cfg, s, wa);
    case E(key) => ExpireKeepsInv(cfg, s, key);
  }

  lemma {:induction false} RunKeepsInv(cfg: Config, s: State, run: seq<Action>)
    requires cfg.Valid() && Inv(cfg, s) && IsRun(cfg, s, run)
    ensures Inv(cfg, After(cfg, s, run))
    decreases |run|
  {
    if run != [] {
      StepKeepsInv(cfg, s, run[0]);
      RunKeepsInv(cfg, Apply(cfg, s, run[0]), run[1..]);
    }
  }

  /** A state some interleaving reaches from a freshly opened logger. */
  ghost predicate Reachable(cfg: Config, s: State) {
    && cfg.Valid()
    && exists run: seq<Action> :: IsRun(cfg, Initial(s.disk.base), run) && After(cfg, Initial(s.disk.base), run) == s
  }

  lemma ReachableInv(cfg: Config, s: State)
    requires Reachable(cfg, s)
    ensures Inv(cfg, s)
  {
    var run: seq<Action> :| IsRun(cfg, Initial(s.disk.base), run) && After(cfg, Initial(s.disk.base), run) == s;
    InitialInv(cfg, s.disk.base);
    RunKeepsInv(cfg, Initial(s.disk.base), run);
  }

  /** `Reachable` leaves no start out: whatever the file held, every run from it ends in such a state. */
  lemma RunsAreReachable(cfg: Config, base: map<string, string>, run: seq<Action>)
    requires cfg.Valid() && IsRun(cfg, Initial(base), run)
    ensures Reachable(cfg, After(cfg, Initial(base), run))
  {
    BaseIsFixed(cfg, Initial(base), run);
  }

  lemma {:induction false} BaseIsFixed(cfg: Config, s: State, run: seq<Action>)
    requires IsRun(cfg, s, run)
    ensures After(cfg, s, run).disk.base == s.disk.base
    ensures (forall a | a in run :: !a.E?) ==> After(cfg, s, run).disk.expired == s.disk.expired
    decreases |run|
  {
    if run != [] {
      StepKeepsBase(cfg, s, run[0]);
      BaseIsFixed(cfg, Apply(cfg, s, run[0]), run[1..]);
    }
  }

  lemma StepKeepsBase(cfg: Config, s: State, a: Action)
    requires Enabled(cfg, s, a)
    ensures Apply(cfg, s, a).disk.base == s.disk.base
    ensures !a.E? ==> Apply(cfg, s, a).disk.expired == s.disk.expired
  {
    match a {
      case P(pa) => assert ProducerApply(cfg, s, pa).disk == s.disk;
      case F(fa) => assert FlushApply(cfg, s, fa).disk == s.disk;
      case C(ca) => assert CloseApply(s, ca).disk == s.disk;
      case W(wa) => WriterKeepsBase(cfg, s, wa);
      case E(_) =>
    }
  }

  lemma WriterKeepsBase(cfg: Config, s: State, a: WriterAction)
    requires WriterEnabled(s, a)
    ensures var t := WriterApply(cfg, s, a); t.disk.base == s.disk.base && t.disk.expired == s.disk.expired
  {
  }

  // -------------------------------------------------------- the database map

  lemma StoredKeys(cfg: Config, s: State)
    requires Inv(cfg, s)
    ensures s.disk.stored <= s.wire.sends
    ensures KeysNew(s.disk.stored, s.disk.base) && KeysDiffer(s.disk.stored)
  {
    StoredIsPrefix(s.writer, s.wire, s.disk, s.tally.persisted);
    SentKeysNew(s.producers, s.wire.sends, s.disk.base);
    FrontKeys(s.wire.sends, s.disk.stored, s.disk.base);
  }

  /**
   The database holds exactly the pairs it was opened with and one for each stored entry, under its
   own key and with its own value, less those that have expired.
   */
  lemma DatabaseIsStored(cfg: Config, s: State)
    requires Inv(cfg, s)
    ensures |s.disk.db| + |s.disk.expired| == |s.disk.base| + |s.disk.stored|
    ensures forall e | e in s.disk.stored :: Kept(s.disk, e)
    ensures forall k | k in s.disk.db :: HasKey(s.disk.stored, k) || (k in s.disk.base && s.disk.db[k] == s.disk.base[k])
    ensures forall k | k in s.disk.expired :: k !in s.disk.db && (HasKey(s.disk.stored, k) || k in s.disk.base)
  {
    StoredKeys(cfg, s);
    DiskSize(s.disk);
    forall e | e in s.disk.stored
      ensures Kept(s.disk, e)
    {
      StoredIsKept(s.disk, e);
    }
    forall k | k in s.disk.db || k in s.disk.expired
      ensures HasKey(s.disk.stored, k) || k in s.disk.base
      ensures k in s.disk.db && !HasKey(s.disk.stored, k) ==> s.disk.db[k] == s.disk.base[k]
    {
      KnownKey(s.disk, k);
    }
  }

  // ------------------------------------------------------------ conservation

  /** No interleaving loses, duplicates or reorders an entry. */
  lemma NothingLostOrReordered(cfg: Config, s: State)
    requires Reachable(cfg, s)
    ensures s.wire.sends == s.disk.stored + Unwritten(s.writer) + InHand(s.writer.pc) + Entries(s.wire.queue)
    ensures forall i, j | 0 <= i < j < |s.wire.sends| :: s.wire.sends[i] != s.wire.sends[j]
    ensures forall p | p in s.producers :: s.producers[p].entry in s.wire.sends <==> HasSent(s.producers[p].pc)
    ensures s.writer.pc == Selecting ==> |s.writer.batch| < cfg.batchSize
  {
    ReachableInv(cfg, s);
    forall p | p in s.producers && s.producers[p].entry in s.wire.sends
      ensures HasSent(s.producers[p].pc)
    {
      assert s.producers[p].entry.call == p;
    }
  }

  lemma {:induction false} CallsOfSends(sends: seq<QueuedEntry>, n: nat)
    requires n <= |sends| && forall i, j | 0 <= i < j < |sends| :: sends[i].call != sends[j].call
    ensures |set i | 0 <= i < n :: sends[i].call| == n
  {
    if n > 0 {
      CallsOfSends(sends, n - 1);
      var fewer := set i | 0 <= i < n - 1 :: sends[i].call;
      assert (set i | 0 <= i < n :: sends[i].call) == fewer + {sends[n - 1].call};
    }
  }

  /** Once nobody is inside the WaitGroup, the accepted calls are the senders. */
  lemma AcceptedAreSends(cfg: Config, s: State)
    requires Inv(cfg, s) && s.gate.inFlight == 0
    ensures s.tally.accepted == |s.wire.sends|
    ensures forall p | p in s.producers :: HasSent(s.producers[p].pc) <==> s.producers[p].pc == Returned(true)
  {
    assert Calls(s.producers, Joined) == {};
    forall p | p in s.producers
      ensures HasSent(s.producers[p].pc) <==> s.producers[p].pc == Returned(true)
    {
      assert p !in Calls(s.producers, Joined);
    }
    SendersAreAccepted(s.producers, s.wire.sends);
  }

  lemma SendersAreAccepted(producers: map<EnqueueId, Producer>, sends: seq<QueuedEntry>)
    requires SendsOk(producers, sends)
    requires forall p | p in producers :: HasSent(producers[p].pc) <==> producers[p].pc == Returned(true)
    requires Calls(producers, Joined) == {}
    ensures |Calls(producers, CountedAccepted)| == |sends|
  {
    SentKeysDistinct(producers, sends);
    CallsOfSends(sends, |sends|);
    var senders := set i | 0 <= i < |sends| :: sends[i].call;
    assert senders <= Calls(producers, CountedAccepted);
    forall p | p in Calls(producers, CountedAccepted)
      ensures p in senders
    {
      assert p !in Calls(producers, Joined);
      assert producers[p].entry in sends;
      var i :| 0 <= i < |sends| && sends[i] == producers[p].entry;
      assert sends[i].call == p;
    }
    assert senders == Calls(producers, CountedAccepted);
  }

  /** The key is in the database, or was until it expired. */
  predicate Written(s: State, p: EnqueueId)
    requires p in s.producers
  {
    s.producers[p].entry.key in s.disk.db || s.producers[p].entry.key in s.disk.expired
  }

  /**
   When `done` closes, nothing is left behind: queue and batch are empty, the counters agree with
   each other and with the database, and an entry was written exactly when its call returned true.
   */
  lemma ShutdownPersistsExactlyAccepted(cfg: Config, s: State)
    requires Reachable(cfg, s) && s.writer.pc.Stopped?
    ensures s.wire.queue == [] && s.writer.batch == []
    ensures s.disk.stored == s.wire.sends
    ensures s.tally.accepted == s.tally.persisted
    ensures |s.disk.db| + |s.disk.expired| == |s.disk.base| + s.tally.persisted
    ensures forall p | p in s.producers :: Written(s, p) <==> s.producers[p].pc == Returned(true)
    ensures forall p | p in s.producers && s.producers[p].pc == Returned(true) :: Kept(s.disk, s.producers[p].entry)
  {
    ReachableInv(cfg, s);
    StoppedStoresAll(cfg, s.writer, s.wire, s.disk, s.tally.persisted);
    AcceptedAreSends(cfg, s);
    DatabaseIsStored(cfg, s);
    forall p | p in s.producers
      ensures Written(s, p) <==> s.producers[p].pc == Returned(true)
      ensures s.producers[p].pc == Returned(true) ==> Kept(s.disk, s.producers[p].entry)
    {
      WrittenMeansSent(cfg, s, p);
      if s.producers[p].pc == Returned(true) {
        assert s.producers[p].entry in s.disk.stored;
      }
    }
  }

  /** A Close that returned anything but a context error: the shutdown above has happened. */
  lemma CloseIsDurable(cfg: Config, s: State, c: CloseId)
    requires Reachable(cfg, s) && c in s.closers && s.closers[c].CloseReturned?
    ensures s.closers[c].result != ContextExpired ==>
      && s.wire.queue == [] && s.writer.batch == []
      && forall p | p in s.producers && s.producers[p].pc == Returned(true) :: Kept(s.disk, s.producers[p].entry)
  {
    ReachableInv(cfg, s);
    if s.closers[c].result != ContextExpired {
      ShutdownPersistsExactlyAccepted(cfg, s);
    }
  }

  /** A written key belongs to a call that really sent its entry. */
  lemma WrittenMeansSent(cfg: Config, s: State, p: EnqueueId)
    requires Inv(cfg, s) && p in s.producers
    ensures Written(s, p) ==> HasSent(s.producers[p].pc)
  {
    if Written(s, p) {
      KnownKey(s.disk, s.producers[p].entry.key);
      StoredKeys(cfg, s);
      var i :| 0 <= i < |s.disk.stored| && s.disk.stored[i].key == s.producers[p].entry.key;
      assert s.disk.stored[i] == s.wire.sends[i];
      assert s.wire.sends[i] in s.wire.sends;
      assert s.wire.sends[i].call == p;
    }
  }

  /** An entry whose call returned false is never written, in any reachable state. */
  lemma DroppedIsNeverWritten(cfg: Config, s: State, p: EnqueueId)
    requires Reachable(cfg, s) && At(s, p, Returned(false))
    ensures !Written(s, p)
    ensures s.producers[p].entry !in s.wire.sends
  {
    ReachableInv(cfg, s);
    WrittenMeansSent(cfg, s, p);
    assert s.producers[p].entry.call == p;
  }

  // ------------------------------------------------------------------- Flush

  /** A Flush that returned nil: everything accepted before the call is in the database. */
  lemma FlushIsDurable(cfg: Config, s: State, f: FlushId)
    requires Reachable(cfg, s) && FlushAt(s, f, FlushReturned(NilError))
    ensures forall p | p in s.flushes[f].before ::
      At(s, p, Returned(true)) && Written(s, p) && Kept(s.disk, s.producers[p].entry)
  {
    ReachableInv(cfg, s);
    DatabaseIsStored(cfg, s);
    assert CallDurable(s.flushes[f], s.producers, s.wire.sends, s.disk.stored);
  }

  /** `before` is what its name says, and no later step rewrites it. */
  lemma BeforeIsAcceptedAtCall(cfg: Config, s: State, f: FlushId, run: seq<Action>)
    requires Enabled(cfg, s, F(BeginFlush(f)))
    requires IsRun(cfg, Apply(cfg, s, F(BeginFlush(f))), run)
    ensures var t := After(cfg, Apply(cfg, s, F(BeginFlush(f))), run);
      f in t.flushes && t.flushes[f].before == ReturnedTrue(s.producers)
  {
    BeforeIsFixed(cfg, Apply(cfg, s, F(BeginFlush(f))), f, run);
  }

  lemma {:induction false} BeforeIsFixed(cfg: Config, s: State, f: FlushId, run: seq<Action>)
    requires f in s.flushes && IsRun(cfg, s, run)
    ensures var t := After(cfg, s, run); f in t.flushes && t.flushes[f].before == s.flushes[f].before
    decreases |run|
  {
    if run != [] {
      StepKeepsBefore(cfg, s, f, run[0]);
      BeforeIsFixed(cfg, Apply(cfg, s, run[0]), f, run[1..]);
    }
  }

  lemma FlushKeepsBefore(cfg: Config, s: State, f: FlushId, a: FlushAction)
    requires f in s.flushes && FlushEnabled(cfg, s, a)
    ensures var t := FlushApply(cfg, s, a); f in t.flushes && t.flushes[f].before == s.flushes[f].before
  {
  }

  lemma WriterKeepsBefore(cfg: Config, s: State, f: FlushId, a: WriterAction)
    requires f in s.flushes && WriterEnabled(s, a)
    ensures var t := WriterApply(cfg, s, a); f in t.flushes && t.flushes[f].before == s.flushes[f].before
  {
  }

  lemma StepKeepsBefore(cfg: Config, s: State, f: FlushId, a: Action)
    requires f in s.flushes && Enabled(cfg, s, a)
    ensures var t := Apply(cfg, s, a); f in t.flushes && t.flushes[f].before == s.flushes[f].before
  {
    match a {
      case P(pa) => assert ProducerApply(cfg, s, pa).flushes == s.flushes;
      case F(fa) => FlushKeepsBefore(cfg, s, f, fa);
      case C(ca) => assert CloseApply(s, ca).flushes == s.flushes;
      case W(wa) => WriterKeepsBefore(cfg, s, f, wa);
      case E(_) =>
    }
  }

  /**
   Each barrier is answered at most once, is never lost before it is, and the writer's send on it
   neither blocks nor panics, whatever the caller has done meanwhile.
   */
  lemma BarrierAnsweredOnce(cfg: Config, s: State, f: FlushId)
    requires Reachable(cfg, s) && f in s.flushes
    ensures multiset(s.wire.queue)[BarrierItem(f)] + Number(Holds(s.writer.pc, f)) + s.flushes[f].replies
         == Number(s.flushes[f].sent)
    ensures s.writer.pc.Replying? && s.writer.pc.flush == f ==> CanReply(s, f)
    ensures s.writer.pc.Replied? && s.writer.pc.flush == f ==> CanCloseReply(s, f)
    ensures s.writer.pc.Stopped? ==> s.flushes[f].replies == Number(s.flushes[f].sent)
  {
    ReachableInv(cfg, s);
    assert BarrierOk(f, s.flushes[f], s.wire.queue, s.writer.pc);
  }

  lemma NoErrorReplies(flushes: map<FlushId, FlushCall>, queue: seq<Item>, pc: WriterPc)
    requires BarriersOk(flushes, queue, pc)
    ensures forall f | f in flushes :: WriteError !in flushes[f].reply
  {
  }

  /** flush returns only after success, so no error arm of the writer is ever taken. */
  lemma ErrorArmsUnreachable(cfg: Config, s: State)
    requires Reachable(cfg, s)
    ensures CarriesNoError(s.writer.pc)
    ensures !WriterEnabled(s, Discard)
    ensures forall f | f in s.flushes :: WriteError !in s.flushes[f].reply
  {
    ReachableInv(cfg, s);
    NoErrorReplies(s.flushes, s.wire.queue, s.writer.pc);
  }

  // ---------------------------------------------------------------- counters

  /** What Stats reports as QueueDepth. */
  function ReportedDepth(s: State): nat {
    if s.tally.queueDepth < 0 then 0 else s.tally.queueDepth
  }

  /** The depth counter lags the channel by the sends not yet counted and one uncounted receive. */
  lemma DepthLags(cfg: Config, s: State)
    requires Reachable(cfg, s)
    ensures s.tally.queueDepth
         == |Entries(s.wire.queue)| - |Calls(s.producers, Uncounted)| + Number(s.writer.pc.Took?)
    ensures Calls(s.producers, Uncounted) == {} ==> s.tally.queueDepth >= 0
    ensures Calls(s.producers, Uncounted) == {} && !s.writer.pc.Took? ==> ReportedDepth(s) == |Entries(s.wire.queue)|
    ensures ReportedDepth(s) <= cfg.capacity + 1
  {
    ReachableInv(cfg, s);
    EntriesShorter(s.wire.queue);
  }

  lemma EntriesShorter(q: seq<Item>)
    ensures |Entries(q)| <= |q|
  {
  }

  function Counted(producers: map<EnqueueId, Producer>): set<EnqueueId> {
    set p | p in producers && (producers[p].pc.Leaving? || producers[p].pc.Returned?)
  }

  lemma CountersPartition(producers: map<EnqueueId, Producer>, tally: Tally)
    requires CountedOnce(producers, tally)
    ensures tally.accepted + tally.dropped == |Counted(producers)|
  {
    var a, d := Calls(producers, CountedAccepted), Calls(producers, CountedDropped);
    assert a !! d;
    assert a + d == Counted(producers);
  }

  lemma QuietCounters(producers: map<EnqueueId, Producer>, tally: Tally)
    requires CountedOnce(producers, tally)
    requires forall p | p in producers :: producers[p].pc.Returned?
    ensures tally.accepted == |ReturnedTrue(producers)| && tally.accepted + tally.dropped == |producers|
  {
    CountersPartition(producers, tally);
    assert Calls(producers, CountedAccepted) == ReturnedTrue(producers);
    assert Counted(producers) == producers.Keys;
  }

  /** The counters partition the calls that have counted themselves, and each returned call has. */
  lemma CountedExactlyOnce(cfg: Config, s: State)
    requires Reachable(cfg, s)
    ensures s.tally.accepted + s.tally.dropped == |Counted(s.producers)|
    ensures (forall p | p in s.producers :: s.producers[p].pc.Returned?) ==>
      s.tally.accepted == |ReturnedTrue(s.producers)| && s.tally.accepted + s.tally.dropped == |s.producers|
  {
    ReachableInv(cfg, s);
    CountersPartition(s.producers, s.tally);
    if forall p | p in s.producers :: s.producers[p].pc.Returned? {
      QuietCounters(s.producers, s.tally);
    }
  }

  // ------------------------------------------------------------------- order

  lemma {:induction false} SendsOnlyGrow(cfg: Config, s: State, run: seq<Action>)
    requires IsRun(cfg, s, run)
    ensures s.wire.sends <= After(cfg, s, run).wire.sends
    ensures s.disk.stored <= After(cfg, s, run).disk.stored
    decreases |run|
  {
    if run != [] {
      StepOnlyGrows(cfg, s, run[0]);
      SendsOnlyGrow(cfg, Apply(cfg, s, run[0]), run[1..]);
    }
  }

  lemma ProducerOnlyGrows(cfg: Config, s: State, a: ProducerAction)
    requires ProducerEnabled(cfg, s, a)
    ensures s.wire.sends <= ProducerApply(cfg, s, a).wire.sends && ProducerApply(cfg, s, a).disk == s.disk
  {
  }

  lemma WriterOnlyGrows(cfg: Config, s: State, a: WriterAction)
    requires WriterEnabled(s, a)
    ensures WriterApply(cfg, s, a).wire.sends == s.wire.sends && s.disk.stored <= WriterApply(cfg, s, a).disk.stored
  {
  }

  lemma StepOnlyGrows(cfg: Config, s: State, a: Action)
    requires Enabled(cfg, s, a)
    ensures s.wire.sends <= Apply(cfg, s, a).wire.sends
    ensures s.disk.stored <= Apply(cfg, s, a).disk.stored
  {
    match a {
      case P(pa) => ProducerOnlyGrows(cfg, s, pa);
      case F(fa) => assert FlushApply(cfg, s, fa).wire.sends == s.wire.sends && FlushApply(cfg, s, fa).disk == s.disk;
      case C(ca) => assert CloseApply(s, ca).wire == s.wire && CloseApply(s, ca).disk == s.disk;
      case W(wa) => WriterOnlyGrows(cfg, s, wa);
      case E(_) =>
    }
  }

  /** In a longer list of sends, a call sent before precedes a call unknown before. */
  lemma SentEarlier(producers: map<EnqueueId, Producer>, sends: seq<QueuedEntry>,
                    producers': map<EnqueueId, Producer>, sends': seq<QueuedEntry>, i: nat, j: nat)
    requires SendsOk(producers, sends) && SendsOk(producers', sends') && sends <= sends'
    requires i < |sends'| && j < |sends'|
    requires sends'[i].call in producers && HasSent(producers[sends'[i].call].pc) && sends'[j].call !in producers
    ensures i < j
  {
  }

  /** A call that began after another had returned true is persisted after it. */
  lemma RealTimeOrder(cfg: Config, s: State, run: seq<Action>, p: EnqueueId, q: EnqueueId, i: nat, j: nat)
    requires Reachable(cfg, s) && IsRun(cfg, s, run)
    requires At(s, p, Returned(true)) && q !in s.producers
    requires var sends := After(cfg, s, run).wire.sends;
      i < |sends| && j < |sends| && sends[i].call == p && sends[j].call == q
    ensures i < j
  {
    ReachableInv(cfg, s);
    RunKeepsInv(cfg, s, run);
    SendsOnlyGrow(cfg, s, run);
    var t := After(cfg, s, run);
    SentEarlier(s.producers, s.wire.sends, t.producers, t.wire.sends, i, j);
  }

  // ---------------------------------------------------------------- progress

  /** The step the writer takes next when its transactions succeed and nobody else runs. */
  function NextStep(s: State): WriterAction {
    match s.writer.pc
    case Selecting => if !s.writer.draining then SeeCloseReady else if s.wire.queue == [] then DrainedQueue else Receive
    case Took(_) => DecrementDepth
    case Adding(_) => Append
    case Flushing(_) => if s.writer.batch == [] then FlushNothing else TransactionOk
    case Committed(_) => PublishBatch
    case FlushDone(_, _) => FlushReturns
    case Replying(_, _) => Reply
    case Replied(_, _) => CloseBarrier
    case Finishing(_) => EnterDrain
    case Discarding(_) => FoundEmpty
    case Closing(_) => CloseDatabase(false)
    case Stopped(_) => Tick
  }

  /** Writer steps still ahead at a control point; receiving an item pays for its processing. */
  function Weight(pc: WriterPc): nat {
    match pc
    case Selecting => 10
    case Took(_) => 18
    case Adding(_) => 17
    case Flushing(why) => if why == Final then 9 else 16
    case Committed(why) => if why == Final then 8 else 15
    case FlushDone(why, _) => if why == Final then 7 else 14
    case Replying(_, _) => 13
    case Replied(_, _) => 12
    case Finishing(_) => 6
    case Discarding(_) => 5
    case Closing(_) => 4
    case Stopped(_) => 0
  }

  function Remaining(s: State): nat {
    20 * |s.wire.queue| + Weight(s.writer.pc) + Number(!s.writer.draining)
  }

  lemma SelectingDecreases(cfg: Config, s: State)
    requires s.writer.pc == Selecting && WriterEnabled(s, NextStep(s))
    ensures var t := WriterApply(cfg, s, NextStep(s)); Remaining(t) < Remaining(s) && t.gate == s.gate
  {
  }

  lemma RemainingDecreases(cfg: Config, s: State)
    requires WriterOk(cfg, s.writer, s.wire.queue)
    requires !s.writer.pc.Stopped? && WriterEnabled(s, NextStep(s))
    ensures var t := WriterApply(cfg, s, NextStep(s)); Remaining(t) < Remaining(s) && t.gate == s.gate
  {
    if s.writer.pc == Selecting {
      SelectingDecreases(cfg, s);
    }
  }

  lemma DrainStepEnabled(cfg: Config, s: State)
    requires WriterOk(cfg, s.writer, s.wire.queue) && BarriersOk(s.flushes, s.wire.queue, s.writer.pc)
    requires s.gate.closeReady && !s.writer.pc.Stopped?
    ensures WriterEnabled(s, NextStep(s))
  {
  }

  /** `done` closes without an error, as far as it has closed. */
  predicate CleanSoFar(pc: WriterPc) { pc.Stopped? ==> pc == Stopped(false) }

  lemma NextStepIsClean(cfg: Config, s: State)
    requires WriterOk(cfg, s.writer, s.wire.queue) && !s.writer.pc.Stopped? && WriterEnabled(s, NextStep(s))
    ensures NextStep(s) != TransactionFails && CleanSoFar(WriterApply(cfg, s, NextStep(s)).writer.pc)
  {
  }

  lemma DrainStep(cfg: Config, s: State)
    requires Inv(cfg, s) && s.gate.closeReady && !s.writer.pc.Stopped?
    ensures WriterEnabled(s, NextStep(s)) && NextStep(s) != TransactionFails
    ensures var t := WriterApply(cfg, s, NextStep(s));
      Remaining(t) < Remaining(s) && t.gate.closeReady && CleanSoFar(t.writer.pc)
  {
    DrainStepEnabled(cfg, s);
    RemainingDecreases(cfg, s);
    NextStepIsClean(cfg, s);
  }

  /**
   After producers have left, the writer alone finishes the shutdown: with successful transactions
   it closes `done` within `Remaining(s)` of its own steps, from whatever point it had reached.
   */
  lemma {:induction false} ShutdownCompletes(cfg: Config, s: State) returns (run: seq<Action>)
    requires cfg.Valid() && Inv(cfg, s) && s.gate.closeReady
    ensures IsRun(cfg, s, run) && |run| <= Remaining(s)
    ensures forall a | a in run :: a.W? && a.wa != TransactionFails
    ensures After(cfg, s, run).writer.pc.Stopped?
    ensures CleanSoFar(s.writer.pc) ==> CleanSoFar(After(cfg, s, run).writer.pc)
    decreases Remaining(s)
  {
    if s.writer.pc.Stopped? {
      run := [];
    } else {
      DrainStep(cfg, s);
      var a := NextStep(s);
      WriterKeepsInv(cfg, s, a);
      var rest := ShutdownCompletes(cfg, WriterApply(cfg, s, a));
      run := [W(a)] + rest;
      assert run[1..] == rest;
    }
  }

  /** Whatever the schedule so far, the writer can always move until it has stopped. */
  lemma WriterNeverStuck(cfg: Config, s: State)
    requires Reachable(cfg, s) && !s.writer.pc.Stopped?
    ensures exists a :: WriterEnabled(s, a) && a != TransactionFails
  {
    ReachableInv(cfg, s);
    if s.writer.pc == Selecting {
      if s.writer.draining {
        DrainStep(cfg, s);
      } else {
        assert WriterEnabled(s, Tick);
      }
    } else {
      WriterStepExists(cfg, s);
    }
  }

  lemma WriterStepExists(cfg: Config, s: State)
    requires WriterOk(cfg, s.writer, s.wire.queue) && BarriersOk(s.flushes, s.wire.queue, s.writer.pc)
    requires !s.writer.pc.Stopped? && s.writer.pc != Selecting
    ensures WriterEnabled(s, NextStep(s))
  {
  }

  /** The same writer, which takes an item whenever there is one. */
  function ServeStep(s: State): WriterAction {
    if s.writer.pc == Selecting && s.wire.queue != [] then Receive else NextStep(s)
  }

  /** An unanswered barrier is queued or in the writer's hands, so the writer is neither idle nor finishing. */
  lemma UnansweredIsAhead(cfg: Config, w: Writer, queue: seq<Item>, f: FlushId, call: FlushCall)
    requires WriterOk(cfg, w, queue) && BarrierOk(f, call, queue, w.pc) && call.sent && call.replies == 0
    ensures !FinalPhase(w.pc) && (w.pc == Selecting ==> queue != [])
  {
    assert multiset(queue)[BarrierItem(f)] + Number(Holds(w.pc, f)) == 1;
    assert queue == [] ==> multiset(queue)[BarrierItem(f)] == 0;
  }

  lemma ReceiveDecreases(cfg: Config, s: State)
    requires s.writer.pc == Selecting && s.wire.queue != []
    ensures Remaining(WriterApply(cfg, s, Receive)) < Remaining(s)
  {
  }

  lemma ServeStepServes(cfg: Config, s: State)
    requires WriterOk(cfg, s.writer, s.wire.queue) && BarriersOk(s.flushes, s.wire.queue, s.writer.pc)
    requires !FinalPhase(s.writer.pc) && (s.writer.pc == Selecting ==> s.wire.queue != [])
    ensures WriterEnabled(s, ServeStep(s)) && ServeStep(s) != TransactionFails
    ensures Remaining(WriterApply(cfg, s, ServeStep(s))) < Remaining(s)
  {
    if s.writer.pc == Selecting {
      ReceiveDecreases(cfg, s);
    } else {
      WriterStepExists(cfg, s);
      RemainingDecreases(cfg, s);
    }
  }

  lemma WriterLeavesCaller(cfg: Config, s: State, f: FlushId, a: WriterAction)
    requires f in s.flushes && WriterEnabled(s, a)
    ensures var t := WriterApply(cfg, s, a);
      f in t.flushes && t.flushes[f].sent == s.flushes[f].sent && t.flushes[f].pc == s.flushes[f].pc
  {
  }

  /**
   Every barrier that was sent is answered: from whatever point the run has reached, the writer alone
   answers it within `Remaining(s)` of its own steps if its transactions succeed, and a caller that
   still waits can then return.
   */
  lemma {:induction false} BarrierIsAnswered(cfg: Config, s: State, f: FlushId) returns (run: seq<Action>)
    requires cfg.Valid() && Inv(cfg, s) && f in s.flushes && s.flushes[f].sent
    ensures IsRun(cfg, s, run) && |run| <= Remaining(s)
    ensures forall a | a in run :: a.W? && a.wa != TransactionFails
    ensures var t := After(cfg, s, run);
      && f in t.flushes && t.flushes[f].replies == 1 && t.flushes[f].pc == s.flushes[f].pc
      && (s.flushes[f].pc == AwaitReply ==> FlushEnabled(cfg, t, ReceiveReply(f)))
    decreases Remaining(s)
  {
    assert BarrierOk(f, s.flushes[f], s.wire.queue, s.writer.pc);
    if s.flushes[f].replies > 0 {
      run := [];
    } else {
      UnansweredIsAhead(cfg, s.writer, s.wire.queue, f, s.flushes[f]);
      ServeStepServes(cfg, s);
      var a := W(ServeStep(s));
      StepKeepsInv(cfg, s, a);
      WriterLeavesCaller(cfg, s, f, ServeStep(s));
      var rest := BarrierIsAnswered(cfg, Apply(cfg, s, a), f);
      run := [a] + rest;
      assert run[1..] == rest;
    }
  }
}

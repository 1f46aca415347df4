/**
 The inductive invariant of the logger protocol, and the proof that every action keeps it.
 */
module LoggerInvariants {
  import opened Wrappers
  import opened LoggerProtocol
  import opened LoggerDatabase

  // ------------------------------------------------------------ vocabulary

  /** The entries among the queued items, in queue order. */
  function Entries(q: seq<Item>): seq<QueuedEntry> {
    if q == [] then []
    else (if q[0].EntryItem? then [q[0].entry] else []) + Entries(q[1..])
  }

  lemma EntriesConcat(a: seq<Item>, b: seq<Item>)
    ensures Entries(a + b) == Entries(a) + Entries(b)
  {
    if a == [] {
      assert a + b == b;
    } else {
      assert (a + b)[1..] == a[1..] + b;
    }
  }

  /** The batch entries no transaction has written yet. */
  function Unwritten(w: Writer): seq<QueuedEntry> {
    if w.pc.Committed? then [] else w.batch
  }

  /** The entry the writer has received but not yet appended to its batch. */
  function InHand(pc: WriterPc): seq<QueuedEntry> {
    if pc.Took? || pc.Adding? then [pc.entry] else []
  }

  /** Everything ahead of the queue: persisted, batched and in-hand entries. */
  function Ahead(w: Writer, stored: seq<QueuedEntry>): seq<QueuedEntry> {
    stored + Unwritten(w) + InHand(w.pc)
  }

  predicate HasSent(pc: EnqueuePc) {
    pc.Sent? || pc.DepthCounted? || pc == Leaving(true) || pc == Returned(true)
  }

  datatype Phase = Joined | Uncounted | CountedAccepted | CountedDropped

  predicate InPhase(pc: EnqueuePc, ph: Phase) {
    match ph
    case Joined => pc.Admitted? || pc.Waiting? || pc.Sent? || pc.DepthCounted? || pc.TimedOut? || pc.Leaving?
    case Uncounted => pc.Sent?
    case CountedAccepted => pc == Leaving(true) || pc == Returned(true)
    case CountedDropped => pc == Leaving(false) || pc == Returned(false)
  }

  function Calls(m: map<EnqueueId, Producer>, ph: Phase): set<EnqueueId> {
    set p | p in m && InPhase(m[p].pc, ph)
  }

  function Number(b: bool): nat { if b then 1 else 0 }

  /** Moving one call changes the size of a phase only by that call. */
  lemma CallsUpdate(m: map<EnqueueId, Producer>, p: EnqueueId, x: Producer, ph: Phase)
    ensures |Calls(m[p := x], ph)|
         == |Calls(m, ph)| - Number(p in m && InPhase(m[p].pc, ph)) + Number(InPhase(x.pc, ph))
  {
    var rest := Calls(m, ph) - {p};
    assert Calls(m[p := x], ph) == if InPhase(x.pc, ph) then rest + {p} else rest;
    assert Calls(m, ph) == if p in m && InPhase(m[p].pc, ph) then rest + {p} else rest;
  }

  /** The writer is working on the barrier of `f` and has not answered it. */
  predicate Holds(pc: WriterPc, f: FlushId) {
    || pc == Flushing(ForBarrier(f))
    || pc == Committed(ForBarrier(f))
    || (pc.FlushDone? && pc.why == ForBarrier(f))
    || (pc.Replying? && pc.flush == f)
  }

  // -------------------------------------------------------------- invariant

  /** Entries carry their call, keys are unique, and `sends` lists each sent entry once. */
  ghost predicate SendsOk(producers: map<EnqueueId, Producer>, sends: seq<QueuedEntry>) {
    && (forall p | p in producers :: producers[p].entry.call == p)
    && (forall p, q | p in producers && q in producers && p != q
          :: producers[p].entry.key != producers[q].entry.key)
    && (forall e | e in sends :: e.call in producers && producers[e.call].entry == e && HasSent(producers[e.call].pc))
    && (forall p | p in producers && HasSent(producers[p].pc) :: producers[p].entry in sends)
    && (forall i, j | 0 <= i < j < |sends| :: sends[i] != sends[j])
  }

  /** Persisted, batched, in-hand and queued entries are the sends, in order. */
  ghost predicate OrderOk(w: Writer, wire: Wire, disk: Disk, persisted: nat) {
    && wire.sends == Ahead(w, disk.stored) + Entries(wire.queue)
    && persisted + (if w.pc.Committed? then |w.batch| else 0) == |disk.stored|
  }

  predicate Terminal(pc: WriterPc) {
    pc.Finishing? || pc.Discarding? || pc.Closing? || pc.Stopped?
  }

  predicate FinalPhase(pc: WriterPc) {
    || Terminal(pc)
    || pc == Flushing(Final)
    || pc == Committed(Final)
    || (pc.FlushDone? && pc.why == Final)
  }

  predicate CarriesNoError(pc: WriterPc) {
    pc.FlushDone? || pc.Replying? || pc.Replied? || pc.Finishing? || pc.Discarding? || pc.Closing?
    ==> pc.err == NoError
  }

  ghost predicate WriterOk(cfg: Config, w: Writer, queue: seq<Item>) {
    && |w.batch| <= cfg.batchSize
    && (|w.batch| == cfg.batchSize ==> w.pc == Flushing(BySize) || w.pc == Committed(BySize))
    && (w.pc.FlushDone? || w.pc.Replying? || w.pc.Replied? || Terminal(w.pc) ==> w.batch == [])
    && (FinalPhase(w.pc) ==> w.draining && queue == [])
    && CarriesNoError(w.pc)
    && |queue| <= cfg.capacity
  }

  /** Admission stops for good before the writer is told to drain. */
  ghost predicate GateOk(producers: map<EnqueueId, Producer>, gate: Gate, draining: bool) {
    && gate.inFlight == |Calls(producers, Joined)|
    && (draining ==> gate.closeReady)
    && (gate.closeReady ==> gate.closed && gate.inFlight == 0)
    && (gate.closed ==> gate.mutex == None)
  }

  ghost predicate CallersOk(flushes: map<FlushId, FlushCall>, closers: map<CloseId, ClosePc>, gate: Gate, pc: WriterPc) {
    && (forall f | f in flushes && flushes[f].pc == Holding :: gate.mutex == Some(f))
    && (forall c | c in closers && closers[c].CloseReturned? && closers[c].result != ContextExpired :: pc.Stopped?)
  }

  ghost predicate DepthOk(producers: map<EnqueueId, Producer>, depth: int, pc: WriterPc, queue: seq<Item>) {
    depth + |Calls(producers, Uncounted)| - Number(pc.Took?) == |Entries(queue)|
  }

  ghost predicate CountedOnce(producers: map<EnqueueId, Producer>, tally: Tally) {
    && tally.accepted == |Calls(producers, CountedAccepted)|
    && tally.dropped == |Calls(producers, CountedDropped)|
  }

  /** How often the barrier of `f` exists: queued, in the writer's hands, or answered. */
  function BarrierTotal(f: FlushId, replies: nat, queue: seq<Item>, pc: WriterPc): nat {
    multiset(queue)[BarrierItem(f)] + Number(Holds(pc, f)) + replies
  }

  predicate BarrierOk(f: FlushId, call: FlushCall, queue: seq<Item>, pc: WriterPc) {
    && BarrierTotal(f, call.replies, queue, pc) == Number(call.sent)
    && (call.pc == FlushCalled || call.pc == Holding || call.pc == AwaitDone ==> !call.sent)
    && (call.pc == AwaitReply ==> call.sent && |call.reply| == call.replies)
    && |call.reply| <= call.replies
    && (call.reply != [] ==> call.reply[0] == NoError)
    && (call.replyClosed ==> call.replies == 1)
    && (pc.Replied? && pc.flush == f ==> call.replies == 1 && !call.replyClosed)
  }

  ghost predicate BarriersOk(flushes: map<FlushId, FlushCall>, queue: seq<Item>, pc: WriterPc) {
    && (forall f | f in flushes :: BarrierOk(f, flushes[f], queue, pc))
    && (forall f | BarrierItem(f) in queue :: f in flushes)
    && (forall f | Holds(pc, f) :: f in flushes)
    && (pc.Replied? ==> pc.flush in flushes)
  }

  /** A barrier sits in the queue exactly behind the sends that preceded it. */
  ghost predicate PositionsOk(flushes: map<FlushId, FlushCall>, queue: seq<Item>, w: Writer, stored: seq<QueuedEntry>) {
    && (forall j | 0 <= j < |queue| && queue[j].BarrierItem? ::
          queue[j].flush in flushes &&
          flushes[queue[j].flush].cut == |Ahead(w, stored)| + |Entries(queue[..j])|)
    && (forall f | f in flushes && Holds(w.pc, f) :: flushes[f].cut == |Ahead(w, stored)|)
    && (forall f | f in flushes && flushes[f].replies > 0 :: flushes[f].cut <= |stored|)
  }

  ghost predicate AllIn(calls: set<EnqueueId>, producers: map<EnqueueId, Producer>, entries: seq<QueuedEntry>) {
    forall p | p in calls :: p in producers && producers[p].entry in entries
  }

  /** Every call in `before` was sent ahead of the barrier; after success it is stored. */
  ghost predicate CallDurable(call: FlushCall, producers: map<EnqueueId, Producer>, sends: seq<QueuedEntry>, stored: seq<QueuedEntry>) {
    && call.before <= ReturnedTrue(producers)
    && call.cut <= |sends|
    && (call.sent ==> AllIn(call.before, producers, sends[..call.cut]))
    && (call.pc == FlushReturned(NilError) ==> AllIn(call.before, producers, stored))
  }

  ghost predicate DurableOk(flushes: map<FlushId, FlushCall>, producers: map<EnqueueId, Producer>,
                            sends: seq<QueuedEntry>, stored: seq<QueuedEntry>) {
    forall f | f in flushes :: CallDurable(flushes[f], producers, sends, stored)
  }

  /** No call uses a key the database was opened with. */
  ghost predicate CallsNew(producers: map<EnqueueId, Producer>, base: map<string, string>) {
    forall p | p in producers :: producers[p].entry.key !in base
  }

  ghost predicate Inv(cfg: Config, s: State) {
    && SendsOk(s.producers, s.wire.sends)
    && OrderOk(s.writer, s.wire, s.disk, s.tally.persisted)
    && WriterOk(cfg, s.writer, s.wire.queue)
    && GateOk(s.producers, s.gate, s.writer.draining)
    && CallersOk(s.flushes, s.closers, s.gate, s.writer.pc)
    && DepthOk(s.producers, s.tally.queueDepth, s.writer.pc, s.wire.queue)
    && CountedOnce(s.producers, s.tally)
    && BarriersOk(s.flushes, s.wire.queue, s.writer.pc)
    && PositionsOk(s.flushes, s.wire.queue, s.writer, s.disk.stored)
    && DurableOk(s.flushes, s.producers, s.wire.sends, s.disk.stored)
    && DiskOk(s.disk)
    && CallsNew(s.producers, s.disk.base)
  }

  lemma InitialInv(cfg: Config, base: map<string, string>)
    requires cfg.Valid()
    ensures Inv(cfg, Initial(base))
  {
  }

  // ------------------------------------------------------- producer actions

  lemma KeysStayUnique(producers: map<EnqueueId, Producer>, sends: seq<QueuedEntry>, e: QueuedEntry, pc: EnqueuePc)
    requires SendsOk(producers, sends)
    requires e.call !in producers && FreshKey(producers, e.key) && !HasSent(pc)
    ensures SendsOk(producers[e.call := Producer(e, pc)], sends)
  {
  }

  lemma MoveKeepsSends(producers: map<EnqueueId, Producer>, sends: seq<QueuedEntry>, p: EnqueueId, pc: EnqueuePc)
    requires SendsOk(producers, sends)
    requires p in producers && HasSent(pc) == HasSent(producers[p].pc)
    ensures SendsOk(producers[p := producers[p].(pc := pc)], sends)
  {
  }

  lemma PushKeepsSends(producers: map<EnqueueId, Producer>, sends: seq<QueuedEntry>, p: EnqueueId)
    requires SendsOk(producers, sends)
    requires p in producers && !HasSent(producers[p].pc)
    ensures SendsOk(producers[p := producers[p].(pc := Sent)], sends + [producers[p].entry])
  {
  }

  /** Only a send touches the channel, and it appends one entry to queue and history alike. */
  predicate Pushes(cfg: Config, s: State, a: ProducerAction) {
    a.WaitSend? || (a.TrySend? && HasRoom(cfg, s))
  }

  lemma ProducerKeepsSends(cfg: Config, s: State, a: ProducerAction)
    requires SendsOk(s.producers, s.wire.sends) && ProducerEnabled(cfg, s, a)
    ensures var t := ProducerApply(cfg, s, a); SendsOk(t.producers, t.wire.sends)
  {
    var t := ProducerApply(cfg, s, a);
    if a.BeginEnqueue? {
      KeysStayUnique(s.producers, s.wire.sends, t.producers[a.p].entry, t.producers[a.p].pc);
    } else if Pushes(cfg, s, a) {
      PushKeepsSends(s.producers, s.wire.sends, a.p);
    } else {
      MoveKeepsSends(s.producers, s.wire.sends, a.p, t.producers[a.p].pc);
    }
  }

  lemma ProducerKeepsOrder(cfg: Config, s: State, a: ProducerAction)
    requires OrderOk(s.writer, s.wire, s.disk, s.tally.persisted) && ProducerEnabled(cfg, s, a)
    ensures var t := ProducerApply(cfg, s, a); OrderOk(t.writer, t.wire, t.disk, t.tally.persisted)
  {
    if Pushes(cfg, s, a) {
      EntriesConcat(s.wire.queue, [EntryItem(s.producers[a.p].entry)]);
    }
  }

  lemma ProducerKeepsGate(cfg: Config, s: State, a: ProducerAction)
    requires GateOk(s.producers, s.gate, s.writer.draining) && ProducerEnabled(cfg, s, a)
    ensures var t := ProducerApply(cfg, s, a);
      && GateOk(t.producers, t.gate, t.writer.draining)
      && (Pushes(cfg, s, a) ==> !s.gate.closeReady)
  {
    var t := ProducerApply(cfg, s, a);
    CallsUpdate(s.producers, a.p, t.producers[a.p], Joined);
    if Pushes(cfg, s, a) || a.Leave? {
      assert a.p in Calls(s.producers, Joined);
    }
  }

  lemma ProducerKeepsDepth(cfg: Config, s: State, a: ProducerAction)
    requires DepthOk(s.producers, s.tally.queueDepth, s.writer.pc, s.wire.queue) && ProducerEnabled(cfg, s, a)
    ensures var t := ProducerApply(cfg, s, a); DepthOk(t.producers, t.tally.queueDepth, t.writer.pc, t.wire.queue)
  {
    var t := ProducerApply(cfg, s, a);
    CallsUpdate(s.producers, a.p, t.producers[a.p], Uncounted);
    if Pushes(cfg, s, a) {
      EntriesConcat(s.wire.queue, [EntryItem(s.producers[a.p].entry)]);
    }
  }

  lemma ProducerKeepsAccepted(cfg: Config, s: State, a: ProducerAction)
    requires s.tally.accepted == |Calls(s.producers, CountedAccepted)| && ProducerEnabled(cfg, s, a)
    ensures var t := ProducerApply(cfg, s, a); t.tally.accepted == |Calls(t.producers, CountedAccepted)|
  {
    CallsUpdate(s.producers, a.p, ProducerApply(cfg, s, a).producers[a.p], CountedAccepted);
  }

  lemma ProducerKeepsDropped(cfg: Config, s: State, a: ProducerAction)
    requires s.tally.dropped == |Calls(s.producers, CountedDropped)| && ProducerEnabled(cfg, s, a)
    ensures var t := ProducerApply(cfg, s, a); t.tally.dropped == |Calls(t.producers, CountedDropped)|
  {
    CallsUpdate(s.producers, a.p, ProducerApply(cfg, s, a).producers[a.p], CountedDropped);
  }

  lemma ProducerKeepsCounted(cfg: Config, s: State, a: ProducerAction)
    requires CountedOnce(s.producers, s.tally) && ProducerEnabled(cfg, s, a)
    ensures var t := ProducerApply(cfg, s, a); CountedOnce(t.producers, t.tally)
  {
    ProducerKeepsAccepted(cfg, s, a);
    ProducerKeepsDropped(cfg, s, a);
  }

  lemma AppendEntryKeepsBarriers(flushes: map<FlushId, FlushCall>, queue: seq<Item>, w: Writer,
                                 stored: seq<QueuedEntry>, e: QueuedEntry)
    requires BarriersOk(flushes, queue, w.pc) && PositionsOk(flushes, queue, w, stored)
    ensures BarriersOk(flushes, queue + [EntryItem(e)], w.pc)
    ensures PositionsOk(flushes, queue + [EntryItem(e)], w, stored)
  {
    var longer := queue + [EntryItem(e)];
    forall f | f in flushes
      ensures BarrierOk(f, flushes[f], longer, w.pc)
    {
      assert multiset(longer)[BarrierItem(f)] == multiset(queue)[BarrierItem(f)];
      assert BarrierOk(f, flushes[f], queue, w.pc);
    }
    forall j | 0 <= j < |longer| && longer[j].BarrierItem?
      ensures longer[..j] == queue[..j]
    {
    }
  }

  lemma ProducerKeepsBarriers(cfg: Config, s: State, a: ProducerAction)
    requires BarriersOk(s.flushes, s.wire.queue, s.writer.pc)
    requires PositionsOk(s.flushes, s.wire.queue, s.writer, s.disk.stored)
    requires ProducerEnabled(cfg, s, a)
    ensures var t := ProducerApply(cfg, s, a);
      && BarriersOk(t.flushes, t.wire.queue, t.writer.pc)
      && PositionsOk(t.flushes, t.wire.queue, t.writer, t.disk.stored)
  {
    if Pushes(cfg, s, a) {
      AppendEntryKeepsBarriers(s.flushes, s.wire.queue, s.writer, s.disk.stored, s.producers[a.p].entry);
    }
  }

  lemma EntriesStay(cfg: Config, s: State, a: ProducerAction)
    requires ProducerEnabled(cfg, s, a)
    ensures var t := ProducerApply(cfg, s, a);
      forall p | p in s.producers :: p in t.producers && t.producers[p].entry == s.producers[p].entry
  {
  }

  lemma ReturnedPcStays(cfg: Config, s: State, a: ProducerAction, p: EnqueueId)
    requires ProducerEnabled(cfg, s, a) && At(s, p, Returned(true))
    ensures At(ProducerApply(cfg, s, a), p, Returned(true))
  {
  }

  /** A call that has returned true is never moved again. */
  lemma ReturnedStay(cfg: Config, s: State, a: ProducerAction)
    requires ProducerEnabled(cfg, s, a)
    ensures var t := ProducerApply(cfg, s, a);
      && ReturnedTrue(s.producers) <= ReturnedTrue(t.producers)
      && (forall p | p in s.producers :: p in t.producers && t.producers[p].entry == s.producers[p].entry)
      && s.wire.sends <= t.wire.sends
  {
    EntriesStay(cfg, s, a);
    forall p | p in ReturnedTrue(s.producers)
      ensures At(ProducerApply(cfg, s, a), p, Returned(true))
    {
      ReturnedPcStays(cfg, s, a, p);
    }
  }

  lemma CallDurableMonotone(call: FlushCall, producers: map<EnqueueId, Producer>, producers': map<EnqueueId, Producer>,
                            sends: seq<QueuedEntry>, sends': seq<QueuedEntry>,
                            stored: seq<QueuedEntry>, stored': seq<QueuedEntry>)
    requires CallDurable(call, producers, sends, stored)
    requires ReturnedTrue(producers) <= ReturnedTrue(producers')
    requires forall p | p in producers :: p in producers' && producers'[p].entry == producers[p].entry
    requires sends <= sends' && stored <= stored'
    ensures CallDurable(call, producers', sends', stored')
  {
  }

  lemma ProducerKeepsDurable(cfg: Config, s: State, a: ProducerAction)
    requires DurableOk(s.flushes, s.producers, s.wire.sends, s.disk.stored) && ProducerEnabled(cfg, s, a)
    ensures var t := ProducerApply(cfg, s, a); DurableOk(t.flushes, t.producers, t.wire.sends, t.disk.stored)
  {
    var t := ProducerApply(cfg, s, a);
    ReturnedStay(cfg, s, a);
    forall f | f in s.flushes
      ensures CallDurable(t.flushes[f], t.producers, t.wire.sends, t.disk.stored)
    {
      CallDurableMonotone(s.flushes[f], s.producers, t.producers, s.wire.sends, t.wire.sends, s.disk.stored, t.disk.stored);
    }
  }

  lemma ProducerKeepsWriter(cfg: Config, s: State, a: ProducerAction)
    requires WriterOk(cfg, s.writer, s.wire.queue) && GateOk(s.producers, s.gate, s.writer.draining)
    requires ProducerEnabled(cfg, s, a)
    ensures var t := ProducerApply(cfg, s, a); WriterOk(cfg, t.writer, t.wire.queue)
  {
    ProducerKeepsGate(cfg, s, a);
  }

  lemma ProducerKeepsCallers(cfg: Config, s: State, a: ProducerAction)
    requires CallersOk(s.flushes, s.closers, s.gate, s.writer.pc) && ProducerEnabled(cfg, s, a)
    ensures var t := ProducerApply(cfg, s, a); CallersOk(t.flushes, t.closers, t.gate, t.writer.pc)
  {
  }

  lemma ProducerKeepsNew(cfg: Config, s: State, a: ProducerAction)
    requires CallsNew(s.producers, s.disk.base) && ProducerEnabled(cfg, s, a)
    ensures var t := ProducerApply(cfg, s, a); CallsNew(t.producers, t.disk.base) && t.disk == s.disk
  {
  }

  lemma ProducerKeepsInv(cfg: Config, s: State, a: ProducerAction)
    requires Inv(cfg, s) && ProducerEnabled(cfg, s, a)
    ensures Inv(cfg, ProducerApply(cfg, s, a))
  {
    ProducerKeepsSends(cfg, s, a);
    ProducerKeepsOrder(cfg, s, a);
    ProducerKeepsGate(cfg, s, a);
    ProducerKeepsWriter(cfg, s, a);
    ProducerKeepsDepth(cfg, s, a);
    ProducerKeepsCounted(cfg, s, a);
    ProducerKeepsBarriers(cfg, s, a);
    ProducerKeepsDurable(cfg, s, a);
    ProducerKeepsCallers(cfg, s, a);
    ProducerKeepsNew(cfg, s, a);
  }

  // ---------------------------------------------------------- flush actions

  lemma AppendBarrierKeepsEntries(queue: seq<Item>, f: FlushId)
    ensures Entries(queue + [BarrierItem(f)]) == Entries(queue)
  {
    EntriesConcat(queue, [BarrierItem(f)]);
  }

  lemma FlushKeepsOrder(cfg: Config, s: State, a: FlushAction)
    requires OrderOk(s.writer, s.wire, s.disk, s.tally.persisted)
    requires DepthOk(s.producers, s.tally.queueDepth, s.writer.pc, s.wire.queue)
    requires FlushEnabled(cfg, s, a)
    ensures var t := FlushApply(cfg, s, a);
      && OrderOk(t.writer, t.wire, t.disk, t.tally.persisted)
      && DepthOk(t.producers, t.tally.queueDepth, t.writer.pc, t.wire.queue)
  {
    if a.SendBarrier? {
      AppendBarrierKeepsEntries(s.wire.queue, a.f);
    }
  }

  lemma FlushKeepsCallers(cfg: Config, s: State, a: FlushAction)
    requires CallersOk(s.flushes, s.closers, s.gate, s.writer.pc) && FlushEnabled(cfg, s, a)
    ensures var t := FlushApply(cfg, s, a); CallersOk(t.flushes, t.closers, t.gate, t.writer.pc)
  {
  }

  lemma FlushKeepsGate(cfg: Config, s: State, a: FlushAction)
    requires GateOk(s.producers, s.gate, s.writer.draining) && WriterOk(cfg, s.writer, s.wire.queue)
    requires CallersOk(s.flushes, s.closers, s.gate, s.writer.pc)
    requires FlushEnabled(cfg, s, a)
    ensures var t := FlushApply(cfg, s, a);
      && GateOk(t.producers, t.gate, t.writer.draining)
      && WriterOk(cfg, t.writer, t.wire.queue)
  {
  }

  /** A step of the caller that leaves the queue alone and moves its own record consistently. */
  lemma CallUpdateKeepsBarriers(flushes: map<FlushId, FlushCall>, queue: seq<Item>, w: Writer,
                                stored: seq<QueuedEntry>, f: FlushId, call: FlushCall)
    requires BarriersOk(flushes, queue, w.pc) && PositionsOk(flushes, queue, w, stored)
    requires BarrierOk(f, call, queue, w.pc)
    requires if f in flushes then call.cut == flushes[f].cut && call.replies == flushes[f].replies else call.replies == 0
    ensures BarriersOk(flushes[f := call], queue, w.pc)
    ensures PositionsOk(flushes[f := call], queue, w, stored)
  {
  }

  lemma AppendBarrierKeepsBarriers(flushes: map<FlushId, FlushCall>, queue: seq<Item>, pc: WriterPc, f: FlushId, call: FlushCall)
    requires BarriersOk(flushes, queue, pc)
    requires f in flushes && flushes[f].pc == Holding
    requires call == flushes[f].(pc := AwaitReply, sent := true, cut := call.cut)
    ensures BarriersOk(flushes[f := call], queue + [BarrierItem(f)], pc)
  {
    var longer := queue + [BarrierItem(f)];
    assert BarrierOk(f, flushes[f], queue, pc);
    var updated := flushes[f := call];
    forall g | g in updated
      ensures BarrierOk(g, updated[g], longer, pc)
    {
      assert BarrierOk(g, flushes[g], queue, pc);
      assert multiset(longer)[BarrierItem(g)] == multiset(queue)[BarrierItem(g)] + Number(g == f);
    }
  }

  /** `ahead` is the number of entries ahead of the queue. */
  ghost predicate CutsOk(flushes: map<FlushId, FlushCall>, queue: seq<Item>, ahead: nat) {
    forall j | 0 <= j < |queue| && queue[j].BarrierItem? ::
      queue[j].flush in flushes && flushes[queue[j].flush].cut == ahead + |Entries(queue[..j])|
  }

  lemma AppendBarrierKeepsCuts(flushes: map<FlushId, FlushCall>, queue: seq<Item>, ahead: nat, f: FlushId, call: FlushCall)
    requires CutsOk(flushes, queue, ahead) && BarrierItem(f) !in queue && call.cut == ahead + |Entries(queue)|
    ensures CutsOk(flushes[f := call], queue + [BarrierItem(f)], ahead)
  {
    var longer := queue + [BarrierItem(f)];
    forall j | 0 <= j < |longer| && longer[j].BarrierItem?
      ensures longer[j].flush in flushes[f := call]
      ensures flushes[f := call][longer[j].flush].cut == ahead + |Entries(longer[..j])|
    {
      if j < |queue| {
        assert longer[..j] == queue[..j];
        assert queue[j] in queue;
      } else {
        assert longer[..j] == queue;
      }
    }
  }

  lemma AppendBarrierKeepsPositions(flushes: map<FlushId, FlushCall>, queue: seq<Item>, w: Writer,
                                    stored: seq<QueuedEntry>, f: FlushId, call: FlushCall)
    requires BarriersOk(flushes, queue, w.pc) && PositionsOk(flushes, queue, w, stored)
    requires f in flushes && flushes[f].pc == Holding
    requires call == flushes[f].(pc := AwaitReply, sent := true, cut := |Ahead(w, stored)| + |Entries(queue)|)
    ensures PositionsOk(flushes[f := call], queue + [BarrierItem(f)], w, stored)
  {
    assert BarrierOk(f, flushes[f], queue, w.pc);
    AppendBarrierKeepsCuts(flushes, queue, |Ahead(w, stored)|, f, call);
  }

  lemma SendBarrierKeepsBarriers(cfg: Config, s: State, f: FlushId)
    requires BarriersOk(s.flushes, s.wire.queue, s.writer.pc)
    requires PositionsOk(s.flushes, s.wire.queue, s.writer, s.disk.stored)
    requires s.wire.sends == Ahead(s.writer, s.disk.stored) + Entries(s.wire.queue)
    requires FlushEnabled(cfg, s, SendBarrier(f))
    ensures var t := FlushApply(cfg, s, SendBarrier(f));
      && BarriersOk(t.flushes, t.wire.queue, t.writer.pc)
      && PositionsOk(t.flushes, t.wire.queue, t.writer, t.disk.stored)
  {
    var call := s.flushes[f].(pc := AwaitReply, sent := true, cut := |s.wire.sends|);
    AppendBarrierKeepsBarriers(s.flushes, s.wire.queue, s.writer.pc, f, call);
    AppendBarrierKeepsPositions(s.flushes, s.wire.queue, s.writer, s.disk.stored, f, call);
  }

  lemma FlushKeepsCallOk(cfg: Config, s: State, a: FlushAction)
    requires BarriersOk(s.flushes, s.wire.queue, s.writer.pc)
    requires FlushEnabled(cfg, s, a) && !a.SendBarrier?
    ensures var call := FlushApply(cfg, s, a).flushes[a.f];
      && BarrierOk(a.f, call, s.wire.queue, s.writer.pc)
      && (if a.f in s.flushes then call.cut == s.flushes[a.f].cut && call.replies == s.flushes[a.f].replies
          else call.replies == 0)
  {
  }

  lemma FlushKeepsBarriers(cfg: Config, s: State, a: FlushAction)
    requires BarriersOk(s.flushes, s.wire.queue, s.writer.pc)
    requires PositionsOk(s.flushes, s.wire.queue, s.writer, s.disk.stored)
    requires OrderOk(s.writer, s.wire, s.disk, s.tally.persisted)
    requires FlushEnabled(cfg, s, a)
    ensures var t := FlushApply(cfg, s, a);
      && BarriersOk(t.flushes, t.wire.queue, t.writer.pc)
      && PositionsOk(t.flushes, t.wire.queue, t.writer, t.disk.stored)
  {
    if a.SendBarrier? {
      SendBarrierKeepsBarriers(cfg, s, a.f);
    } else {
      FlushKeepsCallOk(cfg, s, a);
      CallUpdateKeepsBarriers(s.flushes, s.wire.queue, s.writer, s.disk.stored, a.f, FlushApply(cfg, s, a).flushes[a.f]);
    }
  }

  lemma StoredIsPrefix(w: Writer, wire: Wire, disk: Disk, persisted: nat)
    requires OrderOk(w, wire, disk, persisted)
    ensures disk.stored <= wire.sends
  {
  }

  lemma StoppedStoresAll(cfg: Config, w: Writer, wire: Wire, disk: Disk, persisted: nat)
    requires OrderOk(w, wire, disk, persisted) && WriterOk(cfg, w, wire.queue)
    requires Terminal(w.pc)
    ensures wire.sends == disk.stored && w.batch == [] && wire.queue == []
  {
  }

  lemma SendBarrierDurable(cfg: Config, s: State, f: FlushId)
    requires FlushEnabled(cfg, s, SendBarrier(f))
    requires SendsOk(s.producers, s.wire.sends)
    requires CallDurable(s.flushes[f], s.producers, s.wire.sends, s.disk.stored)
    ensures CallDurable(FlushApply(cfg, s, SendBarrier(f)).flushes[f], s.producers, s.wire.sends, s.disk.stored)
  {
  }

  lemma ReceiveReplyDurable(cfg: Config, s: State, f: FlushId)
    requires FlushEnabled(cfg, s, ReceiveReply(f))
    requires s.disk.stored <= s.wire.sends
    requires BarrierOk(f, s.flushes[f], s.wire.queue, s.writer.pc)
    requires s.flushes[f].replies > 0 ==> s.flushes[f].cut <= |s.disk.stored|
    requires CallDurable(s.flushes[f], s.producers, s.wire.sends, s.disk.stored)
    ensures CallDurable(FlushApply(cfg, s, ReceiveReply(f)).flushes[f], s.producers, s.wire.sends, s.disk.stored)
  {
  }

  lemma ReceiveDoneDurable(cfg: Config, s: State, f: FlushId)
    requires FlushEnabled(cfg, s, ReceiveDone(f))
    requires SendsOk(s.producers, s.wire.sends) && s.wire.sends == s.disk.stored
    requires CallDurable(s.flushes[f], s.producers, s.wire.sends, s.disk.stored)
    ensures CallDurable(FlushApply(cfg, s, ReceiveDone(f)).flushes[f], s.producers, s.wire.sends, s.disk.stored)
  {
  }

  lemma OtherFlushDurable(cfg: Config, s: State, a: FlushAction)
    requires FlushEnabled(cfg, s, a) && !a.SendBarrier? && !a.ReceiveReply? && !a.ReceiveDone?
    requires a.f in s.flushes ==> CallDurable(s.flushes[a.f], s.producers, s.wire.sends, s.disk.stored)
    ensures CallDurable(FlushApply(cfg, s, a).flushes[a.f], s.producers, s.wire.sends, s.disk.stored)
  {
  }

  lemma FlushKeepsCallDurable(cfg: Config, s: State, a: FlushAction)
    requires Inv(cfg, s) && FlushEnabled(cfg, s, a)
    ensures CallDurable(FlushApply(cfg, s, a).flushes[a.f], s.producers, s.wire.sends, s.disk.stored)
  {
    if a.SendBarrier? {
      SendBarrierDurable(cfg, s, a.f);
    } else if a.ReceiveReply? {
      StoredIsPrefix(s.writer, s.wire, s.disk, s.tally.persisted);
      ReceiveReplyDurable(cfg, s, a.f);
    } else if a.ReceiveDone? {
      StoppedStoresAll(cfg, s.writer, s.wire, s.disk, s.tally.persisted);
      ReceiveDoneDurable(cfg, s, a.f);
    } else {
      OtherFlushDurable(cfg, s, a);
    }
  }

  lemma FlushKeepsDurable(cfg: Config, s: State, a: FlushAction)
    requires FlushEnabled(cfg, s, a)
    requires DurableOk(s.flushes, s.producers, s.wire.sends, s.disk.stored)
    requires CallDurable(FlushApply(cfg, s, a).flushes[a.f], s.producers, s.wire.sends, s.disk.stored)
    ensures var t := FlushApply(cfg, s, a); DurableOk(t.flushes, t.producers, t.wire.sends, t.disk.stored)
  {
  }

  lemma FlushKeepsInv(cfg: Config, s: State, a: FlushAction)
    requires Inv(cfg, s) && FlushEnabled(cfg, s, a)
    ensures Inv(cfg, FlushApply(cfg, s, a))
  {
    FlushKeepsOrder(cfg, s, a);
    FlushKeepsCallers(cfg, s, a);
    FlushKeepsGate(cfg, s, a);
    FlushKeepsBarriers(cfg, s, a);
    FlushKeepsCallDurable(cfg, s, a);
    FlushKeepsDurable(cfg, s, a);
  }

  // ---------------------------------------------------------- close actions

  lemma CloseKeepsInv(cfg: Config, s: State, a: CloseAction)
    requires Inv(cfg, s) && CloseEnabled(s, a)
    ensures Inv(cfg, CloseApply(s, a))
  {
  }

  // --------------------------------------------------------- writer actions

  lemma PopEntries(queue: seq<Item>)
    requires queue != []
    ensures Entries(queue) == (if queue[0].EntryItem? then [queue[0].entry] else []) + Entries(queue[1..])
  {
  }

  lemma ReceiveKeepsOrder(cfg: Config, s: State)
    requires OrderOk(s.writer, s.wire, s.disk, s.tally.persisted) && WriterEnabled(s, Receive)
    ensures var t := WriterApply(cfg, s, Receive); OrderOk(t.writer, t.wire, t.disk, t.tally.persisted)
  {
  }

  lemma TransactionKeepsOrder(cfg: Config, s: State)
    requires OrderOk(s.writer, s.wire, s.disk, s.tally.persisted) && WriterEnabled(s, TransactionOk)
    ensures var t := WriterApply(cfg, s, TransactionOk); OrderOk(t.writer, t.wire, t.disk, t.tally.persisted)
  {
  }

  lemma AppendKeepsOrder(cfg: Config, s: State)
    requires OrderOk(s.writer, s.wire, s.disk, s.tally.persisted) && WriterEnabled(s, Append)
    ensures var t := WriterApply(cfg, s, Append); OrderOk(t.writer, t.wire, t.disk, t.tally.persisted)
  {
  }

  lemma WriterKeepsOrder(cfg: Config, s: State, a: WriterAction)
    requires OrderOk(s.writer, s.wire, s.disk, s.tally.persisted) && WriterOk(cfg, s.writer, s.wire.queue)
    requires WriterEnabled(s, a)
    ensures var t := WriterApply(cfg, s, a); OrderOk(t.writer, t.wire, t.disk, t.tally.persisted)
  {
    if a.Receive? {
      ReceiveKeepsOrder(cfg, s);
    } else if a.TransactionOk? {
      TransactionKeepsOrder(cfg, s);
    } else if a.Append? {
      AppendKeepsOrder(cfg, s);
    }
  }

  lemma WriterKeepsWriter(cfg: Config, s: State, a: WriterAction)
    requires cfg.Valid() && WriterOk(cfg, s.writer, s.wire.queue) && WriterEnabled(s, a)
    ensures var t := WriterApply(cfg, s, a); WriterOk(cfg, t.writer, t.wire.queue)
  {
  }

  lemma WriterKeepsGate(cfg: Config, s: State, a: WriterAction)
    requires GateOk(s.producers, s.gate, s.writer.draining) && WriterEnabled(s, a)
    ensures var t := WriterApply(cfg, s, a); GateOk(t.producers, t.gate, t.writer.draining)
  {
  }

  lemma WriterKeepsCallers(cfg: Config, s: State, a: WriterAction)
    requires CallersOk(s.flushes, s.closers, s.gate, s.writer.pc) && WriterEnabled(s, a)
    ensures var t := WriterApply(cfg, s, a); CallersOk(t.flushes, t.closers, t.gate, t.writer.pc)
  {
  }

  lemma WriterKeepsDepth(cfg: Config, s: State, a: WriterAction)
    requires DepthOk(s.producers, s.tally.queueDepth, s.writer.pc, s.wire.queue) && WriterOk(cfg, s.writer, s.wire.queue)
    requires WriterEnabled(s, a)
    ensures var t := WriterApply(cfg, s, a); DepthOk(t.producers, t.tally.queueDepth, t.writer.pc, t.wire.queue)
  {
  }

  lemma ReceiveKeepsBarriers(flushes: map<FlushId, FlushCall>, queue: seq<Item>, pc: WriterPc, pc': WriterPc)
    requires BarriersOk(flushes, queue, pc) && queue != [] && pc == Selecting
    requires pc' == match queue[0] case EntryItem(e) => Took(e) case BarrierItem(f) => Flushing(ForBarrier(f))
    ensures BarriersOk(flushes, queue[1..], pc')
  {
    assert queue == [queue[0]] + queue[1..];
    forall f | f in flushes
      ensures BarrierOk(f, flushes[f], queue[1..], pc')
    {
      assert BarrierOk(f, flushes[f], queue, pc);
      assert multiset(queue)[BarrierItem(f)] == multiset(queue[1..])[BarrierItem(f)] + Number(queue[0] == BarrierItem(f));
    }
    assert queue[0] in queue;
  }

  lemma ReceiveKeepsPositions(flushes: map<FlushId, FlushCall>, queue: seq<Item>, w: Writer, w': Writer, stored: seq<QueuedEntry>)
    requires PositionsOk(flushes, queue, w, stored) && queue != [] && w.pc == Selecting
    requires w' == w.(pc := match queue[0] case EntryItem(e) => Took(e) case BarrierItem(f) => Flushing(ForBarrier(f)))
    ensures PositionsOk(flushes, queue[1..], w', stored)
  {
    var rest := queue[1..];
    forall j | 0 <= j < |rest| && rest[j].BarrierItem?
      ensures rest[j].flush in flushes
      ensures flushes[rest[j].flush].cut == |Ahead(w', stored)| + |Entries(rest[..j])|
    {
      assert rest[j] == queue[j + 1];
      assert queue[..j + 1][1..] == rest[..j];
      PopEntries(queue[..j + 1]);
    }
    if queue[0].BarrierItem? {
      assert queue[..0] == [];
    }
  }

  /** Writer steps that neither receive nor answer keep hold of the same barrier. */
  predicate Silent(a: WriterAction) {
    !a.Receive? && !a.Reply? && !a.CloseBarrier? && !a.Discard?
  }

  lemma SilentKeepsHold(cfg: Config, s: State, a: WriterAction, f: FlushId)
    requires WriterOk(cfg, s.writer, s.wire.queue) && WriterEnabled(s, a) && Silent(a)
    ensures var t := WriterApply(cfg, s, a);
      && Holds(t.writer.pc, f) == Holds(s.writer.pc, f)
      && !t.writer.pc.Replied? && !s.writer.pc.Replied?
      && t.flushes == s.flushes && t.wire == s.wire
  {
  }

  lemma SilentKeepsBarriers(cfg: Config, s: State, a: WriterAction)
    requires BarriersOk(s.flushes, s.wire.queue, s.writer.pc) && WriterOk(cfg, s.writer, s.wire.queue)
    requires WriterEnabled(s, a) && Silent(a)
    ensures var t := WriterApply(cfg, s, a); BarriersOk(t.flushes, t.wire.queue, t.writer.pc)
  {
    var t := WriterApply(cfg, s, a);
    forall f
      ensures Holds(t.writer.pc, f) == Holds(s.writer.pc, f)
      ensures !t.writer.pc.Replied? && !s.writer.pc.Replied? && t.flushes == s.flushes && t.wire == s.wire
    {
      SilentKeepsHold(cfg, s, a, f);
    }
    forall f | f in s.flushes
      ensures BarrierOk(f, s.flushes[f], s.wire.queue, t.writer.pc)
    {
      assert BarrierOk(f, s.flushes[f], s.wire.queue, s.writer.pc);
    }
  }

  /** What lies ahead of the queue keeps its length, and `stored` only grows. */
  lemma SilentKeepsAhead(cfg: Config, s: State, a: WriterAction)
    requires WriterOk(cfg, s.writer, s.wire.queue) && WriterEnabled(s, a) && Silent(a)
    ensures var t := WriterApply(cfg, s, a);
      && |Ahead(t.writer, t.disk.stored)| == |Ahead(s.writer, s.disk.stored)|
      && s.disk.stored <= t.disk.stored
  {
  }

  lemma SilentKeepsPositions(cfg: Config, s: State, a: WriterAction)
    requires PositionsOk(s.flushes, s.wire.queue, s.writer, s.disk.stored) && WriterOk(cfg, s.writer, s.wire.queue)
    requires WriterEnabled(s, a) && Silent(a)
    ensures var t := WriterApply(cfg, s, a); PositionsOk(t.flushes, t.wire.queue, t.writer, t.disk.stored)
  {
    var t := WriterApply(cfg, s, a);
    SilentKeepsAhead(cfg, s, a);
    forall f
      ensures Holds(t.writer.pc, f) == Holds(s.writer.pc, f) && t.flushes == s.flushes && t.wire == s.wire
    {
      SilentKeepsHold(cfg, s, a, f);
    }
  }

  lemma ReplyKeepsBarriers(cfg: Config, s: State)
    requires BarriersOk(s.flushes, s.wire.queue, s.writer.pc) && WriterOk(cfg, s.writer, s.wire.queue)
    requires WriterEnabled(s, Reply)
    ensures var t := WriterApply(cfg, s, Reply); BarriersOk(t.flushes, t.wire.queue, t.writer.pc)
  {
  }

  lemma ReplyKeepsPositions(cfg: Config, s: State)
    requires PositionsOk(s.flushes, s.wire.queue, s.writer, s.disk.stored) && WriterOk(cfg, s.writer, s.wire.queue)
    requires WriterEnabled(s, Reply)
    ensures var t := WriterApply(cfg, s, Reply); PositionsOk(t.flushes, t.wire.queue, t.writer, t.disk.stored)
  {
  }

  lemma CloseBarrierKeepsBarriers(cfg: Config, s: State)
    requires BarriersOk(s.flushes, s.wire.queue, s.writer.pc) && WriterEnabled(s, CloseBarrier)
    ensures var t := WriterApply(cfg, s, CloseBarrier); BarriersOk(t.flushes, t.wire.queue, t.writer.pc)
  {
  }

  lemma CloseBarrierKeepsPositions(cfg: Config, s: State)
    requires PositionsOk(s.flushes, s.wire.queue, s.writer, s.disk.stored) && WriterEnabled(s, CloseBarrier)
    ensures var t := WriterApply(cfg, s, CloseBarrier); PositionsOk(t.flushes, t.wire.queue, t.writer, t.disk.stored)
  {
  }

  lemma WriterKeepsBarriers(cfg: Config, s: State, a: WriterAction)
    requires BarriersOk(s.flushes, s.wire.queue, s.writer.pc)
    requires PositionsOk(s.flushes, s.wire.queue, s.writer, s.disk.stored)
    requires WriterOk(cfg, s.writer, s.wire.queue) && WriterEnabled(s, a)
    ensures var t := WriterApply(cfg, s, a);
      && BarriersOk(t.flushes, t.wire.queue, t.writer.pc)
      && PositionsOk(t.flushes, t.wire.queue, t.writer, t.disk.stored)
  {
    if Silent(a) {
      SilentKeepsBarriers(cfg, s, a);
      SilentKeepsPositions(cfg, s, a);
    } else if a.Receive? {
      var t := WriterApply(cfg, s, a);
      ReceiveKeepsBarriers(s.flushes, s.wire.queue, s.writer.pc, t.writer.pc);
      ReceiveKeepsPositions(s.flushes, s.wire.queue, s.writer, t.writer, s.disk.stored);
    } else if a.Reply? {
      ReplyKeepsBarriers(cfg, s);
      ReplyKeepsPositions(cfg, s);
    } else if a.CloseBarrier? {
      CloseBarrierKeepsBarriers(cfg, s);
      CloseBarrierKeepsPositions(cfg, s);
    }
  }

  lemma WriterKeepsDurable(cfg: Config, s: State, a: WriterAction)
    requires DurableOk(s.flushes, s.producers, s.wire.sends, s.disk.stored) && WriterEnabled(s, a)
    ensures var t := WriterApply(cfg, s, a); DurableOk(t.flushes, t.producers, t.wire.sends, t.disk.stored)
  {
  }

  lemma SentKeysDistinct(producers: map<EnqueueId, Producer>, sends: seq<QueuedEntry>)
    requires SendsOk(producers, sends)
    ensures forall i | 0 <= i < |sends| :: sends[i].call in producers
    ensures forall i, j | 0 <= i < j < |sends| :: sends[i].key != sends[j].key && sends[i].call != sends[j].call
  {
  }

  lemma SentKeysNew(producers: map<EnqueueId, Producer>, sends: seq<QueuedEntry>, base: map<string, string>)
    requires SendsOk(producers, sends) && CallsNew(producers, base)
    ensures KeysNew(sends, base) && KeysDiffer(sends)
  {
    SentKeysDistinct(producers, sends);
    forall i | 0 <= i < |sends|
      ensures sends[i].key !in base
    {
      assert sends[i] in sends;
    }
  }

  lemma FrontKeys(sends: seq<QueuedEntry>, front: seq<QueuedEntry>, base: map<string, string>)
    requires KeysNew(sends, base) && KeysDiffer(sends) && front <= sends
    ensures KeysNew(front, base) && KeysDiffer(front)
  {
  }

  lemma TransactionKeepsDisk(producers: map<EnqueueId, Producer>, w: Writer, wire: Wire, disk: Disk, persisted: nat)
    requires DiskOk(disk) && SendsOk(producers, wire.sends) && CallsNew(producers, disk.base)
    requires OrderOk(w, wire, disk, persisted) && w.pc.Flushing?
    ensures DiskOk(disk.(db := SetAll(disk.db, w.batch), stored := disk.stored + w.batch))
  {
    SentKeysNew(producers, wire.sends, disk.base);
    FrontKeys(wire.sends, disk.stored + w.batch, disk.base);
    WriteKeepsDisk(disk, w.batch);
  }

  lemma OtherStepsLeaveDisk(cfg: Config, s: State, a: WriterAction)
    requires WriterEnabled(s, a)
    ensures var t := WriterApply(cfg, s, a);
      && t.producers == s.producers
      && t.disk == if a.TransactionOk?
                   then s.disk.(db := SetAll(s.disk.db, s.writer.batch), stored := s.disk.stored + s.writer.batch)
                   else s.disk
  {
  }

  lemma WriterKeepsDisk(cfg: Config, s: State, a: WriterAction)
    requires DiskOk(s.disk) && WriterEnabled(s, a)
    requires SendsOk(s.producers, s.wire.sends) && CallsNew(s.producers, s.disk.base)
    requires OrderOk(s.writer, s.wire, s.disk, s.tally.persisted)
    ensures var t := WriterApply(cfg, s, a); DiskOk(t.disk) && t.disk.base == s.disk.base && t.producers == s.producers
  {
    OtherStepsLeaveDisk(cfg, s, a);
    if a.TransactionOk? {
      TransactionKeepsDisk(s.producers, s.writer, s.wire, s.disk, s.tally.persisted);
    }
  }

  lemma ExpireKeepsInv(cfg: Config, s: State, key: string)
    requires Inv(cfg, s) && key in s.disk.db
    ensures Inv(cfg, Expire(s, key))
  {
    ExpiryKeepsDisk(s.disk, key);
  }

  lemma WriterKeepsInv(cfg: Config, s: State, a: WriterAction)
    requires cfg.Valid() && Inv(cfg, s) && WriterEnabled(s, a)
    ensures Inv(cfg, WriterApply(cfg, s, a))
  {
    WriterKeepsOrder(cfg, s, a);
    WriterKeepsWriter(cfg, s, a);
    WriterKeepsGate(cfg, s, a);
    WriterKeepsCallers(cfg, s, a);
    WriterKeepsDepth(cfg, s, a);
    WriterKeepsBarriers(cfg, s, a);
    WriterKeepsDurable(cfg, s, a);
    WriterKeepsDisk(cfg, s, a);
  }
}

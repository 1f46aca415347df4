/**
 The asynchronous decision logger as a transition system.

 Any number of `enqueue`, `Flush` and `Close` calls run beside one writer. Every atomic step of
 the Go code is one action: a critical section of `stateMu`, one channel operation, one atomic
 counter, one database transaction. A run is any sequence of enabled actions, so a statement
 about every run is a statement about every interleaving.

 `sends`, `stored` and `expired` are history: the order of successful channel sends, the entries that
 successful transactions have written, and the keys the database has dropped since, each pair having
 a limited time to live. A pair may be dropped at any step. `FlushCall.before` records, when a `Flush` is called,
 which `enqueue` calls had already returned true.
 */
module LoggerProtocol {
  import opened Wrappers

  /** Identifies one `enqueue`, one `Flush` and one `Close` call. */
  type EnqueueId = nat
  type FlushId = nat
  type CloseId = nat

  datatype Config = Config(capacity: nat, batchSize: nat) {
    /** OpenLoggerWithOptions replaces non-positive options by positive defaults. */
    predicate Valid() { capacity >= 1 && batchSize >= 1 }
  }

  datatype QueuedEntry = QueuedEntry(call: EnqueueId, key: string, value: string)

  datatype Item = EntryItem(entry: QueuedEntry) | BarrierItem(flush: FlushId)

  datatype WriteResult = NoError | WriteError

  /** Where an `enqueue` call stands. */
  datatype EnqueuePc =
    | EncodingFailed              // json.Marshal failed, drop not yet recorded
    | Encoded                     // about to take stateMu
    | Refused                     // found the logger closed, drop not yet recorded
    | Admitted                    // joined the WaitGroup, before the non-blocking send
    | Waiting                     // in the select with the timer
    | Sent                        // in the channel, queueDepth not yet incremented
    | DepthCounted                // queueDepth incremented, accepted not yet
    | TimedOut                    // timer fired, drop not yet recorded
    | Leaving(ok: bool)           // counted, deferred producers.Done pending
    | Returned(ok: bool)

  datatype Producer = Producer(entry: QueuedEntry, pc: EnqueuePc)

  datatype FlushResult = NilError | Failed | ContextExpired

  datatype FlushPc =
    | FlushCalled
    | Holding                     // holds stateMu, trying to send the barrier
    | AwaitReply
    | AwaitDone                   // found the logger closed
    | FlushReturned(result: FlushResult)

  /** One `Flush` call with its barrier channel of capacity one. */
  datatype FlushCall = FlushCall(
    pc: FlushPc,
    reply: seq<WriteResult>,      // buffered values of the barrier channel
    replyClosed: bool,
    before: set<EnqueueId>,       // history: accepted before the call
    sent: bool,                   // history: the barrier entered the queue
    cut: nat,                     // history: |sends| when it did
    replies: nat)                 // history: values ever sent on the barrier channel

  datatype ClosePc = CloseCalled | CloseAwaitDone | CloseReturned(result: FlushResult)

  /** Why the writer is flushing. */
  datatype Why = BySize | ForBarrier(flush: FlushId) | ByTick | Final

  datatype WriterPc =
    | Selecting                                  // head of the select loop
    | Took(entry: QueuedEntry)                   // received, queueDepth not yet decremented
    | Adding(entry: QueuedEntry)                 // decremented, append pending
    | Flushing(why: Why)                         // entered flush, or between two attempts
    | Committed(why: Why)                        // update returned nil, bookkeeping pending
    | FlushDone(why: Why, err: WriteResult)      // flush returned err
    | Replying(flush: FlushId, err: WriteResult) // about to send on the barrier
    | Replied(flush: FlushId, err: WriteResult)  // about to close the barrier
    | Finishing(err: WriteResult)                // entered finish
    | Discarding(err: WriteResult)               // finish's drain loop
    | Closing(err: WriteResult)                  // about to close the database
    | Stopped(failed: bool)                      // closeErr is set and done is closed

  datatype Writer = Writer(
    pc: WriterPc,
    batch: seq<QueuedEntry>,
    draining: bool)               // the writer has seen closeReady

  /** The shutdown state. Only Flush keeps `stateMu` across a blocking step. */
  datatype Gate = Gate(
    mutex: Option<FlushId>,
    closed: bool,
    inFlight: int,                // the WaitGroup counter
    closeReady: bool)

  datatype Wire = Wire(
    queue: seq<Item>,
    sends: seq<QueuedEntry>)      // history

  datatype Tally = Tally(
    queueDepth: int,
    accepted: nat,
    dropped: nat,
    persisted: nat,
    writeErrors: nat)

  datatype Disk = Disk(
    base: map<string, string>,    // what the database held when it was opened
    db: map<string, string>,
    expired: set<string>,         // history
    stored: seq<QueuedEntry>)     // history

  datatype State = State(
    producers: map<EnqueueId, Producer>,
    flushes: map<FlushId, FlushCall>,
    closers: map<CloseId, ClosePc>,
    gate: Gate,
    wire: Wire,
    tally: Tally,
    writer: Writer,
    disk: Disk)

  /** A logger opened on a file that holds the pairs `base`. */
  function Initial(base: map<string, string>): State { State(
    map[], map[], map[],
    Gate(None, false, 0, false),
    Wire([], []),
    Tally(0, 0, 0, 0, 0),
    Writer(Selecting, [], false),
    Disk(base, base, {}, []))
  }

  datatype ProducerAction =
    | BeginEnqueue(p: EnqueueId, key: string, value: string, encodes: bool)
    | Admit(p: EnqueueId)
    | TrySend(p: EnqueueId)
    | WaitSend(p: EnqueueId)
    | Timeout(p: EnqueueId)
    | CountDepth(p: EnqueueId)
    | CountAccepted(p: EnqueueId)
    | RecordDrop(p: EnqueueId)
    | Leave(p: EnqueueId)

  datatype FlushAction =
    | BeginFlush(f: FlushId)
    | LockFlush(f: FlushId)
    | SendBarrier(f: FlushId)
    | CancelSend(f: FlushId)
    | ReceiveReply(f: FlushId)
    | ReceiveDone(f: FlushId)
    | CancelWait(f: FlushId)

  datatype CloseAction =
    | BeginClose(c: CloseId)
    | MarkClosed(c: CloseId)      // closeOnce: sets closed and starts the waiter
    | JoinClose(c: CloseId)       // closeOnce already ran
    | SignalReady                 // the waiter: producers.Wait returned
    | CloseReturns(c: CloseId)
    | CloseExpires(c: CloseId)

  datatype WriterAction =
    | Receive
    | Tick
    | SeeCloseReady
    | DecrementDepth
    | Append
    | FlushNothing                // len(batch) == 0
    | TransactionOk
    | TransactionFails
    | PublishBatch                // persisted.Add and batch = batch[:0]
    | FlushReturns
    | Reply
    | CloseBarrier
    | DrainedQueue                // inner default case
    | EnterDrain                  // finish: past the wait for closeReady
    | Discard                     // finish: takes an item it will not persist
    | FoundEmpty
    | CloseDatabase(fails: bool)

  /** `E` is the database dropping a pair whose time to live has run out. */
  datatype Action = P(pa: ProducerAction) | F(fa: FlushAction) | C(ca: CloseAction) | W(wa: WriterAction) | E(key: string)

  // ---------------------------------------------------------------- producers

  predicate At(s: State, p: EnqueueId, pc: EnqueuePc) {
    p in s.producers && s.producers[p].pc == pc
  }

  function Move(s: State, p: EnqueueId, pc: EnqueuePc): State
    requires p in s.producers
  {
    s.(producers := s.producers[p := s.producers[p].(pc := pc)])
  }

  /** RandomString(25) plus the time is taken to be unique. */
  predicate FreshKey(producers: map<EnqueueId, Producer>, key: string) {
    forall q | q in producers :: producers[q].entry.key != key
  }

  predicate HasRoom(cfg: Config, s: State) {
    |s.wire.queue| < cfg.capacity
  }

  predicate ProducerEnabled(cfg: Config, s: State, a: ProducerAction) {
    match a
    case BeginEnqueue(p, key, _, _) => p !in s.producers && FreshKey(s.producers, key) && key !in s.disk.base
    case Admit(p) => At(s, p, Encoded) && s.gate.mutex == None
    case TrySend(p) => At(s, p, Admitted)
    case WaitSend(p) => At(s, p, Waiting) && HasRoom(cfg, s)
    case Timeout(p) => At(s, p, Waiting)
    case CountDepth(p) => At(s, p, Sent)
    case CountAccepted(p) => At(s, p, DepthCounted)
    case RecordDrop(p) => At(s, p, EncodingFailed) || At(s, p, Refused) || At(s, p, TimedOut)
    case Leave(p) => At(s, p, Leaving(true)) || At(s, p, Leaving(false))
  }

  function PushEntry(s: State, p: EnqueueId): State
    requires p in s.producers
  {
    var e := s.producers[p].entry;
    Move(s, p, Sent).(wire := Wire(s.wire.queue + [EntryItem(e)], s.wire.sends + [e]))
  }

  function ProducerApply(cfg: Config, s: State, a: ProducerAction): State
    requires ProducerEnabled(cfg, s, a)
  {
    match a
    case BeginEnqueue(p, key, value, encodes) =>
      s.(producers := s.producers[p := Producer(QueuedEntry(p, key, value), if encodes then Encoded else EncodingFailed)])
    case Admit(p) =>
      if s.gate.closed then Move(s, p, Refused)
      else Move(s, p, Admitted).(gate := s.gate.(inFlight := s.gate.inFlight + 1))
    case TrySend(p) => if HasRoom(cfg, s) then PushEntry(s, p) else Move(s, p, Waiting)
    case WaitSend(p) => PushEntry(s, p)
    case Timeout(p) => Move(s, p, TimedOut)
    case CountDepth(p) => Move(s, p, DepthCounted).(tally := s.tally.(queueDepth := s.tally.queueDepth + 1))
    case CountAccepted(p) => Move(s, p, Leaving(true)).(tally := s.tally.(accepted := s.tally.accepted + 1))
    case RecordDrop(p) =>
      var next := if s.producers[p].pc == TimedOut then Leaving(false) else Returned(false);
      Move(s, p, next).(tally := s.tally.(dropped := s.tally.dropped + 1))
    case Leave(p) =>
      Move(s, p, Returned(s.producers[p].pc.ok)).(gate := s.gate.(inFlight := s.gate.inFlight - 1))
  }

  // -------------------------------------------------------------------- Flush

  predicate FlushAt(s: State, f: FlushId, pc: FlushPc) {
    f in s.flushes && s.flushes[f].pc == pc
  }

  function SetFlush(s: State, f: FlushId, call: FlushCall): State {
    s.(flushes := s.flushes[f := call])
  }

  function SetMutex(s: State, holder: Option<FlushId>): State {
    s.(gate := s.gate.(mutex := holder))
  }

  function ReturnedTrue(producers: map<EnqueueId, Producer>): set<EnqueueId> {
    set p | p in producers && producers[p].pc == Returned(true)
  }

  predicate FlushEnabled(cfg: Config, s: State, a: FlushAction) {
    match a
    case BeginFlush(f) => f !in s.flushes
    case LockFlush(f) => FlushAt(s, f, FlushCalled) && s.gate.mutex == None
    case SendBarrier(f) => FlushAt(s, f, Holding) && HasRoom(cfg, s)
    case CancelSend(f) => FlushAt(s, f, Holding)
    case ReceiveReply(f) => FlushAt(s, f, AwaitReply) && (s.flushes[f].reply != [] || s.flushes[f].replyClosed)
    case ReceiveDone(f) => FlushAt(s, f, AwaitDone) && s.writer.pc.Stopped?
    case CancelWait(f) => FlushAt(s, f, AwaitReply) || FlushAt(s, f, AwaitDone)
  }

  /** What the caller of a Flush or Close reads from `closeErr` once `done` is closed. */
  function CloseResult(s: State): FlushResult
    requires s.writer.pc.Stopped?
  {
    if s.writer.pc.failed then Failed else NilError
  }

  function FlushApply(cfg: Config, s: State, a: FlushAction): State
    requires FlushEnabled(cfg, s, a)
  {
    match a
    case BeginFlush(f) =>
      SetFlush(s, f, FlushCall(FlushCalled, [], false, ReturnedTrue(s.producers), false, 0, 0))
    case LockFlush(f) =>
      if s.gate.closed then SetFlush(s, f, s.flushes[f].(pc := AwaitDone))
      else SetMutex(SetFlush(s, f, s.flushes[f].(pc := Holding)), Some(f))
    case SendBarrier(f) =>
      SetMutex(SetFlush(s, f, s.flushes[f].(pc := AwaitReply, sent := true, cut := |s.wire.sends|)), None)
      .(wire := s.wire.(queue := s.wire.queue + [BarrierItem(f)]))
    case CancelSend(f) =>
      SetMutex(SetFlush(s, f, s.flushes[f].(pc := FlushReturned(ContextExpired))), None)
    case ReceiveReply(f) =>
      var call := s.flushes[f];
      // A closed, empty channel yields the zero value, a nil error.
      var err := if call.reply == [] then NoError else call.reply[0];
      var rest := if call.reply == [] then [] else call.reply[1..];
      SetFlush(s, f, call.(pc := FlushReturned(if err == NoError then NilError else Failed), reply := rest))
    case ReceiveDone(f) => SetFlush(s, f, s.flushes[f].(pc := FlushReturned(CloseResult(s))))
    case CancelWait(f) => SetFlush(s, f, s.flushes[f].(pc := FlushReturned(ContextExpired)))
  }

  // -------------------------------------------------------------------- Close

  predicate CloseAt(s: State, c: CloseId, pc: ClosePc) {
    c in s.closers && s.closers[c] == pc
  }

  predicate CloseEnabled(s: State, a: CloseAction) {
    match a
    case BeginClose(c) => c !in s.closers
    case MarkClosed(c) => CloseAt(s, c, CloseCalled) && !s.gate.closed && s.gate.mutex == None
    case JoinClose(c) => CloseAt(s, c, CloseCalled) && s.gate.closed
    case SignalReady => s.gate.closed && s.gate.inFlight == 0 && !s.gate.closeReady
    case CloseReturns(c) => CloseAt(s, c, CloseAwaitDone) && s.writer.pc.Stopped?
    case CloseExpires(c) => CloseAt(s, c, CloseAwaitDone)
  }

  function SetCloser(s: State, c: CloseId, pc: ClosePc): State {
    s.(closers := s.closers[c := pc])
  }

  function CloseApply(s: State, a: CloseAction): State
    requires CloseEnabled(s, a)
  {
    match a
    case BeginClose(c) => SetCloser(s, c, CloseCalled)
    case MarkClosed(c) => SetCloser(s, c, CloseAwaitDone).(gate := s.gate.(closed := true))
    case JoinClose(c) => SetCloser(s, c, CloseAwaitDone)
    case SignalReady => s.(gate := s.gate.(closeReady := true))
    case CloseReturns(c) => SetCloser(s, c, CloseReturned(CloseResult(s)))
    case CloseExpires(c) => SetCloser(s, c, CloseReturned(ContextExpired))
  }

  // ------------------------------------------------------------------- writer

  /** tx.Set for every entry of the batch, in order. */
  function SetAll(db: map<string, string>, entries: seq<QueuedEntry>): map<string, string>
    decreases |entries|
  {
    if entries == [] then db
    else
      var last := entries[|entries| - 1];
      SetAll(db, entries[..|entries| - 1])[last.key := last.value]
  }

  /** The barrier channel with one more value, as `item.barrier <- err` leaves it. */
  function SendReply(call: FlushCall, err: WriteResult): FlushCall {
    call.(reply := call.reply + [err], replies := call.replies + 1)
  }

  /** The channel has room and is open: the send neither blocks nor panics. */
  predicate CanReply(s: State, f: FlushId) {
    f in s.flushes && |s.flushes[f].reply| < 1 && !s.flushes[f].replyClosed
  }

  predicate CanCloseReply(s: State, f: FlushId) {
    f in s.flushes && !s.flushes[f].replyClosed
  }

  predicate WriterEnabled(s: State, a: WriterAction) {
    var pc := s.writer.pc;
    match a
    case Receive => pc == Selecting && s.wire.queue != []
    case Tick => pc == Selecting && !s.writer.draining
    case SeeCloseReady => pc == Selecting && !s.writer.draining && s.gate.closeReady
    case DrainedQueue => pc == Selecting && s.writer.draining && s.wire.queue == []
    case DecrementDepth => pc.Took?
    case Append => pc.Adding?
    case FlushNothing => pc.Flushing? && s.writer.batch == []
    case TransactionOk => pc.Flushing? && s.writer.batch != []
    case TransactionFails => pc.Flushing? && s.writer.batch != []
    case PublishBatch => pc.Committed?
    case FlushReturns => pc.FlushDone?
    case Reply => pc.Replying? && CanReply(s, pc.flush)
    case CloseBarrier => pc.Replied? && CanCloseReply(s, pc.flush)
    case EnterDrain => pc.Finishing? && (pc.err == WriteError ==> s.gate.closeReady)
    case Discard =>
      pc.Discarding? && s.wire.queue != [] &&
      (s.wire.queue[0].BarrierItem? ==> CanReply(s, s.wire.queue[0].flush))
    case FoundEmpty => pc.Discarding? && s.wire.queue == []
    case CloseDatabase(_) => pc.Closing?
  }

  function Goto(s: State, pc: WriterPc): State {
    s.(writer := s.writer.(pc := pc))
  }

  function AfterError(err: WriteResult): WriterPc {
    if err == NoError then Selecting else Finishing(err)
  }

  /** Where the writer continues when flush has returned `err`. */
  function AfterFlush(why: Why, err: WriteResult): WriterPc {
    match why
    case BySize => AfterError(err)
    case ByTick => AfterError(err)
    case ForBarrier(f) => Replying(f, err)
    case Final => Finishing(err)
  }

  function PopQueue(s: State): State
    requires s.wire.queue != []
  {
    s.(wire := s.wire.(queue := s.wire.queue[1..]))
  }

  function WriterApply(cfg: Config, s: State, a: WriterAction): State
    requires WriterEnabled(s, a)
  {
    var pc := s.writer.pc;
    match a
    case Receive =>
      Goto(PopQueue(s), match s.wire.queue[0]
                        case EntryItem(e) => Took(e)
                        case BarrierItem(f) => Flushing(ForBarrier(f)))
    case Tick => Goto(s, Flushing(ByTick))
    case SeeCloseReady => s.(writer := s.writer.(draining := true))
    case DrainedQueue => Goto(s, Flushing(Final))
    case DecrementDepth => Goto(s, Adding(pc.entry)).(tally := s.tally.(queueDepth := s.tally.queueDepth - 1))
    case Append =>
      var batch := s.writer.batch + [pc.entry];
      s.(writer := Writer(if |batch| >= cfg.batchSize then Flushing(BySize) else Selecting, batch, s.writer.draining))
    case FlushNothing => Goto(s, FlushDone(pc.why, NoError))
    case TransactionOk =>
      Goto(s, Committed(pc.why))
      .(disk := s.disk.(db := SetAll(s.disk.db, s.writer.batch), stored := s.disk.stored + s.writer.batch))
    case TransactionFails => s.(tally := s.tally.(writeErrors := s.tally.writeErrors + 1))
    case PublishBatch =>
      s.(writer := Writer(FlushDone(pc.why, NoError), [], s.writer.draining),
         tally := s.tally.(persisted := s.tally.persisted + |s.writer.batch|))
    case FlushReturns => Goto(s, AfterFlush(pc.why, pc.err))
    case Reply => Goto(SetFlush(s, pc.flush, SendReply(s.flushes[pc.flush], pc.err)), Replied(pc.flush, pc.err))
    case CloseBarrier => Goto(SetFlush(s, pc.flush, s.flushes[pc.flush].(replyClosed := true)), AfterError(pc.err))
    case EnterDrain => Goto(s, Discarding(pc.err))
    case Discard =>
      (match s.wire.queue[0]
       case EntryItem(_) => PopQueue(s).(tally := s.tally.(queueDepth := s.tally.queueDepth - 1))
       case BarrierItem(f) =>
         SetFlush(PopQueue(s), f, SendReply(s.flushes[f], pc.err).(replyClosed := true)))
    case FoundEmpty => Goto(s, Closing(pc.err))
    case CloseDatabase(fails) => Goto(s, Stopped(fails || pc.err == WriteError))
  }

  // --------------------------------------------------------------------- runs

  predicate Enabled(cfg: Config, s: State, a: Action) {
    match a
    case P(pa) => ProducerEnabled(cfg, s, pa)
    case F(fa) => FlushEnabled(cfg, s, fa)
    case C(ca) => CloseEnabled(s, ca)
    case W(wa) => WriterEnabled(s, wa)
    case E(key) => key in s.disk.db
  }

  function Expire(s: State, key: string): State {
    s.(disk := s.disk.(db := s.disk.db - {key}, expired := s.disk.expired + {key}))
  }

  function Apply(cfg: Config, s: State, a: Action): State
    requires Enabled(cfg, s, a)
  {
    match a
    case P(pa) => ProducerApply(cfg, s, pa)
    case F(fa) => FlushApply(cfg, s, fa)
    case C(ca) => CloseApply(s, ca)
    case W(wa) => WriterApply(cfg, s, wa)
    case E(key) => Expire(s, key)
  }

  /** `run` is a schedule: every action is enabled when its turn comes. */
  predicate IsRun(cfg: Config, s: State, run: seq<Action>)
    decreases |run|
  {
    run == [] || (Enabled(cfg, s, run[0]) && IsRun(cfg, Apply(cfg, s, run[0]), run[1..]))
  }

  function After(cfg: Config, s: State, run: seq<Action>): State
    requires IsRun(cfg, s, run)
    decreases |run|
  {
    if run == [] then s else After(cfg, Apply(cfg, s, run[0]), run[1..])
  }
}

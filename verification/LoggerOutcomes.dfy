/**
 What the callers of the logger can count on: why a call was dropped, when it is accepted, and that
 `Flush` and `Close` come back with success when nothing stands in the way.
 */
module LoggerOutcomes {
  import opened Wrappers
  import opened LoggerProtocol
  import opened LoggerInvariants
  import opened LoggerTheorems

  // -------------------------------------------------------------------- runs

  lemma {:induction false} LastStep(cfg: Config, s: State, run: seq<Action>)
    requires run != [] && IsRun(cfg, s, run)
    ensures var init, last := run[..|run| - 1], run[|run| - 1];
      && IsRun(cfg, s, init) && Enabled(cfg, After(cfg, s, init), last)
      && After(cfg, s, run) == Apply(cfg, After(cfg, s, init), last)
    decreases |run|
  {
    if |run| > 1 {
      LastStep(cfg, Apply(cfg, s, run[0]), run[1..]);
      assert run[1..][..|run| - 2] == run[..|run| - 1][1..];
    }
  }

  lemma {:induction false} RunThenRun(cfg: Config, s: State, a: seq<Action>, b: seq<Action>)
    requires IsRun(cfg, s, a) && IsRun(cfg, After(cfg, s, a), b)
    ensures IsRun(cfg, s, a + b) && After(cfg, s, a + b) == After(cfg, After(cfg, s, a), b)
    decreases |a|
  {
    if a == [] {
      assert a + b == b;
    } else {
      RunThenRun(cfg, Apply(cfg, s, a[0]), a[1..], b);
      assert (a + b)[1..] == a[1..] + b;
    }
  }

  lemma StepThenRun(cfg: Config, s: State, a: Action, run: seq<Action>)
    requires Enabled(cfg, s, a) && IsRun(cfg, Apply(cfg, s, a), run)
    ensures IsRun(cfg, s, [a] + run) && After(cfg, s, [a] + run) == After(cfg, Apply(cfg, s, a), run)
  {
    assert ([a] + run)[1..] == run;
  }

  lemma RunThenStep(cfg: Config, s: State, run: seq<Action>, a: Action)
    requires IsRun(cfg, s, run) && Enabled(cfg, After(cfg, s, run), a)
    ensures IsRun(cfg, s, run + [a]) && After(cfg, s, run + [a]) == Apply(cfg, After(cfg, s, run), a)
  {
    assert [a][1..] == [];
    RunThenRun(cfg, s, run, [a]);
  }

  // --------------------------------------------------------- why a call fails

  /** The entry could not be encoded. */
  ghost predicate DidNotEncode(run: seq<Action>, p: EnqueueId) {
    exists i :: 0 <= i < |run| && run[i].P? && run[i].pa.BeginEnqueue? && run[i].pa.p == p && !run[i].pa.encodes
  }

  /** Step `i` is the call's admission, and it finds the logger closed. */
  ghost predicate ClosedAt(cfg: Config, s: State, run: seq<Action>, p: EnqueueId, i: int) {
    && 0 <= i < |run| && run[i] == P(Admit(p)) && IsRun(cfg, s, run[..i])
    && After(cfg, s, run[..i]).gate.closed
  }

  ghost predicate FoundClosed(cfg: Config, s: State, run: seq<Action>, p: EnqueueId) {
    exists i :: ClosedAt(cfg, s, run, p, i)
  }

  /** Step `i` is the call's non-blocking send, and it finds the queue full. */
  ghost predicate FullAt(cfg: Config, s: State, run: seq<Action>, p: EnqueueId, i: int) {
    && 0 <= i < |run| && run[i] == P(TrySend(p)) && IsRun(cfg, s, run[..i])
    && |After(cfg, s, run[..i]).wire.queue| >= cfg.capacity
  }

  ghost predicate FoundFull(cfg: Config, s: State, run: seq<Action>, p: EnqueueId) {
    exists i :: FullAt(cfg, s, run, p, i)
  }

  /** And later its timer fires. */
  ghost predicate WaitedInVain(cfg: Config, s: State, run: seq<Action>, p: EnqueueId) {
    exists i, j :: i < j < |run| && FullAt(cfg, s, run, p, i) && run[j] == P(Timeout(p))
  }

  /** What lies behind each control point on the way to a drop. */
  ghost predicate Because(cfg: Config, s: State, run: seq<Action>, p: EnqueueId, pc: EnqueuePc) {
    match pc
    case EncodingFailed => DidNotEncode(run, p)
    case Refused => FoundClosed(cfg, s, run, p)
    case Waiting => FoundFull(cfg, s, run, p)
    case TimedOut => WaitedInVain(cfg, s, run, p)
    case Leaving(ok) => ok || WaitedInVain(cfg, s, run, p)
    case Returned(ok) => ok || DidNotEncode(run, p) || FoundClosed(cfg, s, run, p) || WaitedInVain(cfg, s, run, p)
    case _ => true
  }

  lemma StillBecause(cfg: Config, s: State, run: seq<Action>, a: Action, p: EnqueueId, pc: EnqueuePc)
    requires Because(cfg, s, run, p, pc)
    ensures Because(cfg, s, run + [a], p, pc)
  {
    var more := run + [a];
    assert forall i | 0 <= i < |run| :: more[i] == run[i] && more[..i] == run[..i];
    if DidNotEncode(run, p) {
      var i :| 0 <= i < |run| && run[i].P? && run[i].pa.BeginEnqueue? && run[i].pa.p == p && !run[i].pa.encodes;
      assert more[i] == run[i];
    }
    if i :| ClosedAt(cfg, s, run, p, i) {
      assert ClosedAt(cfg, s, more, p, i);
    }
    if i :| FullAt(cfg, s, run, p, i) {
      assert FullAt(cfg, s, more, p, i);
    }
    if i, j :| i < j < |run| && FullAt(cfg, s, run, p, i) && run[j] == P(Timeout(p)) {
      assert FullAt(cfg, s, more, p, i) && more[j] == P(Timeout(p));
    }
  }

  /** The steps of the call itself that lead towards a drop. */
  lemma DropSteps(cfg: Config, s: State, a: ProducerAction)
    requires ProducerEnabled(cfg, s, a)
    ensures a.p in ProducerApply(cfg, s, a).producers
    ensures var pc := ProducerApply(cfg, s, a).producers[a.p].pc;
      && (pc.EncodingFailed? ==> a.BeginEnqueue? && !a.encodes)
      && (pc.Refused? ==> a.Admit? && s.gate.closed)
      && (pc.Waiting? ==> a.TrySend? && |s.wire.queue| >= cfg.capacity)
      && (pc.TimedOut? ==> a.Timeout? && At(s, a.p, Waiting))
      && (pc == Leaving(false) ==> At(s, a.p, TimedOut))
      && (pc == Returned(false) ==> At(s, a.p, EncodingFailed) || At(s, a.p, Refused) || At(s, a.p, Leaving(false)))
  {
  }

  lemma OtherProducersStay(cfg: Config, s: State, a: ProducerAction, p: EnqueueId)
    requires ProducerEnabled(cfg, s, a) && a.p != p && p in ProducerApply(cfg, s, a).producers
    ensures p in s.producers && ProducerApply(cfg, s, a).producers[p] == s.producers[p]
  {
  }

  lemma OnlyOwnStepsMove(cfg: Config, s: State, a: Action, p: EnqueueId)
    requires Enabled(cfg, s, a) && p in Apply(cfg, s, a).producers && !(a.P? && a.pa.p == p)
    ensures p in s.producers && Apply(cfg, s, a).producers[p] == s.producers[p]
  {
    match a {
      case P(pa) => OtherProducersStay(cfg, s, pa, p);
      case F(fa) => assert FlushApply(cfg, s, fa).producers == s.producers;
      case C(ca) => assert CloseApply(s, ca).producers == s.producers;
      case W(wa) => OtherStepsLeaveDisk(cfg, s, wa);
      case E(_) =>
    }
  }

  lemma OwnStepBecause(cfg: Config, s: State, run: seq<Action>, a: ProducerAction)
    requires IsRun(cfg, s, run) && ProducerEnabled(cfg, After(cfg, s, run), a)
    requires var t := After(cfg, s, run); a.p in t.producers ==> Because(cfg, s, run, a.p, t.producers[a.p].pc)
    ensures a.p in ProducerApply(cfg, After(cfg, s, run), a).producers
    ensures Because(cfg, s, run + [P(a)], a.p, ProducerApply(cfg, After(cfg, s, run), a).producers[a.p].pc)
  {
    var t, more, n := After(cfg, s, run), run + [P(a)], |run|;
    DropSteps(cfg, t, a);
    assert more[n] == P(a) && more[..n] == run;
    if a.p in t.producers {
      StillBecause(cfg, s, run, P(a), a.p, t.producers[a.p].pc);
    }
    if a.Admit? && t.gate.closed {
      assert ClosedAt(cfg, s, more, a.p, n);
    }
    if a.TrySend? && |t.wire.queue| >= cfg.capacity {
      assert FullAt(cfg, s, more, a.p, n);
    }
    if a.Timeout? && At(t, a.p, Waiting) {
      var i :| FullAt(cfg, s, run, a.p, i);
      assert more[..i] == run[..i];
      assert FullAt(cfg, s, more, a.p, i) && more[n] == P(Timeout(a.p));
    }
  }

  lemma {:induction false} EveryDropHasACause(cfg: Config, base: map<string, string>, run: seq<Action>, p: EnqueueId)
    requires IsRun(cfg, Initial(base), run)
    ensures var t := After(cfg, Initial(base), run);
      p in t.producers ==> Because(cfg, Initial(base), run, p, t.producers[p].pc)
    decreases |run|
  {
    if run != [] {
      var s, init, a := Initial(base), run[..|run| - 1], run[|run| - 1];
      LastStep(cfg, s, run);
      EveryDropHasACause(cfg, base, init, p);
      assert run == init + [a];
      if a.P? && a.pa.p == p {
        OwnStepBecause(cfg, s, init, a.pa);
      } else if p in After(cfg, s, run).producers {
        OnlyOwnStepsMove(cfg, After(cfg, s, init), a, p);
        StillBecause(cfg, s, init, a, p, After(cfg, s, init).producers[p].pc);
      }
    }
  }

  /**
   A call returns false only because its entry did not encode, or its admission found the logger
   closed, or its send found the queue full and its timer then fired.
   */
  lemma DropIsJustified(cfg: Config, base: map<string, string>, run: seq<Action>, p: EnqueueId)
    requires IsRun(cfg, Initial(base), run) && At(After(cfg, Initial(base), run), p, Returned(false))
    ensures || DidNotEncode(run, p)
            || FoundClosed(cfg, Initial(base), run, p)
            || WaitedInVain(cfg, Initial(base), run, p)
  {
    EveryDropHasACause(cfg, base, run, p);
  }

  /** A call is refused only by a closed logger, and a closed logger stays closed. */
  ghost predicate RefusedOk(s: State) {
    forall p | p in s.producers && s.producers[p].pc.Refused? :: s.gate.closed
  }

  lemma StepKeepsClosed(cfg: Config, s: State, a: Action)
    requires Enabled(cfg, s, a) && s.gate.closed
    ensures Apply(cfg, s, a).gate.closed
  {
    match a {
      case P(pa) => assert ProducerApply(cfg, s, pa).gate.closed;
      case F(fa) => assert FlushApply(cfg, s, fa).gate.closed;
      case C(ca) => assert CloseApply(s, ca).gate.closed;
      case W(wa) => WriterLeavesGate(cfg, s, wa);
      case E(_) =>
    }
  }

  lemma WriterLeavesGate(cfg: Config, s: State, a: WriterAction)
    requires WriterEnabled(s, a)
    ensures WriterApply(cfg, s, a).gate == s.gate
  {
  }

  lemma StepKeepsRefused(cfg: Config, s: State, a: Action)
    requires Enabled(cfg, s, a) && RefusedOk(s)
    ensures RefusedOk(Apply(cfg, s, a))
  {
    var t := Apply(cfg, s, a);
    forall p | p in t.producers && t.producers[p].pc.Refused?
      ensures t.gate.closed
    {
      if a.P? && a.pa.p == p {
        DropSteps(cfg, s, a.pa);
      } else {
        OnlyOwnStepsMove(cfg, s, a, p);
      }
      StepKeepsClosed(cfg, s, a);
    }
  }

  lemma {:induction false} OnlyClosedRefuses(cfg: Config, s: State, run: seq<Action>)
    requires RefusedOk(s) && IsRun(cfg, s, run)
    ensures RefusedOk(After(cfg, s, run))
    decreases |run|
  {
    if run != [] {
      StepKeepsRefused(cfg, s, run[0]);
      OnlyClosedRefuses(cfg, Apply(cfg, s, run[0]), run[1..]);
    }
  }

  // ------------------------------------------------------ when it is accepted

  /** The call stands at `pc`, having sent what `sends` and counted what `tally` says. */
  ghost predicate Stands(s: State, p: EnqueueId, pc: EnqueuePc, e: QueuedEntry, sends: seq<QueuedEntry>, accepted: nat, dropped: nat) {
    && At(s, p, pc) && s.producers[p].entry == e
    && s.wire.sends == sends && s.tally.accepted == accepted && s.tally.dropped == dropped
  }

  lemma AdmitMoves(cfg: Config, s: State, p: EnqueueId, e: QueuedEntry, sends: seq<QueuedEntry>, a: nat, d: nat)
    requires Stands(s, p, Encoded, e, sends, a, d) && s.gate.mutex == None
    ensures ProducerEnabled(cfg, s, Admit(p))
    ensures Stands(ProducerApply(cfg, s, Admit(p)), p, if s.gate.closed then Refused else Admitted, e, sends, a, d)
    ensures ProducerApply(cfg, s, Admit(p)).wire == s.wire
  {
  }

  lemma SendMoves(cfg: Config, s: State, p: EnqueueId, e: QueuedEntry, sends: seq<QueuedEntry>, a: nat, d: nat)
    requires Stands(s, p, Admitted, e, sends, a, d)
    ensures ProducerEnabled(cfg, s, TrySend(p))
    ensures HasRoom(cfg, s) ==> Stands(ProducerApply(cfg, s, TrySend(p)), p, Sent, e, sends + [e], a, d)
    ensures !HasRoom(cfg, s) ==> Stands(ProducerApply(cfg, s, TrySend(p)), p, Waiting, e, sends, a, d)
  {
  }

  lemma WaitMoves(cfg: Config, s: State, p: EnqueueId, e: QueuedEntry, sends: seq<QueuedEntry>, a: nat, d: nat)
    requires Stands(s, p, Waiting, e, sends, a, d) && HasRoom(cfg, s)
    ensures ProducerEnabled(cfg, s, WaitSend(p))
    ensures Stands(ProducerApply(cfg, s, WaitSend(p)), p, Sent, e, sends + [e], a, d)
  {
  }

  lemma CountsMove(cfg: Config, s: State, p: EnqueueId, e: QueuedEntry, sends: seq<QueuedEntry>, a: nat, d: nat)
    ensures Stands(s, p, Sent, e, sends, a, d) ==>
              ProducerEnabled(cfg, s, CountDepth(p)) && Stands(ProducerApply(cfg, s, CountDepth(p)), p, DepthCounted, e, sends, a, d)
    ensures Stands(s, p, DepthCounted, e, sends, a, d) ==>
              ProducerEnabled(cfg, s, CountAccepted(p)) && Stands(ProducerApply(cfg, s, CountAccepted(p)), p, Leaving(true), e, sends, a + 1, d)
  {
  }

  lemma LeaveMoves(cfg: Config, s: State, p: EnqueueId, e: QueuedEntry, sends: seq<QueuedEntry>, a: nat, d: nat, ok: bool)
    requires Stands(s, p, Leaving(ok), e, sends, a, d)
    ensures ProducerEnabled(cfg, s, Leave(p)) && Stands(ProducerApply(cfg, s, Leave(p)), p, Returned(ok), e, sends, a, d)
  {
  }

  lemma DropMoves(cfg: Config, s: State, p: EnqueueId, e: QueuedEntry, sends: seq<QueuedEntry>, a: nat, d: nat)
    requires Stands(s, p, EncodingFailed, e, sends, a, d) || Stands(s, p, Refused, e, sends, a, d) || Stands(s, p, TimedOut, e, sends, a, d)
    ensures ProducerEnabled(cfg, s, RecordDrop(p))
    ensures Stands(ProducerApply(cfg, s, RecordDrop(p)), p,
                   if s.producers[p].pc.TimedOut? then Leaving(false) else Returned(false), e, sends, a, d + 1)
  {
  }

  /** A call whose entry is in the channel returns true by its own three remaining steps. */
  lemma SentIsAccepted(cfg: Config, s: State, p: EnqueueId, e: QueuedEntry, sends: seq<QueuedEntry>, a: nat, d: nat) returns (run: seq<Action>)
    requires Stands(s, p, Sent, e, sends, a, d)
    ensures run == [P(CountDepth(p)), P(CountAccepted(p)), P(Leave(p))]
    ensures IsRun(cfg, s, run) && Stands(After(cfg, s, run), p, Returned(true), e, sends, a + 1, d)
  {
    CountsMove(cfg, s, p, e, sends, a, d);
    var t := ProducerApply(cfg, s, CountDepth(p));
    CountsMove(cfg, t, p, e, sends, a, d);
    var u := ProducerApply(cfg, t, CountAccepted(p));
    LeaveMoves(cfg, u, p, e, sends, a + 1, d, true);
    StepThenRun(cfg, u, P(Leave(p)), []);
    StepThenRun(cfg, t, P(CountAccepted(p)), [P(Leave(p))]);
    StepThenRun(cfg, s, P(CountDepth(p)), [P(CountAccepted(p)), P(Leave(p))]);
    run := [P(CountDepth(p)), P(CountAccepted(p)), P(Leave(p))];
    assert run == [P(CountDepth(p))] + [P(CountAccepted(p)), P(Leave(p))];
    assert [P(CountAccepted(p)), P(Leave(p))] == [P(CountAccepted(p))] + [P(Leave(p))];
    assert [P(Leave(p))] == [P(Leave(p))] + [];
  }

  /** On an open logger with room, an encoded entry is accepted by the call's own five steps. */
  lemma OpenLoggerAccepts(cfg: Config, s: State, p: EnqueueId) returns (run: seq<Action>)
    requires At(s, p, Encoded) && !s.gate.closed && s.gate.mutex == None && HasRoom(cfg, s)
    ensures run == [P(Admit(p)), P(TrySend(p)), P(CountDepth(p)), P(CountAccepted(p)), P(Leave(p))]
    ensures IsRun(cfg, s, run)
    ensures Stands(After(cfg, s, run), p, Returned(true), s.producers[p].entry, s.wire.sends + [s.producers[p].entry],
                   s.tally.accepted + 1, s.tally.dropped)
  {
    var e, sends, a, d := s.producers[p].entry, s.wire.sends, s.tally.accepted, s.tally.dropped;
    AdmitMoves(cfg, s, p, e, sends, a, d);
    var t := ProducerApply(cfg, s, Admit(p));
    SendMoves(cfg, t, p, e, sends, a, d);
    var rest := SentIsAccepted(cfg, ProducerApply(cfg, t, TrySend(p)), p, e, sends + [e], a, d);
    StepThenRun(cfg, t, P(TrySend(p)), rest);
    StepThenRun(cfg, s, P(Admit(p)), [P(TrySend(p))] + rest);
    run := [P(Admit(p))] + ([P(TrySend(p))] + rest);
  }

  /** A call that waits is accepted as soon as there is room. */
  lemma RoomIsTaken(cfg: Config, s: State, p: EnqueueId) returns (run: seq<Action>)
    requires At(s, p, Waiting) && HasRoom(cfg, s)
    ensures run == [P(WaitSend(p)), P(CountDepth(p)), P(CountAccepted(p)), P(Leave(p))]
    ensures IsRun(cfg, s, run)
    ensures Stands(After(cfg, s, run), p, Returned(true), s.producers[p].entry, s.wire.sends + [s.producers[p].entry],
                   s.tally.accepted + 1, s.tally.dropped)
  {
    var e, sends, a, d := s.producers[p].entry, s.wire.sends, s.tally.accepted, s.tally.dropped;
    WaitMoves(cfg, s, p, e, sends, a, d);
    var rest := SentIsAccepted(cfg, ProducerApply(cfg, s, WaitSend(p)), p, e, sends + [e], a, d);
    StepThenRun(cfg, s, P(WaitSend(p)), rest);
    run := [P(WaitSend(p))] + rest;
  }

  /** On a closed logger the same call is dropped and counted, and nothing is sent. */
  lemma ClosedLoggerDrops(cfg: Config, s: State, p: EnqueueId) returns (run: seq<Action>)
    requires At(s, p, Encoded) && s.gate.closed && s.gate.mutex == None
    ensures run == [P(Admit(p)), P(RecordDrop(p))] && IsRun(cfg, s, run)
    ensures Stands(After(cfg, s, run), p, Returned(false), s.producers[p].entry, s.wire.sends, s.tally.accepted, s.tally.dropped + 1)
  {
    var e, sends, a, d := s.producers[p].entry, s.wire.sends, s.tally.accepted, s.tally.dropped;
    AdmitMoves(cfg, s, p, e, sends, a, d);
    var t := ProducerApply(cfg, s, Admit(p));
    DropMoves(cfg, t, p, e, sends, a, d);
    StepThenRun(cfg, t, P(RecordDrop(p)), []);
    StepThenRun(cfg, s, P(Admit(p)), [P(RecordDrop(p))] + []);
    run := [P(Admit(p))] + ([P(RecordDrop(p))] + []);
  }

  // ------------------------------------------------------ Flush and Close end

  ghost predicate FlushWork(run: seq<Action>, f: FlushId) {
    forall a | a in run :: (a.F? && a.fa.f == f) || (a.W? && a.wa != TransactionFails)
  }

  lemma LockMoves(cfg: Config, s: State, f: FlushId)
    requires FlushAt(s, f, FlushCalled) && s.gate.mutex == None && !s.gate.closed
    ensures FlushEnabled(cfg, s, LockFlush(f)) && FlushAt(FlushApply(cfg, s, LockFlush(f)), f, Holding)
    ensures FlushApply(cfg, s, LockFlush(f)).wire == s.wire
  {
  }

  lemma SendBarrierMoves(cfg: Config, s: State, f: FlushId)
    requires FlushAt(s, f, Holding) && HasRoom(cfg, s)
    ensures FlushEnabled(cfg, s, SendBarrier(f)) && FlushAt(FlushApply(cfg, s, SendBarrier(f)), f, AwaitReply)
    ensures FlushApply(cfg, s, SendBarrier(f)).flushes[f].sent
  {
  }

  /** A Flush whose barrier is in the channel returns nil once the writer has served it. */
  lemma ServedFlushReturns(cfg: Config, s: State, f: FlushId) returns (run: seq<Action>)
    requires cfg.Valid() && Inv(cfg, s) && FlushAt(s, f, AwaitReply) && s.flushes[f].sent
    ensures IsRun(cfg, s, run) && FlushAt(After(cfg, s, run), f, FlushReturned(NilError)) && FlushWork(run, f)
  {
    var served := BarrierIsAnswered(cfg, s, f);
    RunKeepsInv(cfg, s, served);
    ReplyIsNil(cfg, After(cfg, s, served), f);
    RunThenStep(cfg, s, served, F(ReceiveReply(f)));
    run := served + [F(ReceiveReply(f))];
  }

  /** A Flush on an open logger with room returns nil once the writer has served it. */
  lemma FlushCompletes(cfg: Config, s: State, f: FlushId) returns (run: seq<Action>)
    requires cfg.Valid() && Inv(cfg, s) && FlushAt(s, f, FlushCalled)
    requires !s.gate.closed && s.gate.mutex == None && HasRoom(cfg, s)
    ensures IsRun(cfg, s, run) && FlushAt(After(cfg, s, run), f, FlushReturned(NilError)) && FlushWork(run, f)
  {
    LockMoves(cfg, s, f);
    FlushKeepsInv(cfg, s, LockFlush(f));
    var t := FlushApply(cfg, s, LockFlush(f));
    SendBarrierMoves(cfg, t, f);
    FlushKeepsInv(cfg, t, SendBarrier(f));
    var rest := ServedFlushReturns(cfg, FlushApply(cfg, t, SendBarrier(f)), f);
    run := TwoFlushSteps(cfg, s, t, f, rest);
  }

  lemma TwoFlushSteps(cfg: Config, s: State, t: State, f: FlushId, rest: seq<Action>) returns (run: seq<Action>)
    requires FlushEnabled(cfg, s, LockFlush(f)) && t == FlushApply(cfg, s, LockFlush(f)) && FlushEnabled(cfg, t, SendBarrier(f))
    requires IsRun(cfg, FlushApply(cfg, t, SendBarrier(f)), rest) && FlushWork(rest, f)
    ensures IsRun(cfg, s, run) && After(cfg, s, run) == After(cfg, FlushApply(cfg, t, SendBarrier(f)), rest) && FlushWork(run, f)
  {
    StepThenRun(cfg, t, F(SendBarrier(f)), rest);
    StepThenRun(cfg, s, F(LockFlush(f)), [F(SendBarrier(f))] + rest);
    run := [F(LockFlush(f))] + ([F(SendBarrier(f))] + rest);
  }

  lemma ReplyIsNil(cfg: Config, s: State, f: FlushId)
    requires Inv(cfg, s) && FlushEnabled(cfg, s, ReceiveReply(f))
    ensures FlushAt(FlushApply(cfg, s, ReceiveReply(f)), f, FlushReturned(NilError))
  {
    assert BarrierOk(f, s.flushes[f], s.wire.queue, s.writer.pc);
  }

  ghost predicate CloseWork(run: seq<Action>) {
    forall a | a in run :: a.C? || (a.W? && a.wa != TransactionFails)
  }

  lemma MarkMoves(s: State, c: CloseId)
    requires CloseAt(s, c, CloseCalled) && !s.gate.closed && s.gate.mutex == None && !s.gate.closeReady && s.gate.inFlight == 0
    ensures CloseEnabled(s, MarkClosed(c))
    ensures var t := CloseApply(s, MarkClosed(c));
      && CloseEnabled(t, SignalReady)
      && var u := CloseApply(t, SignalReady);
         CloseAt(u, c, CloseAwaitDone) && u.gate.closeReady && u.writer == s.writer
  {
  }

  /** A waiting Close returns nil once the writer has shut down. */
  lemma ShutCloseReturns(cfg: Config, s: State, c: CloseId) returns (run: seq<Action>)
    requires cfg.Valid() && Inv(cfg, s) && CloseAt(s, c, CloseAwaitDone) && s.gate.closeReady && !s.writer.pc.Stopped?
    ensures IsRun(cfg, s, run) && CloseAt(After(cfg, s, run), c, CloseReturned(NilError)) && CloseWork(run)
  {
    var shut := ShutdownCompletes(cfg, s);
    WritersLeaveClosers(cfg, s, shut);
    RunThenStep(cfg, s, shut, C(CloseReturns(c)));
    run := shut + [C(CloseReturns(c))];
  }

  /** A Close on a logger whose producers have left returns nil once the writer has shut down. */
  lemma CloseCompletes(cfg: Config, s: State, c: CloseId) returns (run: seq<Action>)
    requires cfg.Valid() && Inv(cfg, s) && CloseAt(s, c, CloseCalled)
    requires !s.gate.closed && s.gate.mutex == None && s.gate.inFlight == 0
    ensures IsRun(cfg, s, run) && CloseAt(After(cfg, s, run), c, CloseReturned(NilError)) && CloseWork(run)
  {
    OpenIsNotStopped(cfg, s);
    MarkMoves(s, c);
    var t := CloseApply(s, MarkClosed(c));
    CloseKeepsInv(cfg, s, MarkClosed(c));
    CloseKeepsInv(cfg, t, SignalReady);
    var rest := ShutCloseReturns(cfg, CloseApply(t, SignalReady), c);
    StepThenRun(cfg, t, C(SignalReady), rest);
    StepThenRun(cfg, s, C(MarkClosed(c)), [C(SignalReady)] + rest);
    run := [C(MarkClosed(c))] + ([C(SignalReady)] + rest);
  }

  lemma OpenIsNotStopped(cfg: Config, s: State)
    requires Inv(cfg, s) && !s.gate.closed
    ensures !s.writer.pc.Stopped? && !s.gate.closeReady
  {
  }

  lemma WriterLeavesClosers(cfg: Config, s: State, a: WriterAction)
    requires WriterEnabled(s, a)
    ensures WriterApply(cfg, s, a).closers == s.closers
  {
  }

  lemma {:induction false} WritersLeaveClosers(cfg: Config, s: State, run: seq<Action>)
    requires IsRun(cfg, s, run) && forall a | a in run :: a.W?
    ensures After(cfg, s, run).closers == s.closers
    decreases |run|
  {
    if run != [] {
      assert run[0] in run;
      WriterLeavesClosers(cfg, s, run[0].wa);
      WritersLeaveClosers(cfg, Apply(cfg, s, run[0]), run[1..]);
    }
  }

  // ----------------------------------------------------------- what they report

  /** An error comes from closing the database, and from nowhere else. */
  ghost predicate ResultsOk(s: State) {
    && (forall f | f in s.flushes && s.flushes[f].pc == FlushReturned(Failed) :: s.writer.pc == Stopped(true))
    && (forall c | c in s.closers && s.closers[c] == CloseReturned(Failed) :: s.writer.pc == Stopped(true))
    && (forall c | c in s.closers && s.closers[c] == CloseReturned(NilError) :: s.writer.pc == Stopped(false))
  }

  lemma CallReports(cfg: Config, s: State, a: FlushAction)
    requires FlushEnabled(cfg, s, a) && (a.f in s.flushes ==> BarrierOk(a.f, s.flushes[a.f], s.wire.queue, s.writer.pc))
    ensures FlushApply(cfg, s, a).flushes[a.f].pc == FlushReturned(Failed) ==> s.writer.pc == Stopped(true)
  {
  }

  lemma FlushLeavesOthers(cfg: Config, s: State, a: FlushAction)
    requires FlushEnabled(cfg, s, a)
    ensures var t := FlushApply(cfg, s, a);
      && t.flushes == s.flushes[a.f := t.flushes[a.f]]
      && t.closers == s.closers && t.writer == s.writer
  {
  }

  lemma FlushReports(cfg: Config, s: State, a: FlushAction)
    requires BarriersOk(s.flushes, s.wire.queue, s.writer.pc) && FlushEnabled(cfg, s, a) && ResultsOk(s)
    ensures ResultsOk(FlushApply(cfg, s, a))
  {
    CallReports(cfg, s, a);
    FlushLeavesOthers(cfg, s, a);
  }

  lemma CloseReports(s: State, a: CloseAction)
    requires CloseEnabled(s, a) && ResultsOk(s)
    ensures ResultsOk(CloseApply(s, a))
  {
  }

  lemma WriterReports(cfg: Config, s: State, a: WriterAction)
    requires WriterEnabled(s, a) && ResultsOk(s)
    ensures ResultsOk(WriterApply(cfg, s, a))
  {
    WriterLeavesClosers(cfg, s, a);
    var t := WriterApply(cfg, s, a);
    forall f | f in t.flushes
      ensures f in s.flushes && t.flushes[f].pc == s.flushes[f].pc
    {
      WriterLeavesPc(cfg, s, a, f);
    }
  }

  lemma WriterLeavesPc(cfg: Config, s: State, a: WriterAction, f: FlushId)
    requires WriterEnabled(s, a) && f in WriterApply(cfg, s, a).flushes
    ensures f in s.flushes && WriterApply(cfg, s, a).flushes[f].pc == s.flushes[f].pc
  {
  }

  lemma ProducerReports(cfg: Config, s: State, a: ProducerAction)
    requires ProducerEnabled(cfg, s, a) && ResultsOk(s)
    ensures ResultsOk(ProducerApply(cfg, s, a))
  {
    var t := ProducerApply(cfg, s, a);
    assert t.flushes == s.flushes && t.closers == s.closers && t.writer == s.writer;
  }

  /** In every run a reported error, or success of Close, is what closing the database returned. */
  lemma {:induction false} ReportsAreTrue(cfg: Config, s: State, run: seq<Action>)
    requires cfg.Valid() && Inv(cfg, s) && ResultsOk(s) && IsRun(cfg, s, run)
    ensures ResultsOk(After(cfg, s, run))
    decreases |run|
  {
    if run != [] {
      StepKeepsInv(cfg, s, run[0]);
      match run[0] {
        case P(pa) => ProducerReports(cfg, s, pa);
        case F(fa) => FlushReports(cfg, s, fa);
        case C(ca) => CloseReports(s, ca);
        case W(wa) => WriterReports(cfg, s, wa);
        case E(_) =>
      }
      ReportsAreTrue(cfg, Apply(cfg, s, run[0]), run[1..]);
    }
  }

  function Failures(run: seq<Action>): nat {
    if run == [] then 0 else (if run[0] == W(TransactionFails) then 1 else 0) + Failures(run[1..])
  }

  /** Every failed transaction is counted, and nothing else is. */
  lemma {:induction false} WriteErrorsAreCounted(cfg: Config, s: State, run: seq<Action>)
    requires IsRun(cfg, s, run)
    ensures After(cfg, s, run).tally.writeErrors == s.tally.writeErrors + Failures(run)
    decreases |run|
  {
    if run != [] {
      StepCountsErrors(cfg, s, run[0]);
      WriteErrorsAreCounted(cfg, Apply(cfg, s, run[0]), run[1..]);
    }
  }

  lemma StepCountsErrors(cfg: Config, s: State, a: Action)
    requires Enabled(cfg, s, a)
    ensures Apply(cfg, s, a).tally.writeErrors == s.tally.writeErrors + if a == W(TransactionFails) then 1 else 0
  {
    match a {
      case P(pa) => assert ProducerApply(cfg, s, pa).tally.writeErrors == s.tally.writeErrors;
      case F(fa) => assert FlushApply(cfg, s, fa).tally == s.tally;
      case C(ca) => assert CloseApply(s, ca).tally == s.tally;
      case W(wa) => WriterCountsErrors(cfg, s, wa);
      case E(_) =>
    }
  }

  lemma WriterCountsErrors(cfg: Config, s: State, a: WriterAction)
    requires WriterEnabled(s, a)
    ensures WriterApply(cfg, s, a).tally.writeErrors == s.tally.writeErrors + if a == TransactionFails then 1 else 0
    ensures a == TransactionFails ==> WriterApply(cfg, s, a) == s.(tally := s.tally.(writeErrors := s.tally.writeErrors + 1))
  {
  }

  // ------------------------------------------------------------ the rest of it

  /** A Flush that found the logger closed reports how closing the database went. */
  lemma ClosedFlushReports(cfg: Config, s: State, f: FlushId)
    requires FlushAt(s, f, FlushCalled) && s.gate.mutex == None && s.gate.closed
    ensures FlushEnabled(cfg, s, LockFlush(f))
    ensures var t := FlushApply(cfg, s, LockFlush(f));
      && FlushAt(t, f, AwaitDone) && t.gate == s.gate
      && (s.writer.pc.Stopped? ==>
            && FlushEnabled(cfg, t, ReceiveDone(f))
            && FlushAt(FlushApply(cfg, t, ReceiveDone(f)), f, FlushReturned(if s.writer.pc == Stopped(false) then NilError else Failed)))
  {
  }

  /** A later Close joins the shutdown that is under way and returns with it. */
  lemma LaterCloseCompletes(cfg: Config, s: State, c: CloseId) returns (run: seq<Action>)
    requires cfg.Valid() && Inv(cfg, s) && CloseAt(s, c, CloseCalled) && s.gate.closed && s.gate.closeReady
    requires !s.writer.pc.Stopped?
    ensures IsRun(cfg, s, run) && CloseAt(After(cfg, s, run), c, CloseReturned(NilError)) && CloseWork(run)
  {
    CloseKeepsInv(cfg, s, JoinClose(c));
    var t := CloseApply(s, JoinClose(c));
    var rest := ShutCloseReturns(cfg, t, c);
    StepThenRun(cfg, s, C(JoinClose(c)), rest);
    run := [C(JoinClose(c))] + rest;
  }

  /** Whoever holds the lock is a Flush on its way to release it. */
  ghost predicate LockOk(s: State) {
    s.gate.mutex.Some? ==> FlushAt(s, s.gate.mutex.value, Holding)
  }

  lemma FlushKeepsLock(cfg: Config, s: State, a: FlushAction)
    requires CallersOk(s.flushes, s.closers, s.gate, s.writer.pc) && FlushEnabled(cfg, s, a) && LockOk(s)
    ensures LockOk(FlushApply(cfg, s, a))
  {
  }

  lemma WriterKeepsLock(cfg: Config, s: State, a: WriterAction)
    requires WriterEnabled(s, a) && LockOk(s)
    ensures LockOk(WriterApply(cfg, s, a))
  {
    WriterLeavesGate(cfg, s, a);
    if s.gate.mutex.Some? {
      WriterLeavesCaller(cfg, s, s.gate.mutex.value, a);
    }
  }

  lemma StepKeepsLock(cfg: Config, s: State, a: Action)
    requires CallersOk(s.flushes, s.closers, s.gate, s.writer.pc) && Enabled(cfg, s, a) && LockOk(s)
    ensures LockOk(Apply(cfg, s, a))
  {
    match a {
      case P(pa) => ProducerKeepsLock(cfg, s, pa);
      case F(fa) => FlushKeepsLock(cfg, s, fa);
      case C(ca) => assert CloseApply(s, ca).gate.mutex == s.gate.mutex && CloseApply(s, ca).flushes == s.flushes;
      case W(wa) => WriterKeepsLock(cfg, s, wa);
      case E(_) =>
    }
  }

  lemma HolderCanRelease(cfg: Config, s: State)
    requires LockOk(s) && s.gate.mutex.Some?
    ensures FlushEnabled(cfg, s, CancelSend(s.gate.mutex.value))
    ensures FlushApply(cfg, s, CancelSend(s.gate.mutex.value)).gate.mutex == None
  {
  }

  /** In every run the lock is free or held by a Flush that can give it up at once: no caller keeps it for good. */
  lemma {:induction false} LockIsReleased(cfg: Config, s: State, run: seq<Action>)
    requires cfg.Valid() && Inv(cfg, s) && LockOk(s) && IsRun(cfg, s, run)
    ensures LockOk(After(cfg, s, run))
    decreases |run|
  {
    if run != [] {
      StepKeepsInv(cfg, s, run[0]);
      StepKeepsLock(cfg, s, run[0]);
      LockIsReleased(cfg, Apply(cfg, s, run[0]), run[1..]);
    }
  }

  lemma ProducerKeepsLock(cfg: Config, s: State, a: ProducerAction)
    requires ProducerEnabled(cfg, s, a) && LockOk(s)
    ensures LockOk(ProducerApply(cfg, s, a))
  {
    var t := ProducerApply(cfg, s, a);
    assert t.flushes == s.flushes && t.gate.mutex == s.gate.mutex;
  }

  // ------------------------------------------------------ every send is stored

  ghost predicate WriterWork(run: seq<Action>) {
    forall a | a in run :: a.W? && a.wa != TransactionFails
  }

  /** A tick writes whatever the batch holds. */
  lemma TickStores(cfg: Config, s: State) returns (run: seq<Action>)
    requires s.writer.pc == Selecting && !s.writer.draining
    ensures IsRun(cfg, s, run) && WriterWork(run)
    ensures After(cfg, s, run).disk.stored == s.disk.stored + s.writer.batch
    ensures After(cfg, s, run).wire == s.wire
  {
    var t := WriterApply(cfg, s, Tick);
    var a := if s.writer.batch == [] then FlushNothing else TransactionOk;
    TickMoves(cfg, s);
    StepThenRun(cfg, t, W(a), []);
    StepThenRun(cfg, s, W(Tick), [W(a)] + []);
    run := [W(Tick)] + ([W(a)] + []);
  }

  lemma TickMoves(cfg: Config, s: State)
    requires s.writer.pc == Selecting && !s.writer.draining
    ensures WriterEnabled(s, Tick)
    ensures var t, a := WriterApply(cfg, s, Tick), if s.writer.batch == [] then FlushNothing else TransactionOk;
      && WriterEnabled(t, a)
      && WriterApply(cfg, t, a).disk.stored == s.disk.stored + s.writer.batch && WriterApply(cfg, t, a).wire == s.wire
  {
  }

  /** The writer alone empties the queue of an open logger. */
  lemma {:induction false} QueueIsServed(cfg: Config, s: State) returns (run: seq<Action>)
    requires cfg.Valid() && Inv(cfg, s) && !s.gate.closeReady
    ensures IsRun(cfg, s, run) && WriterWork(run) && |run| <= Remaining(s)
    ensures var t := After(cfg, s, run);
      Inv(cfg, t) && t.writer.pc == Selecting && t.wire.queue == [] && t.wire.sends == s.wire.sends && t.gate == s.gate
    decreases Remaining(s)
  {
    if s.writer.pc == Selecting && s.wire.queue == [] {
      run := [];
    } else {
      OpenIsNotFinishing(cfg, s);
      ServeStepServes(cfg, s);
      var a := ServeStep(s);
      WriterKeepsInv(cfg, s, a);
      WriterLeavesGate(cfg, s, a);
      WriterOnlyGrows(cfg, s, a);
      var rest := QueueIsServed(cfg, WriterApply(cfg, s, a));
      StepThenRun(cfg, s, W(a), rest);
      run := [W(a)] + rest;
    }
  }

  lemma OpenIsNotFinishing(cfg: Config, s: State)
    requires Inv(cfg, s) && !s.gate.closeReady
    ensures !FinalPhase(s.writer.pc) && !s.writer.draining
  {
  }

  /**
   Whatever has been sent is stored: from every reachable state the writer alone, its transactions
   succeeding, brings every send into the database.
   */
  lemma EverySendIsStored(cfg: Config, s: State) returns (run: seq<Action>)
    requires cfg.Valid() && Inv(cfg, s)
    ensures IsRun(cfg, s, run) && WriterWork(run) && After(cfg, s, run).disk.stored == s.wire.sends
  {
    if s.gate.closeReady {
      run := ShutdownCompletes(cfg, s);
      RunKeepsInv(cfg, s, run);
      var t := After(cfg, s, run);
      StoppedStoresAll(cfg, t.writer, t.wire, t.disk, t.tally.persisted);
      WritersLeaveSends(cfg, s, run);
    } else {
      var served := QueueIsServed(cfg, s);
      var t := After(cfg, s, served);
      OpenIsNotFinishing(cfg, t);
      var tick := TickStores(cfg, t);
      RunThenRun(cfg, s, served, tick);
      run := served + tick;
      assert t.wire.sends == t.disk.stored + t.writer.batch by {
        assert Entries(t.wire.queue) == [];
      }
    }
  }

  lemma {:induction false} WritersLeaveSends(cfg: Config, s: State, run: seq<Action>)
    requires IsRun(cfg, s, run) && forall a | a in run :: a.W?
    ensures After(cfg, s, run).wire.sends == s.wire.sends
    decreases |run|
  {
    if run != [] {
      assert run[0] in run;
      WriterOnlyGrows(cfg, s, run[0].wa);
      WritersLeaveSends(cfg, Apply(cfg, s, run[0]), run[1..]);
    }
  }

  // ------------------------------------------------------------------ batches

  /** A flush for size finds the batch full, so entries are written in batches and not one by one. */
  ghost predicate FullOk(cfg: Config, w: Writer) {
    w.pc == Flushing(BySize) || w.pc == Committed(BySize) ==> |w.batch| == cfg.batchSize
  }

  lemma WriterKeepsFull(cfg: Config, s: State, a: WriterAction)
    requires WriterOk(cfg, s.writer, s.wire.queue) && WriterEnabled(s, a) && FullOk(cfg, s.writer)
    ensures FullOk(cfg, WriterApply(cfg, s, a).writer)
  {
  }

  lemma {:induction false} BatchesAreFull(cfg: Config, s: State, run: seq<Action>)
    requires cfg.Valid() && Inv(cfg, s) && FullOk(cfg, s.writer) && IsRun(cfg, s, run)
    ensures FullOk(cfg, After(cfg, s, run).writer)
    decreases |run|
  {
    if run != [] {
      StepKeepsInv(cfg, s, run[0]);
      match run[0] {
        case P(pa) => assert ProducerApply(cfg, s, pa).writer == s.writer;
        case F(fa) => assert FlushApply(cfg, s, fa).writer == s.writer;
        case C(ca) => assert CloseApply(s, ca).writer == s.writer;
        case W(wa) => WriterKeepsFull(cfg, s, wa);
        case E(_) =>
      }
      BatchesAreFull(cfg, Apply(cfg, s, run[0]), run[1..]);
    }
  }
}

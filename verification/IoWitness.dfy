/** Runs that show how far the engine's promises go. */
module IoWitness {
  import opened ReqState
  import opened IoProtocol
  import opened IoCounters
  import opened IoRuns

  /** A queue of one slot and one receive takes one step more. */
  lemma Go(s: State, e: Event) returns (t: State)
    requires Reachable(1, 1, s) && Enabled(s, e)
    ensures t == Step(s, e) && Reachable(1, 1, t)
  {
    var run :| Runnable(Init(1, 1), run) && Run(Init(1, 1), run) == s;
    RunAppend(Init(1, 1), run, e);
    t := Step(s, e);
  }

  const ARMED: Flags := Flags(true, true, false, false, false, false, false)

  /** The slot, in the life of host I/O 0, whose command id is 0. */
  function Life(bits: Bits, parent: Option<nat>, t: WrType, wr: Wr, p: Point, r: Resp, answer: int,
      handoffs: nat): Slot {
    Slot(bits, 0, parent, t, wr, 1, 0, p, r, 0, 0, answer, handoffs)
  }

  function Waiting(pc: SubPc, home: Home, fn: bool): Io {
    Io(pc, fn, true, 0, home, 0, false, false, 0, 0, false, false)
  }

  /** The whole state, while the host I/O is 0 and slot 0 holds it. */
  function Alone(x: Slot, o: Io, tabled: bool, scq: ScqPc, rcq: RcqPc, owed: bool, answers: map<nat, Answer>,
      c: Counters, f: Flags): State {
    State([x], if tabled then NoEntries()[0 := Some(0)] else NoEntries(), 1, [o], scq, rcq, FlushIdle,
          if owed then map[0 := 0] else map[], answers, c, f)
  }

  const SCQ_RUNS: Flags := Flags(false, true, false, false, false, false, false)
  const BOTH_RUN: Flags := Flags(false, false, false, false, false, false, false)
  const IN_SLOT: Io := Waiting(Counting, InSlot(0), true)
  const IN_HAND: Io := Waiting(Counting, InScq, true)

  lemma Claimed() returns (s: State)
    ensures Reachable(1, 1, s)
    ensures s == Alone(FREE_SLOT.(bits := ALLOCATED, point := Ticketing),
                       Waiting(SubAt(Ticketing, 0), InSlot(0), true), false,
                       ScqIdle, RcqIdle, false, map[], Counters(1, 1, 0, 0, 0, 1), ARMED).(next := 0)
  {
    s := Init(1, 1);
    assert Runnable(s, []) && Run(s, []) == s;
    assert s.slots == [FREE_SLOT];
    s := Go(s, Admit);
    assert s.ios == [NEW_IO];
    s := Go(s, Submitter(0, 1));
  }

  lemma Mapped() returns (s: State)
    ensures Reachable(1, 1, s)
    ensures s == Alone(Life(0x3, Some(0), BuildLam, Owned, FrWriting, NoCommand, 0, 0),
                       Waiting(SubAt(FrWriting, 0), InSlot(0), true), false,
                       ScqIdle, RcqIdle, false, map[], Counters(1, 1, 0, 0, 0, 1), ARMED)
  {
    s := Claimed();
    s := Go(s, Submitter(0, 1));
    s := Go(s, Submitter(0, 1));
    s := Go(s, Submitter(0, 1));
  }

  /** The fast register is posted; the submitter has not counted it yet. */
  lemma Registered() returns (s: State)
    ensures Reachable(1, 1, s)
    ensures s == Alone(Life(0x7, Some(0), FastRegister, Posted(FastRegister), Registering, NoCommand, 0, 0), IN_SLOT,
                       false, ScqIdle, RcqIdle, false, map[], Counters(1, 1, 0, 0, 0, 1), ARMED)
  {
    s := Mapped();
    s := Go(s, Submitter(0, 1));
    s := Go(s, Submitter(0, 1));
    s := Go(s, Submitter(0, 1));
  }

  lemma Entered() returns (s: State)
    ensures Reachable(1, 1, s)
    ensures s == Alone(Life(0x7, Some(0), FastRegister, Owned, FrCounting, NoCommand, 0, 0), IN_SLOT, false,
                       ScqAt(FrCounting, 0), RcqIdle, false, map[], Counters(1, 1, 0, 0, 0, 1), SCQ_RUNS)
  {
    s := Registered();
    s := Go(s, NdkCompletes(0));
    assert InScqQueue(s, 0);
    s := Go(s, ScqFires);
    assert InScqQueue(s, 0);
    s := Go(s, ScqRuns(0));
    s := Go(s, ScqRuns(0));
  }

  /** The fast-register counter falls below zero: its completion is counted before its posting is. */
  lemma FrCounterBelowZero() returns (s: State)
    ensures Reachable(1, 1, s) && !s.flag.collided && s.count.frOutstanding == -1
    ensures s == Alone(Life(0x7, Some(0), FastRegister, Owned, SendWriting, NoCommand, 0, 0), IN_SLOT, false,
                       ScqAt(SendWriting, 0), RcqIdle, false, map[], Counters(1, 1, -1, 0, 1, 1), SCQ_RUNS)
  {
    s := Entered();
    s := Go(s, ScqRuns(0));
  }

  lemma CommandTabled() returns (s: State)
    ensures Reachable(1, 1, s)
    ensures s == Alone(Life(0xF, Some(0), Send, Owned, SendPosting, NoCommand, 0, 0), IN_SLOT, true,
                       ScqAt(SendPosting, 0), RcqIdle, false, map[], Counters(1, 1, -1, 0, 1, 1), SCQ_RUNS)
  {
    s := FrCounterBelowZero();
    s := Go(s, ScqRuns(0));
    s := Go(s, ScqRuns(0));
    s := Go(s, ScqRuns(0));
  }

  lemma CommandSent() returns (s: State)
    ensures Reachable(1, 1, s)
    ensures s == Alone(Life(0x1F, Some(0), Send, Posted(Send), Sending, Owed, 0, 0), IN_SLOT, true,
                       ScqPoll, RcqIdle, true, map[], Counters(1, 1, -1, 1, 1, 1), SCQ_RUNS)
  {
    s := CommandTabled();
    s := Go(s, ScqRuns(0));
    s := Go(s, ScqRuns(0));
    s := Go(s, ScqRuns(0));
  }

  /** The target has answered with status 7, and the receive-queue handler is about to look the command up. */
  lemma Fetched() returns (s: State)
    ensures Reachable(1, 1, s)
    ensures s == Alone(Life(0x1F, Some(0), Send, Posted(Send), Sending, Looked, 7, 0), IN_SLOT, true,
                       ScqPoll, RcqLookup(0, 7), false, map[], Counters(0, 0, -1, 1, 1, 1), BOTH_RUN)
  {
    s := CommandSent();
    s := Go(s, TargetAnswers(0, 7));
    assert 0 in s.answers;
    s := Go(s, RcqFires);
    assert 0 in s.answers;
    s := Go(s, RcqRuns(0));
    assert s.answers == map[] && s.owed == map[];
  }

  /** The handler has published RESPONSE_RECEIVED and stops there. */
  lemma Parked() returns (s: State)
    ensures Reachable(1, 1, s)
    ensures s == Alone(Life(0x5F, Some(0), Send, Posted(Send), Sending, Ored, 7, 0), IN_SLOT, false,
                       ScqPoll, RcqStore(0, 7, 0), false, map[], Counters(0, 0, -1, 1, 1, 1), BOTH_RUN)
  {
    s := Fetched();
    s := Go(s, RcqRuns(0));
    s := Go(s, RcqRuns(0));
    assert s.table == NoEntries();
    s := Go(s, RcqRuns(0));
  }

  /** The send completion wins the hand-off meanwhile. */
  lemma Overtaken() returns (s: State)
    ensures Reachable(1, 1, s)
    ensures s == Alone(Life(FREEING, Some(0), Send, Owned, InvWriting(true), Ored, 7, 1), IN_SLOT, false,
                       ScqAt(InvWriting(true), 0), RcqStore(0, 7, 0), false, map[], Counters(0, 0, -1, 0, 1, 1),
                       BOTH_RUN)
  {
    s := Parked();
    s := Go(s, NdkCompletes(0));
    assert InScqQueue(s, 0);
    s := Go(s, ScqRuns(0));
    s := Go(s, ScqRuns(0));
    s := Go(s, ScqRuns(0));
    s := Go(s, ScqRuns(0));
  }

  lemma Invalidated() returns (s: State)
    ensures Reachable(1, 1, s)
    ensures s == Alone(Life(FREEING, Some(0), Invalidate, Completed(Invalidate), Invalidating, Ored, 7, 1), IN_SLOT,
                       false, ScqPoll, RcqStore(0, 7, 0), false, map[], Counters(0, 0, -1, 0, 1, 1), BOTH_RUN)
  {
    s := Overtaken();
    s := Go(s, ScqRuns(0));
    s := Go(s, ScqRuns(0));
    s := Go(s, NdkCompletes(0));
  }

  lemma Taken() returns (s: State)
    ensures Reachable(1, 1, s)
    ensures s == Alone(Life(FREEING, None, Invalidate, Owned, Asserting, Ored, 7, 1), IN_HAND, false,
                       ScqHas(Asserting, 0, 0), RcqStore(0, 7, 0), false, map[], Counters(0, 0, -1, 0, 1, 1), BOTH_RUN)
  {
    s := Invalidated();
    assert InScqQueue(s, 0);
    s := Go(s, ScqRuns(0));
    s := Go(s, ScqRuns(0));
    s := Go(s, ScqRuns(0));
    s := Go(s, ScqRuns(0));
  }

  lemma PagesReturned() returns (s: State)
    ensures Reachable(1, 1, s)
    ensures s == Alone(Life(FREEING, None, ReleaseLam, Owned, FnTesting, Ored, 7, 1), IN_HAND, false,
                       ScqHas(FnTesting, 0, 0), RcqStore(0, 7, 0), false, map[], Counters(0, 0, -1, 0, 0, 1), BOTH_RUN)
  {
    s := Taken();
    s := Go(s, ScqRuns(0));
  }

  lemma CallbackFetched() returns (s: State)
    ensures Reachable(1, 1, s)
    ensures s == Alone(Life(FREEING, None, ReleaseLam, Owned, Calling, Ored, 7, 1), IN_HAND.(fn := false), false,
                       ScqCall(0, 0, true), RcqStore(0, 7, 0), false, map[], Counters(0, 0, -1, 0, 0, 1), BOTH_RUN)
  {
    s := PagesReturned();
    s := Go(s, ScqRuns(0));
    s := Go(s, ScqRuns(0));
  }

  /** The host I/O is called back with status 0 although the response to its command says 7. */
  lemma StaleStatus() returns (s: State)
    ensures Reachable(1, 1, s) && !s.flag.collided
    ensures s == Alone(Life(FREEING, None, ReleaseLam, Owned, Releasing, Ored, 7, 1),
                       Io(Counting, false, true, 0, Over, 1, false, false, 0, 7, true, false), false,
                       ScqHas(Releasing, 0, 0), RcqStore(0, 7, 0), false, map[], Counters(0, 0, -1, 0, 0, 1), BOTH_RUN)
    ensures s.ios[0].calls == 1 && s.ios[0].answer == 7 && s.ios[0].delivered == 0
  {
    s := CallbackFetched();
    s := Go(s, ScqRuns(0));
  }

  /** The slot is in its next life, with host I/O 1, while the handler of its last response has still to store and
   swap. */
  lemma ReusedWhileParked() returns (s: State)
    ensures Reachable(1, 1, s) && !s.flag.collided
    ensures |s.slots| == 1 && s.slots[0].bits == ALLOCATED && s.slots[0].owner == 1 && s.rcq == RcqStore(0, 7, 0)
  {
    s := StaleStatus();
    s := Go(s, ScqRuns(0));
    s := Go(s, Admit);
    s := Go(s, Submitter(1, 1));
  }

  /** A flush takes the host I/O of a request that its submitter has just prepared, and that slot is
   never free again. */
  lemma Robbery() returns (s: State)
    ensures Reachable(1, 1, s) && !s.flag.collided
    ensures |s.slots| == 1 && Robbed(s.slots[0]) && |s.ios| == 1 && s.ios[0].home == InFlush
  {
    s := Mapped();
    s := Go(s, FlushBegins(false));
    assert Has(s.slots[0].bits, INITIALIZED);
    s := Go(s, FlushRuns);
    s := Go(s, FlushRuns);
  }

  /** A slot is FREE while the receive-queue handler has still to store the status of its last response. */
  lemma FreeWhileParked() returns (s: State)
    ensures Reachable(1, 1, s) && !s.flag.collided
    ensures |s.slots| == 1 && s.slots[0].bits == FREE && s.rcq == RcqStore(0, 7, 0)
  {
    s := StaleStatus();
    s := Go(s, ScqRuns(0));
  }
}

/** What holds in every reachable state of the request engine, stated over runs. */
module IoTheorems {
  import opened ReqState
  import opened IoProtocol
  import opened IoInvariant
  import opened IoSteps
  import opened IoCounters
  import opened IoRuns
  import opened Totals

  /** s is reachable by a run in which no insert met an occupied entry. */
  ghost predicate Runs(n: nat, r: nat, s: State) {
    Reachable(n, r, s) && !s.flag.collided
  }

  /** No assertion of the driver fires, and NDK is never misused. */
  lemma NoFault(n: nat, r: nat, s: State)
    requires Runs(n, r, s)
    ensures !s.flag.fault
  {
    ReachableSound(n, r, s);
  }

  /** The thread's assertions, and its uses of NDK: a work request is written and posted only while the driver has it.
   */
  predicate ThreadProper(s: State, pc: SubPc) {
    match pc
    case Scanning(p) => IsSlot(s, p) && s.slots[p].bits == FREE ==> s.slots[p].parent == None
    case SubAt(Parenting, i) => IsSlot(s, i) && s.slots[i].parent == None && s.slots[i].wr == Owned
    case SubAt(FrWriting, i) => IsSlot(s, i) && s.slots[i].wr == Owned
    case SubAt(FrPosting, i) => IsSlot(s, i) && s.slots[i].wr == Owned && s.slots[i].wrType == FastRegister
    case _ => true
  }

  /** The same for the send-queue handler; and the target has no other command with the id of one that is sent, the type
   it switches on is one of three, and the callback that it calls is not null. */
  predicate ScqProper(s: State) {
    match s.scq
    case ScqSwitch(i) => IsSlot(s, i) && s.slots[i].wrType in {FastRegister, Send, Invalidate}
    case ScqAt(SendWriting, i) => IsSlot(s, i) && s.slots[i].wr == Owned
    case ScqAt(SendPosting, i) =>
      IsSlot(s, i) && s.slots[i].wr == Owned && s.slots[i].wrType == Send && s.slots[i].cmdId !in s.owed
    case ScqAt(InvWriting(_), i) => IsSlot(s, i) && s.slots[i].wr == Owned
    case ScqAt(InvPosting(_), i) => IsSlot(s, i) && s.slots[i].wr == Owned && s.slots[i].wrType == Invalidate
    case ScqAt(InvChecking, i) => IsSlot(s, i) && s.slots[i].bits == FREEING
    case ScqHas(Asserting, i, _) => IsSlot(s, i) && s.slots[i].bits == FREEING && s.slots[i].wr == Owned
    case ScqCall(_, _, fn) => fn
    case _ => true
  }

  /** The same for the receive-queue handler, which finds the request that it looks up. */
  predicate RcqProper(s: State) {
    match s.rcq
    case RcqLookup(c, _) => LookedUp(s, c)
    case RcqRemove(c, _) => LookedUp(s, c)
    case RcqWrite(i) => IsSlot(s, i) && s.slots[i].wr == Owned
    case RcqPost(i) => IsSlot(s, i) && s.slots[i].wr == Owned && s.slots[i].wrType == Invalidate
    case _ => true
  }

  lemma ThreadIsProper(s: State, k: nat)
    requires Inv(s) && IsIo(s, k)
    ensures ThreadProper(s, s.ios[k].pc)
  {
    AsideOf(s, k);
    match s.ios[k].pc {
      case Scanning(p) => if IsSlot(s, p) { assert Local(s.slots[p]); }
      case SubAt(_, i) => AtSlot(s, i, k);
      case _ =>
    }
  }

  lemma ScqIsProper(s: State)
    requires Inv(s)
    ensures ScqProper(s)
  {
    AsideOf(s, 0);
    if s.scq.ScqSwitch? || s.scq.ScqAt? || s.scq.ScqHas? {
      AtSlot(s, s.scq.slot, 0);
      SaysWhatWasPosted(s.slots[s.scq.slot]);
    }
  }

  lemma RcqIsProper(s: State)
    requires Inv(s)
    ensures RcqProper(s)
  {
    AsideOf(s, 0);
    if s.rcq.RcqWrite? || s.rcq.RcqPost? { assert Local(s.slots[s.rcq.slot]); }
  }

  /** What the fault flag stands for, spelled out: every thread and handler finds what it asserts wherever it stands,
   and a completion queue fires only while its handler is idle. */
  lemma NoMisuse(n: nat, r: nat, s: State)
    requires Runs(n, r, s)
    ensures forall k: nat :: k < |s.ios| ==> ThreadProper(s, s.ios[k].pc)
    ensures ScqProper(s) && RcqProper(s)
    ensures s.flag.scqArmed ==> s.scq.ScqIdle?
    ensures s.flag.rcqArmed ==> s.rcq.RcqIdle?
    ensures s.flush.FlushCall? ==> s.flush.fn
  {
    ReachableSound(n, r, s);
    forall k: nat | k < |s.ios| ensures ThreadProper(s, s.ios[k].pc) { ThreadIsProper(s, k); }
    ScqIsProper(s);
    RcqIsProper(s);
    AsideOf(s, 0);
  }

  // ---- The hand-off ----

  /** A life is handed off at most once, and exactly when its state is FREEING. */
  lemma OneHandOff(n: nat, r: nat, s: State, i: nat)
    requires Runs(n, r, s) && IsSlot(s, i)
    ensures s.slots[i].bits != FREE ==> s.slots[i].handoffs == (if s.slots[i].bits == FREEING then 1 else 0)
  {
    ReachableSound(n, r, s);
    AtSlot(s, i, 0);
  }

  lemma DoneBits(x: Slot)
    requires Local(x) && Has(x.bits, WAITING_FOR_RESPONSE) && Has(x.bits, RESPONSE_RECEIVED)
    ensures x.bits == ALL_STATE_DONE && (x.point == SendCasing || (x.point == Sent && x.resp == Ored))
  {
  }

  /** A word that shows both the send completion and the response is ALL_STATE_DONE, whatever the order they
   came in, and does not rest: a handler of this very life stands before its compare-and-swap. */
  lemma DoneDoesNotRest(n: nat, r: nat, s: State, i: nat)
    requires Runs(n, r, s) && IsSlot(s, i)
    requires Has(s.slots[i].bits, WAITING_FOR_RESPONSE) && Has(s.slots[i].bits, RESPONSE_RECEIVED)
    ensures s.slots[i].bits == ALL_STATE_DONE
    ensures || s.scq == ScqAt(SendCasing, i)
            || (s.rcq.RcqStore? && s.rcq.slot == i && s.rcq.life == s.slots[i].owner)
            || s.rcq == RcqCas(i, s.slots[i].owner)
  {
    ReachableSound(n, r, s);
    DoneBits(s.slots[i]);
    AtSlot(s, i, 0);
  }

  lemma SoundOnward(s: State, e: Event, n: nat, r: nat, i: nat)
    requires Sound(s, n, r) && Enabled(s, e) && IsSlot(s, i)
    ensures IsSlot(Step(s, e), i) && Onward(s, Step(s, e), i)
  {
    if !(e.Admit? || e.FlushBegins? || e.Disconnects?) {
      var j, k := StepTallied(s, e, r);
      assert j != i ==> Step(s, e).slots[i] == s.slots[i];
    }
  }

  /** Every step takes every slot forward through its life, or leaves it where it is. */
  lemma StepOnward(n: nat, r: nat, s: State, e: Event, i: nat)
    requires Runs(n, r, s) && Enabled(s, e) && IsSlot(s, i)
    ensures IsSlot(Step(s, e), i) && Onward(s, Step(s, e), i)
  {
    ReachableSound(n, r, s);
    SoundOnward(s, e, n, r, i);
  }

  /** Who hands a life off: a handler whose compare-and-swap finds ALL_STATE_DONE, and which then posts
   the invalidate. */
  lemma HandOffStep(n: nat, r: nat, s: State, e: Event, i: nat)
    requires Runs(n, r, s) && Enabled(s, e) && IsSlot(s, i)
    ensures IsSlot(Step(s, e), i)
    ensures Step(s, e).slots[i].handoffs > s.slots[i].handoffs ==> s.slots[i].handoffs == 0 && Won(s, Step(s, e), i)
  {
    StepOnward(n, r, s, e, i);
    OneHandOff(n, r, s, i);
    if Step(s, e).slots[i].handoffs > s.slots[i].handoffs { assert s.slots[i].bits != FREEING; }
  }

  lemma PostedFrom(x: Slot, y: Slot)
    requires Local(x) && Local(y) && y.wr == Posted(Invalidate) && Order(y.point) == Order(x.point) + 1
    ensures x.point.InvPosting? && y.point == Invalidating && x.handoffs == 1
  {
  }

  /** An invalidate is posted only for a life that was handed off, and only once in it: the life is then past the
   point it was posted at, and no step takes a life back. */
  lemma InvalidatePosted(n: nat, r: nat, s: State, e: Event, i: nat)
    requires Runs(n, r, s) && Enabled(s, e) && IsSlot(s, i) && IsSlot(Step(s, e), i) && !Step(s, e).flag.collided
    requires Step(s, e).slots[i].wr == Posted(Invalidate) && s.slots[i].wr != Posted(Invalidate)
    ensures s.slots[i].handoffs == 1 && s.slots[i].point.InvPosting? && Step(s, e).slots[i].point == Invalidating
  {
    var t := Step(s, e);
    StepOnward(n, r, s, e, i);
    ReachableSound(n, r, s);
    SoundStep(s, e, n, r);
    assert Local(s.slots[i]) && Local(t.slots[i]);
    PostedFrom(s.slots[i], t.slots[i]);
  }

  // ---- Slot reuse ----

  /** The response's compare-and-swap, however late, succeeds only in the life in which it set its bit. */
  lemma NoAbaResponse(n: nat, r: nat, s: State, i: nat, life: nat)
    requires Runs(n, r, s) && s.rcq == RcqCas(i, life)
    ensures IsSlot(s, i)
    ensures s.slots[i].bits == ALL_STATE_DONE <==>
              s.slots[i].resp == Ored && (s.slots[i].point == SendCasing || s.slots[i].point == Sent)
    ensures s.slots[i].bits == ALL_STATE_DONE ==> s.slots[i].owner == life
  {
    ReachableSound(n, r, s);
    AsideOf(s, 0);
    assert Local(s.slots[i]);
    DoneAt(s.slots[i], life);
  }

  lemma DoneAt(x: Slot, life: nat)
    requires Local(x) && InLife(x, life)
    ensures x.bits == ALL_STATE_DONE <==> x.resp == Ored && (x.point == SendCasing || x.point == Sent)
  {
  }

  /** The send completion's compare-and-swap succeeds only in the life whose send completed. */
  lemma NoAbaSend(n: nat, r: nat, s: State, i: nat)
    requires Runs(n, r, s) && s.scq == ScqAt(SendCasing, i)
    ensures IsSlot(s, i)
    ensures s.slots[i].bits == ALL_STATE_DONE <==> s.slots[i].point == SendCasing && Answered(s.slots[i].resp)
    ensures s.slots[i].point != SendCasing ==> s.slots[i].handoffs == 1 && Lost(s.slots[i])
  {
    ReachableSound(n, r, s);
    AsideOf(s, 0);
    assert Local(s.slots[i]);
    CasingOrLost(s.slots[i]);
  }

  lemma CasingOrLost(x: Slot)
    requires Local(x) && (x.point == SendCasing || Lost(x))
    ensures x.bits == ALL_STATE_DONE <==> x.point == SendCasing && Answered(x.resp)
    ensures x.point != SendCasing ==> x.handoffs == 1
  {
  }

  // ---- The work request ----

  /** A posted work request, and one whose completion is queued, still says what was posted; at the switch its
   type is that of the operation that completed. */
  lemma OneOwner(n: nat, r: nat, s: State, i: nat)
    requires Runs(n, r, s) && IsSlot(s, i)
    ensures s.slots[i].wr != Owned ==> s.slots[i].wr.op == s.slots[i].wrType
    ensures s.scq == ScqSwitch(i) ==>
              && s.slots[i].wr == Owned
              && (s.slots[i].wrType == FastRegister <==> s.slots[i].point == Registering)
              && (s.slots[i].wrType == Send <==> s.slots[i].point == Sending)
              && (s.slots[i].wrType == Invalidate <==> s.slots[i].point == Invalidating)
              && NdkHeld(s.slots[i].point)
  {
    ReachableSound(n, r, s);
    AsideOf(s, 0);
    SaysWhatWasPosted(s.slots[i]);
  }

  lemma SaysWhatWasPosted(x: Slot)
    requires Local(x)
    ensures x.wr != Owned ==> x.wr.op == x.wrType
    ensures NdkHeld(x.point) ==>
              && (x.wrType == FastRegister <==> x.point == Registering)
              && (x.wrType == Send <==> x.point == Sending)
              && (x.wrType == Invalidate <==> x.point == Invalidating)
  {
  }

  // ---- The host I/O ----

  /** Each host I/O is called back at most once; if its thread has left and no handler or flush has it, it was
   called back, or turned away, or kept for later by a disconnect for asymmetric access. */
  lemma AtMostOneCallback(n: nat, r: nat, s: State, k: nat)
    requires Runs(n, r, s) && IsIo(s, k)
    ensures s.ios[k].calls <= 1
    ensures s.ios[k].home == Over <==> s.ios[k].calls == 1 || s.ios[k].rejected || s.ios[k].dropped
    ensures s.ios[k].home != Over ==> s.ios[k].calls == 0
  {
    ReachableSound(n, r, s);
    AsideOf(s, k);
  }

  /** The callback that a handler or a flush has fetched is never null, and it is then the only one to have it. */
  lemma FetchedCallback(n: nat, r: nat, s: State)
    requires Runs(n, r, s)
    ensures s.scq.ScqCall? ==>
              s.scq.fn && IsIo(s, s.scq.io) && s.ios[s.scq.io].home == InScq && s.ios[s.scq.io].calls == 0
    ensures s.flush.FlushCall? ==>
              s.flush.fn && IsIo(s, s.flush.io) && s.ios[s.flush.io].home == InFlush && s.ios[s.flush.io].calls == 0
    ensures s.scq.ScqCall? && s.flush.FlushCall? ==> s.scq.io != s.flush.io
  {
    ReachableSound(n, r, s);
    if s.scq.ScqCall? { AsideOf(s, s.scq.io); }
    if s.flush.FlushCall? { AsideOf(s, s.flush.io); }
  }

  lemma FlushSpares(s: State, k: nat)
    requires FlushEnabled(s) && !FlushCalls(s.flush) && s.flag.ana && IsIo(s, k)
    ensures IsIo(FlushStep(s), k) && FlushStep(s).ios[k].calls == s.ios[k].calls
    ensures FlushStep(s).ios[k].fn == s.ios[k].fn
  {
  }

  /** A flush calls nobody back when the disconnect is for asymmetric access: it keeps those host I/Os for later. */
  lemma AnaKeeps(n: nat, r: nat, s: State, e: Event, k: nat)
    requires Runs(n, r, s) && e.FlushRuns? && Enabled(s, e) && s.flag.ana && IsIo(s, k)
    ensures IsIo(Step(s, e), k) && Step(s, e).ios[k].calls == s.ios[k].calls && Step(s, e).ios[k].fn == s.ios[k].fn
  {
    ReachableSound(n, r, s);
    FlushSpares(s, k);
  }

  /** A callback by the send-queue handler gets the status of the response, unless the receive-queue handler stood
   between publishing RESPONSE_RECEIVED and storing the status. */
  lemma DeliveredStatus(n: nat, r: nat, s: State, k: nat)
    requires Runs(n, r, s) && IsIo(s, k) && s.ios[k].calls == 1 && !s.ios[k].byFlush && !s.ios[k].late
    ensures s.ios[k].delivered == s.ios[k].answer
  {
    ReachableSound(n, r, s);
    AsideOf(s, k);
  }

  /** At the callback: the slot's status is the response's exactly if the receive-queue handler is not still to store
   it, or would store what is there already. */
  lemma StatusAtCall(n: nat, r: nat, s: State, i: nat, k: nat)
    requires Runs(n, r, s) && s.scq == ScqCall(i, k, true)
    ensures IsSlot(s, i)
    ensures s.slots[i].status == s.slots[i].answer <==>
              !(s.rcq.RcqStore? && s.rcq.slot == i) || s.rcq.status == s.slots[i].status
  {
    ReachableSound(n, r, s);
    AsideOf(s, k);
    AtSlot(s, i, k);
  }

  // ---- The command table ----

  /** An entry holds a slot exactly while the slot has that id and is between its insert and its response's removal. */
  lemma TableExact(n: nat, r: nat, s: State, c: nat, i: nat)
    requires Runs(n, r, s) && c < ID_COUNT
    ensures IsId(s, c)
    ensures s.table[c] == Some(i) <==> IsSlot(s, i) && s.slots[i].cmdId == c && Tabled(s.slots[i])
  {
    ReachableSound(n, r, s);
    assert EntryOk(s, c, s.table[c]);
    if IsSlot(s, i) { AtSlot(s, i, 0); }
  }

  /** Every command that the target has not answered, and every answer not yet fetched or looked up, finds its slot. */
  lemma CommandFindsSlot(n: nat, r: nat, s: State, c: nat)
    requires Runs(n, r, s)
    ensures c in s.owed ==>
              IsId(s, c) && s.table[c] == Some(s.owed[c]) && IsSlot(s, s.owed[c]) && s.slots[s.owed[c]].cmdId == c
    ensures c in s.answers ==> IsId(s, c) && s.table[c] == Some(s.answers[c].slot) && IsSlot(s, s.answers[c].slot)
                               && s.slots[s.answers[c].slot].cmdId == c
    ensures (s.rcq.RcqLookup? || s.rcq.RcqRemove?) && s.rcq.id == c ==> LookedUp(s, c)
  {
    ReachableSound(n, r, s);
    assert c in s.owed ==> OwedOk(s, c, s.owed[c]);
    assert c in s.answers ==> QueuedOk(s, c, s.answers[c].slot);
    AsideOf(s, 0);
  }

  // ---- FREE is clean ----

  lemma FreePoint(x: Slot)
    requires Local(x) && x.bits == FREE
    ensures x.point == Free && x.wr == Owned && x.parent == None && x.resp == NoCommand
  {
  }

  /** A FREE slot has no parent and nothing posted or queued, and no thread and neither handler works on it, save that
   the receive-queue handler may stand before a store or a compare-and-swap that is left over from the slot's last
   life. */
  lemma FreeIsClean(n: nat, r: nat, s: State, i: nat)
    requires Runs(n, r, s) && IsSlot(s, i) && s.slots[i].bits == FREE
    ensures s.slots[i].parent == None && s.slots[i].wr == Owned && s.slots[i].point == Free
    ensures forall k: nat :: k < |s.ios| ==>
              s.ios[k].home != InSlot(i) && (s.ios[k].pc.SubAt? ==> s.ios[k].pc.slot != i)
    ensures s.scq.ScqSwitch? || s.scq.ScqAt? || s.scq.ScqHas? || s.scq.ScqCall? ==> s.scq.slot != i
    ensures s.rcq.RcqOr? || s.rcq.RcqWrite? || s.rcq.RcqPost? ==> s.rcq.slot != i
  {
    ReachableSound(n, r, s);
    FreePoint(s.slots[i]);
    AsideOf(s, 0);
    forall k: nat | k < |s.ios|
      ensures s.ios[k].home != InSlot(i) && (s.ios[k].pc.SubAt? ==> s.ios[k].pc.slot != i)
    {
      assert IoOk(s, k, s.ios[k]);
    }
  }

  /** No entry of the table, no command at the target and no answer names a FREE slot. */
  lemma FreeIsForgotten(n: nat, r: nat, s: State, i: nat)
    requires Runs(n, r, s) && IsSlot(s, i) && s.slots[i].bits == FREE
    ensures Some(i) !in s.table
    ensures forall c :: c in s.owed ==> s.owed[c] != i
    ensures forall c :: c in s.answers ==> s.answers[c].slot != i
  {
    ReachableSound(n, r, s);
    FreePoint(s.slots[i]);
    forall c: nat | IsId(s, c) ensures s.table[c] != Some(i) { assert EntryOk(s, c, s.table[c]); }
    forall c | c in s.owed ensures s.owed[c] != i { assert OwedOk(s, c, s.owed[c]); }
    forall c | c in s.answers ensures s.answers[c].slot != i { assert QueuedOk(s, c, s.answers[c].slot); }
  }

  /** A slot is robbed from the step on in which a flush's exchange on its parent finds its host I/O, and
   by no other. */
  lemma RobbedExactly(n: nat, r: nat, s: State, e: Event, i: nat)
    requires Runs(n, r, s) && Enabled(s, e) && IsSlot(s, i)
    ensures IsSlot(Step(s, e), i)
    ensures Robbed(Step(s, e).slots[i]) <==>
              Robbed(s.slots[i]) || (s.flush == FlushClaim(i) && Step(s, e).flush.FlushHas?)
  {
    StepOnward(n, r, s, e, i);
  }

  /** A slot whose host I/O a flush has taken is never FREE again, whatever happens. */
  lemma {:induction false} RobbedForever(n: nat, r: nat, s: State, run: seq<Event>, i: nat)
    requires Sound(s, n, r) && Runnable(s, run) && !Run(s, run).flag.collided
    requires IsSlot(s, i) && Robbed(s.slots[i])
    ensures IsSlot(Run(s, run), i) && Robbed(Run(s, run).slots[i]) && Run(s, run).slots[i].bits != FREE
    decreases |run|
  {
    if run == [] {
      assert Local(s.slots[i]);
    } else {
      var t := Step(s, run[0]);
      if t.flag.collided { RunCollided(t, run[1..]); }
      SoundStep(s, run[0], n, r);
      SoundOnward(s, run[0], n, r, i);
      RobbedForever(n, r, t, run[1..], i);
    }
  }

  // ---- The completion queues ----

  /** Each completion queue is armed exactly while its handler is idle, so it has one drain at a time. */
  lemma OneDrain(n: nat, r: nat, s: State)
    requires Runs(n, r, s)
    ensures s.flag.scqArmed <==> s.scq.ScqIdle?
    ensures s.flag.rcqArmed <==> s.rcq.RcqIdle?
  {
    ReachableSound(n, r, s);
    AsideOf(s, 0);
  }

  /** Every receive is posted, or holds an answer, or is in the running handler's hands. */
  lemma ReceivesConserved(n: nat, r: nat, s: State)
    requires Runs(n, r, s)
    ensures s.count.recvPosted + |s.answers| + HeldReceive(s.rcq) == r
  {
    ReachableSound(n, r, s);
  }

  /** Work that waits in a completion queue makes it fire, or its handler is running already. */
  lemma NoStuckWork(n: nat, r: nat, s: State)
    requires Runs(n, r, s)
    ensures !ScqEmpty(s) ==> Enabled(s, ScqFires) || !s.scq.ScqIdle?
    ensures s.answers != map[] ==> Enabled(s, RcqFires) || !s.rcq.RcqIdle?
  {
    OneDrain(n, r, s);
  }

  // ---- Receive credit ----

  /** With a receive for every slot, the commands that the target may still answer never exceed the posted receives and
   the one in the running handler's hands. */
  lemma ReceiveCredit(n: nat, r: nat, s: State)
    requires Runs(n, r, s) && n <= r
    ensures |s.owed| <= s.count.recvPosted + HeldReceive(s.rcq)
  {
    ReachableSound(n, r, s);
    TotalSum(s.slots, IsOwed, IsQueued, (x: Slot) => IsOwed(x) + IsQueued(x));
    TotalBounds(s.slots, (x: Slot) => IsOwed(x) + IsQueued(x), 0, 1);
  }

  // ---- The counters ----

  /** The counters are the sums they stand for, save that a fast register is counted after it is posted, so that its
   counter is below zero exactly while more threads have yet to count one than NDK or the handler has; and that a flush
   counts a send down for every host I/O that it has completed, whether its request has a send posted or not. */
  lemma CountersConserved(n: nat, r: nat, s: State)
    requires Runs(n, r, s)
    ensures s.count.regPages == Total(s.slots, Pages)
    ensures s.count.frOutstanding == Total(s.slots, FrPending) - Total(s.ios, AboutToCount)
    ensures s.count.frOutstanding < 0 <==> Total(s.slots, FrPending) < Total(s.ios, AboutToCount)
    ensures s.count.outstanding == Total(s.ios, Counted)
    ensures s.count.sendOutstanding == Total(s.slots, SendPending) - Total(s.ios, FlushedDown)
  {
    ReachableSound(n, r, s);
  }

  /** The controller's outstanding count: the host I/Os admitted and not completed, and the one or two whose completer
   has still to count down. */
  lemma OutstandingExact(n: nat, r: nat, s: State, k: nat)
    requires Runs(n, r, s) && IsIo(s, k)
    ensures s.count.outstanding == Total(s.ios, Counted)
    ensures s.ios[k].counted <==> s.ios[k].home != Over || ScqOwes(s.scq) == Some(k) || FlushOwes(s.flush) == Some(k)
  {
    ReachableSound(n, r, s);
    assert TallyOk(s, k, s.ios[k]);
  }

  // ---- The window of command ids ----

  /** While every request in flight has one of the last 65536 tickets, no insert ever meets an occupied entry, so all of
   the above holds of every state the run reaches. */
  lemma WindowSuffices(n: nat, r: nat, run: seq<Event>)
    requires Runnable(Init(n, r), run) && RunWindowed(Init(n, r), run)
    ensures Runs(n, r, Run(Init(n, r), run))
  {
    InitSound(n, r);
    WindowRun(Init(n, r), run, n, r);
  }

  lemma CollisionKeeps(s: State, pick: nat)
    requires ScqEnabled(s, pick) && s.scq.ScqAt? && s.scq.point == Inserting && !s.flag.collided
    ensures var t := ScqStep(s, pick);
            t.flag.collided ==> t.table == s.table && t.scq == ScqAt(SubMarking, s.scq.slot)
  {
    assert ScqStep(s, pick) == FrInsert(s, s.scq.slot);
  }

  /** The next step of a run meets an occupied entry exactly if it is an insert for a slot that has a rival; and then
   the table stays as it is, and the handler goes on to send. */
  lemma CollisionExact(n: nat, r: nat, s: State, e: Event)
    requires Runs(n, r, s) && Enabled(s, e)
    ensures Step(s, e).flag.collided <==>
              e.ScqRuns? && s.scq.ScqAt? && s.scq.point == Inserting && exists j: nat :: Rival(s, s.scq.slot, j)
    ensures Step(s, e).flag.collided ==>
              Step(s, e).table == s.table && Step(s, e).scq == ScqAt(SubMarking, s.scq.slot)
  {
    ReachableSound(n, r, s);
    CollidesIff(s, e);
    if Step(s, e).flag.collided { CollisionKeeps(s, e.pick); }
  }
}

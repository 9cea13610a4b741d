/**
 The I/O request engine of one RDMA queue as a step system. One step is one interlocked operation,
 one store that another processor may read, or one call into NDK, so the send-queue handler, the
 receive-queue handler, any number of submitters and a flush interleave between all of them.
 */
module IoProtocol {
  import opened ReqState

  datatype Option<+T> = None | Some(value: T)

  /** Command ids are 16 bits wide. */
  const ID_COUNT: nat := 0x1_0000
  /** The id a request carries before it is first used. */
  const UNUSED_ID: nat := 0xFFFF

  /** What the ulType field of a slot's one NDK work request says. */
  datatype WrType = Uninitialized | BuildLam | FastRegister | Send | Invalidate | ReleaseLam

  /** Who has the work request: the driver, NDK, or a completion queue entry that still points at it. */
  datatype Wr = Owned | Posted(op: WrType) | Completed(op: WrType)

  /** A program point: the next thing to do for a request in the life it is in. */
  datatype Point =
    | Free
      // The submitter's thread.
    | Ticketing | Parenting | Marking | FrWriting | FrMarking | FrPosting
      // NDK, then the send-queue handler: the fast-register completion and the send.
    | Registering | FrCounting | SendWriting | Inserting | SubMarking | SendPosting | SendCounting | DoneMarking
      // NDK, then the send-queue handler: the send completion.
    | Sending | WaitMarking | SendCasing | Sent
      // The winner of the hand-off, NDK, then the send-queue handler: the invalidate and the callback.
    | InvWriting(byScq: bool) | InvPosting(byScq: bool)
    | Invalidating | InvChecking | InvClaiming | Asserting | FnTesting | FnTaking | Calling | Releasing
      // FREEING, and a flush took the host I/O: the slot is never released.
    | Orphan

  /** What has become of the answer to the command a slot sent in its present life. */
  datatype Resp = NoCommand | Owed | Queued | Looked | Removed | Ored | Past

  /**
   A request slot. The first seven fields are the driver's and NDK's; the others are history, which no
   step reads to decide what to do.
   */
  datatype Slot = Slot(
    bits: Bits,
    cmdId: nat,
    parent: Option<nat>,
    wrType: WrType,
    wr: Wr,
    pages: nat,
    status: int,
    point: Point,
    resp: Resp,
    owner: nat,
    ticket: nat,
    answer: int,
    handoffs: nat)

  /** Where the right to complete a host I/O lies. History. */
  datatype Home = Nowhere | InSlot(slot: nat) | InScq | InFlush | Over

  datatype SubPc = Scanning(p: nat) | SubAt(point: Point, slot: nat) | Counting | Returned

  /**
   A host I/O: the thread that submits it and its callback pointer. The rest is history: whether the
   counters still count it, the slot it claimed, and how it was completed.
   */
  datatype Io = Io(
    pc: SubPc,
    fn: bool,
    counted: bool,
    slot: nat,
    home: Home,
    calls: nat,
    rejected: bool,
    dropped: bool,
    delivered: int,
    answer: int,
    late: bool,
    byFlush: bool)

  datatype ScqPc =
    | ScqIdle
    | ScqPoll
    | ScqArm
    | ScqSwitch(slot: nat)
    | ScqAt(point: Point, slot: nat)
    | ScqHas(point: Point, slot: nat, io: nat)
    | ScqCall(slot: nat, io: nat, fn: bool)
    | ScqCountdown(io: nat)

  /** `life` is history: the I/O whose request the handler ORed the response bit into. */
  datatype RcqPc =
    | RcqIdle
    | RcqPoll
    | RcqArm
    | RcqLookup(id: nat, status: int)
    | RcqRemove(id: nat, status: int)
    | RcqOr(slot: nat, status: int)
    | RcqStore(slot: nat, status: int, life: nat)
    | RcqCas(slot: nat, life: nat)
    | RcqWrite(slot: nat)
    | RcqPost(slot: nat)
    | RcqRepost
    | RcqCount

  datatype FlushPc =
    | FlushIdle
    | FlushTest(p: nat)
    | FlushClaim(p: nat)
    | FlushHas(p: nat, io: nat)
    | FlushTake(p: nat, io: nat)
    | FlushCall(p: nat, io: nat, fn: bool)
    | FlushCount(p: nat, io: nat)

  /** A response in the receive queue. It names a command id; `slot` is history. */
  datatype Answer = Answer(slot: nat, status: int)

  datatype Counters = Counters(
    recvPosted: nat,
    recvOutstanding: int,
    frOutstanding: int,
    sendOutstanding: int,
    regPages: int,
    outstanding: int)

  /** The last three are history: a flush ran, an insert met an occupied entry, an assertion fired. */
  datatype Flags = Flags(
    scqArmed: bool,
    rcqArmed: bool,
    disconnecting: bool,
    ana: bool,
    flushed: bool,
    collided: bool,
    fault: bool)

  datatype State = State(
    slots: seq<Slot>,
    table: seq<Option<nat>>,
    next: nat,
    ios: seq<Io>,
    scq: ScqPc,
    rcq: RcqPc,
    flush: FlushPc,
    owed: map<nat, nat>,
    answers: map<nat, Answer>,
    count: Counters,
    flag: Flags)

  const FREE_SLOT: Slot :=
    Slot(FREE, UNUSED_ID, None, Uninitialized, Owned, 0, 0, Free, NoCommand, 0, 0, 0, 0)

  const NEW_IO: Io := Io(Scanning(0), true, true, 0, Nowhere, 0, false, false, 0, 0, false, false)

  /** An empty command table. */
  function NoEntries(): seq<Option<nat>> { seq(ID_COUNT, i => None) }

  /** A connected queue of depth n: every slot free, r receives posted, both completion queues armed. */
  function Init(n: nat, r: nat): State {
    State(seq(n, i => FREE_SLOT), NoEntries(), 0, [], ScqIdle, RcqIdle, FlushIdle, map[], map[],
          Counters(r, r, 0, 0, 0, 0), Flags(true, true, false, false, false, false, false))
  }

  // ---- Small updates ----

  predicate IsSlot(s: State, i: nat) { i < |s.slots| }

  predicate IsIo(s: State, k: nat) { k < |s.ios| }

  predicate IsId(s: State, c: nat) { c < |s.table| }

  function Put(s: State, i: nat, x: Slot): (t: State)
    requires IsSlot(s, i)
  {
    s.(slots := s.slots[i := x])
  }

  function PutIo(s: State, k: nat, o: Io): State
    requires IsIo(s, k)
  {
    s.(ios := s.ios[k := o])
  }

  /** Raises the fault flag if an assertion of the driver, or a use of NDK it must not make, has failed. */
  function Check(s: State, good: bool): State {
    if good then s else s.(flag := s.flag.(fault := true))
  }

  // ---- The submitter: one thread for each host I/O ----

  /** No slot was free: the counters the caller raised go back down. */
  function SubGiveUp(s: State, k: nat): (t: State)
    requires IsIo(s, k)
    ensures t.flag.collided == s.flag.collided
  {
    PutIo(s, k, s.ios[k].(pc := Returned, counted := false, home := Over, rejected := true))
    .(count := s.count.(outstanding := s.count.outstanding - 1))
  }

  function SubClaim(s: State, k: nat, p: nat): (t: State)
    requires IsIo(s, k) && IsSlot(s, p)
    ensures t.flag.collided == s.flag.collided
  {
    var x := s.slots[p].(bits := ALLOCATED, point := Ticketing, resp := NoCommand, owner := k, handoffs := 0);
    PutIo(Put(Check(s, s.slots[p].parent == None), p, x), k,
        s.ios[k].(pc := SubAt(Ticketing, p), slot := p, home := InSlot(p)))
  }

  /** The compare-and-swap on slot p, at its place in the scan for a free slot. */
  function SubScan(s: State, k: nat, p: nat): (t: State)
    requires IsIo(s, k)
    ensures t.flag.collided == s.flag.collided
  {
    if p >= |s.slots| then SubGiveUp(s, k)
    else if s.slots[p].bits == FREE then SubClaim(s, k, p)
    else PutIo(s, k, s.ios[k].(pc := Scanning(p + 1)))
  }

  function SubTicket(s: State, k: nat, i: nat): (t: State)
    requires IsIo(s, k) && IsSlot(s, i)
    ensures t.flag.collided == s.flag.collided
  {
    PutIo(Put(s, i, s.slots[i].(cmdId := s.next % ID_COUNT, ticket := s.next, point := Parenting)),
          k, s.ios[k].(pc := SubAt(Parenting, i))).(next := s.next + 1)
  }

  /** Stores the host I/O in the slot and builds the page map, of the given size, with the slot's work request. */
  function SubParent(s: State, k: nat, i: nat, pages: nat): (t: State)
    requires IsIo(s, k) && IsSlot(s, i)
    ensures t.flag.collided == s.flag.collided
  {
    var x := s.slots[i];
    PutIo(Put(Check(s, x.parent == None && x.wr == Owned), i,
              x.(parent := Some(k), wrType := BuildLam, pages := pages, point := Marking)),
          k, s.ios[k].(pc := SubAt(Marking, i)))
  }

  function SubMark(s: State, k: nat, i: nat): (t: State)
    requires IsIo(s, k) && IsSlot(s, i)
    ensures t.flag.collided == s.flag.collided
  {
    PutIo(Put(s, i, s.slots[i].(bits := s.slots[i].bits | INITIALIZED, point := FrWriting)),
          k, s.ios[k].(pc := SubAt(FrWriting, i)))
  }

  function SubWriteFr(s: State, k: nat, i: nat): (t: State)
    requires IsIo(s, k) && IsSlot(s, i)
    ensures t.flag.collided == s.flag.collided
  {
    PutIo(Put(Check(s, s.slots[i].wr == Owned), i, s.slots[i].(wrType := FastRegister, point := FrMarking)),
          k, s.ios[k].(pc := SubAt(FrMarking, i)))
  }

  function SubMarkFr(s: State, k: nat, i: nat): (t: State)
    requires IsIo(s, k) && IsSlot(s, i)
    ensures t.flag.collided == s.flag.collided
  {
    PutIo(Put(s, i, s.slots[i].(bits := s.slots[i].bits | PREPARE_SUBMITTING, point := FrPosting)),
          k, s.ios[k].(pc := SubAt(FrPosting, i)))
  }

  function SubPostFr(s: State, k: nat, i: nat): (t: State)
    requires IsIo(s, k) && IsSlot(s, i)
    ensures t.flag.collided == s.flag.collided
  {
    PutIo(Put(Check(s, s.slots[i].wr == Owned), i, s.slots[i].(wr := Posted(s.slots[i].wrType), point := Registering)),
          k, s.ios[k].(pc := Counting))
  }

  /** The fast register is counted after it is posted. */
  function SubCount(s: State, k: nat): (t: State)
    requires IsIo(s, k)
    ensures t.flag.collided == s.flag.collided
  {
    PutIo(s, k, s.ios[k].(pc := Returned)).(count := s.count.(frOutstanding := s.count.frOutstanding + 1))
  }

  predicate SubEnabled(s: State, k: nat) {
    IsIo(s, k) && !s.ios[k].pc.Returned? && (s.ios[k].pc.SubAt? ==> IsSlot(s, s.ios[k].pc.slot))
  }

  function SubStep(s: State, k: nat, pages: nat): (t: State)
    requires SubEnabled(s, k)
    ensures t.flag.collided == s.flag.collided
  {
    match s.ios[k].pc
    case Scanning(p) => SubScan(s, k, p)
    case SubAt(Ticketing, i) => SubTicket(s, k, i)
    case SubAt(Parenting, i) => SubParent(s, k, i, pages)
    case SubAt(Marking, i) => SubMark(s, k, i)
    case SubAt(FrWriting, i) => SubWriteFr(s, k, i)
    case SubAt(FrMarking, i) => SubMarkFr(s, k, i)
    case SubAt(_, i) => SubPostFr(s, k, i)
    case Counting => SubCount(s, k)
    case Returned => s
  }

  // ---- The send-queue handler ----

  predicate InScqQueue(s: State, i: nat) {
    i < |s.slots| && s.slots[i].wr.Completed?
  }

  predicate ScqEmpty(s: State) {
    forall i: nat :: i < |s.slots| ==> !InScqQueue(s, i)
  }

  /** Asks NDK for a completion; `pick` is the slot whose work request it hands back. */
  function ScqGet(s: State, pick: nat): (t: State)
    requires ScqEmpty(s) || IsSlot(s, pick)
    ensures t.flag.collided == s.flag.collided
  {
    if ScqEmpty(s) then s.(scq := ScqArm)
    else Put(s, pick, s.slots[pick].(wr := Owned)).(scq := ScqSwitch(pick))
  }

  /** Branches on the type that the slot's work request holds now. */
  function ScqBranch(s: State, i: nat): (t: State)
    requires IsSlot(s, i)
    ensures t.flag.collided == s.flag.collided
  {
    match s.slots[i].wrType
    case FastRegister => Put(s, i, s.slots[i].(point := FrCounting)).(scq := ScqAt(FrCounting, i))
    case Send => Put(s, i, s.slots[i].(point := WaitMarking)).(scq := ScqAt(WaitMarking, i))
    case Invalidate => Put(s, i, s.slots[i].(point := InvChecking)).(scq := ScqAt(InvChecking, i))
    case _ => Check(s, false).(scq := ScqPoll)
  }

  function FrCount(s: State, i: nat): (t: State)
    requires IsSlot(s, i)
    ensures t.flag.collided == s.flag.collided
  {
    Put(s, i, s.slots[i].(point := SendWriting))
    .(count := s.count.(frOutstanding := s.count.frOutstanding - 1, regPages := s.count.regPages + s.slots[i].pages),
      scq := ScqAt(SendWriting, i))
  }

  function FrWriteSend(s: State, i: nat): (t: State)
    requires IsSlot(s, i)
    ensures t.flag.collided == s.flag.collided
  {
    Put(Check(s, s.slots[i].wr == Owned), i, s.slots[i].(wrType := Send, point := Inserting))
        .(scq := ScqAt(Inserting, i))
  }

  /** The compare-and-swap that publishes the command id; an occupied entry is left as it is. */
  function FrInsert(s: State, i: nat): (t: State)
    requires IsSlot(s, i) && IsId(s, s.slots[i].cmdId)
    ensures s.flag.collided ==> t.flag.collided
  {
    var c := s.slots[i].cmdId;
    var t := Put(s, i, s.slots[i].(point := SubMarking)).(scq := ScqAt(SubMarking, i));
    if s.table[c] == None then t.(table := s.table[c := Some(i)]) else t.(flag := s.flag.(collided := true))
  }

  function FrMark(s: State, i: nat): (t: State)
    requires IsSlot(s, i)
    ensures t.flag.collided == s.flag.collided
  {
    Put(s, i, s.slots[i].(bits := s.slots[i].bits | SUBMITTING, point := SendPosting)).(scq := ScqAt(SendPosting, i))
  }

  /** From here on the target may answer. It must not hold two commands with one id. */
  function FrPostSend(s: State, i: nat): (t: State)
    requires IsSlot(s, i)
    ensures t.flag.collided == s.flag.collided
  {
    var x := s.slots[i];
    Put(Check(s, x.wr == Owned && x.cmdId !in s.owed), i,
        x.(wr := Posted(x.wrType), point := SendCounting, resp := Owed))
    .(owed := s.owed[x.cmdId := i], scq := ScqAt(SendCounting, i))
  }

  function FrCountSend(s: State, i: nat): (t: State)
    requires IsSlot(s, i)
    ensures t.flag.collided == s.flag.collided
  {
    Put(s, i, s.slots[i].(point := DoneMarking))
    .(count := s.count.(sendOutstanding := s.count.sendOutstanding + 1), scq := ScqAt(DoneMarking, i))
  }

  function FrMarkDone(s: State, i: nat): (t: State)
    requires IsSlot(s, i)
    ensures t.flag.collided == s.flag.collided
  {
    Put(s, i, s.slots[i].(bits := s.slots[i].bits | SUBMITTED, point := Sending)).(scq := ScqPoll)
  }

  function SendMark(s: State, i: nat): (t: State)
    requires IsSlot(s, i)
    ensures t.flag.collided == s.flag.collided
  {
    Put(s, i, s.slots[i].(bits := s.slots[i].bits | WAITING_FOR_RESPONSE, point := SendCasing))
    .(count := s.count.(sendOutstanding := s.count.sendOutstanding - 1), scq := ScqAt(SendCasing, i))
  }

  /** The compare-and-swap by which the send completion may win the hand-off. */
  function SendCas(s: State, i: nat): (t: State)
    requires IsSlot(s, i)
    ensures t.flag.collided == s.flag.collided
  {
    var x := s.slots[i];
    if x.bits == ALL_STATE_DONE then
      Put(s, i, x.(bits := FREEING, point := InvWriting(true), handoffs := x.handoffs + 1))
      .(scq := ScqAt(InvWriting(true), i))
    else
      Put(s, i, x.(point := if x.point == SendCasing then Sent else x.point)).(scq := ScqPoll)
  }

  function SendWriteInv(s: State, i: nat): (t: State)
    requires IsSlot(s, i)
    ensures t.flag.collided == s.flag.collided
  {
    Put(Check(s, s.slots[i].wr == Owned), i, s.slots[i].(wrType := Invalidate, point := InvPosting(true)))
    .(scq := ScqAt(InvPosting(true), i))
  }

  function SendPostInv(s: State, i: nat): (t: State)
    requires IsSlot(s, i)
    ensures t.flag.collided == s.flag.collided
  {
    Put(Check(s, s.slots[i].wr == Owned), i, s.slots[i].(wr := Posted(s.slots[i].wrType), point := Invalidating))
    .(scq := ScqPoll)
  }

  /** Only a request that is being freed goes on to claim its host I/O. */
  function InvCheck(s: State, i: nat): (t: State)
    requires IsSlot(s, i)
    ensures t.flag.collided == s.flag.collided
  {
    if s.slots[i].bits == FREEING then Put(s, i, s.slots[i].(point := InvClaiming)).(scq := ScqAt(InvClaiming, i))
    else Put(s, i, s.slots[i].(point := Orphan)).(scq := ScqPoll)
  }

  /** The exchange on the parent context. */
  function InvClaim(s: State, i: nat): (t: State)
    requires IsSlot(s, i)
    ensures t.flag.collided == s.flag.collided
  {
    var x := s.slots[i];
    if x.parent.Some? && IsIo(s, x.parent.value) then
      var k := x.parent.value;
      PutIo(Put(s, i, x.(parent := None, point := Asserting)), k, s.ios[k].(home := InScq))
          .(scq := ScqHas(Asserting, i, k))
    else
      Put(s, i, x.(parent := None, point := Orphan)).(scq := ScqPoll)
  }

  /** IoCompletion asserts FREEING, gives the pages back and releases the page map. */
  function InvAssert(s: State, i: nat, k: nat): (t: State)
    requires IsSlot(s, i)
    ensures t.flag.collided == s.flag.collided
  {
    var x := s.slots[i];
    Put(Check(s, x.bits == FREEING && x.wr == Owned), i, x.(wrType := ReleaseLam, point := FnTesting))
    .(count := s.count.(regPages := s.count.regPages - x.pages), scq := ScqHas(FnTesting, i, k))
  }

  function InvTestFn(s: State, i: nat, k: nat): (t: State)
    requires IsSlot(s, i) && IsIo(s, k)
    ensures t.flag.collided == s.flag.collided
  {
    if s.ios[k].fn then
      Put(s, i, s.slots[i].(point := FnTaking)).(scq := ScqHas(FnTaking, i, k))
    else
      PutIo(Put(s, i, s.slots[i].(point := Releasing)), k, s.ios[k].(home := Over)).(scq := ScqHas(Releasing, i, k))
  }

  function InvTakeFn(s: State, i: nat, k: nat): (t: State)
    requires IsSlot(s, i) && IsIo(s, k)
    ensures t.flag.collided == s.flag.collided
  {
    PutIo(Put(s, i, s.slots[i].(point := Calling)), k, s.ios[k].(fn := false)).(scq := ScqCall(i, k, s.ios[k].fn))
  }

  /** The callback gets the status that the slot holds now. */
  function InvCall(s: State, i: nat, k: nat, fn: bool): (t: State)
    requires IsSlot(s, i) && IsIo(s, k)
    ensures t.flag.collided == s.flag.collided
  {
    var x, o := s.slots[i], s.ios[k];
    PutIo(Put(Check(s, fn), i, x.(point := Releasing)),
          k, o.(calls := o.calls + 1, home := Over, delivered := x.status, answer := x.answer,
                late := s.rcq.RcqStore? && s.rcq.slot == i))
    .(scq := ScqHas(Releasing, i, k))
  }

  function InvRelease(s: State, i: nat, k: nat): (t: State)
    requires IsSlot(s, i)
    ensures t.flag.collided == s.flag.collided
  {
    Put(s, i, s.slots[i].(bits := FREE, point := Free, resp := NoCommand)).(scq := ScqCountdown(k))
  }

  function InvCountdown(s: State, k: nat): (t: State)
    requires IsIo(s, k)
    ensures t.flag.collided == s.flag.collided
  {
    PutIo(s, k, s.ios[k].(counted := false))
    .(count := s.count.(outstanding := s.count.outstanding - 1), scq := ScqPoll)
  }

  predicate ScqEnabled(s: State, pick: nat) {
    match s.scq
    case ScqIdle => false
    case ScqPoll => ScqEmpty(s) || InScqQueue(s, pick)
    case ScqArm => true
    case ScqSwitch(i) => IsSlot(s, i)
    case ScqAt(_, i) => IsSlot(s, i) && IsId(s, s.slots[i].cmdId)
    case ScqHas(_, i, k) => IsSlot(s, i) && IsIo(s, k)
    case ScqCall(i, k, _) => IsSlot(s, i) && IsIo(s, k)
    case ScqCountdown(k) => IsIo(s, k)
  }

  function ScqStep(s: State, pick: nat): (t: State)
    requires ScqEnabled(s, pick)
    ensures s.flag.collided ==> t.flag.collided
    ensures !s.flag.collided && t.flag.collided ==> s.scq.ScqAt? && s.scq.point.Inserting?
  {
    match s.scq
    case ScqIdle => s
    case ScqPoll => ScqGet(s, pick)
    case ScqArm => s.(scq := ScqIdle, flag := s.flag.(scqArmed := true))
    case ScqSwitch(i) => ScqBranch(s, i)
    case ScqAt(FrCounting, i) => FrCount(s, i)
    case ScqAt(SendWriting, i) => FrWriteSend(s, i)
    case ScqAt(Inserting, i) => FrInsert(s, i)
    case ScqAt(SubMarking, i) => FrMark(s, i)
    case ScqAt(SendPosting, i) => FrPostSend(s, i)
    case ScqAt(SendCounting, i) => FrCountSend(s, i)
    case ScqAt(DoneMarking, i) => FrMarkDone(s, i)
    case ScqAt(WaitMarking, i) => SendMark(s, i)
    case ScqAt(SendCasing, i) => SendCas(s, i)
    case ScqAt(InvWriting(_), i) => SendWriteInv(s, i)
    case ScqAt(InvPosting(_), i) => SendPostInv(s, i)
    case ScqAt(InvChecking, i) => InvCheck(s, i)
    case ScqAt(_, i) => InvClaim(s, i)
    case ScqHas(Asserting, i, k) => InvAssert(s, i, k)
    case ScqHas(FnTesting, i, k) => InvTestFn(s, i, k)
    case ScqHas(FnTaking, i, k) => InvTakeFn(s, i, k)
    case ScqHas(_, i, k) => InvRelease(s, i, k)
    case ScqCall(i, k, fn) => InvCall(s, i, k, fn)
    case ScqCountdown(k) => InvCountdown(s, k)
  }

  // ---- The receive-queue handler ----

  /** Asks NDK for a received response; `pick` is the command id in the one it hands back. */
  function RcqGet(s: State, pick: nat): (t: State)
    requires s.answers == map[] || (pick in s.answers && IsSlot(s, s.answers[pick].slot))
    ensures t.flag.collided == s.flag.collided
  {
    if s.answers == map[] then s.(rcq := RcqArm)
    else
      var a := s.answers[pick];
      Put(s, a.slot, s.slots[a.slot].(resp := Looked))
      .(answers := s.answers - {pick}, rcq := RcqLookup(pick, a.status),
        count := s.count.(recvOutstanding := s.count.recvOutstanding - 1))
  }

  /** A queue that is being disconnected and has no receive left is not armed again. */
  function RcqRearm(s: State): (t: State)
    ensures t.flag.collided == s.flag.collided
  {
    s.(rcq := RcqIdle,
       flag := s.flag.(rcqArmed := s.flag.rcqArmed || !s.flag.disconnecting || s.count.recvOutstanding != 0))
  }

  function RcqFind(s: State, c: nat, status: int): (t: State)
    requires IsId(s, c)
    ensures t.flag.collided == s.flag.collided
  {
    if s.table[c].Some? && IsSlot(s, s.table[c].value) && s.slots[s.table[c].value].cmdId == c
    then s.(rcq := RcqRemove(c, status))
    else Check(s, false).(rcq := RcqRepost)
  }

  function RcqTake(s: State, c: nat, status: int): (t: State)
    requires IsId(s, c)
    ensures t.flag.collided == s.flag.collided
  {
    if s.table[c].Some? && IsSlot(s, s.table[c].value) then
      var i := s.table[c].value;
      Put(s, i, s.slots[i].(resp := Removed)).(table := s.table[c := None], rcq := RcqOr(i, status))
    else
      Check(s, false).(rcq := RcqRepost)
  }

  function RcqMark(s: State, i: nat, status: int): (t: State)
    requires IsSlot(s, i)
    ensures t.flag.collided == s.flag.collided
  {
    var x := s.slots[i];
    Put(s, i, x.(bits := x.bits | RESPONSE_RECEIVED, resp := Ored))
        .(rcq := RcqStore(i, status, x.owner))
  }

  function RcqStoreStatus(s: State, i: nat, status: int, life: nat): (t: State)
    requires IsSlot(s, i)
    ensures t.flag.collided == s.flag.collided
  {
    Put(s, i, s.slots[i].(status := status)).(rcq := RcqCas(i, life))
  }

  /** The compare-and-swap by which the response may win the hand-off. */
  function RcqSwap(s: State, i: nat): (t: State)
    requires IsSlot(s, i)
    ensures t.flag.collided == s.flag.collided
  {
    var x := s.slots[i].(resp := if s.slots[i].resp == Ored then Past else s.slots[i].resp);
    if x.bits == ALL_STATE_DONE then
      Put(s, i, x.(bits := FREEING, point := InvWriting(false), handoffs := x.handoffs + 1)).(rcq := RcqWrite(i))
    else
      Put(s, i, x).(rcq := RcqRepost)
  }

  function RcqWriteInv(s: State, i: nat): (t: State)
    requires IsSlot(s, i)
    ensures t.flag.collided == s.flag.collided
  {
    Put(Check(s, s.slots[i].wr == Owned), i, s.slots[i].(wrType := Invalidate, point := InvPosting(false)))
        .(rcq := RcqPost(i))
  }

  function RcqPostInv(s: State, i: nat): (t: State)
    requires IsSlot(s, i)
    ensures t.flag.collided == s.flag.collided
  {
    Put(Check(s, s.slots[i].wr == Owned), i, s.slots[i].(wr := Posted(s.slots[i].wrType), point := Invalidating))
    .(rcq := RcqRepost)
  }

  predicate RcqEnabled(s: State, pick: nat) {
    match s.rcq
    case RcqIdle => false
    case RcqPoll => s.answers == map[] || (pick in s.answers && IsSlot(s, s.answers[pick].slot))
    case RcqLookup(c, _) => IsId(s, c)
    case RcqRemove(c, _) => IsId(s, c)
    case RcqOr(i, _) => IsSlot(s, i)
    case RcqStore(i, _, _) => IsSlot(s, i)
    case RcqCas(i, _) => IsSlot(s, i)
    case RcqWrite(i) => IsSlot(s, i)
    case RcqPost(i) => IsSlot(s, i)
    case _ => true
  }

  function RcqStep(s: State, pick: nat): (t: State)
    requires RcqEnabled(s, pick)
    ensures t.flag.collided == s.flag.collided
  {
    match s.rcq
    case RcqIdle => s
    case RcqPoll => RcqGet(s, pick)
    case RcqArm => RcqRearm(s)
    case RcqLookup(c, st) => RcqFind(s, c, st)
    case RcqRemove(c, st) => RcqTake(s, c, st)
    case RcqOr(i, st) => RcqMark(s, i, st)
    case RcqStore(i, st, life) => RcqStoreStatus(s, i, st, life)
    case RcqCas(i, _) => RcqSwap(s, i)
    case RcqWrite(i) => RcqWriteInv(s, i)
    case RcqPost(i) => RcqPostInv(s, i)
    case RcqRepost => s.(count := s.count.(recvPosted := s.count.recvPosted + 1), rcq := RcqCount)
    case RcqCount => s.(count := s.count.(recvOutstanding := s.count.recvOutstanding + 1), rcq := RcqPoll)
  }

  // ---- The flush on disconnect ----

  function FlushLook(s: State, p: nat): (t: State)
    ensures t.flag.collided == s.flag.collided
  {
    if p >= |s.slots| then s.(flush := FlushIdle)
    else if Has(s.slots[p].bits, INITIALIZED) then s.(flush := FlushClaim(p))
    else s.(flush := FlushTest(p + 1))
  }

  /** The exchange on the parent context, some time after the state word was read. */
  function FlushTakeIo(s: State, p: nat): (t: State)
    requires IsSlot(s, p)
    ensures t.flag.collided == s.flag.collided
  {
    var x := s.slots[p];
    if x.parent.Some? && IsIo(s, x.parent.value) then
      var k := x.parent.value;
      PutIo(Put(s, p, x.(parent := None)), k, s.ios[k].(home := InFlush)).(flush := FlushHas(p, k))
    else
      Put(s, p, x.(parent := None)).(flush := FlushTest(p + 1))
  }

  /** A disconnect for a change of asymmetric access keeps the callback for later. */
  function FlushTestFn(s: State, p: nat, k: nat): (t: State)
    requires IsIo(s, k)
    ensures t.flag.collided == s.flag.collided
  {
    if !s.flag.ana && s.ios[k].fn then s.(flush := FlushTake(p, k))
    else PutIo(s, k, s.ios[k].(home := Over, dropped := true)).(flush := FlushCount(p, k))
  }

  function FlushTakeFn(s: State, p: nat, k: nat): (t: State)
    requires IsIo(s, k)
    ensures t.flag.collided == s.flag.collided
  {
    PutIo(s, k, s.ios[k].(fn := false)).(flush := FlushCall(p, k, s.ios[k].fn))
  }

  function FlushCallBack(s: State, p: nat, k: nat, fn: bool): (t: State)
    requires IsIo(s, k)
    ensures t.flag.collided == s.flag.collided
  {
    PutIo(s, k, s.ios[k].(calls := if fn then s.ios[k].calls + 1 else s.ios[k].calls, home := Over, byFlush := true))
    .(flush := FlushCount(p, k))
  }

  function FlushCountdown(s: State, p: nat, k: nat): (t: State)
    requires IsIo(s, k)
    ensures t.flag.collided == s.flag.collided
  {
    PutIo(s, k, s.ios[k].(counted := false))
    .(count := s.count.(outstanding := s.count.outstanding - 1, sendOutstanding := s.count.sendOutstanding - 1),
      flush := FlushTest(p + 1))
  }

  predicate FlushEnabled(s: State) {
    match s.flush
    case FlushIdle => false
    case FlushTest(_) => true
    case FlushClaim(p) => IsSlot(s, p)
    case FlushHas(_, k) => IsIo(s, k)
    case FlushTake(_, k) => IsIo(s, k)
    case FlushCall(_, k, _) => IsIo(s, k)
    case FlushCount(_, k) => IsIo(s, k)
  }

  function FlushStep(s: State): (t: State)
    requires FlushEnabled(s)
    ensures t.flag.collided == s.flag.collided
  {
    match s.flush
    case FlushIdle => s
    case FlushTest(p) => FlushLook(s, p)
    case FlushClaim(p) => FlushTakeIo(s, p)
    case FlushHas(p, k) => FlushTestFn(s, p, k)
    case FlushTake(p, k) => FlushTakeFn(s, p, k)
    case FlushCall(p, k, fn) => FlushCallBack(s, p, k, fn)
    case FlushCount(p, k) => FlushCountdown(s, p, k)
  }

  // ---- The caller, NDK and the target ----

  /** The caller raises the counters and enters the driver with a new host I/O. */
  function AdmitIo(s: State): (t: State)
    ensures t.flag.collided == s.flag.collided
  {
    s.(ios := s.ios + [NEW_IO], count := s.count.(outstanding := s.count.outstanding + 1))
  }

  function NdkComplete(s: State, i: nat): (t: State)
    requires IsSlot(s, i) && s.slots[i].wr.Posted?
    ensures t.flag.collided == s.flag.collided
  {
    Put(s, i, s.slots[i].(wr := Completed(s.slots[i].wr.op)))
  }

  /** The target answers a command it has not answered yet, into a posted receive. */
  function TargetAnswer(s: State, c: nat, status: int): (t: State)
    requires c in s.owed && IsSlot(s, s.owed[c]) && s.count.recvPosted > 0
    ensures t.flag.collided == s.flag.collided
  {
    var i := s.owed[c];
    Put(s, i, s.slots[i].(resp := Queued, answer := status))
    .(owed := s.owed - {c}, answers := s.answers[c := Answer(i, status)],
      count := s.count.(recvPosted := s.count.recvPosted - 1))
  }

  // ---- All steps ----

  datatype Event =
    | Admit
    | Submitter(io: nat, pages: nat)
    | NdkCompletes(slot: nat)
    | TargetAnswers(id: nat, status: int)
    | ScqFires
    | ScqRuns(pick: nat)
    | RcqFires
    | RcqRuns(pick: nat)
    | FlushBegins(ana: bool)
    | FlushRuns
    | Disconnects

  predicate Enabled(s: State, e: Event) {
    match e
    case Admit => !s.flag.disconnecting
    case Submitter(k, _) => SubEnabled(s, k)
    case NdkCompletes(i) => IsSlot(s, i) && s.slots[i].wr.Posted?
    case TargetAnswers(c, _) => c in s.owed && IsSlot(s, s.owed[c]) && s.count.recvPosted > 0
    case ScqFires => s.flag.scqArmed && !ScqEmpty(s)
    case ScqRuns(pick) => ScqEnabled(s, pick)
    case RcqFires => s.flag.rcqArmed && s.answers != map[]
    case RcqRuns(pick) => RcqEnabled(s, pick)
    case FlushBegins(_) => s.flush.FlushIdle?
    case FlushRuns => FlushEnabled(s)
    case Disconnects => true
  }

  /** One step. A completion queue that fires while its handler runs would start a second drain: a fault. */
  function Step(s: State, e: Event): State
    requires Enabled(s, e)
  {
    match e
    case Admit => AdmitIo(s)
    case Submitter(k, pages) => SubStep(s, k, pages)
    case NdkCompletes(i) => NdkComplete(s, i)
    case TargetAnswers(c, st) => TargetAnswer(s, c, st)
    case ScqFires => Check(s.(flag := s.flag.(scqArmed := false), scq := ScqPoll), s.scq.ScqIdle?)
    case ScqRuns(pick) => ScqStep(s, pick)
    case RcqFires => Check(s.(flag := s.flag.(rcqArmed := false), rcq := RcqPoll), s.rcq.RcqIdle?)
    case RcqRuns(pick) => RcqStep(s, pick)
    case FlushBegins(ana) => s.(flush := FlushTest(0), flag := s.flag.(ana := ana, flushed := true))
    case FlushRuns => FlushStep(s)
    case Disconnects => s.(flag := s.flag.(disconnecting := true))
  }

  /** Every event of the run is enabled when its turn comes. */
  predicate Runnable(s: State, run: seq<Event>)
    decreases |run|
  {
    run == [] || (Enabled(s, run[0]) && Runnable(Step(s, run[0]), run[1..]))
  }

  function Run(s: State, run: seq<Event>): State
    requires Runnable(s, run)
    decreases |run|
  {
    if run == [] then s else Run(Step(s, run[0]), run[1..])
  }

  /** s is the state after some run of a queue of depth n with r receives. */
  ghost predicate Reachable(n: nat, r: nat, s: State) {
    exists run: seq<Event> :: Runnable(Init(n, r), run) && Run(Init(n, r), run) == s
  }
}

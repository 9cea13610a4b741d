/** The engine's counters against plain sums over slots and host I/Os, step by step. */
module IoCounters {
  import opened ReqState
  import opened IoProtocol
  import opened IoInvariant
  import opened IoSteps
  import opened Totals

  // ---- What each counter should be ----

  /** Pages are registered from the fast-register completion to IoCompletion. */
  function Pages(x: Slot): int {
    if 9 <= Order(x.point) <= 24 || x.point.Orphan? then x.pages else 0
  }

  /** The fast register is posted, and its completion not yet counted. */
  function FrPending(x: Slot): int {
    if 7 <= Order(x.point) <= 8 then 1 else 0
  }

  /** The send is counted, and its completion not yet counted. */
  function SendPending(x: Slot): int {
    if 14 <= Order(x.point) <= 16 then 1 else 0
  }

  function IsOwed(x: Slot): int {
    if x.resp.Owed? then 1 else 0
  }

  function IsQueued(x: Slot): int {
    if x.resp.Queued? then 1 else 0
  }

  /** The thread has posted its fast register and not yet counted it. */
  function AboutToCount(o: Io): int {
    if o.pc.Counting? then 1 else 0
  }

  /** A flush has completed the host I/O and counted it down, from the sends too. */
  function FlushedDown(o: Io): int {
    if (o.byFlush || o.dropped) && !o.counted then 1 else 0
  }

  function Counted(o: Io): int {
    if o.counted then 1 else 0
  }

  /** The receive that the handler has fetched and not yet posted again. */
  function HeldReceive(pc: RcqPc): nat {
    if pc.RcqIdle? || pc.RcqPoll? || pc.RcqArm? || pc.RcqCount? then 0 else 1
  }

  /** The flush is about to call a host I/O back. */
  predicate FlushCalls(pc: FlushPc) { pc.FlushTake? || pc.FlushCall? }

  ghost predicate Sums(s: State, r: nat) {
    && s.count.regPages == Total(s.slots, Pages)
    && s.count.frOutstanding == Total(s.slots, FrPending) - Total(s.ios, AboutToCount)
    && s.count.sendOutstanding == Total(s.slots, SendPending) - Total(s.ios, FlushedDown)
    && s.count.outstanding == Total(s.ios, Counted)
    && |s.owed| == Total(s.slots, IsOwed)
    && |s.answers| == Total(s.slots, IsQueued)
    && s.count.recvPosted + |s.answers| + HeldReceive(s.rcq) == r
    && s.count.recvOutstanding == s.count.recvPosted + |s.answers| - (if s.rcq.RcqCount? then 1 else 0)
    && (s.rcq.RcqIdle? ==> s.flag.rcqArmed) && (r == 0 ==> s.rcq.RcqIdle?)
    && (!s.flag.flushed ==> s.flush.FlushIdle?)
    && (FlushCalls(s.flush) ==> !s.flag.ana)
  }

  /** The completed host I/O that the send-queue handler has still to count down. */
  function ScqOwes(pc: ScqPc): Option<nat> {
    match pc
    case ScqCountdown(k) => Some(k)
    case ScqHas(Releasing, _, k) => Some(k)
    case _ => None
  }

  function FlushOwes(pc: FlushPc): Option<nat> {
    match pc
    case FlushCount(_, k) => Some(k)
    case _ => None
  }

  /** The counters count a host I/O until whoever completed it counts it down, and that happens once. */
  predicate TallyOk(s: State, k: nat, o: Io) {
    && (ScqOwes(s.scq) == Some(k) ==> !o.byFlush && !o.dropped)
    && (FlushOwes(s.flush) == Some(k) ==> o.byFlush || o.dropped)
    && (o.byFlush || o.dropped ==> s.flag.flushed)
    && (o.counted <==> !o.home.Over? || ScqOwes(s.scq) == Some(k) || FlushOwes(s.flush) == Some(k))
  }

  ghost predicate Counts(s: State, r: nat) {
    && Sums(s, r)
    && (forall k: nat :: k < |s.ios| ==> TallyOk(s, k, s.ios[k]))
  }

  lemma InitCounts(n: nat, r: nat)
    ensures Counts(Init(n, r), r)
  {
    var s := Init(n, r);
    TotalBounds(s.slots, Pages, 0, 0);
    TotalBounds(s.slots, FrPending, 0, 0);
    TotalBounds(s.slots, SendPending, 0, 0);
    TotalBounds(s.slots, IsOwed, 0, 0);
    TotalBounds(s.slots, IsQueued, 0, 0);
  }

  // ---- Steps change counters and sums alike ----

  /** Slot i, or a free one if there is none. */
  function SlotAt(s: State, i: nat): Slot { if IsSlot(s, i) then s.slots[i] else FREE_SLOT }

  /** Host I/O k, or a new one if there is none. */
  function IoAt(s: State, k: nat): Io { if IsIo(s, k) then s.ios[k] else NEW_IO }

  /** The step changes no slot but i and no host I/O but k, and each counter by what its sum changes. */
  ghost predicate Balanced(s: State, t: State, i: nat, k: nat) {
    && (t.slots == s.slots || (IsSlot(s, i) && |t.slots| == |s.slots| && t.slots == s.slots[i := t.slots[i]]))
    && (t.ios == s.ios || (IsIo(s, k) && |t.ios| == |s.ios| && t.ios == s.ios[k := t.ios[k]]))
    && SlotGains(s, t, SlotAt(s, i), SlotAt(t, i), IoAt(s, k), IoAt(t, k))
    && t.flag.flushed == s.flag.flushed && (t.flag.flushed || t.flush == s.flush)
    && t.flag.ana == s.flag.ana && (FlushCalls(t.flush) ==> FlushCalls(s.flush) || !s.flag.ana)
  }

  /** What slot x, which becomes y, and host I/O o, which becomes p, mean for the counters. */
  predicate SlotGains(s: State, t: State, x: Slot, y: Slot, o: Io, p: Io) {
    && t.count.regPages - s.count.regPages == Pages(y) - Pages(x)
    && t.count.frOutstanding - s.count.frOutstanding
       == FrPending(y) - FrPending(x) - AboutToCount(p) + AboutToCount(o)
    && t.count.sendOutstanding - s.count.sendOutstanding
       == SendPending(y) - SendPending(x) - FlushedDown(p) + FlushedDown(o)
    && t.count.outstanding - s.count.outstanding == Counted(p) - Counted(o)
    && |t.owed| - |s.owed| == IsOwed(y) - IsOwed(x)
    && |t.answers| - |s.answers| == IsQueued(y) - IsQueued(x)
  }

  /** What the receive-queue handler and the target do to the receives. */
  ghost predicate ReceivesKept(s: State, t: State) {
    && (t.count.recvPosted + |t.answers| + HeldReceive(t.rcq))
       == (s.count.recvPosted + |s.answers| + HeldReceive(s.rcq))
    && t.count.recvOutstanding - t.count.recvPosted - |t.answers| + (if t.rcq.RcqCount? then 1 else 0)
       == s.count.recvOutstanding - s.count.recvPosted - |s.answers| + (if s.rcq.RcqCount? then 1 else 0)
    && (t.rcq.RcqIdle? ==>
          t.flag.rcqArmed || (s.rcq.RcqIdle? && !s.flag.rcqArmed) || (s.rcq.RcqArm? && s.count.recvOutstanding == 0))
    && (s.rcq.RcqIdle? && !t.rcq.RcqIdle? ==> |s.answers| > 0)
  }

  lemma SlotSums(s: State, t: State, i: nat, w: Slot -> int)
    requires t.slots == s.slots || (IsSlot(s, i) && |t.slots| == |s.slots| && t.slots == s.slots[i := t.slots[i]])
    ensures Total(t.slots, w) == Total(s.slots, w) + w(SlotAt(t, i)) - w(SlotAt(s, i))
  {
    if t.slots != s.slots { TotalUpdate(s.slots, i, t.slots[i], w); }
  }

  lemma IoSums(s: State, t: State, k: nat, w: Io -> int)
    requires t.ios == s.ios || (IsIo(s, k) && |t.ios| == |s.ios| && t.ios == s.ios[k := t.ios[k]])
    ensures Total(t.ios, w) == Total(s.ios, w) + w(IoAt(t, k)) - w(IoAt(s, k))
  {
    if t.ios != s.ios { TotalUpdate(s.ios, k, t.ios[k], w); }
  }

  lemma SumsKept(s: State, t: State, i: nat, k: nat, r: nat)
    requires Sums(s, r) && Balanced(s, t, i, k) && ReceivesKept(s, t)
    ensures Sums(t, r)
  {
    SlotSums(s, t, i, Pages);
    SlotSums(s, t, i, FrPending);
    SlotSums(s, t, i, SendPending);
    SlotSums(s, t, i, IsOwed);
    SlotSums(s, t, i, IsQueued);
    IoSums(s, t, k, AboutToCount);
    IoSums(s, t, k, FlushedDown);
    IoSums(s, t, k, Counted);
  }

  /** Who owes a countdown changes for host I/O k only. */
  ghost predicate NearTally(s: State, t: State, k: nat) {
    && (ScqOwes(s.scq) == ScqOwes(t.scq) || (ScqOwes(s.scq) in {None, Some(k)} && ScqOwes(t.scq) in {None, Some(k)}))
    && (|| FlushOwes(s.flush) == FlushOwes(t.flush)
        || (FlushOwes(s.flush) in {None, Some(k)} && FlushOwes(t.flush) in {None, Some(k)}))
    && (IsIo(s, k) && IsIo(t, k) && TallyOk(s, k, s.ios[k]) ==> TallyOk(t, k, t.ios[k]))
  }

  /** If the flush takes a host I/O, it is slot i's. */
  predicate Robs(s: State, t: State, i: nat) { s.flush.FlushClaim? && t.flush.FlushHas? ==> s.flush.p == i }

  /** The slot has taken a ticket in its present life. */
  predicate Ticketed(x: Slot) { Order(x.point) >= 2 }

  /** A slot's id and ticket change only when its submitter takes the counter's value for it. */
  predicate Paced(s: State, t: State, i: nat) {
    && (t.next == s.next || (t.next == s.next + 1 && IsSlot(s, i) && s.slots[i].point.Ticketing?))
    && (IsSlot(s, i) && IsSlot(t, i) ==>
          var x, y := s.slots[i], t.slots[i];
          if x.point.Ticketing? && y.point.Parenting? then
            y.ticket == s.next && y.cmdId == s.next % ID_COUNT && t.next == s.next + 1
          else
            y.ticket == x.ticket && y.cmdId == x.cmdId && t.next == s.next && (Ticketed(y) ==> Ticketed(x)))
  }

  /** The compare-and-swap of a handler has won slot i, and that handler now has the invalidate to post. */
  predicate Won(s: State, t: State, i: nat)
    requires IsSlot(s, i) && IsSlot(t, i)
  {
    && s.slots[i].bits == ALL_STATE_DONE && t.slots[i].bits == FREEING
    && t.slots[i].handoffs == s.slots[i].handoffs + 1
    && (|| (s.scq == ScqAt(SendCasing, i) && t.scq == ScqAt(InvWriting(true), i) && t.rcq == s.rcq)
        || (s.rcq.RcqCas? && s.rcq.slot == i && t.rcq == RcqWrite(i) && t.scq == s.scq))
  }

  /** A flush has taken the slot's host I/O. */
  predicate Robbed(x: Slot) { x.point.Orphan? || (Parented(x.point) && x.parent.None?) }

  /** A slot goes forward through its life, posts as it goes, and is handed off by a compare-and-swap only. */
  predicate Onward(s: State, t: State, i: nat) {
    IsSlot(s, i) && IsSlot(t, i) ==>
      var x, y := s.slots[i], t.slots[i];
      && (Order(x.point) <= Order(y.point) || (x.point.Releasing? && y.point.Free?))
      && (x.point.Free? || y.owner == x.owner)
      && (y.wr.Posted? && y.wr != x.wr ==> x.wr == Owned && y.wr.op == x.wrType && Order(y.point) == Order(x.point) + 1)
      && (y.handoffs == x.handoffs || (x.point.Free? && y.handoffs == 0) || Won(s, t, i))
      && (Robbed(y) <==> Robbed(x) || (s.flush == FlushClaim(i) && t.flush.FlushHas?))
  }

  // ---- What a step does to the records of slot i and host I/O k ----

  /** A thread, a handler or NDK, the handler at the callback, the target, a flush. */
  datatype Actor = Thread | Handler | Caller | Target | Flusher

  function ActorOf(s: State, e: Event): Actor {
    match e
    case Submitter(_, _) => Thread
    case TargetAnswers(_, _) => Target
    case ScqRuns(_) => if s.scq.ScqCall? then Caller else Handler
    case FlushRuns => Flusher
    case _ => Handler
  }

  /** The target has answered the command of the slot's life. */
  predicate HasAnswer(r: Resp) { !r.NoCommand? && !r.Owed? }

  /** A thread that scans claims the slot it has come to if that is free, goes on if not, and is turned away if there
   is none; where it claims one it goes on with that. */
  predicate Looks(s: State, o: Io, p: Io, x: Slot, y: Slot, i: nat, k: nat) {
    && (x.point.Free? && !y.point.Free? ==> o.pc == Scanning(i) && y.owner == k && y.resp.NoCommand?)
    && (y.pages == x.pages || o.pc == SubAt(Parenting, i))
    && if !o.pc.Scanning? then
         && p == o.(pc := p.pc) && !p.pc.Scanning? && (p.pc.SubAt? ==> o.pc.SubAt? && p.pc.slot == o.pc.slot)
         && (o.pc.SubAt? && o.pc.point.Ticketing? ==> p.pc == SubAt(Parenting, o.pc.slot))
       else if !IsSlot(s, o.pc.p) then p == o.(pc := Returned, counted := false, home := Over, rejected := true)
       else if s.slots[o.pc.p].bits == FREE then
         i == o.pc.p && p == o.(pc := SubAt(Ticketing, i), slot := i, home := InSlot(i))
         && y.bits == ALLOCATED && y.owner == k
       else p == o.(pc := Scanning(o.pc.p + 1))
  }

  /** A flush takes the host I/O of every slot that it finds prepared and with a parent, and calls it back unless the
   disconnect is for asymmetric access. */
  predicate Flushes(s: State, t: State, o: Io, p: Io, k: nat) {
    match s.flush
    case FlushIdle => false
    case FlushTest(j) =>
      p == o && t.flush == (if !IsSlot(s, j) then FlushIdle
                            else if Has(s.slots[j].bits, INITIALIZED) then FlushClaim(j) else FlushTest(j + 1))
    case FlushClaim(j) =>
      IsSlot(s, j) && (if s.slots[j].parent.None? then p == o && t.flush == FlushTest(j + 1)
                       else s.slots[j].parent == Some(k) && p == o.(home := InFlush) && t.flush == FlushHas(j, k))
    case FlushHas(j, m) =>
      m == k && (if s.flag.ana || !o.fn then p == o.(home := Over, dropped := true) && t.flush == FlushCount(j, k)
                 else p == o && t.flush == FlushTake(j, k))
    case FlushTake(j, m) => m == k && p == o.(fn := false) && t.flush == FlushCall(j, k, o.fn)
    case FlushCall(j, m, _) =>
      m == k && p == o.(calls := o.calls + 1, home := Over, byFlush := true) && t.flush == FlushCount(j, k)
    case FlushCount(j, m) => m == k && p == o.(counted := false) && t.flush == FlushTest(j + 1)
  }

  predicate TouchesIo(s: State, t: State, i: nat, k: nat, a: Actor) {
    var o, p := IoAt(s, k), IoAt(t, k);
    match a
    case Thread => t.flush == s.flush && Looks(s, o, p, SlotAt(s, i), SlotAt(t, i), i, k)
    case Caller =>
      t.flush == s.flush && IsSlot(s, i) && s.scq.ScqCall? && s.scq.slot == i && s.scq.io == k
      && p == o.(calls := o.calls + 1, home := Over, delivered := s.slots[i].status, answer := s.slots[i].answer,
                 late := s.rcq.RcqStore? && s.rcq.slot == i)
    case Flusher => Flushes(s, t, o, p, k)
    case _ =>
      t.flush == s.flush && p == o.(fn := p.fn, home := p.home, counted := p.counted)
      && (p.home == o.home || (!o.home.InFlush? && !p.home.InFlush?))
  }

  /** A life's answer is given by the target, its page map by its thread, and it begins with a claim. */
  predicate TouchesSlot(x: Slot, y: Slot, a: Actor) {
    && (|| a.Target? || x.point.Free? || y.point.Free?
        || (y.answer == x.answer && (HasAnswer(y.resp) <==> HasAnswer(x.resp))))
    && (x.point.Free? && !y.point.Free? ==> a.Thread? && y.point.Ticketing?)
    && (y.pages == x.pages || a.Thread?)
  }

  predicate Touches(s: State, t: State, i: nat, k: nat, a: Actor) {
    TouchesIo(s, t, i, k, a) && TouchesSlot(SlotAt(s, i), SlotAt(t, i), a)
  }

  // ---- What is left to do ----

  /** Steps that the life a slot is in, its work request and its response have still to take, or more. */
  function SlotRank(x: Slot): int {
    if x.point.Free? then 0
    else
      50 * (30 - Order(x.point))
      + (if x.wr.Posted? then 20 else if x.wr.Completed? then 19 else 0)
      + (if x.resp.NoCommand? then 0 else if x.resp.Owed? then 16 else if x.resp.Queued? then 15 else 1)
  }

  /** The same for the thread of a host I/O, on a queue of depth n: the scan, and all the life of the slot it may
   claim. */
  function IoRank(o: Io, n: nat): int {
    match o.pc
    case Scanning(p) => 1502 + Ahead(p, n)
    case SubAt(_, _) => 2
    case Counting => 1
    case Returned => 0
  }

  function IoWeight(n: nat): Io -> int {
    (o: Io) => IoRank(o, n)
  }

  function ScqRank(pc: ScqPc): int {
    if ScqBetween(pc) then 0 else 1
  }

  function RcqRank(pc: RcqPc): int {
    match pc
    case RcqIdle => 0
    case RcqPoll => 0
    case RcqArm => 0
    case RcqLookup(_, _) => 9
    case RcqRemove(_, _) => 8
    case RcqOr(_, _) => 7
    case RcqStore(_, _, _) => 6
    case RcqCas(_, _) => 5
    case RcqWrite(_) => 4
    case RcqPost(_) => 3
    case RcqRepost => 2
    case RcqCount => 1
  }

  /** The rest of a flush's scan over n slots, and of what it does with the host I/O that it has. */
  function FlushRank(pc: FlushPc, n: nat): int {
    match pc
    case FlushIdle => 0
    case FlushTest(p) => 1 + 6 * Ahead(p, n)
    case FlushClaim(p) => 6 + 6 * Ahead(p + 1, n)
    case FlushHas(p, _) => 5 + 6 * Ahead(p + 1, n)
    case FlushTake(p, _) => 4 + 6 * Ahead(p + 1, n)
    case FlushCall(p, _, _) => 3 + 6 * Ahead(p + 1, n)
    case FlushCount(p, _) => 2 + 6 * Ahead(p + 1, n)
  }

  function Ahead(p: nat, n: nat): nat {
    if p < n then n - p else 0
  }

  /** The handler has no completion in its hands. */
  predicate ScqBetween(pc: ScqPc) { pc.ScqIdle? || pc.ScqPoll? || pc.ScqArm? }

  predicate ScqTurn(p: ScqPc, q: ScqPc, empty: bool) {
    (p.ScqIdle? && q.ScqPoll? && !empty) || (p.ScqPoll? && q.ScqArm? && empty) || (p.ScqArm? && q.ScqIdle?)
  }

  predicate RcqTurn(p: RcqPc, q: RcqPc, empty: bool) {
    (p.RcqIdle? && q.RcqPoll? && !empty) || (p.RcqPoll? && q.RcqArm? && empty) || (p.RcqArm? && q.RcqIdle?)
  }

  /** The step is a handler's, between two completions: its queue fires, or is found empty, or is armed again. */
  predicate Between(s: State, t: State) {
    && t.slots == s.slots && t.ios == s.ios && t.answers == s.answers && t.flush == s.flush
    && (|| (t.rcq == s.rcq && ScqTurn(s.scq, t.scq, ScqEmpty(s)))
        || (t.scq == s.scq && RcqTurn(s.rcq, t.rcq, s.answers == map[])))
  }

  /** The step leaves less to do, unless it is a handler's between two completions. */
  ghost predicate Downhill(s: State, t: State, i: nat, k: nat) {
    || Between(s, t)
    || (SlotRank(SlotAt(t, i)) - SlotRank(SlotAt(s, i))) + IoRank(IoAt(t, k), |s.slots|) - IoRank(IoAt(s, k), |s.slots|)
       + ScqRank(t.scq) - ScqRank(s.scq) + RcqRank(t.rcq) - RcqRank(s.rcq)
       + FlushRank(t.flush, |s.slots|) - FlushRank(s.flush, |s.slots|) < 0
  }

  /** The step keeps the sums and the countdowns owed in step with the counters. */
  ghost predicate Booked(s: State, t: State, i: nat, k: nat) {
    Balanced(s, t, i, k) && ReceivesKept(s, t) && NearTally(s, t, k)
  }

  /** The step takes slot i and host I/O k forward only. */
  ghost predicate Moved(s: State, t: State, i: nat, k: nat) {
    Paced(s, t, i) && Onward(s, t, i) && Downhill(s, t, i, k) && Robs(s, t, i)
  }

  ghost predicate Tallied(s: State, t: State, i: nat, k: nat, a: Actor) {
    Booked(s, t, i, k) && Moved(s, t, i, k) && Touches(s, t, i, k, a)
  }

  lemma CountsKept(s: State, t: State, i: nat, k: nat, a: Actor, r: nat)
    requires Counts(s, r) && Tallied(s, t, i, k, a)
    ensures Counts(t, r)
  {
    SumsKept(s, t, i, k, r);
    forall j: nat | j < |t.ios| ensures TallyOk(t, j, t.ios[j]) { assert TallyOk(s, j, s.ios[j]); }
  }

  /** The submitter takes its slot from one of its points to the next. */
  lemma SubGoesOn(s: State, t: State, k: nat, i: nat, y: Slot)
    requires IsIo(s, k) && IsSlot(s, i) && s.ios[k].pc == SubAt(s.slots[i].point, i)
    requires t == s.(slots := s.slots[i := y], ios := s.ios[k := s.ios[k].(pc := SubAt(y.point, i))],
                     next := t.next, flag := t.flag)
    requires t.flag == s.flag || t.flag == s.flag.(fault := true)
    requires 1 <= Order(s.slots[i].point) && Order(y.point) == Order(s.slots[i].point) + 1 <= 6
    requires y.owner == s.slots[i].owner && y.wr == s.slots[i].wr && y.resp == s.slots[i].resp
    requires y.handoffs == s.slots[i].handoffs && y.answer == s.slots[i].answer
    requires y.pages == s.slots[i].pages || s.slots[i].point.Parenting?
    requires if s.slots[i].point.Parenting? then y.parent.Some? else y.parent == s.slots[i].parent
    requires if Ticketed(s.slots[i]) then
               y.ticket == s.slots[i].ticket && y.cmdId == s.slots[i].cmdId && t.next == s.next
             else y.ticket == s.next && y.cmdId == s.next % ID_COUNT && t.next == s.next + 1
    ensures Moved(s, t, i, k)
  {
  }

  lemma SubBalances(s: State, t: State, k: nat, i: nat, y: Slot)
    requires IsIo(s, k) && IsSlot(s, i) && s.ios[k].pc == SubAt(s.slots[i].point, i)
    requires t == s.(slots := s.slots[i := y], ios := s.ios[k := s.ios[k].(pc := SubAt(y.point, i))],
                     next := t.next, flag := t.flag)
    requires t.flag == s.flag || t.flag == s.flag.(fault := true)
    requires 1 <= Order(s.slots[i].point) && Order(y.point) == Order(s.slots[i].point) + 1 <= 6
    requires y.owner == s.slots[i].owner && y.wr == s.slots[i].wr && y.resp == s.slots[i].resp
    requires y.handoffs == s.slots[i].handoffs && y.answer == s.slots[i].answer
    requires y.pages == s.slots[i].pages || s.slots[i].point.Parenting?
    requires if s.slots[i].point.Parenting? then y.parent.Some? else y.parent == s.slots[i].parent
    requires if Ticketed(s.slots[i]) then
               y.ticket == s.slots[i].ticket && y.cmdId == s.slots[i].cmdId && t.next == s.next
             else y.ticket == s.next && y.cmdId == s.next % ID_COUNT && t.next == s.next + 1
    ensures Balanced(s, t, i, k)
  {
  }

  lemma SubGoes(s: State, t: State, k: nat, i: nat, y: Slot)
    requires IsIo(s, k) && IsSlot(s, i) && s.ios[k].pc == SubAt(s.slots[i].point, i)
    requires t == s.(slots := s.slots[i := y], ios := s.ios[k := s.ios[k].(pc := SubAt(y.point, i))],
                     next := t.next, flag := t.flag)
    requires t.flag == s.flag || t.flag == s.flag.(fault := true)
    requires 1 <= Order(s.slots[i].point) && Order(y.point) == Order(s.slots[i].point) + 1 <= 6
    requires y.owner == s.slots[i].owner && y.wr == s.slots[i].wr && y.resp == s.slots[i].resp
    requires y.handoffs == s.slots[i].handoffs && y.answer == s.slots[i].answer
    requires y.pages == s.slots[i].pages || s.slots[i].point.Parenting?
    requires if s.slots[i].point.Parenting? then y.parent.Some? else y.parent == s.slots[i].parent
    requires if Ticketed(s.slots[i]) then
               y.ticket == s.slots[i].ticket && y.cmdId == s.slots[i].cmdId && t.next == s.next
             else y.ticket == s.next && y.cmdId == s.next % ID_COUNT && t.next == s.next + 1
    ensures Tallied(s, t, i, k, Thread)
  {
    SubBalances(s, t, k, i, y);
    SubGoesOn(s, t, k, i, y);
  }

  lemma SubTicketTallied(s: State, k: nat, i: nat)
    requires IsIo(s, k) && IsSlot(s, i) && s.ios[k].pc == SubAt(Ticketing, i) && s.slots[i].point == Ticketing
    ensures Tallied(s, SubTicket(s, k, i), i, k, Thread)
  {
    SubGoes(s, SubTicket(s, k, i), k, i, SubTicket(s, k, i).slots[i]);
  }

  lemma SubMarkTallied(s: State, k: nat, i: nat)
    requires IsIo(s, k) && IsSlot(s, i) && s.ios[k].pc == SubAt(Marking, i) && s.slots[i].point == Marking
    ensures Tallied(s, SubMark(s, k, i), i, k, Thread)
  {
    SubGoes(s, SubMark(s, k, i), k, i, SubMark(s, k, i).slots[i]);
  }

  lemma SubWriteFrTallied(s: State, k: nat, i: nat)
    requires IsIo(s, k) && IsSlot(s, i) && s.ios[k].pc == SubAt(FrWriting, i) && s.slots[i].point == FrWriting
    ensures Tallied(s, SubWriteFr(s, k, i), i, k, Thread)
  {
    SubGoes(s, SubWriteFr(s, k, i), k, i, SubWriteFr(s, k, i).slots[i]);
  }

  lemma SubMarkFrTallied(s: State, k: nat, i: nat)
    requires IsIo(s, k) && IsSlot(s, i) && s.ios[k].pc == SubAt(FrMarking, i) && s.slots[i].point == FrMarking
    ensures Tallied(s, SubMarkFr(s, k, i), i, k, Thread)
  {
    SubGoes(s, SubMarkFr(s, k, i), k, i, SubMarkFr(s, k, i).slots[i]);
  }

  lemma SubPostFrTallied(s: State, k: nat, i: nat)
    requires IsSlot(s, i) && s.slots[i].wr == Owned && IsIo(s, k) && s.ios[k].pc == SubAt(FrPosting, i)
    requires s.slots[i].point == FrPosting
    ensures Tallied(s, SubPostFr(s, k, i), i, k, Thread)
  {
  }

  lemma SubParentTallied(s: State, k: nat, i: nat, pages: nat)
    requires IsIo(s, k) && IsSlot(s, i) && s.ios[k].pc == SubAt(Parenting, i) && s.slots[i].point == Parenting
    ensures Tallied(s, SubParent(s, k, i, pages), i, k, Thread)
  {
    SubGoes(s, SubParent(s, k, i, pages), k, i, SubParent(s, k, i, pages).slots[i]);
  }

  lemma SubClaimTallied(s: State, k: nat, p: nat)
    requires IsIo(s, k) && s.ios[k].pc == Scanning(p) && s.ios[k].home.Nowhere?
    requires IsSlot(s, p) && s.slots[p].point.Free? && s.slots[p].bits == FREE && s.slots[p].resp.NoCommand?
    ensures Tallied(s, SubClaim(s, k, p), p, k, Thread)
  {
    var t := SubClaim(s, k, p);
    var y := s.slots[p].(bits := ALLOCATED, point := Ticketing, resp := NoCommand, owner := k, handoffs := 0);
    assert t.slots == s.slots[p := y] && t.count == s.count;
  }

  lemma SubGiveUpTallied(s: State, k: nat, p: nat)
    requires IsIo(s, k) && s.ios[k].pc == Scanning(p) && !IsSlot(s, p) && s.ios[k].counted && s.ios[k].home.Nowhere?
    requires !s.ios[k].byFlush && !s.ios[k].dropped && ScqOk(s) && FlushOk(s)
    ensures Tallied(s, SubGiveUp(s, k), p, k, Thread)
  {
  }

  lemma SubPassTallied(s: State, k: nat, p: nat)
    requires IsIo(s, k) && IsSlot(s, p) && s.ios[k].pc == Scanning(p) && s.slots[p].bits != FREE
    ensures Tallied(s, SubScan(s, k, p), p, k, Thread)
  {
  }

  lemma SubScanTallied(s: State, k: nat, p: nat)
    requires IsIo(s, k) && s.ios[k].pc == Scanning(p) && s.ios[k].counted && s.ios[k].home.Nowhere? && ScqOk(s)
    requires FlushOk(s) && !s.ios[k].byFlush && !s.ios[k].dropped
    requires IsSlot(s, p) ==> Local(s.slots[p])
    ensures Tallied(s, SubScan(s, k, p), p, k, Thread)
  {
    if p >= |s.slots| { SubGiveUpTallied(s, k, p); }
    else if s.slots[p].bits == FREE { SubClaimTallied(s, k, p); }
    else { SubPassTallied(s, k, p); }
  }

  lemma SubCountTallied(s: State, k: nat, i: nat)
    requires IsIo(s, k) && s.ios[k].pc.Counting?
    ensures Tallied(s, SubCount(s, k), i, k, Thread)
  {
  }

  // The send-queue handler.

  /** The handler takes its slot from one of its points to the next, where no counter changes. */
  lemma ScqGoesOn(s: State, t: State, i: nat, k: nat, y: Slot)
    requires IsSlot(s, i) && s.scq.ScqAt? && t.flag.flushed == s.flag.flushed && t.flag.rcqArmed == s.flag.rcqArmed
    requires t.flag.ana == s.flag.ana
    requires t == s.(slots := s.slots[i := y], scq := ScqAt(y.point, i), table := t.table, flag := t.flag)
    requires y == s.slots[i].(point := y.point, wrType := y.wrType, bits := y.bits)
    requires 9 <= Order(s.slots[i].point) && Order(y.point) == Order(s.slots[i].point) + 1 <= 23
    requires Order(y.point) <= 13 || 19 <= Order(s.slots[i].point)
    ensures Moved(s, t, i, k)
  {
  }

  lemma ScqGoes(s: State, t: State, i: nat, k: nat, y: Slot)
    requires IsSlot(s, i) && s.scq.ScqAt? && t.flag.flushed == s.flag.flushed && t.flag.rcqArmed == s.flag.rcqArmed
    requires t.flag.ana == s.flag.ana
    requires t == s.(slots := s.slots[i := y], scq := ScqAt(y.point, i), table := t.table, flag := t.flag)
    requires y == s.slots[i].(point := y.point, wrType := y.wrType, bits := y.bits)
    requires 9 <= Order(s.slots[i].point) && Order(y.point) == Order(s.slots[i].point) + 1 <= 23
    requires Order(y.point) <= 13 || 19 <= Order(s.slots[i].point)
    ensures Tallied(s, t, i, k, Handler)
  {
    ScqGoesOn(s, t, i, k, y);
  }

  lemma FrCountTallied(s: State, i: nat, k: nat)
    requires IsSlot(s, i) && s.slots[i].point == FrCounting && s.scq == ScqAt(FrCounting, i)
    ensures Tallied(s, FrCount(s, i), i, k, Handler)
  {
  }

  lemma FrWriteSendTallied(s: State, i: nat, k: nat)
    requires IsSlot(s, i) && s.slots[i].point == SendWriting && s.scq == ScqAt(SendWriting, i)
    ensures Tallied(s, FrWriteSend(s, i), i, k, Handler)
  {
    ScqGoes(s, FrWriteSend(s, i), i, k, FrWriteSend(s, i).slots[i]);
  }

  lemma FrMarkTallied(s: State, i: nat, k: nat)
    requires IsSlot(s, i) && s.slots[i].point == SubMarking && s.scq == ScqAt(SubMarking, i)
    ensures Tallied(s, FrMark(s, i), i, k, Handler)
  {
    ScqGoes(s, FrMark(s, i), i, k, FrMark(s, i).slots[i]);
  }

  lemma FrCountSendTallied(s: State, i: nat, k: nat)
    requires IsSlot(s, i) && s.slots[i].point == SendCounting && s.scq == ScqAt(SendCounting, i)
    ensures Tallied(s, FrCountSend(s, i), i, k, Handler)
  {
  }

  lemma FrMarkDoneTallied(s: State, i: nat, k: nat)
    requires IsSlot(s, i) && s.slots[i].point == DoneMarking && s.scq == ScqAt(DoneMarking, i)
    ensures Tallied(s, FrMarkDone(s, i), i, k, Handler)
  {
  }

  lemma SendMarkTallied(s: State, i: nat, k: nat)
    requires IsSlot(s, i) && s.slots[i].point == WaitMarking && s.scq == ScqAt(WaitMarking, i)
    ensures Tallied(s, SendMark(s, i), i, k, Handler)
  {
  }

  lemma FrInsertTallied(s: State, i: nat, k: nat)
    requires IsSlot(s, i) && s.slots[i].point == Inserting && IsId(s, s.slots[i].cmdId) && s.scq == ScqAt(Inserting, i)
    ensures Tallied(s, FrInsert(s, i), i, k, Handler)
  {
    ScqGoes(s, FrInsert(s, i), i, k, FrInsert(s, i).slots[i]);
  }

  lemma FrPostSendMoves(s: State, i: nat, k: nat)
    requires IsSlot(s, i) && s.slots[i].wr == Owned && s.slots[i].point == SendPosting && s.slots[i].cmdId !in s.owed
    requires s.slots[i].resp.NoCommand? && s.scq == ScqAt(SendPosting, i)
    ensures Moved(s, FrPostSend(s, i), i, k)
  {
  }

  lemma FrPostSendTouches(s: State, i: nat, k: nat)
    requires IsSlot(s, i) && s.slots[i].wr == Owned && s.slots[i].point == SendPosting && s.slots[i].cmdId !in s.owed
    requires s.slots[i].resp.NoCommand? && s.scq == ScqAt(SendPosting, i)
    ensures Touches(s, FrPostSend(s, i), i, k, Handler)
  {
  }

  lemma FrPostSendTallied(s: State, i: nat, k: nat)
    requires IsSlot(s, i) && s.slots[i].wr == Owned && s.slots[i].point == SendPosting && s.slots[i].cmdId !in s.owed
    requires s.slots[i].resp.NoCommand? && s.scq == ScqAt(SendPosting, i)
    ensures Tallied(s, FrPostSend(s, i), i, k, Handler)
  {
    FrPostSendTouches(s, i, k);
    FrPostSendMoves(s, i, k);
  }

  lemma SendCasWonTallied(s: State, i: nat, k: nat)
    requires IsSlot(s, i) && s.slots[i].point.SendCasing? && s.slots[i].bits == ALL_STATE_DONE
    requires s.scq == ScqAt(SendCasing, i)
    ensures Tallied(s, SendCas(s, i), i, k, Handler)
  {
  }

  lemma SendCasFailedMoves(s: State, i: nat, k: nat)
    requires IsSlot(s, i) && 16 < Order(s.slots[i].point) <= 21 && s.scq == ScqAt(SendCasing, i)
    requires s.slots[i].bits != ALL_STATE_DONE
    ensures Moved(s, SendCas(s, i), i, k)
  {
  }

  lemma SendCasFailedTallied(s: State, i: nat, k: nat)
    requires IsSlot(s, i) && 16 < Order(s.slots[i].point) <= 21 && s.scq == ScqAt(SendCasing, i)
    requires s.slots[i].bits != ALL_STATE_DONE
    ensures Tallied(s, SendCas(s, i), i, k, Handler)
  {
    SendCasFailedMoves(s, i, k);
  }

  lemma SendWriteInvTallied(s: State, i: nat, k: nat)
    requires IsSlot(s, i) && s.slots[i].point == InvWriting(true) && s.scq == ScqAt(InvWriting(true), i)
    ensures Tallied(s, SendWriteInv(s, i), i, k, Handler)
  {
    ScqGoes(s, SendWriteInv(s, i), i, k, SendWriteInv(s, i).slots[i]);
  }

  lemma SendPostInvTallied(s: State, i: nat, k: nat)
    requires IsSlot(s, i) && s.slots[i].wr == Owned && s.slots[i].point == InvPosting(true)
    requires s.scq == ScqAt(InvPosting(true), i)
    ensures Tallied(s, SendPostInv(s, i), i, k, Handler)
  {
  }

  lemma InvCheckTallied(s: State, i: nat, k: nat)
    requires IsSlot(s, i) && s.slots[i].point == InvChecking && s.slots[i].bits == FREEING
    requires s.scq == ScqAt(InvChecking, i)
    ensures Tallied(s, InvCheck(s, i), i, k, Handler)
  {
    ScqGoes(s, InvCheck(s, i), i, k, InvCheck(s, i).slots[i]);
  }

  lemma InvOrphanMoves(s: State, i: nat, k: nat)
    requires IsSlot(s, i) && s.slots[i].point == InvClaiming && s.slots[i].parent.None?
    requires s.scq == ScqAt(InvClaiming, i)
    ensures Moved(s, InvClaim(s, i), i, k)
  {
  }

  lemma InvOrphanTallied(s: State, i: nat, k: nat)
    requires IsSlot(s, i) && s.slots[i].point == InvClaiming && s.slots[i].parent.None?
    requires s.scq == ScqAt(InvClaiming, i)
    ensures Tallied(s, InvClaim(s, i), i, k, Handler)
  {
    InvOrphanMoves(s, i, k);
  }

  lemma InvClaimMoves(s: State, i: nat, k: nat)
    requires IsSlot(s, i) && s.slots[i].point == InvClaiming && s.slots[i].parent == Some(k)
    requires s.scq == ScqAt(InvClaiming, i)
    requires IsIo(s, k) && s.ios[k].home.InSlot?
    ensures Moved(s, InvClaim(s, i), i, k)
  {
  }

  lemma InvClaimTallied(s: State, i: nat, k: nat)
    requires IsSlot(s, i) && s.slots[i].point == InvClaiming && s.slots[i].parent == Some(k)
    requires s.scq == ScqAt(InvClaiming, i)
    requires IsIo(s, k) && s.ios[k].home.InSlot?
    ensures Tallied(s, InvClaim(s, i), i, k, Handler)
  {
    InvClaimMoves(s, i, k);
  }

  lemma InvAssertMoves(s: State, i: nat, k: nat)
    requires IsSlot(s, i) && s.slots[i].bits == FREEING && s.slots[i].wr == Owned && s.slots[i].point == Asserting
    requires s.scq == ScqHas(Asserting, i, k)
    ensures Moved(s, InvAssert(s, i, k), i, k)
  {
  }

  lemma InvAssertTouches(s: State, i: nat, k: nat)
    requires IsSlot(s, i) && s.slots[i].bits == FREEING && s.slots[i].wr == Owned && s.slots[i].point == Asserting
    requires s.scq == ScqHas(Asserting, i, k)
    ensures Touches(s, InvAssert(s, i, k), i, k, Handler)
  {
  }

  lemma InvAssertTallied(s: State, i: nat, k: nat)
    requires IsSlot(s, i) && s.slots[i].bits == FREEING && s.slots[i].wr == Owned && s.slots[i].point == Asserting
    requires s.scq == ScqHas(Asserting, i, k)
    ensures Tallied(s, InvAssert(s, i, k), i, k, Handler)
  {
    InvAssertTouches(s, i, k);
    InvAssertMoves(s, i, k);
  }

  lemma InvTestFnMoves(s: State, i: nat, k: nat)
    requires IsSlot(s, i) && IsIo(s, k) && s.ios[k].fn && s.slots[i].point == FnTesting
    requires s.scq == ScqHas(FnTesting, i, k)
    ensures Moved(s, InvTestFn(s, i, k), i, k)
  {
  }

  lemma InvTestFnTallied(s: State, i: nat, k: nat)
    requires IsSlot(s, i) && IsIo(s, k) && s.ios[k].fn && s.slots[i].point == FnTesting
    requires s.scq == ScqHas(FnTesting, i, k)
    ensures Tallied(s, InvTestFn(s, i, k), i, k, Handler)
  {
    InvTestFnMoves(s, i, k);
  }

  lemma InvTakeFnMoves(s: State, i: nat, k: nat)
    requires IsSlot(s, i) && IsIo(s, k) && s.slots[i].point == FnTaking && s.scq == ScqHas(FnTaking, i, k)
    ensures Moved(s, InvTakeFn(s, i, k), i, k)
  {
  }

  lemma InvTakeFnTallied(s: State, i: nat, k: nat)
    requires IsSlot(s, i) && IsIo(s, k) && s.slots[i].point == FnTaking && s.scq == ScqHas(FnTaking, i, k)
    ensures Tallied(s, InvTakeFn(s, i, k), i, k, Handler)
  {
    InvTakeFnMoves(s, i, k);
  }

  lemma InvCallMoves(s: State, i: nat, k: nat)
    requires IsSlot(s, i) && IsIo(s, k) && s.slots[i].point == Calling && s.scq == ScqCall(i, k, true) && FlushOk(s)
    requires IoOk(s, k, s.ios[k]) && s.ios[k].home.InScq?
    ensures Moved(s, InvCall(s, i, k, true), i, k)
  {
  }

  lemma InvCallTallied(s: State, i: nat, k: nat)
    requires IsSlot(s, i) && IsIo(s, k) && s.slots[i].point == Calling && s.scq == ScqCall(i, k, true) && FlushOk(s)
    requires IoOk(s, k, s.ios[k]) && s.ios[k].home.InScq?
    ensures Tallied(s, InvCall(s, i, k, true), i, k, Caller)
  {
    InvCallMoves(s, i, k);
  }

  lemma InvReleaseMoves(s: State, i: nat, k: nat)
    requires IsSlot(s, i) && s.slots[i].point == Releasing && Answered(s.slots[i].resp)
    requires s.scq == ScqHas(Releasing, i, k)
    ensures Moved(s, InvRelease(s, i, k), i, k)
  {
  }

  lemma InvReleaseTallied(s: State, i: nat, k: nat)
    requires IsSlot(s, i) && s.slots[i].point == Releasing && Answered(s.slots[i].resp)
    requires s.scq == ScqHas(Releasing, i, k)
    ensures Tallied(s, InvRelease(s, i, k), i, k, Handler)
  {
    InvReleaseMoves(s, i, k);
  }

  lemma InvCountdownTallied(s: State, i: nat, k: nat)
    requires IsIo(s, k) && s.ios[k].counted && s.scq == ScqCountdown(k) && s.ios[k].home.Over? && FlushOk(s)
    requires !s.ios[k].byFlush && !s.ios[k].dropped
    ensures Tallied(s, InvCountdown(s, k), i, k, Handler)
  {
  }

  lemma ScqFetchTallied(s: State, i: nat, k: nat)
    requires IsSlot(s, i) && InScqQueue(s, i) && !s.slots[i].point.Free? && s.scq == ScqPoll
    ensures Tallied(s, ScqGet(s, i), i, k, Handler)
  {
    assert !ScqEmpty(s);
  }

  lemma ScqEntersMoves(s: State, i: nat, k: nat, p: Point)
    requires IsSlot(s, i) && s.scq == ScqSwitch(i)
    requires NdkHeld(s.slots[i].point) && p == Completing(s.slots[i].point)
    ensures Moved(s, Put(s, i, s.slots[i].(point := p)).(scq := ScqAt(p, i)), i, k)
  {
  }

  lemma ScqEntersTouches(s: State, i: nat, k: nat, p: Point)
    requires IsSlot(s, i) && s.scq == ScqSwitch(i)
    requires NdkHeld(s.slots[i].point) && p == Completing(s.slots[i].point)
    ensures Touches(s, Put(s, i, s.slots[i].(point := p)).(scq := ScqAt(p, i)), i, k, Handler)
  {
  }

  lemma ScqEntersBooks(s: State, i: nat, k: nat, p: Point)
    requires IsSlot(s, i) && s.scq == ScqSwitch(i)
    requires NdkHeld(s.slots[i].point) && p == Completing(s.slots[i].point)
    ensures Booked(s, Put(s, i, s.slots[i].(point := p)).(scq := ScqAt(p, i)), i, k)
  {
  }

  lemma ScqEntersTallied(s: State, i: nat, k: nat, p: Point)
    requires IsSlot(s, i) && s.scq == ScqSwitch(i)
    requires NdkHeld(s.slots[i].point) && p == Completing(s.slots[i].point)
    ensures Tallied(s, Put(s, i, s.slots[i].(point := p)).(scq := ScqAt(p, i)), i, k, Handler)
  {
    ScqEntersBooks(s, i, k, p);
    ScqEntersTouches(s, i, k, p);
    ScqEntersMoves(s, i, k, p);
  }

  lemma ScqBranchTallied(s: State, i: nat, k: nat)
    requires IsSlot(s, i) && NdkHeld(s.slots[i].point) && WrAt(s.slots[i]) && s.scq == ScqSwitch(i)
    ensures Tallied(s, ScqBranch(s, i), i, k, Handler)
  {
    var p := Completing(s.slots[i].point);
    ScqBranchEnters(s, i, p);
    ScqEntersTallied(s, i, k, p);
  }

  // The receive-queue handler.

  lemma RcqFetchMoves(s: State, c: nat, k: nat)
    requires c in s.answers && IsSlot(s, s.answers[c].slot) && s.slots[s.answers[c].slot].resp.Queued? && s.rcq.RcqPoll?
    requires !s.slots[s.answers[c].slot].point.Free?
    ensures Moved(s, RcqGet(s, c), s.answers[c].slot, k)
  {
  }

  lemma RcqFetchTallied(s: State, c: nat, k: nat)
    requires c in s.answers && IsSlot(s, s.answers[c].slot) && s.slots[s.answers[c].slot].resp.Queued? && s.rcq.RcqPoll?
    requires !s.slots[s.answers[c].slot].point.Free?
    ensures Tallied(s, RcqGet(s, c), s.answers[c].slot, k, Handler)
  {
    RcqFetchMoves(s, c, k);
  }

  lemma RcqTakeMoves(s: State, c: nat, status: int, k: nat)
    requires LookedUp(s, c) && s.rcq == RcqRemove(c, status)
    ensures Moved(s, RcqTake(s, c, status), s.table[c].value, k)
  {
  }

  lemma RcqTakeTallied(s: State, c: nat, status: int, k: nat)
    requires LookedUp(s, c) && s.rcq == RcqRemove(c, status)
    ensures Tallied(s, RcqTake(s, c, status), s.table[c].value, k, Handler)
  {
    RcqTakeMoves(s, c, status, k);
  }

  lemma RcqMarkMoves(s: State, i: nat, status: int, k: nat)
    requires IsSlot(s, i) && s.rcq == RcqOr(i, status) && s.slots[i].resp.Removed?
    ensures Moved(s, RcqMark(s, i, status), i, k)
  {
  }

  lemma RcqMarkTallied(s: State, i: nat, status: int, k: nat)
    requires IsSlot(s, i) && s.rcq == RcqOr(i, status) && s.slots[i].resp.Removed?
    ensures Tallied(s, RcqMark(s, i, status), i, k, Handler)
  {
    RcqMarkMoves(s, i, status, k);
  }

  lemma RcqStoreTallied(s: State, i: nat, status: int, life: nat, k: nat)
    requires IsSlot(s, i) && s.rcq == RcqStore(i, status, life)
    ensures Tallied(s, RcqStoreStatus(s, i, status, life), i, k, Handler)
  {
  }

  lemma RcqSwapWonMoves(s: State, i: nat, life: nat, k: nat)
    requires IsSlot(s, i) && s.rcq == RcqCas(i, life) && s.slots[i].bits == ALL_STATE_DONE
    requires 17 <= Order(s.slots[i].point) <= 18
    ensures Moved(s, RcqSwap(s, i), i, k)
  {
  }

  lemma RcqSwapWonTallied(s: State, i: nat, life: nat, k: nat)
    requires IsSlot(s, i) && s.rcq == RcqCas(i, life) && s.slots[i].bits == ALL_STATE_DONE
    requires 17 <= Order(s.slots[i].point) <= 18
    ensures Tallied(s, RcqSwap(s, i), i, k, Handler)
  {
    RcqSwapWonMoves(s, i, life, k);
  }

  lemma RcqSwapFailedTallied(s: State, i: nat, life: nat, k: nat)
    requires IsSlot(s, i) && s.rcq == RcqCas(i, life) && s.slots[i].bits != ALL_STATE_DONE
    ensures Tallied(s, RcqSwap(s, i), i, k, Handler)
  {
  }

  lemma RcqWriteInvMoves(s: State, i: nat, k: nat)
    requires IsSlot(s, i) && s.slots[i].wr == Owned && s.rcq == RcqWrite(i) && s.slots[i].point == InvWriting(false)
    ensures Moved(s, RcqWriteInv(s, i), i, k)
  {
  }

  lemma RcqWriteInvTouches(s: State, i: nat, k: nat)
    requires IsSlot(s, i) && s.slots[i].wr == Owned && s.rcq == RcqWrite(i) && s.slots[i].point == InvWriting(false)
    ensures Touches(s, RcqWriteInv(s, i), i, k, Handler)
  {
  }

  lemma RcqWriteInvTallied(s: State, i: nat, k: nat)
    requires IsSlot(s, i) && s.slots[i].wr == Owned && s.rcq == RcqWrite(i) && s.slots[i].point == InvWriting(false)
    ensures Tallied(s, RcqWriteInv(s, i), i, k, Handler)
  {
    RcqWriteInvTouches(s, i, k);
    RcqWriteInvMoves(s, i, k);
  }

  lemma RcqPostInvMoves(s: State, i: nat, k: nat)
    requires IsSlot(s, i) && s.slots[i].wr == Owned && s.rcq == RcqPost(i) && s.slots[i].point == InvPosting(false)
    ensures Moved(s, RcqPostInv(s, i), i, k)
  {
  }

  lemma RcqPostInvTallied(s: State, i: nat, k: nat)
    requires IsSlot(s, i) && s.slots[i].wr == Owned && s.rcq == RcqPost(i) && s.slots[i].point == InvPosting(false)
    ensures Tallied(s, RcqPostInv(s, i), i, k, Handler)
  {
    RcqPostInvMoves(s, i, k);
  }

  lemma RcqRepostTallied(s: State, pick: nat, i: nat, k: nat)
    requires s.rcq.RcqRepost?
    ensures Tallied(s, RcqStep(s, pick), i, k, Handler)
  {
  }

  lemma RcqCountTallied(s: State, pick: nat, i: nat, k: nat)
    requires s.rcq.RcqCount?
    ensures Tallied(s, RcqStep(s, pick), i, k, Handler)
  {
  }

  lemma RcqFindTallied(s: State, i: nat, k: nat)
    requires s.rcq.RcqLookup? && LookedUp(s, s.rcq.id)
    ensures Tallied(s, RcqFind(s, s.rcq.id, s.rcq.status), i, k, Handler)
  {
  }

  lemma RcqBareTallied(s: State, pick: nat, i: nat, k: nat)
    requires RcqEnabled(s, pick) && (s.rcq.RcqArm? || (s.rcq.RcqPoll? && s.answers == map[]))
    ensures Tallied(s, RcqStep(s, pick), i, k, Handler)
  {
  }

  // The flush, NDK and the target.

  lemma FlushTookMoves(s: State, i: nat, k: nat)
    requires IsSlot(s, i) && s.flush == FlushClaim(i) && s.flag.flushed && Local(s.slots[i])
    requires s.slots[i].parent.Some? ==> s.slots[i].parent.value == k && IsIo(s, k) && s.ios[k].home.InSlot?
    ensures Moved(s, FlushTakeIo(s, i), i, k)
  {
  }

  lemma FlushTookTouches(s: State, i: nat, k: nat)
    requires IsSlot(s, i) && s.flush == FlushClaim(i) && s.flag.flushed && Local(s.slots[i])
    requires s.slots[i].parent.Some? ==> s.slots[i].parent.value == k && IsIo(s, k) && s.ios[k].home.InSlot?
    ensures Touches(s, FlushTakeIo(s, i), i, k, Flusher)
  {
  }

  lemma FlushTookTallied(s: State, i: nat, k: nat)
    requires IsSlot(s, i) && s.flush == FlushClaim(i) && s.flag.flushed && Local(s.slots[i])
    requires s.slots[i].parent.Some? ==> s.slots[i].parent.value == k && IsIo(s, k) && s.ios[k].home.InSlot?
    ensures Tallied(s, FlushTakeIo(s, i), i, k, Flusher)
  {
    FlushTookTouches(s, i, k);
    FlushTookMoves(s, i, k);
  }

  lemma FlushPassTallied(s: State, p: nat, i: nat, k: nat)
    requires s.flag.flushed && s.flush == FlushHas(p, k) && !s.flag.ana && IsIo(s, k) && s.ios[k].fn
    ensures Tallied(s, s.(flush := FlushTake(p, k)), i, k, Flusher)
  {
  }

  lemma FlushDropTallied(s: State, p: nat, i: nat, k: nat)
    requires IsIo(s, k) && s.ios[k].home.InFlush? && ScqOk(s) && s.flag.flushed && s.flush == FlushHas(p, k)
    requires s.ios[k].counted && (s.flag.ana || !s.ios[k].fn)
    ensures Tallied(s, PutIo(s, k, s.ios[k].(home := Over, dropped := true)).(flush := FlushCount(p, k)), i, k, Flusher)
  {
  }

  lemma FlushTestTallied(s: State, p: nat, i: nat, k: nat)
    requires IsIo(s, k) && s.ios[k].home.InFlush? && ScqOk(s) && s.flag.flushed && s.flush == FlushHas(p, k)
    requires s.ios[k].counted
    ensures Tallied(s, FlushTestFn(s, p, k), i, k, Flusher)
  {
    if !s.flag.ana && s.ios[k].fn { FlushPassTallied(s, p, i, k); } else { FlushDropTallied(s, p, i, k); }
  }

  lemma FlushTakeTallied(s: State, p: nat, i: nat, k: nat)
    requires IsIo(s, k) && s.ios[k].home.InFlush? && s.flag.flushed && s.flush == FlushTake(p, k)
    ensures Tallied(s, FlushTakeFn(s, p, k), i, k, Flusher)
  {
  }

  lemma FlushCallTallied(s: State, p: nat, i: nat, k: nat)
    requires IsIo(s, k) && s.ios[k].home.InFlush? && ScqOk(s) && s.flag.flushed && s.flush == FlushCall(p, k, true)
    requires s.ios[k].counted
    ensures Tallied(s, FlushCallBack(s, p, k, true), i, k, Flusher)
  {
  }

  lemma FlushCountdownTallied(s: State, p: nat, i: nat, k: nat)
    requires IsIo(s, k) && s.ios[k].home.Over? && s.ios[k].counted && s.flag.flushed && s.flush == FlushCount(p, k)
    requires s.ios[k].byFlush || s.ios[k].dropped
    ensures Tallied(s, FlushCountdown(s, p, k), i, k, Flusher)
  {
  }

  lemma NdkTallied(s: State, i: nat, k: nat)
    requires IsSlot(s, i) && s.slots[i].wr.Posted? && !s.slots[i].point.Free?
    ensures Tallied(s, NdkComplete(s, i), i, k, Handler)
  {
  }

  lemma TargetMoves(s: State, c: nat, status: int, k: nat)
    requires c in s.owed && IsSlot(s, s.owed[c]) && s.slots[s.owed[c]].resp.Owed? && c !in s.answers
    requires s.count.recvPosted > 0
    requires !s.slots[s.owed[c]].point.Free?
    ensures Moved(s, TargetAnswer(s, c, status), s.owed[c], k)
  {
  }

  lemma TargetTallied(s: State, c: nat, status: int, k: nat)
    requires c in s.owed && IsSlot(s, s.owed[c]) && s.slots[s.owed[c]].resp.Owed? && c !in s.answers
    requires s.count.recvPosted > 0
    requires !s.slots[s.owed[c]].point.Free?
    ensures Tallied(s, TargetAnswer(s, c, status), s.owed[c], k, Target)
  {
    TargetMoves(s, c, status, k);
  }

  lemma FiresTallied(s: State, t: State, i: nat, k: nat)
    requires || (s.scq.ScqIdle? && !ScqEmpty(s) && t == s.(flag := s.flag.(scqArmed := false), scq := ScqPoll))
             || (s.rcq.RcqIdle? && s.answers != map[] && t == s.(flag := s.flag.(rcqArmed := false), rcq := RcqPoll))
    ensures Tallied(s, t, i, k, Handler)
  {
  }

  lemma FlushLookMoves(s: State, p: nat, i: nat, k: nat)
    requires s.flush == FlushTest(p) && s.flag.flushed
    ensures Moved(s, FlushLook(s, p), i, k)
  {
  }

  lemma FlushLookBalances(s: State, p: nat, i: nat, k: nat)
    requires s.flush == FlushTest(p) && s.flag.flushed
    ensures Balanced(s, FlushLook(s, p), i, k)
  {
  }

  lemma FlushLookTallied(s: State, p: nat, i: nat, k: nat)
    requires s.flush == FlushTest(p) && s.flag.flushed
    ensures Tallied(s, FlushLook(s, p), i, k, Flusher)
  {
    FlushLookBalances(s, p, i, k);
    FlushLookMoves(s, p, i, k);
  }

  // ---- Every step ----

  lemma SubAtTallied(s: State, k: nat, pages: nat, i: nat, p: Point)
    requires SubEnabled(s, k) && s.ios[k].pc == SubAt(p, i) && SubHeld(p) && s.slots[i].point == p && Local(s.slots[i])
    ensures Tallied(s, SubStep(s, k, pages), i, k, Thread)
  {
    match p {
      case Ticketing => SubTicketTallied(s, k, i);
      case Parenting => SubParentTallied(s, k, i, pages);
      case Marking => SubMarkTallied(s, k, i);
      case FrWriting => SubWriteFrTallied(s, k, i);
      case FrMarking => SubMarkFrTallied(s, k, i);
      case FrPosting => SubPostFrTallied(s, k, i);
    }
  }

  /** The slot and the host I/O that a step of the submitter concerns, and what it does to the counters. */
  lemma SubTallied(s: State, k: nat, pages: nat) returns (i: nat)
    requires Inv(s) && SubEnabled(s, k) && TallyOk(s, k, s.ios[k])
    ensures Tallied(s, SubStep(s, k, pages), i, k, Thread)
  {
    AsideOf(s, k);
    match s.ios[k].pc {
      case Scanning(p) => i := p; if p < |s.slots| { AtSlot(s, p, k); } SubScanTallied(s, k, p);
      case SubAt(p, j) => i := j; AtSlot(s, i, k); SubAtTallied(s, k, pages, i, p);
      case Counting => i := 0; SubCountTallied(s, k, 0);
    }
  }

  lemma ScqSendsTallied(s: State, pick: nat, i: nat, p: Point, k: nat)
    requires ScqEnabled(s, pick) && s.scq == ScqAt(p, i) && At(s, i, k) && Order(p) <= 14
    ensures Tallied(s, ScqStep(s, pick), i, k, Handler)
  {
    match p {
      case FrCounting => FrCountTallied(s, i, k);
      case SendWriting => FrWriteSendTallied(s, i, k);
      case Inserting => FrInsertTallied(s, i, k);
      case SubMarking => FrMarkTallied(s, i, k);
      case SendPosting => FrPostSendTallied(s, i, k);
      case SendCounting => FrCountSendTallied(s, i, k);
      case DoneMarking => FrMarkDoneTallied(s, i, k);
    }
  }

  lemma ScqFreesTallied(s: State, pick: nat, i: nat, p: Point, k: nat)
    requires ScqEnabled(s, pick) && s.scq == ScqAt(p, i) && At(s, i, k) && k == s.slots[i].owner && 18 <= Order(p)
    ensures Tallied(s, ScqStep(s, pick), i, k, Handler)
  {
    match p {
      case InvWriting(_) => SendWriteInvTallied(s, i, k);
      case InvPosting(_) => SendPostInvTallied(s, i, k);
      case InvChecking => InvCheckTallied(s, i, k);
      case InvClaiming => if s.slots[i].parent.None? { InvOrphanTallied(s, i, k); } else { InvClaimTallied(s, i, k); }
    }
  }

  lemma SendCasTallied(s: State, i: nat, k: nat)
    requires s.scq == ScqAt(SendCasing, i) && At(s, i, k)
    ensures Tallied(s, SendCas(s, i), i, k, Handler)
  {
    if s.slots[i].bits == ALL_STATE_DONE { SendCasWonTallied(s, i, k); } else { SendCasFailedTallied(s, i, k); }
  }

  lemma ScqAtTallied(s: State, pick: nat, i: nat, p: Point, k: nat)
    requires ScqEnabled(s, pick) && s.scq == ScqAt(p, i) && At(s, i, k) && k == s.slots[i].owner
    ensures Tallied(s, ScqStep(s, pick), i, k, Handler)
  {
    HandlesAt(s, i, p);
    if p == SendCasing { SendCasTallied(s, i, k); }
    else if p == WaitMarking { SendMarkTallied(s, i, k); }
    else if Order(p) <= 14 { ScqSendsTallied(s, pick, i, p, k); }
    else { ScqFreesTallied(s, pick, i, p, k); }
  }

  lemma ScqArmTallied(s: State, i: nat, k: nat)
    requires s.scq.ScqArm?
    ensures Tallied(s, s.(scq := ScqIdle, flag := s.flag.(scqArmed := true)), i, k, Handler)
  {
  }

  lemma ScqEmptyTallied(s: State, i: nat, k: nat)
    requires s.scq.ScqPoll? && ScqEmpty(s)
    ensures Tallied(s, s.(scq := ScqArm), i, k, Handler)
  {
  }

  lemma ScqBareTallied(s: State, pick: nat, i: nat, k: nat)
    requires ScqEnabled(s, pick) && (s.scq.ScqArm? || (s.scq.ScqPoll? && ScqEmpty(s)))
    ensures Tallied(s, ScqStep(s, pick), i, k, Handler)
  {
    if s.scq.ScqArm? { ScqArmTallied(s, i, k); } else { ScqEmptyTallied(s, i, k); }
  }

  lemma ScqHasTallied(s: State, pick: nat, i: nat, p: Point, k: nat)
    requires ScqEnabled(s, pick) && s.scq == ScqHas(p, i, k) && At(s, i, k)
    ensures Tallied(s, ScqStep(s, pick), i, k, Handler)
  {
    match p {
      case Asserting => InvAssertTallied(s, i, k);
      case FnTesting => InvTestFnTallied(s, i, k);
      case FnTaking => InvTakeFnTallied(s, i, k);
      case Releasing => InvReleaseTallied(s, i, k);
    }
  }

  lemma ScqTallied(s: State, pick: nat) returns (i: nat, k: nat)
    requires Inv(s) && ScqEnabled(s, pick) && (s.scq.ScqCountdown? ==> TallyOk(s, s.scq.io, s.ios[s.scq.io]))
    ensures Tallied(s, ScqStep(s, pick), i, k, if s.scq.ScqCall? then Caller else Handler)
  {
    i, k := pick, 0;
    match s.scq {
      case ScqPoll =>
        if ScqEmpty(s) { ScqBareTallied(s, pick, i, k); }
        else { AtSlot(s, i, k); ScqFetchTallied(s, i, k); }
      case ScqArm => ScqBareTallied(s, pick, i, k);
      case ScqSwitch(j) => i := j; AtSlot(s, i, k); ScqBranchTallied(s, i, k);
      case ScqAt(p, j) => i, k := j, s.slots[j].owner; AtSlot(s, i, k); ScqAtTallied(s, pick, i, p, k);
      case ScqHas(p, j, o) => i, k := j, o; AtSlot(s, i, k); ScqHasTallied(s, pick, i, p, k);
      case ScqCall(j, o, _) => i, k := j, o; AtSlot(s, i, k); InvCallTallied(s, i, k);
      case ScqCountdown(o) => k := o; AsideOf(s, k); InvCountdownTallied(s, i, k);
    }
  }

  lemma RcqAtTallied(s: State, pick: nat, i: nat)
    requires RcqEnabled(s, pick) && At(s, i, 0)
    requires s.rcq.RcqOr? || s.rcq.RcqStore? || s.rcq.RcqCas? || s.rcq.RcqWrite? || s.rcq.RcqPost?
    requires s.rcq.slot == i
    ensures Tallied(s, RcqStep(s, pick), i, 0, Handler)
  {
    match s.rcq {
      case RcqOr(_, st) => RcqMarkTallied(s, i, st, 0);
      case RcqStore(_, st, life) => RcqStoreTallied(s, i, st, life, 0);
      case RcqCas(_, life) =>
        if s.slots[i].bits == ALL_STATE_DONE { RcqSwapWonTallied(s, i, life, 0); }
        else { RcqSwapFailedTallied(s, i, life, 0); }
      case RcqWrite(_) => RcqWriteInvTallied(s, i, 0);
      case RcqPost(_) => RcqPostInvTallied(s, i, 0);
    }
  }

  lemma RcqTallied(s: State, pick: nat) returns (i: nat)
    requires Inv(s) && RcqEnabled(s, pick)
    ensures Tallied(s, RcqStep(s, pick), i, 0, Handler)
  {
    i := 0;
    if s.rcq.RcqPoll? && s.answers != map[] {
      i := s.answers[pick].slot;
      assert QueuedOk(s, pick, i);
      assert Local(s.slots[i]);
      RcqFetchTallied(s, pick, 0);
    } else if s.rcq.RcqRemove? {
      i := s.table[s.rcq.id].value;
      RcqTakeTallied(s, s.rcq.id, s.rcq.status, 0);
    } else if s.rcq.RcqOr? || s.rcq.RcqStore? || s.rcq.RcqCas? || s.rcq.RcqWrite? || s.rcq.RcqPost? {
      i := s.rcq.slot;
      AtSlot(s, i, 0);
      RcqAtTallied(s, pick, i);
    } else if s.rcq.RcqRepost? {
      RcqRepostTallied(s, pick, 0, 0);
    } else if s.rcq.RcqCount? {
      RcqCountTallied(s, pick, 0, 0);
    } else if s.rcq.RcqLookup? {
      RcqFindTallied(s, 0, 0);
    } else {
      RcqBareTallied(s, pick, 0, 0);
    }
  }

  lemma FlushTallied(s: State) returns (i: nat, k: nat)
    requires Inv(s) && FlushEnabled(s) && s.flag.flushed
    requires s.flush.FlushHas? || s.flush.FlushCall? || s.flush.FlushCount? ==>
               TallyOk(s, s.flush.io, s.ios[s.flush.io])
    ensures Tallied(s, FlushStep(s), i, k, Flusher)
  {
    i, k := 0, 0;
    AsideOf(s, k);
    match s.flush {
      case FlushTest(p) => FlushLookTallied(s, p, i, k);
      case FlushClaim(p) => i, k := p, s.slots[p].owner; AtSlot(s, i, k); FlushTookTallied(s, i, k);
      case FlushHas(p, o) => k := o; FlushTestTallied(s, p, i, k);
      case FlushTake(p, o) => k := o; FlushTakeTallied(s, p, i, k);
      case FlushCall(p, o, _) => k := o; FlushCallTallied(s, p, i, k);
      case FlushCount(p, o) => k := o; FlushCountdownTallied(s, p, i, k);
    }
  }

  lemma AdmitCounts(s: State, r: nat)
    requires Inv(s) && Counts(s, r)
    ensures Counts(AdmitIo(s), r)
  {
    TotalAppend(s.ios, NEW_IO, AboutToCount);
    TotalAppend(s.ios, NEW_IO, FlushedDown);
    TotalAppend(s.ios, NEW_IO, Counted);
    forall j: nat | j < |AdmitIo(s).ios| ensures TallyOk(AdmitIo(s), j, AdmitIo(s).ios[j]) {
      if j < |s.ios| { assert TallyOk(s, j, s.ios[j]); }
    }
  }

  /** The slot and the host I/O that a step concerns. */
  lemma StepTallied(s: State, e: Event, r: nat) returns (i: nat, k: nat)
    requires Inv(s) && Counts(s, r) && Enabled(s, e) && !(e.Admit? || e.FlushBegins? || e.Disconnects?)
    ensures Tallied(s, Step(s, e), i, k, ActorOf(s, e))
    ensures (e.Submitter? ==> k == e.io) && (e.TargetAnswers? ==> i == s.owed[e.id])
  {
    i, k := 0, 0;
    match e {
      case Submitter(o, pages) => k := o; i := SubTallied(s, k, pages);
      case NdkCompletes(j) => i := j; assert Local(s.slots[i]); NdkTallied(s, i, k);
      case TargetAnswers(c, st) =>
        i := s.owed[c];
        assert OwedOk(s, c, i) && Local(s.slots[i]);
        assert c in s.answers ==> QueuedOk(s, c, s.answers[c].slot);
        TargetTallied(s, c, st, k);
      case ScqFires => FiresTallied(s, Step(s, e), i, k);
      case ScqRuns(pick) => i, k := ScqTallied(s, pick);
      case RcqFires => FiresTallied(s, Step(s, e), i, k);
      case RcqRuns(pick) => i := RcqTallied(s, pick);
      case FlushRuns => i, k := FlushTallied(s);
    }
  }

  /** A disconnect or the start of a flush changes flags only. */
  lemma FlagsCounts(s: State, e: Event, r: nat)
    requires Counts(s, r) && Enabled(s, e) && (e.FlushBegins? || e.Disconnects?)
    ensures Counts(Step(s, e), r)
  {
    forall j: nat | j < |s.ios| ensures TallyOk(Step(s, e), j, s.ios[j]) { assert TallyOk(s, j, s.ios[j]); }
  }

  /** Every step keeps the counters equal to their sums. */
  lemma CountsStep(s: State, e: Event, r: nat)
    requires Inv(s) && Counts(s, r) && Enabled(s, e)
    ensures Counts(Step(s, e), r)
  {
    if e.Admit? {
      AdmitCounts(s, r);
    } else if e.FlushBegins? || e.Disconnects? {
      FlagsCounts(s, e, r);
    } else {
      var i, k := StepTallied(s, e, r);
      CountsKept(s, Step(s, e), i, k, ActorOf(s, e), r);
    }
  }
}

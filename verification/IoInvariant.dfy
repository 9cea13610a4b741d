/**
 What every step of the request engine keeps. The point a slot's life has reached fixes its state
 word, its work request and who may touch it; the handlers' program counters agree with it.
 */
module IoInvariant {
  import opened ReqState
  import opened IoProtocol

  // ---- The points of a life ----

  /** The order in which a life passes its points. */
  function Order(p: Point): nat {
    match p
    case Free => 0
    case Ticketing => 1
    case Parenting => 2
    case Marking => 3
    case FrWriting => 4
    case FrMarking => 5
    case FrPosting => 6
    case Registering => 7
    case FrCounting => 8
    case SendWriting => 9
    case Inserting => 10
    case SubMarking => 11
    case SendPosting => 12
    case SendCounting => 13
    case DoneMarking => 14
    case Sending => 15
    case WaitMarking => 16
    case SendCasing => 17
    case Sent => 18
    case InvWriting(_) => 19
    case InvPosting(_) => 20
    case Invalidating => 21
    case InvChecking => 22
    case InvClaiming => 23
    case Asserting => 24
    case FnTesting => 25
    case FnTaking => 26
    case Calling => 27
    case Releasing => 28
    case Orphan => 29
  }

  /** Who is at a point: nobody, the submitter, the send-queue handler (with or without the host I/O), the
   receive-queue handler, or NDK. */
  datatype Role = Nobody | Submits | Sends | Completes | Calls | Releases | Receives | Waits

  function RoleAt(p: Point): Role {
    match p
    case Free => Nobody
    case Ticketing => Submits
    case Parenting => Submits
    case Marking => Submits
    case FrWriting => Submits
    case FrMarking => Submits
    case FrPosting => Submits
    case Registering => Waits
    case Sending => Waits
    case Invalidating => Waits
    case Sent => Nobody
    case InvWriting(byScq) => if byScq then Sends else Receives
    case InvPosting(byScq) => if byScq then Sends else Receives
    case Asserting => Completes
    case FnTesting => Completes
    case FnTaking => Completes
    case Calling => Calls
    case Releasing => Releases
    case Orphan => Nobody
    case _ => Sends
  }

  predicate SubHeld(p: Point) { RoleAt(p) == Submits }

  predicate NdkHeld(p: Point) { RoleAt(p) == Waits }

  predicate ScqHeld(p: Point) { RoleAt(p) == Sends }

  predicate IoHeld(p: Point) { RoleAt(p) == Completes || RoleAt(p) == Calls }

  /** Points at which the slot has its parent, unless a flush took it. */
  predicate Parented(p: Point) { 3 <= Order(p) <= 23 }

  /** The send has been posted in this life. */
  predicate SentOff(p: Point) { 13 <= Order(p) }

  /** The hand-off has happened. */
  predicate Freeing(p: Point) { 19 <= Order(p) }

  predicate Answered(r: Resp) {
    r.Ored? || r.Past?
  }

  /** The id is in the table: from the insert to the removal by the response. */
  predicate Tabled(x: Slot) {
    x.point.SubMarking? || x.point.SendPosting? || x.resp.Owed? || x.resp.Queued? || x.resp.Looked?
  }

  // ---- What a point says of a slot ----

  function BitsAt(p: Point, r: Resp): Bits {
    var answered: Bits := if Answered(r) then RESPONSE_RECEIVED else FREE;
    if Freeing(p) then FREEING
    else if Order(p) >= 17 then 0x3F | answered
    else if Order(p) >= 15 then 0x1F | answered
    else if Order(p) >= 13 then 0xF | answered
    else if Order(p) >= 12 then 0xF
    else if Order(p) >= 6 then 0x7
    else if Order(p) >= 4 then 0x3
    else if Order(p) >= 1 then ALLOCATED
    else FREE
  }

  predicate WrAt(x: Slot) {
    match x.point
    case FrMarking => x.wr == Owned && x.wrType == FastRegister
    case FrPosting => x.wr == Owned && x.wrType == FastRegister
    case Registering => x.wrType == FastRegister && x.wr in {Posted(FastRegister), Completed(FastRegister), Owned}
    case Inserting => x.wr == Owned && x.wrType == Send
    case SubMarking => x.wr == Owned && x.wrType == Send
    case SendPosting => x.wr == Owned && x.wrType == Send
    case SendCounting => x.wrType == Send && x.wr in {Posted(Send), Completed(Send)}
    case DoneMarking => x.wrType == Send && x.wr in {Posted(Send), Completed(Send)}
    case Sending => x.wrType == Send && x.wr in {Posted(Send), Completed(Send), Owned}
    case InvPosting(_) => x.wr == Owned && x.wrType == Invalidate
    case Invalidating => x.wrType == Invalidate && x.wr in {Posted(Invalidate), Completed(Invalidate), Owned}
    case _ => x.wr == Owned
  }

  predicate RespAt(p: Point, r: Resp) {
    && (SentOff(p) <==> !r.NoCommand?)
    && (Freeing(p) ==> Answered(r))
    && (p == InvWriting(false) || p == InvPosting(false) ==> r.Past?)
    && (p.Sent? ==> !r.Past?)
  }

  predicate Local(x: Slot) {
    && x.cmdId < ID_COUNT && (Order(x.point) >= 2 ==> x.cmdId == x.ticket % ID_COUNT)
    && x.bits == BitsAt(x.point, x.resp)
    && WrAt(x)
    && RespAt(x.point, x.resp)
    && (x.parent.Some? ==> Parented(x.point) && x.parent.value == x.owner)
    && (!x.point.Free? ==> x.handoffs == (if Freeing(x.point) then 1 else 0))
    && (x.resp.Past? ==> x.status == x.answer)
  }

  // ---- Lives: who holds a slot, and where its host I/O is ----

  predicate HolderOk(s: State, i: nat, x: Slot) {
    && (x.point != Free ==> IsIo(s, x.owner) && s.ios[x.owner].slot == i && !s.ios[x.owner].pc.Scanning?)
    && (x.point.Ticketing? || x.point.Parenting? || x.parent.Some? ==>
          x.point != Free && s.ios[x.owner].home == InSlot(i))
    && match RoleAt(x.point)
       case Nobody => true
       case Submits => s.ios[x.owner].pc == SubAt(x.point, i)
       case Sends => s.scq == ScqAt(x.point, i)
       case Completes => s.scq == ScqHas(x.point, i, x.owner)
       case Calls => s.scq == ScqCall(i, x.owner, true)
       case Releases => s.scq == ScqHas(x.point, i, x.owner)
       case Receives => s.rcq == (if x.point.InvWriting? then RcqWrite(i) else RcqPost(i))
       case Waits => x.wr == Owned ==> s.scq == ScqSwitch(i)
  }

  /** The send-queue handler stands before its compare-and-swap and the response has won already. */
  predicate Lost(x: Slot) {
    x.point == InvWriting(false) || x.point == InvPosting(false) || (x.point == Invalidating && x.wr != Owned)
  }

  predicate ScqOk(s: State) {
    && (s.flag.scqArmed <==> s.scq.ScqIdle?)
    && match s.scq
       case ScqSwitch(i) => IsSlot(s, i) && NdkHeld(s.slots[i].point) && s.slots[i].wr == Owned
       case ScqAt(p, i) =>
         IsSlot(s, i) && ScqHeld(p) && (s.slots[i].point == p || (p == SendCasing && Lost(s.slots[i])))
       case ScqHas(p, i, k) =>
         && IsSlot(s, i) && IsIo(s, k) && s.slots[i].point == p && s.slots[i].owner == k
         && (p == Releasing || (IoHeld(p) && p != Calling))
         && s.ios[k].home == (if p == Releasing then Over else InScq) && (p != Releasing ==> s.ios[k].fn)
       case ScqCall(i, k, fn) =>
         && IsSlot(s, i) && IsIo(s, k) && s.slots[i].point == Calling && s.slots[i].owner == k
         && s.ios[k].home == InScq && !s.ios[k].fn && fn
       case ScqCountdown(k) => IsIo(s, k) && s.ios[k].home == Over
       case _ => true
  }

  predicate HandOk(s: State) {
    match s.rcq
    case RcqWrite(i) => IsSlot(s, i) && s.slots[i].point == InvWriting(false)
    case RcqPost(i) => IsSlot(s, i) && s.slots[i].point == InvPosting(false)
    case _ => true
  }

  predicate FlushOk(s: State) {
    match s.flush
    case FlushClaim(p) => IsSlot(s, p)
    case FlushHas(_, k) => IsIo(s, k) && s.ios[k].home == InFlush && s.ios[k].fn
    case FlushTake(_, k) => IsIo(s, k) && s.ios[k].home == InFlush && s.ios[k].fn
    case FlushCall(_, k, fn) => IsIo(s, k) && s.ios[k].home == InFlush && !s.ios[k].fn && fn
    case FlushCount(_, k) => IsIo(s, k) && s.ios[k].home == Over
    case _ => true
  }

  /** The slot is where its host I/O waits to be completed. */
  predicate Keeper(x: Slot, k: nat) {
    x.owner == k && (x.point.Ticketing? || x.point.Parenting? || x.parent.Some?)
  }

  predicate IoOk(s: State, k: nat, o: Io) {
    && (o.pc.SubAt? ==> IsSlot(s, o.pc.slot) && SubHeld(o.pc.point) && s.slots[o.pc.slot].point == o.pc.point
                        && s.slots[o.pc.slot].owner == k)
    && (o.home.Nowhere? <==> o.pc.Scanning?)
    && (o.home.Over? || (o.calls == 0 && !o.rejected && !o.dropped && !o.byFlush))
    && match o.home
       case Nowhere => o.fn
       case InSlot(i) => o.fn && IsSlot(s, i) && Keeper(s.slots[i], k)
       case InScq =>
         if o.fn then s.scq.ScqHas? && s.scq.io == k && IoHeld(s.scq.point) else s.scq.ScqCall? && s.scq.io == k
       case InFlush => if o.fn then (s.flush.FlushHas? || s.flush.FlushTake?) && s.flush.io == k
                       else s.flush.FlushCall? && s.flush.io == k
       case Over =>
         && o.calls == (if o.rejected || o.dropped then 0 else 1)
         && (o.calls == 1 && !o.byFlush ==> o.late || o.delivered == o.answer)
  }

  ghost predicate Lives(s: State) {
    && (forall i: nat :: i < |s.slots| ==> HolderOk(s, i, s.slots[i]))
    && (forall k: nat :: k < |s.ios| ==> IoOk(s, k, s.ios[k]))
    && ScqOk(s) && HandOk(s) && FlushOk(s)
  }

  // ---- Replies: the command table, the target and the receive-queue handler ----

  predicate AnswerOk(s: State, i: nat, x: Slot) {
    && (Tabled(x) ==> IsId(s, x.cmdId) && s.table[x.cmdId] == Some(i))
    && (x.resp.Owed? ==> x.cmdId in s.owed && s.owed[x.cmdId] == i)
    && (x.resp.Queued? ==> x.cmdId in s.answers && s.answers[x.cmdId] == Answer(i, x.answer))
    && (x.resp.Looked? ==> s.rcq == RcqLookup(x.cmdId, x.answer) || s.rcq == RcqRemove(x.cmdId, x.answer))
    && (x.resp.Removed? ==> s.rcq == RcqOr(i, x.answer))
    && (x.resp.Ored? ==>
          s.rcq == RcqStore(i, x.answer, x.owner) || (s.rcq == RcqCas(i, x.owner) && x.status == x.answer))
  }

  /** The handler's slot is in the life it saw, or in a later one whose response it has not fetched. */
  predicate InLife(x: Slot, life: nat) {
    if x.resp.Ored? then x.owner == life else x.resp.NoCommand? || x.resp.Owed? || x.resp.Queued?
  }

  predicate LookedUp(s: State, c: nat) {
    && IsId(s, c)
    && s.table[c].Some?
    && IsSlot(s, s.table[c].value)
    && s.slots[s.table[c].value].resp.Looked?
    && s.slots[s.table[c].value].cmdId == c
  }

  predicate RcqOk(s: State) {
    && (s.flag.rcqArmed ==> s.rcq.RcqIdle?)
    && match s.rcq
       case RcqLookup(c, _) => LookedUp(s, c)
       case RcqRemove(c, _) => LookedUp(s, c)
       case RcqOr(i, _) => IsSlot(s, i) && s.slots[i].resp.Removed?
       case RcqStore(i, st, life) => IsSlot(s, i) && InLife(s.slots[i], life)
       case RcqCas(i, life) => IsSlot(s, i) && InLife(s.slots[i], life)
       case _ => true
  }

  predicate EntryOk(s: State, c: nat, e: Option<nat>) {
    e.Some? ==> IsSlot(s, e.value) && s.slots[e.value].cmdId == c && Tabled(s.slots[e.value])
  }

  predicate OwedOk(s: State, c: nat, i: nat) {
    IsSlot(s, i) && s.slots[i].cmdId == c && s.slots[i].resp.Owed? && IsId(s, c) && s.table[c] == Some(i)
  }

  predicate QueuedOk(s: State, c: nat, i: nat) {
    IsSlot(s, i) && s.slots[i].cmdId == c && s.slots[i].resp.Queued? && IsId(s, c) && s.table[c] == Some(i)
  }

  ghost predicate Replies(s: State) {
    && (forall i: nat :: i < |s.slots| ==> AnswerOk(s, i, s.slots[i]))
    && (forall c: nat :: c < |s.table| ==> EntryOk(s, c, s.table[c]))
    && (forall c :: c in s.owed ==> OwedOk(s, c, s.owed[c]))
    && (forall c :: c in s.answers ==> QueuedOk(s, c, s.answers[c].slot))
    && RcqOk(s)
  }

  ghost predicate Inv(s: State) {
    && |s.table| == ID_COUNT
    && !s.flag.fault
    && (forall i: nat :: i < |s.slots| ==> Local(s.slots[i]))
    && Lives(s)
    && Replies(s)
  }

  lemma InitInv(n: nat, r: nat)
    ensures Inv(Init(n, r))
  {
  }

  // ---- Steps on one slot: what they leave alone ----

  ghost predicate OneSlot(s: State, t: State, i: nat) {
    && IsSlot(s, i) && |t.slots| == |s.slots| && t.slots == s.slots[i := t.slots[i]]
    && !t.flag.fault && |t.table| == |s.table| == ID_COUNT
    && Local(s.slots[i]) && Local(t.slots[i])
  }

  predicate ScqNear(pc: ScqPc, i: nat, k: nat) {
    match pc
    case ScqSwitch(j) => j == i
    case ScqAt(_, j) => j == i
    case ScqHas(_, j, o) => j == i && o == k
    case ScqCall(j, o, _) => j == i && o == k
    case _ => true
  }

  predicate HandNear(pc: RcqPc, i: nat) {
    match pc
    case RcqWrite(j) => j == i
    case RcqPost(j) => j == i
    case _ => true
  }

  predicate FlushNear(pc: FlushPc, k: nat) {
    match pc
    case FlushHas(_, o) => o == k
    case FlushTake(_, o) => o == k
    case FlushCall(_, o, _) => o == k
    case _ => true
  }

  /** No host I/O but k, which is slot i's, and no program counter that concerns another slot has changed. */
  ghost predicate NearLife(s: State, t: State, i: nat, k: nat) {
    && |t.ios| == |s.ios|
    && (|| t.ios == s.ios
        || (IsIo(s, k) && t.ios == s.ios[k := t.ios[k]] && (s.ios[k].pc.Scanning? || s.ios[k].slot == i)))
    && (t.scq == s.scq || ScqNear(s.scq, i, k))
    && (t.rcq == s.rcq || HandNear(s.rcq, i))
    && (t.flush == s.flush || FlushNear(s.flush, k))
  }

  /** What is known of slot i's life and of host I/O k. */
  ghost predicate LifeAt(s: State, i: nat, k: nat, owner: nat) {
    && IsSlot(s, i)
    && HolderOk(s, i, s.slots[i])
    && (IsIo(s, k) ==> IoOk(s, k, s.ios[k]))
    && (IsIo(s, owner) ==> IoOk(s, owner, s.ios[owner]))
    && ScqOk(s) && HandOk(s) && FlushOk(s)
  }

  lemma OtherHolderOk(s: State, t: State, i: nat, k: nat, j: nat)
    requires OneSlot(s, t, i) && NearLife(s, t, i, k) && j < |s.slots| && j != i
    requires Local(s.slots[j]) && HolderOk(s, j, s.slots[j])
    ensures HolderOk(t, j, t.slots[j])
  {
  }

  lemma OtherIoOk(s: State, t: State, i: nat, k: nat, j: nat)
    requires OneSlot(s, t, i) && NearLife(s, t, i, k) && HolderOk(s, i, s.slots[i])
    requires j != k && (j != s.slots[i].owner || s.slots[i].point.Free?) && IsIo(s, j) && IoOk(s, j, s.ios[j])
    ensures IoOk(t, j, t.ios[j])
  {
  }

  lemma LivesKept(s: State, t: State, i: nat, k: nat)
    requires Lives(s) && (forall j: nat :: j < |s.slots| ==> Local(s.slots[j]))
    requires OneSlot(s, t, i) && NearLife(s, t, i, k)
    requires LifeAt(t, i, k, if s.slots[i].point.Free? then k else s.slots[i].owner)
    ensures Lives(t)
  {
    forall j: nat | j < |t.slots| ensures HolderOk(t, j, t.slots[j]) { if j != i { OtherHolderOk(s, t, i, k, j); } }
    forall j: nat | j < |t.ios| ensures IoOk(t, j, t.ios[j]) {
      if j != k && (j != s.slots[i].owner || s.slots[i].point.Free?) { OtherIoOk(s, t, i, k, j); }
    }
  }

  /** The step concerns the response to slot i's command only. */
  ghost predicate SameLife(s: State, t: State, i: nat) {
    && IsSlot(s, i) && IsSlot(t, i)
    && t.ios == s.ios && t.scq == s.scq && t.flush == s.flush && t.flag.scqArmed == s.flag.scqArmed
    && (t.rcq == s.rcq || (!(s.rcq.RcqWrite? || s.rcq.RcqPost?) && !(t.rcq.RcqWrite? || t.rcq.RcqPost?)))
    && (var x, y := s.slots[i], t.slots[i];
        y.point == x.point && y.wr == x.wr && y.parent == x.parent && y.owner == x.owner)
  }

  lemma AloneHolderOk(s: State, t: State, i: nat, j: nat)
    requires OneSlot(s, t, i) && SameLife(s, t, i) && j < |s.slots| && HolderOk(s, j, s.slots[j])
    ensures HolderOk(t, j, t.slots[j])
  {
  }

  lemma AloneIoOk(s: State, t: State, i: nat, k: nat)
    requires OneSlot(s, t, i) && SameLife(s, t, i) && IsIo(s, k) && IoOk(s, k, s.ios[k])
    ensures IoOk(t, k, t.ios[k])
  {
  }

  lemma LivesAlone(s: State, t: State, i: nat)
    requires Lives(s) && OneSlot(s, t, i) && SameLife(s, t, i)
    ensures Lives(t)
  {
    forall j: nat | j < |t.slots| ensures HolderOk(t, j, t.slots[j]) { AloneHolderOk(s, t, i, j); }
    forall k: nat | k < |t.ios| ensures IoOk(t, k, t.ios[k]) { AloneIoOk(s, t, i, k); }
  }

  predicate RcqNear(s: State, i: nat) {
    match s.rcq
    case RcqLookup(c, _) => IsId(s, c) && s.table[c] == Some(i)
    case RcqRemove(c, _) => IsId(s, c) && s.table[c] == Some(i)
    case RcqOr(j, _) => j == i
    case RcqStore(j, _, _) => j == i
    case RcqCas(j, _) => j == i
    case _ => true
  }

  /** Only what is recorded under slot i's command id, for slot i, has changed. */
  ghost predicate NearReply(s: State, t: State, i: nat)
    requires IsSlot(s, i)
  {
    var c := s.slots[i].cmdId;
    && (t.rcq == s.rcq || RcqNear(s, i))
    && c < ID_COUNT == |s.table|
    && (|| t.table == s.table
        || (s.table[c] == None && t.table == s.table[c := Some(i)])
        || (s.table[c] == Some(i) && t.table == s.table[c := None]))
    && (|| t.owed == s.owed
        || (c !in s.owed && t.owed == s.owed[c := i])
        || (c in s.owed && s.owed[c] == i && t.owed == s.owed - {c}))
    && (|| t.answers == s.answers
        || (c !in s.answers && c in t.answers && t.answers == s.answers[c := t.answers[c]])
        || (c in s.answers && s.answers[c].slot == i && t.answers == s.answers - {c}))
  }

  /** What is known of the reply to slot i's command, whose id is c. */
  ghost predicate ReplyAt(s: State, i: nat, c: nat) {
    && IsSlot(s, i) && IsId(s, c)
    && AnswerOk(s, i, s.slots[i])
    && EntryOk(s, c, s.table[c])
    && (c in s.owed ==> OwedOk(s, c, s.owed[c]))
    && (c in s.answers ==> QueuedOk(s, c, s.answers[c].slot))
    && RcqOk(s)
  }

  lemma OtherAnswerOk(s: State, t: State, i: nat, j: nat)
    requires OneSlot(s, t, i) && NearReply(s, t, i) && j < |s.slots| && j != i && AnswerOk(s, j, s.slots[j])
    requires t.rcq == s.rcq || AnswerOk(s, i, s.slots[i])
    ensures AnswerOk(t, j, t.slots[j])
  {
  }

  lemma OtherEntryOk(s: State, t: State, i: nat, d: nat)
    requires OneSlot(s, t, i) && NearReply(s, t, i) && IsId(s, d) && d != s.slots[i].cmdId && EntryOk(s, d, s.table[d])
    ensures EntryOk(t, d, t.table[d])
  {
  }

  lemma OtherOwedOk(s: State, t: State, i: nat, d: nat)
    requires OneSlot(s, t, i) && NearReply(s, t, i) && d in t.owed && d != s.slots[i].cmdId
    requires (d in s.owed ==> OwedOk(s, d, s.owed[d]))
    ensures OwedOk(t, d, t.owed[d])
  {
  }

  lemma OtherQueuedOk(s: State, t: State, i: nat, d: nat)
    requires OneSlot(s, t, i) && NearReply(s, t, i) && d in t.answers && d != s.slots[i].cmdId
    requires d in s.answers ==> QueuedOk(s, d, s.answers[d].slot)
    ensures QueuedOk(t, d, t.answers[d].slot)
  {
  }

  lemma RepliesKept(s: State, t: State, i: nat)
    requires Replies(s) && OneSlot(s, t, i) && NearReply(s, t, i) && ReplyAt(t, i, s.slots[i].cmdId)
    ensures Replies(t)
  {
    var c := s.slots[i].cmdId;
    forall j: nat | j < |t.slots| ensures AnswerOk(t, j, t.slots[j]) { if j != i { OtherAnswerOk(s, t, i, j); } }
    forall d: nat | d < |t.table| ensures EntryOk(t, d, t.table[d]) { if d != c { OtherEntryOk(s, t, i, d); } }
    forall d | d in t.owed ensures OwedOk(t, d, t.owed[d]) { if d != c { OtherOwedOk(s, t, i, d); } }
    forall d | d in t.answers ensures QueuedOk(t, d, t.answers[d].slot) { if d != c { OtherQueuedOk(s, t, i, d); } }
  }

  /** The step does not concern the reply to slot i's command, if it has one. */
  ghost predicate SameReply(s: State, t: State, i: nat) {
    && IsSlot(s, i) && IsSlot(t, i)
    && t.table == s.table && t.owed == s.owed && t.answers == s.answers && t.rcq == s.rcq
    && t.flag.rcqArmed == s.flag.rcqArmed
    && (var x, y := s.slots[i], t.slots[i];
        && y.resp == x.resp && y.status == x.status && y.answer == x.answer && (Tabled(y) <==> Tabled(x))
        && ((x.resp.NoCommand? && !Tabled(x)) || (y.cmdId == x.cmdId && y.owner == x.owner)))
  }

  lemma AloneAnswerOk(s: State, t: State, i: nat, j: nat)
    requires OneSlot(s, t, i) && SameReply(s, t, i) && j < |s.slots| && AnswerOk(s, j, s.slots[j])
    ensures AnswerOk(t, j, t.slots[j])
  {
  }

  lemma AloneEntriesOk(s: State, t: State, i: nat, d: nat)
    requires OneSlot(s, t, i) && SameReply(s, t, i)
    ensures IsId(s, d) && EntryOk(s, d, s.table[d]) ==> EntryOk(t, d, t.table[d])
    ensures d in s.owed && OwedOk(s, d, s.owed[d]) ==> OwedOk(t, d, t.owed[d])
    ensures d in s.answers && QueuedOk(s, d, s.answers[d].slot) ==> QueuedOk(t, d, t.answers[d].slot)
  {
  }

  lemma RepliesAlone(s: State, t: State, i: nat)
    requires Replies(s) && OneSlot(s, t, i) && SameReply(s, t, i)
    ensures Replies(t)
  {
    forall j: nat | j < |t.slots| ensures AnswerOk(t, j, t.slots[j]) { AloneAnswerOk(s, t, i, j); }
    forall d: nat | d < |t.table| ensures EntryOk(t, d, t.table[d]) { AloneEntriesOk(s, t, i, d); }
    forall d | d in t.owed ensures OwedOk(t, d, t.owed[d]) { AloneEntriesOk(s, t, i, d); }
    forall d | d in t.answers ensures QueuedOk(t, d, t.answers[d].slot) { AloneEntriesOk(s, t, i, d); }
  }

  // ---- Steps that change no slot ----

  predicate ScqLoose(pc: ScqPc) { pc.ScqIdle? || pc.ScqPoll? || pc.ScqArm? || pc.ScqCountdown? }

  predicate RcqLoose(pc: RcqPc) { pc.RcqIdle? || pc.RcqPoll? || pc.RcqArm? || pc.RcqRepost? || pc.RcqCount? }

  /** No slot, no entry, and no host I/O but k has changed. */
  ghost predicate NoSlot(s: State, t: State, k: nat) {
    && t.slots == s.slots && t.table == s.table && t.owed == s.owed && t.answers == s.answers
    && !t.flag.fault
    && |t.ios| == |s.ios|
    && (|| t.ios == s.ios
        || (&& IsIo(s, k) && t.ios == s.ios[k := t.ios[k]] && t.ios[k].slot == s.ios[k].slot
            && (t.ios[k].pc == s.ios[k].pc || s.ios[k].pc.Scanning? || (s.ios[k].pc.Counting? && t.ios[k].pc.Returned?))
            && (t.ios[k].home == s.ios[k].home || !s.ios[k].home.InSlot?)))
    && (t.scq == s.scq || (ScqLoose(s.scq) && ScqLoose(t.scq)))
    && (|| t.rcq == s.rcq || (RcqLoose(s.rcq) && RcqLoose(t.rcq))
        || (s.rcq.RcqLookup? && t.rcq == RcqRemove(s.rcq.id, s.rcq.status)))
    && (t.flush == s.flush || FlushNear(s.flush, k))
  }

  lemma NoSlotHolderOk(s: State, t: State, k: nat, j: nat)
    requires NoSlot(s, t, k) && j < |s.slots| && Local(s.slots[j]) && HolderOk(s, j, s.slots[j])
    ensures HolderOk(t, j, t.slots[j])
  {
  }

  lemma NoSlotAnswerOk(s: State, t: State, k: nat, j: nat)
    requires NoSlot(s, t, k) && j < |s.slots| && AnswerOk(s, j, s.slots[j])
    ensures AnswerOk(t, j, t.slots[j])
  {
  }

  lemma NoSlotIoOk(s: State, t: State, k: nat, j: nat)
    requires NoSlot(s, t, k) && IsIo(s, j) && j != k && IoOk(s, j, s.ios[j])
    ensures IoOk(t, j, t.ios[j])
  {
  }

  lemma NoSlotKeeps(s: State, t: State, k: nat)
    requires Inv(s) && NoSlot(s, t, k)
    requires (IsIo(t, k) ==> IoOk(t, k, t.ios[k])) && ScqOk(t) && HandOk(t) && FlushOk(t) && RcqOk(t)
    ensures Inv(t)
  {
    forall j: nat | j < |t.slots| ensures HolderOk(t, j, t.slots[j]) { NoSlotHolderOk(s, t, k, j); }
    forall j: nat | j < |t.slots| ensures AnswerOk(t, j, t.slots[j]) { NoSlotAnswerOk(s, t, k, j); }
    forall j: nat | j < |t.ios| ensures IoOk(t, j, t.ios[j]) { if j != k { NoSlotIoOk(s, t, k, j); } }
    forall d: nat | d < |t.table| ensures EntryOk(t, d, t.table[d]) { assert EntryOk(s, d, s.table[d]); }
    forall d | d in t.owed ensures OwedOk(t, d, t.owed[d]) { assert OwedOk(s, d, s.owed[d]); }
    forall d | d in t.answers ensures QueuedOk(t, d, t.answers[d].slot) { assert QueuedOk(s, d, s.answers[d].slot); }
  }
}

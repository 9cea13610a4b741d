/** Every step of the request engine keeps the invariant. */
module IoSteps {
  import opened ReqState
  import opened IoProtocol
  import opened IoInvariant

  // ---- What one step may assume and must show ----

  /** What the invariant says of the program counters and of host I/O k. */
  ghost predicate Aside(s: State, k: nat) {
    && (IsIo(s, k) ==> IoOk(s, k, s.ios[k]))
    && ScqOk(s) && HandOk(s) && FlushOk(s) && RcqOk(s)
    && |s.table| == ID_COUNT && !s.flag.fault
  }

  /** What the invariant says of slot i, its reply and host I/O k. */
  ghost predicate At(s: State, i: nat, k: nat) {
    && IsSlot(s, i) && Local(s.slots[i]) && LifeAt(s, i, k, s.slots[i].owner)
    && |s.table| == ID_COUNT && !s.flag.fault
    && ReplyAt(s, i, s.slots[i].cmdId)
  }

  /** The step takes slot i's life, and host I/O k, further. */
  ghost predicate LifeStep(s: State, t: State, i: nat, k: nat) {
    && OneSlot(s, t, i) && NearLife(s, t, i, k)
    && LifeAt(t, i, k, if s.slots[i].point.Free? then k else s.slots[i].owner)
  }

  /** The step takes the reply to slot i's command further. */
  ghost predicate ReplyStep(s: State, t: State, i: nat) {
    OneSlot(s, t, i) && NearReply(s, t, i) && ReplyAt(t, i, s.slots[i].cmdId)
  }

  /** The step is one of slot i and host I/O k. */
  ghost predicate SlotStep(s: State, t: State, i: nat, k: nat) {
    && OneSlot(s, t, i)
    && (LifeStep(s, t, i, k) || SameLife(s, t, i))
    && (ReplyStep(s, t, i) || SameReply(s, t, i))
  }

  /** The step changes no slot. */
  ghost predicate BareStep(s: State, t: State, k: nat) {
    NoSlot(s, t, k) && Aside(t, k)
  }

  lemma AtSlot(s: State, i: nat, k: nat)
    requires Inv(s) && IsSlot(s, i)
    ensures At(s, i, k)
  {
    assert Local(s.slots[i]);
  }

  lemma AsideOf(s: State, k: nat)
    requires Inv(s)
    ensures Aside(s, k)
  {
  }

  lemma SlotStepKeeps(s: State, t: State, i: nat, k: nat)
    requires Inv(s) && SlotStep(s, t, i, k)
    ensures Inv(t)
  {
    AtSlot(s, i, k);
    forall j: nat | j < |t.slots| ensures Local(t.slots[j]) { assert Local(s.slots[j]); }
    if LifeStep(s, t, i, k) { LivesKept(s, t, i, k); } else { LivesAlone(s, t, i); }
    if ReplyStep(s, t, i) { RepliesKept(s, t, i); } else { RepliesAlone(s, t, i); }
  }

  lemma BareStepKeeps(s: State, t: State, k: nat)
    requires Inv(s) && BareStep(s, t, k)
    ensures Inv(t)
  {
    NoSlotKeeps(s, t, k);
  }

  // ---- The submitter ----

  /** A step by a submitter, on a slot that no handler is at, leaves the handlers as they are. */
  lemma HandlersAlone(s: State, t: State, i: nat, k: nat)
    requires OneSlot(s, t, i) && ScqOk(s) && HandOk(s) && FlushOk(s)
    requires s.slots[i].point.Free? || SubHeld(s.slots[i].point)
    requires t.scq == s.scq && t.rcq == s.rcq && t.flush == s.flush && t.flag == s.flag
    requires IsIo(s, k) && |t.ios| == |s.ios| && t.ios == s.ios[k := t.ios[k]]
    requires t.ios[k].fn == s.ios[k].fn && (t.ios[k].home == s.ios[k].home || s.ios[k].home.Nowhere?)
    ensures ScqOk(t) && HandOk(t) && FlushOk(t)
  {
  }

  /** The submitter takes its slot from one of its points to the next. */
  lemma SubMoves(s: State, t: State, k: nat, i: nat, y: Slot)
    requires At(s, i, k) && IsIo(s, k) && s.ios[k].pc == SubAt(s.slots[i].point, i) && SubHeld(y.point) && Local(y)
    requires t == PutIo(Put(s, i, y), k, s.ios[k].(pc := SubAt(y.point, i))).(next := t.next)
    requires y.owner == k && y.status == s.slots[i].status && y.answer == s.slots[i].answer
    requires Keeper(s.slots[i], k) <==> Keeper(y, k)
    ensures SlotStep(s, t, i, k)
  {
    HandlersAlone(s, t, i, k);
    assert LifeStep(s, t, i, k);
    assert SameReply(s, t, i);
  }

  lemma SubClaimOk(s: State, k: nat, p: nat)
    requires At(s, p, k) && IsIo(s, k) && s.ios[k].pc.Scanning? && s.slots[p].bits == FREE
    ensures SlotStep(s, SubClaim(s, k, p), p, k)
  {
    HandlersAlone(s, SubClaim(s, k, p), p, k);
    assert SameReply(s, SubClaim(s, k, p), p);
  }

  lemma SubPostFrOk(s: State, k: nat, i: nat)
    requires At(s, i, k) && IsIo(s, k) && s.ios[k].pc == SubAt(FrPosting, i)
    ensures SlotStep(s, SubPostFr(s, k, i), i, k)
  {
    HandlersAlone(s, SubPostFr(s, k, i), i, k);
    assert SameReply(s, SubPostFr(s, k, i), i);
  }

  lemma SubTicketOk(s: State, k: nat, i: nat)
    requires At(s, i, k) && IsIo(s, k) && s.ios[k].pc == SubAt(Ticketing, i)
    ensures SlotStep(s, SubTicket(s, k, i), i, k)
  {
    SubMoves(s, SubTicket(s, k, i), k, i, SubTicket(s, k, i).slots[i]);
  }

  lemma SubParentOk(s: State, k: nat, i: nat, pages: nat)
    requires At(s, i, k) && IsIo(s, k) && s.ios[k].pc == SubAt(Parenting, i)
    ensures SlotStep(s, SubParent(s, k, i, pages), i, k)
  {
    SubMoves(s, SubParent(s, k, i, pages), k, i, SubParent(s, k, i, pages).slots[i]);
  }

  lemma SubMarkOk(s: State, k: nat, i: nat)
    requires At(s, i, k) && IsIo(s, k) && s.ios[k].pc == SubAt(Marking, i)
    ensures SlotStep(s, SubMark(s, k, i), i, k)
  {
    SubMoves(s, SubMark(s, k, i), k, i, SubMark(s, k, i).slots[i]);
  }

  lemma SubWriteFrOk(s: State, k: nat, i: nat)
    requires At(s, i, k) && IsIo(s, k) && s.ios[k].pc == SubAt(FrWriting, i)
    ensures SlotStep(s, SubWriteFr(s, k, i), i, k)
  {
    SubMoves(s, SubWriteFr(s, k, i), k, i, SubWriteFr(s, k, i).slots[i]);
  }

  lemma SubMarkFrOk(s: State, k: nat, i: nat)
    requires At(s, i, k) && IsIo(s, k) && s.ios[k].pc == SubAt(FrMarking, i)
    ensures SlotStep(s, SubMarkFr(s, k, i), i, k)
  {
    SubMoves(s, SubMarkFr(s, k, i), k, i, SubMarkFr(s, k, i).slots[i]);
  }

  lemma SubAtOk(s: State, k: nat, pages: nat)
    requires SubEnabled(s, k) && s.ios[k].pc.SubAt? && At(s, s.ios[k].pc.slot, k)
    ensures SlotStep(s, SubStep(s, k, pages), s.ios[k].pc.slot, k)
  {
    var i := s.ios[k].pc.slot;
    match s.ios[k].pc.point {
      case Ticketing => SubTicketOk(s, k, i);
      case Parenting => SubParentOk(s, k, i, pages);
      case Marking => SubMarkOk(s, k, i);
      case FrWriting => SubWriteFrOk(s, k, i);
      case FrMarking => SubMarkFrOk(s, k, i);
      case FrPosting => SubPostFrOk(s, k, i);
    }
  }

  lemma SubGiveUpOk(s: State, k: nat)
    requires IsIo(s, k) && Aside(s, k) && s.ios[k].pc.Scanning?
    ensures BareStep(s, SubGiveUp(s, k), k)
  {
    assert s.ios[k].home.Nowhere?;
  }

  lemma SubGoOnOk(s: State, k: nat, p: nat)
    requires IsIo(s, k) && Aside(s, k) && s.ios[k].pc.Scanning?
    ensures BareStep(s, PutIo(s, k, s.ios[k].(pc := Scanning(p + 1))), k)
  {
    assert s.ios[k].home.Nowhere?;
  }

  lemma SubPassOk(s: State, k: nat, p: nat)
    requires IsIo(s, k) && Aside(s, k) && s.ios[k].pc.Scanning? && (p < |s.slots| ==> s.slots[p].bits != FREE)
    ensures BareStep(s, SubScan(s, k, p), k)
  {
    if p < |s.slots| { SubGoOnOk(s, k, p); } else { SubGiveUpOk(s, k); }
  }

  lemma SubCountOk(s: State, k: nat)
    requires IsIo(s, k) && Aside(s, k) && s.ios[k].pc.Counting?
    ensures BareStep(s, SubCount(s, k), k)
  {
  }

  lemma SubKeeps(s: State, k: nat, pages: nat)
    requires Inv(s) && SubEnabled(s, k)
    ensures Inv(SubStep(s, k, pages))
  {
    var t := SubStep(s, k, pages);
    if s.ios[k].pc.SubAt? {
      AtSlot(s, s.ios[k].pc.slot, k);
      SubAtOk(s, k, pages);
      SlotStepKeeps(s, t, s.ios[k].pc.slot, k);
    } else if s.ios[k].pc.Scanning? && s.ios[k].pc.p < |s.slots| && s.slots[s.ios[k].pc.p].bits == FREE {
      AtSlot(s, s.ios[k].pc.p, k);
      SubClaimOk(s, k, s.ios[k].pc.p);
      SlotStepKeeps(s, t, s.ios[k].pc.p, k);
    } else {
      AsideOf(s, k);
      if s.ios[k].pc.Counting? { SubCountOk(s, k); } else { SubPassOk(s, k, s.ios[k].pc.p); }
      BareStepKeeps(s, t, k);
    }
  }

  // ---- The send-queue handler ----

  /** A step on a slot that neither a submitter nor the receive-queue handler is at leaves them as they are. */
  lemma ScqAlone(s: State, t: State, i: nat)
    requires OneSlot(s, t, i) && LifeAt(s, i, s.slots[i].owner, s.slots[i].owner)
    requires !s.slots[i].point.Free? && !SubHeld(s.slots[i].point)
    requires t.rcq == s.rcq && t.flush == s.flush && t.ios == s.ios
    requires t.slots[i].owner == s.slots[i].owner && t.slots[i].parent == s.slots[i].parent
    requires s.slots[i].point !in {InvWriting(false), InvPosting(false)}
    ensures HandOk(t) && FlushOk(t)
    ensures s.scq == t.scq || !s.ios[s.slots[i].owner].home.InScq? ==>
              IoOk(t, s.slots[i].owner, t.ios[s.slots[i].owner])
  {
  }

  /** The handler takes its slot from one of its points to the next. */
  lemma ScqMoves(s: State, t: State, i: nat)
    requires OneSlot(s, t, i) && LifeAt(s, i, s.slots[i].owner, s.slots[i].owner)
    requires s.scq == ScqAt(s.slots[i].point, i) && t.scq == ScqAt(t.slots[i].point, i)
    requires ScqHeld(s.slots[i].point) && ScqHeld(t.slots[i].point)
    requires t.ios == s.ios && t.rcq == s.rcq && t.flush == s.flush && t.flag.scqArmed == s.flag.scqArmed
    requires t.slots[i].owner == s.slots[i].owner && t.slots[i].parent == s.slots[i].parent
    ensures LifeStep(s, t, i, s.slots[i].owner)
  {
    ScqAlone(s, t, i);
    assert HolderOk(t, i, t.slots[i]);
  }

  /** The handler's slot, and what is known of it. */
  ghost predicate Handles(s: State, i: nat, p: Point) {
    && IsSlot(s, i) && At(s, i, s.slots[i].owner)
    && s.slots[i].point == p && ScqHeld(p) && s.scq == ScqAt(p, i)
  }

  lemma FrCountOk(s: State, i: nat)
    requires Handles(s, i, FrCounting)
    ensures SlotStep(s, FrCount(s, i), i, s.slots[i].owner)
  {
    assert OneSlot(s, FrCount(s, i), i);
    ScqMoves(s, FrCount(s, i), i);
  }

  lemma FrWriteSendOk(s: State, i: nat)
    requires Handles(s, i, SendWriting)
    ensures SlotStep(s, FrWriteSend(s, i), i, s.slots[i].owner)
  {
    ScqMoves(s, FrWriteSend(s, i), i);
  }

  lemma FrInsertReply(s: State, i: nat)
    requires Handles(s, i, Inserting) && !FrInsert(s, i).flag.collided
    ensures ReplyStep(s, FrInsert(s, i), i)
  {
  }

  lemma FrInsertOk(s: State, i: nat)
    requires Handles(s, i, Inserting) && !FrInsert(s, i).flag.collided
    ensures SlotStep(s, FrInsert(s, i), i, s.slots[i].owner)
  {
    FrInsertReply(s, i);
    ScqMoves(s, FrInsert(s, i), i);
  }

  lemma FrMarkOk(s: State, i: nat)
    requires Handles(s, i, SubMarking)
    ensures SlotStep(s, FrMark(s, i), i, s.slots[i].owner)
  {
    ScqMoves(s, FrMark(s, i), i);
  }

  lemma FrPostSendOk(s: State, i: nat)
    requires Handles(s, i, SendPosting)
    ensures SlotStep(s, FrPostSend(s, i), i, s.slots[i].owner)
  {
    ScqMoves(s, FrPostSend(s, i), i);
    assert ReplyStep(s, FrPostSend(s, i), i);
  }

  lemma FrCountSendOk(s: State, i: nat)
    requires Handles(s, i, SendCounting)
    ensures SlotStep(s, FrCountSend(s, i), i, s.slots[i].owner)
  {
    ScqMoves(s, FrCountSend(s, i), i);
  }

  lemma SendMarkOk(s: State, i: nat)
    requires Handles(s, i, WaitMarking)
    ensures SlotStep(s, SendMark(s, i), i, s.slots[i].owner)
  {
    ScqMoves(s, SendMark(s, i), i);
  }

  lemma SendWriteInvOk(s: State, i: nat)
    requires Handles(s, i, InvWriting(true))
    ensures SlotStep(s, SendWriteInv(s, i), i, s.slots[i].owner)
  {
    ScqMoves(s, SendWriteInv(s, i), i);
  }

  lemma InvCheckOk(s: State, i: nat)
    requires Handles(s, i, InvChecking)
    ensures SlotStep(s, InvCheck(s, i), i, s.slots[i].owner)
  {
    ScqMoves(s, InvCheck(s, i), i);
  }

  // The handler leaves its slot to NDK, or to the response.

  lemma ScqLeaves(s: State, t: State, i: nat)
    requires OneSlot(s, t, i) && LifeAt(s, i, s.slots[i].owner, s.slots[i].owner)
    requires s.scq == ScqAt(s.slots[i].point, i) && ScqHeld(s.slots[i].point)
    requires t.scq == ScqPoll
    requires RoleAt(t.slots[i].point) == Nobody || (NdkHeld(t.slots[i].point) && t.slots[i].wr != Owned)
    requires t.ios == s.ios && t.rcq == s.rcq && t.flush == s.flush && t.flag.scqArmed == s.flag.scqArmed
    requires t.slots[i].owner == s.slots[i].owner && t.slots[i].parent == s.slots[i].parent && t.slots[i].point != Free
    ensures LifeStep(s, t, i, s.slots[i].owner)
  {
    ScqAlone(s, t, i);
    assert HolderOk(t, i, t.slots[i]);
  }

  lemma FrMarkDoneOk(s: State, i: nat)
    requires Handles(s, i, DoneMarking)
    ensures SlotStep(s, FrMarkDone(s, i), i, s.slots[i].owner)
  {
    ScqLeaves(s, FrMarkDone(s, i), i);
  }

  /** The compare-and-swap of the send completion, in the life it is for. */
  lemma SendCasWonOk(s: State, i: nat)
    requires Handles(s, i, SendCasing) && s.slots[i].bits == ALL_STATE_DONE
    ensures SlotStep(s, SendCas(s, i), i, s.slots[i].owner)
  {
    ScqMoves(s, SendCas(s, i), i);
  }

  lemma SendCasFailedOk(s: State, i: nat)
    requires Handles(s, i, SendCasing) && s.slots[i].bits != ALL_STATE_DONE
    ensures SlotStep(s, SendCas(s, i), i, s.slots[i].owner)
  {
    ScqLeaves(s, SendCas(s, i), i);
  }

  lemma SendCasLostLife(s: State, t: State, i: nat)
    requires OneSlot(s, t, i) && LifeAt(s, i, s.slots[i].owner, s.slots[i].owner)
    requires s.scq == ScqAt(SendCasing, i) && s.slots[i].point != SendCasing && t == s.(scq := ScqPoll)
    ensures LifeStep(s, t, i, s.slots[i].owner)
  {
    assert HolderOk(t, i, t.slots[i]);
  }

  /** The compare-and-swap of the send completion when the response has won. */
  lemma SendCasLostOk(s: State, i: nat)
    requires IsSlot(s, i) && At(s, i, s.slots[i].owner) && s.scq == ScqAt(SendCasing, i)
    requires s.slots[i].point != SendCasing
    ensures SlotStep(s, SendCas(s, i), i, s.slots[i].owner)
  {
    var t := s.(scq := ScqPoll);
    assert t.slots == s.slots[i := s.slots[i]];
    assert SendCas(s, i) == t;
    SendCasLostLife(s, t, i);
    assert SameReply(s, t, i);
  }

  lemma SendPostInvOk(s: State, i: nat)
    requires Handles(s, i, InvPosting(true))
    ensures SlotStep(s, SendPostInv(s, i), i, s.slots[i].owner)
  {
    ScqLeaves(s, SendPostInv(s, i), i);
  }

  // Fetching a completion.

  lemma ScqFetchOk(s: State, i: nat)
    requires IsSlot(s, i) && At(s, i, s.slots[i].owner) && s.scq == ScqPoll && InScqQueue(s, i)
    ensures SlotStep(s, ScqGet(s, i), i, s.slots[i].owner)
  {
    var t := ScqGet(s, i);
    assert InScqQueue(s, i);
    ScqAlone(s, t, i);
    assert HolderOk(t, i, t.slots[i]);
  }

  /** Where the handler goes from a completion of what NDK was at. */
  function Completing(p: Point): Point {
    match p
    case Registering => FrCounting
    case Sending => WaitMarking
    case _ => InvChecking
  }

  lemma ScqEnters(s: State, t: State, i: nat)
    requires OneSlot(s, t, i) && LifeAt(s, i, s.slots[i].owner, s.slots[i].owner)
    requires s.scq == ScqSwitch(i) && NdkHeld(s.slots[i].point) && t.scq == ScqAt(t.slots[i].point, i)
    requires ScqHeld(t.slots[i].point)
    requires t.ios == s.ios && t.rcq == s.rcq && t.flush == s.flush && t.flag.scqArmed == s.flag.scqArmed
    requires t.slots[i].owner == s.slots[i].owner && t.slots[i].parent == s.slots[i].parent
    ensures LifeStep(s, t, i, s.slots[i].owner)
  {
    ScqAlone(s, t, i);
    assert HolderOk(t, i, t.slots[i]);
  }

  /** The type that the work request holds tells the handler how far the slot has come. */
  lemma ScqBranchEnters(s: State, i: nat, p: Point)
    requires IsSlot(s, i) && WrAt(s.slots[i]) && p == Completing(s.slots[i].point) && NdkHeld(s.slots[i].point)
    ensures ScqBranch(s, i) == Put(s, i, s.slots[i].(point := p)).(scq := ScqAt(p, i))
  {
  }

  lemma ScqBranchOk(s: State, i: nat)
    requires IsSlot(s, i) && At(s, i, s.slots[i].owner) && s.scq == ScqSwitch(i)
    ensures SlotStep(s, ScqBranch(s, i), i, s.slots[i].owner)
  {
    var p := Completing(s.slots[i].point);
    ScqBranchEnters(s, i, p);
    ScqEnters(s, ScqBranch(s, i), i);
    assert SameReply(s, ScqBranch(s, i), i);
  }

  // The host I/O passes through the handler's hands.

  /** Taking host I/O k out of its slot does not concern the flush or the other handler. */
  lemma ClaimAlone(s: State, t: State, i: nat, k: nat)
    requires OneSlot(s, t, i) && HandOk(s) && FlushOk(s)
    requires !(s.slots[i].point in {InvWriting(false), InvPosting(false)})
    requires t.rcq == s.rcq && t.flush == s.flush
    requires IsIo(s, k) && |t.ios| == |s.ios| && t.ios == s.ios[k := t.ios[k]] && s.ios[k].home.InSlot?
    ensures HandOk(t) && FlushOk(t)
  {
  }

  lemma InvClaimedOk(s: State, i: nat)
    requires Handles(s, i, InvClaiming) && s.slots[i].parent.Some?
    ensures SlotStep(s, InvClaim(s, i), i, s.slots[i].owner)
  {
    var t := InvClaim(s, i);
    ClaimAlone(s, t, i, s.slots[i].owner);
    assert SameReply(s, t, i);
    assert HolderOk(t, i, t.slots[i]);
  }

  /** A flush has taken the host I/O. */
  lemma InvOrphanOk(s: State, i: nat)
    requires Handles(s, i, InvClaiming) && s.slots[i].parent.None?
    ensures SlotStep(s, InvClaim(s, i), i, s.slots[i].owner)
  {
    ScqLeaves(s, InvClaim(s, i), i);
  }

  /** The handler's slot and the host I/O in its hands. */
  ghost predicate HandlesIo(s: State, i: nat, k: nat, p: Point) {
    && IsSlot(s, i) && IsIo(s, k) && At(s, i, k) && s.slots[i].owner == k
    && s.slots[i].point == p && s.scq == (if p == Calling then ScqCall(i, k, true) else ScqHas(p, i, k))
  }

  /** While the handler has host I/O k, no step of it concerns the flush or the other handler. */
  lemma IoAlone(s: State, t: State, i: nat, k: nat, p: Point)
    requires HandlesIo(s, i, k, p) && (RoleAt(p) == Completes || RoleAt(p) == Calls || RoleAt(p) == Releases)
    requires OneSlot(s, t, i) && t.rcq == s.rcq && t.flush == s.flush
    requires t.ios == s.ios || (|t.ios| == |s.ios| && t.ios == s.ios[k := t.ios[k]] && s.ios[k].home == InScq)
    ensures HandOk(t) && FlushOk(t)
  {
  }

  /** The handler takes its slot on, and keeps host I/O k in its hands. */
  lemma IoMoves(s: State, t: State, i: nat, k: nat, p: Point, q: Point)
    requires HandlesIo(s, i, k, p) && RoleAt(p) == RoleAt(q) == Completes && OneSlot(s, t, i)
    requires t.slots[i] == s.slots[i].(point := q, wrType := t.slots[i].wrType)
    requires t == s.(slots := t.slots, scq := ScqHas(q, i, k), count := t.count)
    ensures SlotStep(s, t, i, k)
  {
    IoAlone(s, t, i, k, p);
    assert SameReply(s, t, i);
    assert HolderOk(t, i, t.slots[i]);
  }

  lemma InvAssertOk(s: State, i: nat, k: nat)
    requires HandlesIo(s, i, k, Asserting)
    ensures SlotStep(s, InvAssert(s, i, k), i, k)
  {
    IoMoves(s, InvAssert(s, i, k), i, k, Asserting, FnTesting);
  }

  lemma InvTestFnOk(s: State, i: nat, k: nat)
    requires HandlesIo(s, i, k, FnTesting)
    ensures SlotStep(s, InvTestFn(s, i, k), i, k)
  {
    assert s.ios[k].fn;
    IoMoves(s, InvTestFn(s, i, k), i, k, FnTesting, FnTaking);
  }

  lemma InvTakeFnOk(s: State, i: nat, k: nat)
    requires HandlesIo(s, i, k, FnTaking)
    ensures SlotStep(s, InvTakeFn(s, i, k), i, k)
  {
    var t := InvTakeFn(s, i, k);
    IoAlone(s, t, i, k, FnTaking);
    assert SameReply(s, t, i);
    assert HolderOk(t, i, t.slots[i]);
  }

  /** The status is the response's, or the receive-queue handler has yet to store it. */
  lemma InvCallIoOk(s: State, i: nat, k: nat)
    requires HandlesIo(s, i, k, Calling)
    ensures IoOk(InvCall(s, i, k, true), k, InvCall(s, i, k, true).ios[k])
  {
  }

  lemma InvCallOk(s: State, i: nat, k: nat)
    requires HandlesIo(s, i, k, Calling)
    ensures SlotStep(s, InvCall(s, i, k, true), i, k)
  {
    var t := InvCall(s, i, k, true);
    InvCallIoOk(s, i, k);
    IoAlone(s, t, i, k, Calling);
    assert SameReply(s, t, i);
    assert HolderOk(t, i, t.slots[i]);
  }

  lemma InvReleaseReply(s: State, i: nat, k: nat)
    requires HandlesIo(s, i, k, Releasing)
    ensures ReplyStep(s, InvRelease(s, i, k), i)
  {
  }

  lemma InvReleaseOk(s: State, i: nat, k: nat)
    requires HandlesIo(s, i, k, Releasing)
    ensures SlotStep(s, InvRelease(s, i, k), i, k)
  {
    var t := InvRelease(s, i, k);
    InvReleaseReply(s, i, k);
    IoAlone(s, t, i, k, Releasing);
    assert HolderOk(t, i, t.slots[i]);
  }

  // ---- The handler as a whole ----

  lemma ScqBareOk(s: State, pick: nat, k: nat)
    requires ScqEnabled(s, pick) && (s.scq.ScqArm? || (s.scq.ScqPoll? && ScqEmpty(s)))
    requires Aside(s, k)
    ensures BareStep(s, ScqStep(s, pick), k)
  {
  }

  lemma InvCountdownOk(s: State, k: nat)
    requires IsIo(s, k) && Aside(s, k) && s.scq == ScqCountdown(k)
    ensures BareStep(s, InvCountdown(s, k), k)
  {
  }

  /** The handler's slot is where the handler is, unless the response has won it. */
  lemma HandlesAt(s: State, i: nat, p: Point)
    requires IsSlot(s, i) && At(s, i, s.slots[i].owner) && s.scq == ScqAt(p, i)
    ensures ScqHeld(p) && (p != SendCasing ==> Handles(s, i, p))
  {
  }

  lemma ScqFrOk(s: State, pick: nat, i: nat, p: Point)
    requires ScqEnabled(s, pick) && Handles(s, i, p) && Order(p) <= 11 && !ScqStep(s, pick).flag.collided
    ensures SlotStep(s, ScqStep(s, pick), i, s.slots[i].owner)
  {
    match p {
      case FrCounting => FrCountOk(s, i);
      case SendWriting => FrWriteSendOk(s, i);
      case Inserting => FrInsertOk(s, i);
      case SubMarking => FrMarkOk(s, i);
    }
  }

  lemma ScqPostOk(s: State, pick: nat, i: nat, p: Point)
    requires ScqEnabled(s, pick) && Handles(s, i, p) && 12 <= Order(p) <= 16
    ensures SlotStep(s, ScqStep(s, pick), i, s.slots[i].owner)
  {
    match p {
      case SendPosting => FrPostSendOk(s, i);
      case SendCounting => FrCountSendOk(s, i);
      case DoneMarking => FrMarkDoneOk(s, i);
      case WaitMarking => SendMarkOk(s, i);
    }
  }

  lemma SendCasOk(s: State, i: nat)
    requires IsSlot(s, i) && s.scq == ScqAt(SendCasing, i) && At(s, i, s.slots[i].owner)
    ensures SlotStep(s, SendCas(s, i), i, s.slots[i].owner)
  {
    if s.slots[i].point != SendCasing { SendCasLostOk(s, i); }
    else if s.slots[i].bits == ALL_STATE_DONE { SendCasWonOk(s, i); }
    else { SendCasFailedOk(s, i); }
  }

  lemma ScqInvOk(s: State, pick: nat, i: nat, p: Point)
    requires ScqEnabled(s, pick) && Handles(s, i, p) && 18 <= Order(p)
    ensures SlotStep(s, ScqStep(s, pick), i, s.slots[i].owner)
  {
    match p {
      case InvWriting(_) => SendWriteInvOk(s, i);
      case InvPosting(_) => SendPostInvOk(s, i);
      case InvChecking => InvCheckOk(s, i);
      case InvClaiming => if s.slots[i].parent.Some? { InvClaimedOk(s, i); } else { InvOrphanOk(s, i); }
    }
  }

  lemma ScqHasOk(s: State, pick: nat, i: nat, k: nat, p: Point)
    requires ScqEnabled(s, pick) && HandlesIo(s, i, k, p) && s.scq == ScqHas(p, i, k)
    requires RoleAt(p) == Completes || p == Releasing
    ensures SlotStep(s, ScqStep(s, pick), i, k)
  {
    match p {
      case Asserting => InvAssertOk(s, i, k);
      case FnTesting => InvTestFnOk(s, i, k);
      case FnTaking => InvTakeFnOk(s, i, k);
      case Releasing => InvReleaseOk(s, i, k);
    }
  }

  lemma ScqAtOk(s: State, pick: nat, i: nat, p: Point)
    requires ScqEnabled(s, pick) && s.scq == ScqAt(p, i) && At(s, i, s.slots[i].owner)
    requires !ScqStep(s, pick).flag.collided
    ensures SlotStep(s, ScqStep(s, pick), i, s.slots[i].owner)
  {
    HandlesAt(s, i, p);
    if p == SendCasing { SendCasOk(s, i); }
    else if Order(p) <= 11 { ScqFrOk(s, pick, i, p); }
    else if Order(p) <= 16 { ScqPostOk(s, pick, i, p); }
    else { ScqInvOk(s, pick, i, p); }
  }

  lemma ScqPollKeeps(s: State, pick: nat)
    requires Inv(s) && ScqEnabled(s, pick) && s.scq.ScqPoll?
    ensures Inv(ScqGet(s, pick))
  {
    var t := ScqGet(s, pick);
    if ScqEmpty(s) {
      AsideOf(s, 0);
      ScqBareOk(s, pick, 0);
      BareStepKeeps(s, t, 0);
    } else {
      AtSlot(s, pick, s.slots[pick].owner);
      ScqFetchOk(s, pick);
      SlotStepKeeps(s, t, pick, s.slots[pick].owner);
    }
  }

  lemma ScqAtKeeps(s: State, pick: nat)
    requires Inv(s) && ScqEnabled(s, pick) && s.scq.ScqAt? && !ScqStep(s, pick).flag.collided
    ensures Inv(ScqStep(s, pick))
  {
    var i := s.scq.slot;
    AtSlot(s, i, s.slots[i].owner);
    ScqAtOk(s, pick, i, s.scq.point);
    SlotStepKeeps(s, ScqStep(s, pick), i, s.slots[i].owner);
  }

  lemma ScqHasKeeps(s: State, pick: nat)
    requires Inv(s) && ScqEnabled(s, pick) && (s.scq.ScqHas? || s.scq.ScqCall?)
    ensures Inv(ScqStep(s, pick))
  {
    var i, k := s.scq.slot, s.scq.io;
    AtSlot(s, i, k);
    if s.scq.ScqHas? { ScqHasOk(s, pick, i, k, s.scq.point); } else { InvCallOk(s, i, k); }
    SlotStepKeeps(s, ScqStep(s, pick), i, k);
  }

  lemma ScqKeeps(s: State, pick: nat)
    requires Inv(s) && ScqEnabled(s, pick) && !ScqStep(s, pick).flag.collided
    ensures Inv(ScqStep(s, pick))
  {
    var t := ScqStep(s, pick);
    AsideOf(s, if s.scq.ScqCountdown? then s.scq.io else 0);
    match s.scq {
      case ScqPoll => ScqPollKeeps(s, pick);
      case ScqArm => ScqBareOk(s, pick, 0); BareStepKeeps(s, t, 0);
      case ScqSwitch(i) => AtSlot(s, i, s.slots[i].owner); ScqBranchOk(s, i); SlotStepKeeps(s, t, i, s.slots[i].owner);
      case ScqAt(_, _) => ScqAtKeeps(s, pick);
      case ScqHas(_, _, _) => ScqHasKeeps(s, pick);
      case ScqCall(_, _, _) => ScqHasKeeps(s, pick);
      case ScqCountdown(k) => InvCountdownOk(s, k); BareStepKeeps(s, t, k);
    }
  }

  // ---- The receive-queue handler ----

  lemma RcqFetchReply(s: State, c: nat)
    requires c in s.answers && QueuedOk(s, c, s.answers[c].slot) && s.rcq == RcqPoll
    requires At(s, s.answers[c].slot, 0)
    ensures ReplyStep(s, RcqGet(s, c), s.answers[c].slot)
  {
    assert s.answers != map[];
  }

  lemma RcqFetchOk(s: State, c: nat)
    requires c in s.answers && QueuedOk(s, c, s.answers[c].slot) && s.rcq == RcqPoll
    requires At(s, s.answers[c].slot, 0)
    ensures SlotStep(s, RcqGet(s, c), s.answers[c].slot, 0)
  {
    assert s.answers != map[];
    RcqFetchReply(s, c);
    assert SameLife(s, RcqGet(s, c), s.answers[c].slot);
  }

  lemma RcqTakeReply(s: State, c: nat, status: int)
    requires s.rcq == RcqRemove(c, status) && LookedUp(s, c) && At(s, s.table[c].value, 0)
    ensures ReplyStep(s, RcqTake(s, c, status), s.table[c].value)
  {
  }

  lemma RcqTakeOk(s: State, c: nat, status: int)
    requires s.rcq == RcqRemove(c, status) && LookedUp(s, c) && At(s, s.table[c].value, 0)
    ensures SlotStep(s, RcqTake(s, c, status), s.table[c].value, 0)
  {
    RcqTakeReply(s, c, status);
    assert SameLife(s, RcqTake(s, c, status), s.table[c].value);
  }

  lemma RcqMarkOk(s: State, i: nat, status: int)
    requires s.rcq == RcqOr(i, status) && At(s, i, 0)
    ensures SlotStep(s, RcqMark(s, i, status), i, 0)
  {
    assert ReplyStep(s, RcqMark(s, i, status), i);
    assert SameLife(s, RcqMark(s, i, status), i);
  }

  lemma RcqStoreOk(s: State, i: nat, status: int, life: nat)
    requires s.rcq == RcqStore(i, status, life) && At(s, i, 0)
    ensures SlotStep(s, RcqStoreStatus(s, i, status, life), i, 0)
  {
    assert ReplyStep(s, RcqStoreStatus(s, i, status, life), i);
    assert SameLife(s, RcqStoreStatus(s, i, status, life), i);
  }

  /** A compare-and-swap that wins is one in the life in which the handler set its bit. */
  lemma RcqSwapLocal(s: State, i: nat, life: nat)
    requires s.rcq == RcqCas(i, life) && IsSlot(s, i) && Local(s.slots[i]) && AnswerOk(s, i, s.slots[i]) && RcqOk(s)
    ensures Local(RcqSwap(s, i).slots[i])
    ensures s.slots[i].bits == ALL_STATE_DONE ==> s.slots[i].resp.Ored? && !Tabled(s.slots[i])
  {
  }

  lemma RcqSwapReply(s: State, i: nat, life: nat)
    requires s.rcq == RcqCas(i, life) && IsSlot(s, i) && At(s, i, s.slots[i].owner)
    ensures ReplyStep(s, RcqSwap(s, i), i) && (s.slots[i].bits == ALL_STATE_DONE ==> s.slots[i].resp.Ored?)
  {
    RcqSwapLocal(s, i, life);
  }

  /** The compare-and-swap of the response: a win needs the life in which it set its bit. */
  lemma RcqSwapWonOk(s: State, i: nat, life: nat)
    requires s.rcq == RcqCas(i, life) && IsSlot(s, i) && At(s, i, s.slots[i].owner) && s.slots[i].bits == ALL_STATE_DONE
    ensures SlotStep(s, RcqSwap(s, i), i, s.slots[i].owner) && s.slots[i].resp.Ored?
  {
    var t := RcqSwap(s, i);
    RcqSwapReply(s, i, life);
    assert LifeStep(s, t, i, s.slots[i].owner);
  }

  lemma RcqSwapFailedOk(s: State, i: nat, life: nat)
    requires s.rcq == RcqCas(i, life) && IsSlot(s, i) && At(s, i, s.slots[i].owner) && s.slots[i].bits != ALL_STATE_DONE
    ensures SlotStep(s, RcqSwap(s, i), i, s.slots[i].owner)
  {
    RcqSwapReply(s, i, life);
    assert SameLife(s, RcqSwap(s, i), i);
  }

  /** The winning response's step leaves the send-queue handler and the flush as they are. */
  lemma RcqAlone(s: State, t: State, i: nat)
    requires IsSlot(s, i) && At(s, i, s.slots[i].owner) && OneSlot(s, t, i) && RoleAt(s.slots[i].point) == Receives
    requires t.ios == s.ios && t.scq == s.scq && t.flush == s.flush && t.flag.scqArmed == s.flag.scqArmed
    requires t.slots[i].owner == s.slots[i].owner && t.slots[i].parent == s.slots[i].parent && Lost(t.slots[i])
    ensures ScqOk(t) && FlushOk(t) && IoOk(t, s.slots[i].owner, t.ios[s.slots[i].owner])
  {
    assert IoOk(s, s.slots[i].owner, s.ios[s.slots[i].owner]);
    assert ScqOk(s) && FlushOk(s);
  }

  /** The winning response takes its slot on; the send-queue handler may still stand before its own compare-and-swap. */
  lemma RcqMoves(s: State, t: State, i: nat)
    requires IsSlot(s, i) && At(s, i, s.slots[i].owner) && OneSlot(s, t, i) && RoleAt(s.slots[i].point) == Receives
    requires t.ios == s.ios && t.scq == s.scq && t.flush == s.flush && t.flag.scqArmed == s.flag.scqArmed
    requires t.slots[i].owner == s.slots[i].owner && t.slots[i].parent == s.slots[i].parent && Lost(t.slots[i])
    requires RoleAt(t.slots[i].point) == Receives ==>
               t.rcq == (if t.slots[i].point.InvWriting? then RcqWrite(i) else RcqPost(i))
    requires t.slots[i].point == Invalidating ==> t.rcq == RcqRepost
    ensures LifeStep(s, t, i, s.slots[i].owner)
  {
    RcqAlone(s, t, i);
    assert HolderOk(t, i, t.slots[i]);
  }

  /** The hand-off's steps do not concern the reply, which was fetched before. */
  lemma RcqPastReply(s: State, t: State, i: nat)
    requires IsSlot(s, i) && At(s, i, s.slots[i].owner) && OneSlot(s, t, i)
    requires s.slots[i].resp.Past? && !Tabled(t.slots[i])
    requires t.table == s.table && t.owed == s.owed && t.answers == s.answers && t.flag == s.flag
    requires s.rcq in {RcqWrite(i), RcqPost(i)} && t.rcq in {RcqPost(i), RcqRepost}
    requires t.slots[i].resp == s.slots[i].resp && t.slots[i].cmdId == s.slots[i].cmdId
    ensures ReplyStep(s, t, i)
  {
    assert ReplyAt(t, i, s.slots[i].cmdId);
  }

  lemma RcqWriteInvOk(s: State, i: nat)
    requires s.rcq == RcqWrite(i) && IsSlot(s, i) && At(s, i, s.slots[i].owner)
    ensures SlotStep(s, RcqWriteInv(s, i), i, s.slots[i].owner)
  {
    var t := RcqWriteInv(s, i);
    RcqMoves(s, t, i);
    RcqPastReply(s, t, i);
  }

  lemma RcqPostInvOk(s: State, i: nat)
    requires s.rcq == RcqPost(i) && IsSlot(s, i) && At(s, i, s.slots[i].owner)
    ensures SlotStep(s, RcqPostInv(s, i), i, s.slots[i].owner)
  {
    var t := RcqPostInv(s, i);
    assert OneSlot(s, t, i);
    RcqMoves(s, t, i);
    RcqPastReply(s, t, i);
  }

  lemma RcqBareOk(s: State, pick: nat)
    requires RcqEnabled(s, pick) && Aside(s, 0)
    requires s.rcq.RcqArm? || s.rcq.RcqRepost? || s.rcq.RcqCount? || (s.rcq.RcqPoll? && s.answers == map[])
    ensures BareStep(s, RcqStep(s, pick), 0)
  {
  }

  lemma RcqFindOk(s: State, c: nat, status: int)
    requires s.rcq == RcqLookup(c, status) && IsId(s, c) && Aside(s, 0)
    ensures BareStep(s, RcqFind(s, c, status), 0)
  {
  }

  // ---- The flush ----

  lemma FlushGoesOk(s: State, pc: FlushPc)
    requires Aside(s, 0) && FlushNear(s.flush, 0)
    requires pc.FlushIdle? || pc.FlushTest? || (pc.FlushClaim? && IsSlot(s, pc.p))
    requires s.flush.FlushIdle? || s.flush.FlushTest? || s.flush.FlushClaim?
    ensures BareStep(s, s.(flush := pc), 0)
  {
  }

  /** What a flush does to a host I/O it has taken, or is done with, is no business of the handlers. */
  lemma FlushAlone(s: State, t: State, k: nat)
    requires Aside(s, k) && IsIo(s, k) && (s.ios[k].home.InFlush? || s.ios[k].home.Over?)
    requires t.slots == s.slots && t.table == s.table && |t.ios| == |s.ios| && t.ios == s.ios[k := t.ios[k]]
    requires t.ios[k].home == s.ios[k].home || t.ios[k].home.Over?
    requires t.scq == s.scq && t.rcq == s.rcq && t.flag == s.flag
    ensures ScqOk(t) && HandOk(t) && RcqOk(t)
  {
  }

  lemma FlushTestFnOk(s: State, p: nat, k: nat)
    requires s.flush == FlushHas(p, k) && Aside(s, k)
    ensures BareStep(s, FlushTestFn(s, p, k), k)
  {
    FlushAlone(s, FlushTestFn(s, p, k), k);
  }

  lemma FlushTakeFnOk(s: State, p: nat, k: nat)
    requires s.flush == FlushTake(p, k) && Aside(s, k)
    ensures BareStep(s, FlushTakeFn(s, p, k), k)
  {
    FlushAlone(s, FlushTakeFn(s, p, k), k);
  }

  lemma FlushCallBackOk(s: State, p: nat, k: nat)
    requires s.flush == FlushCall(p, k, true) && Aside(s, k)
    ensures BareStep(s, FlushCallBack(s, p, k, true), k)
  {
    FlushAlone(s, FlushCallBack(s, p, k, true), k);
  }

  lemma FlushCountdownOk(s: State, p: nat, k: nat)
    requires s.flush == FlushCount(p, k) && Aside(s, k)
    ensures BareStep(s, FlushCountdown(s, p, k), k)
  {
    FlushAlone(s, FlushCountdown(s, p, k), k);
  }

  /** Taking the parent away does not concern the handlers. */
  lemma ParentAlone(s: State, t: State, p: nat, k: nat)
    requires OneSlot(s, t, p) && ScqOk(s) && HandOk(s)
    requires t.slots[p] == s.slots[p].(parent := None)
    requires t.scq == s.scq && t.rcq == s.rcq && t.flag == s.flag
    requires IsIo(s, k) && |t.ios| == |s.ios| && t.ios == s.ios[k := t.ios[k]] && s.ios[k].home.InSlot?
    ensures ScqOk(t) && HandOk(t)
  {
  }

  lemma FlushTookOk(s: State, p: nat)
    requires s.flush == FlushClaim(p) && IsSlot(s, p) && At(s, p, s.slots[p].owner) && s.slots[p].parent.Some?
    ensures SlotStep(s, FlushTakeIo(s, p), p, s.slots[p].owner)
  {
    var t := FlushTakeIo(s, p);
    ParentAlone(s, t, p, s.slots[p].owner);
    assert SameReply(s, t, p);
    assert HolderOk(t, p, t.slots[p]);
  }

  lemma FlushClaimKeeps(s: State, p: nat)
    requires Inv(s) && s.flush == FlushClaim(p) && IsSlot(s, p)
    ensures Inv(FlushTakeIo(s, p))
  {
    var t := FlushTakeIo(s, p);
    if s.slots[p].parent.Some? {
      AtSlot(s, p, s.slots[p].owner);
      FlushTookOk(s, p);
      SlotStepKeeps(s, t, p, s.slots[p].owner);
    } else {
      assert t == s.(flush := FlushTest(p + 1));
      AsideOf(s, 0);
      FlushGoesOk(s, t.flush);
      BareStepKeeps(s, t, 0);
    }
  }

  lemma FlushKeeps(s: State)
    requires Inv(s) && FlushEnabled(s)
    ensures Inv(FlushStep(s))
  {
    var t := FlushStep(s);
    match s.flush {
      case FlushTest(p) => AsideOf(s, 0); FlushGoesOk(s, t.flush); BareStepKeeps(s, t, 0);
      case FlushClaim(p) => FlushClaimKeeps(s, p);
      case FlushHas(p, k) => AsideOf(s, k); FlushTestFnOk(s, p, k); BareStepKeeps(s, t, k);
      case FlushTake(p, k) => AsideOf(s, k); FlushTakeFnOk(s, p, k); BareStepKeeps(s, t, k);
      case FlushCall(p, k, _) => AsideOf(s, k); FlushCallBackOk(s, p, k); BareStepKeeps(s, t, k);
      case FlushCount(p, k) => AsideOf(s, k); FlushCountdownOk(s, p, k); BareStepKeeps(s, t, k);
    }
  }

  lemma RcqKeeps(s: State, pick: nat)
    requires Inv(s) && RcqEnabled(s, pick)
    ensures Inv(RcqStep(s, pick))
  {
    var t := RcqStep(s, pick);
    AsideOf(s, 0);
    match s.rcq {
      case RcqPoll =>
        if s.answers == map[] { RcqBareOk(s, pick); BareStepKeeps(s, t, 0); }
        else { AtSlot(s, s.answers[pick].slot, 0); RcqFetchOk(s, pick); SlotStepKeeps(s, t, s.answers[pick].slot, 0); }
      case RcqArm => RcqBareOk(s, pick); BareStepKeeps(s, t, 0);
      case RcqLookup(c, st) => RcqFindOk(s, c, st); BareStepKeeps(s, t, 0);
      case RcqRemove(c, st) =>
        var i := s.table[c].value;
        AtSlot(s, i, 0); RcqTakeOk(s, c, st); SlotStepKeeps(s, t, i, 0);
      case RcqOr(i, st) => AtSlot(s, i, 0); RcqMarkOk(s, i, st); SlotStepKeeps(s, t, i, 0);
      case RcqStore(i, st, life) => AtSlot(s, i, 0); RcqStoreOk(s, i, st, life); SlotStepKeeps(s, t, i, 0);
      case RcqCas(i, life) =>
        AtSlot(s, i, s.slots[i].owner);
        if s.slots[i].bits == ALL_STATE_DONE { RcqSwapWonOk(s, i, life); } else { RcqSwapFailedOk(s, i, life); }
        SlotStepKeeps(s, t, i, s.slots[i].owner);
      case RcqWrite(i) => AtSlot(s, i, s.slots[i].owner); RcqWriteInvOk(s, i); SlotStepKeeps(s, t, i, s.slots[i].owner);
      case RcqPost(i) => AtSlot(s, i, s.slots[i].owner); RcqPostInvOk(s, i); SlotStepKeeps(s, t, i, s.slots[i].owner);
      case RcqRepost => RcqBareOk(s, pick); BareStepKeeps(s, t, 0);
      case RcqCount => RcqBareOk(s, pick); BareStepKeeps(s, t, 0);
    }
  }

  // ---- The caller, NDK, the target and the completion queues ----

  lemma AdmitHolderOk(s: State, j: nat)
    requires j < |s.slots| && HolderOk(s, j, s.slots[j])
    ensures HolderOk(AdmitIo(s), j, s.slots[j])
  {
  }

  lemma AdmitIoOk(s: State, j: nat)
    requires j < |s.ios| ==> IoOk(s, j, s.ios[j])
    requires j <= |s.ios|
    ensures IoOk(AdmitIo(s), j, AdmitIo(s).ios[j])
  {
  }

  lemma AdmitReplies(s: State)
    requires Replies(s)
    ensures Replies(AdmitIo(s))
  {
    var t := AdmitIo(s);
    forall j: nat | j < |t.slots| ensures AnswerOk(t, j, t.slots[j]) { assert AnswerOk(s, j, s.slots[j]); }
    forall d: nat | d < |t.table| ensures EntryOk(t, d, t.table[d]) { assert EntryOk(s, d, s.table[d]); }
    forall d | d in t.owed ensures OwedOk(t, d, t.owed[d]) { assert OwedOk(s, d, s.owed[d]); }
    forall d | d in t.answers ensures QueuedOk(t, d, t.answers[d].slot) { assert QueuedOk(s, d, s.answers[d].slot); }
  }

  lemma AdmitLives(s: State)
    requires Lives(s)
    ensures Lives(AdmitIo(s))
  {
    var t := AdmitIo(s);
    forall j: nat | j < |t.slots| ensures HolderOk(t, j, t.slots[j]) { AdmitHolderOk(s, j); }
    forall j: nat | j < |t.ios| ensures IoOk(t, j, t.ios[j]) { AdmitIoOk(s, j); }
  }

  lemma AdmitKeeps(s: State)
    requires Inv(s)
    ensures Inv(AdmitIo(s))
  {
    AdmitReplies(s);
    AdmitLives(s);
    forall j: nat | j < |AdmitIo(s).slots| ensures Local(AdmitIo(s).slots[j]) { assert Local(s.slots[j]); }
  }

  lemma NdkCompleteLife(s: State, i: nat)
    requires IsSlot(s, i) && s.slots[i].wr.Posted? && Local(s.slots[i]) && OneSlot(s, NdkComplete(s, i), i)
    requires LifeAt(s, i, s.slots[i].owner, s.slots[i].owner)
    ensures LifeStep(s, NdkComplete(s, i), i, s.slots[i].owner)
  {
    assert HolderOk(NdkComplete(s, i), i, NdkComplete(s, i).slots[i]);
  }

  lemma NdkCompleteOk(s: State, i: nat)
    requires IsSlot(s, i) && s.slots[i].wr.Posted? && At(s, i, s.slots[i].owner)
    ensures SlotStep(s, NdkComplete(s, i), i, s.slots[i].owner)
  {
    NdkCompleteLife(s, i);
    assert SameReply(s, NdkComplete(s, i), i);
  }

  lemma TargetAnswerOk(s: State, c: nat, status: int)
    requires c in s.owed && OwedOk(s, c, s.owed[c]) && At(s, s.owed[c], 0) && s.count.recvPosted > 0
    ensures SlotStep(s, TargetAnswer(s, c, status), s.owed[c], 0)
  {
    var t := TargetAnswer(s, c, status);
    assert SameLife(s, t, s.owed[c]);
    assert ReplyStep(s, t, s.owed[c]);
  }

  lemma FiresOk(s: State, t: State)
    requires Aside(s, 0)
    requires || (s.flag.scqArmed && t == s.(flag := s.flag.(scqArmed := false), scq := ScqPoll))
             || (s.flag.rcqArmed && t == s.(flag := s.flag.(rcqArmed := false), rcq := RcqPoll))
    ensures BareStep(s, t, 0)
  {
  }

  lemma FlagsOk(s: State, t: State)
    requires Aside(s, 0)
    requires || (&& s.flush.FlushIdle?
                 && t == s.(flush := FlushTest(0), flag := s.flag.(ana := t.flag.ana, flushed := true)))
             || t == s.(flag := s.flag.(disconnecting := true))
    ensures BareStep(s, t, 0)
  {
  }

  /** Every step but an insert that meets an occupied entry keeps the invariant. */
  lemma InvKept(s: State, e: Event)
    requires Inv(s) && Enabled(s, e) && !Step(s, e).flag.collided
    ensures Inv(Step(s, e))
  {
    var t := Step(s, e);
    AsideOf(s, 0);
    match e {
      case Admit => AdmitKeeps(s);
      case Submitter(k, pages) => SubKeeps(s, k, pages);
      case NdkCompletes(i) =>
        AtSlot(s, i, s.slots[i].owner); NdkCompleteOk(s, i); SlotStepKeeps(s, t, i, s.slots[i].owner);
      case TargetAnswers(c, st) =>
        AtSlot(s, s.owed[c], 0); TargetAnswerOk(s, c, st); SlotStepKeeps(s, t, s.owed[c], 0);
      case ScqFires => FiresOk(s, t); BareStepKeeps(s, t, 0);
      case ScqRuns(pick) => ScqKeeps(s, pick);
      case RcqFires => FiresOk(s, t); BareStepKeeps(s, t, 0);
      case RcqRuns(pick) => RcqKeeps(s, pick);
      case FlushBegins(_) => FlagsOk(s, t); BareStepKeeps(s, t, 0);
      case FlushRuns => FlushKeeps(s);
      case Disconnects => FlagsOk(s, t); BareStepKeeps(s, t, 0);
    }
  }
}

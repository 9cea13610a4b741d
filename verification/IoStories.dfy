/**
 What becomes of each host I/O, told by the events of a run and the states they find: how its thread's scan went, what
 the target answered, what it was called back with, and whether a flush took it. The engine's own record of it agrees.
 */
module IoStories {
  import opened ReqState
  import opened IoProtocol
  import opened IoInvariant
  import opened IoSteps
  import opened IoCounters
  import opened IoRuns
  import opened IoProgress

  /** The thread's compare-and-swap on a slot, and whether it found the slot free. */
  datatype Look = Look(slot: nat, free: bool)

  /** A callback by the send-queue handler: the status that the slot held, and whether the receive-queue handler had
   still to store one. */
  datatype Call = Call(status: int, pending: bool)

  /**
   The story of one host I/O: its looks for a slot; the size of the page map it was prepared with; the target's answers
   to its command; the handler's callbacks and how many a flush made; the exchanges by which flushes took it, each with
   what the flush was for. `ana` says what the last flush that began was for.
   */
  datatype Story = Story(
    looks: seq<Look>,
    pages: Option<nat>,
    answers: seq<int>,
    calls: seq<Call>,
    flushCalls: nat,
    takes: seq<bool>,
    ana: bool)

  const UNTOLD: Story := Story([], None, [], [], 0, [], false)

  /** The receive-queue handler has published slot i's response and not stored its status. */
  predicate StorePending(s: State, i: nat) { s.rcq.RcqStore? && s.rcq.slot == i }

  /** What the thread of host I/O k does, as far as the story goes. */
  function NoteThread(s: State, k: nat, pages: nat, h: Story): Story
    requires IsIo(s, k)
  {
    match s.ios[k].pc
    case Scanning(p) => if IsSlot(s, p) then h.(looks := h.looks + [Look(p, s.slots[p].bits == FREE)]) else h
    case SubAt(Parenting, _) => h.(pages := Some(pages))
    case _ => h
  }

  /** What the event adds to the story of host I/O k. */
  function Note(s: State, e: Event, k: nat, h: Story): Story
    requires Enabled(s, e)
  {
    match e
    case FlushBegins(ana) => h.(ana := ana)
    case Submitter(o, pages) => if o == k then NoteThread(s, k, pages, h) else h
    case TargetAnswers(c, st) =>
      if IsIo(s, k) && s.slots[s.owed[c]].owner == k then h.(answers := h.answers + [st]) else h
    case ScqRuns(_) =>
      if s.scq.ScqCall? && s.scq.io == k
      then h.(calls := h.calls + [Call(s.slots[s.scq.slot].status, StorePending(s, s.scq.slot))]) else h
    case FlushRuns =>
      if s.flush.FlushClaim? && IsIo(s, k) && s.slots[s.flush.p].parent == Some(k) then h.(takes := h.takes + [h.ana])
      else if s.flush.FlushCall? && s.flush.io == k then h.(flushCalls := h.flushCalls + 1)
      else h
    case _ => h
  }

  /** The story of host I/O k after the run, when it was h before. */
  function Tell(s: State, run: seq<Event>, k: nat, h: Story): Story
    requires Runnable(s, run)
    decreases |run|
  {
    if run == [] then h else Tell(Step(s, run[0]), run[1..], k, Note(s, run[0], k, h))
  }

  /** The story of host I/O k in a run of a queue of depth n with r receives. */
  function StoryOf(n: nat, r: nat, run: seq<Event>, k: nat): Story
    requires Runnable(Init(n, r), run)
  {
    Tell(Init(n, r), run, k, UNTOLD)
  }

  // ---- What the story says of the state ----

  /** The first m looks were at slots 0 to m - 1, and found them busy. */
  predicate AllBusy(looks: seq<Look>, m: nat) {
    m <= |looks| && forall j: nat :: j < m ==> looks[j] == Look(j, false)
  }

  /** While it scans, a thread has found busy the slots before; it was turned away after all; or it claimed the first
   that it found free. */
  predicate LooksFit(o: Io, n: nat, looks: seq<Look>) {
    if o.pc.Scanning? then |looks| == o.pc.p <= n && AllBusy(looks, o.pc.p)
    else if o.rejected then |looks| == n && AllBusy(looks, n)
    else |looks| == o.slot + 1 <= n && AllBusy(looks, o.slot) && looks[o.slot] == Look(o.slot, true)
  }

  /** The thread has built its page map. */
  predicate Mapped(pc: SubPc) {
    !pc.Scanning? && (pc.SubAt? ==> !pc.point.Ticketing? && !pc.point.Parenting?)
  }

  /** The slot holds the target's answer and the size of the page map, in the life for host I/O k. */
  predicate LifeFits(x: Slot, pc: SubPc, k: nat, pages: Option<nat>, answers: seq<int>) {
    x.owner == k && !x.point.Free? ==>
      answers == (if HasAnswer(x.resp) then [x.answer] else []) && (Mapped(pc) ==> pages == Some(x.pages))
  }

  predicate AnswersFit(s: State, o: Io, k: nat, pages: Option<nat>, answers: seq<int>) {
    && |answers| <= 1
    && (o.pc.Scanning? ==> answers == [])
    && (!o.pc.Scanning? && IsSlot(s, o.slot) ==> LifeFits(s.slots[o.slot], o.pc, k, pages, answers))
  }

  /** All callbacks are told, and a callback by the handler has the target's answer unless a store was pending. */
  predicate CallsFit(o: Io, h: Story) {
    && o.calls == |h.calls| + h.flushCalls && h.flushCalls == (if o.byFlush then 1 else 0) && |h.calls| <= 1
    && (|h.calls| == 1 ==>
          && |h.answers| == 1 && o.delivered == h.calls[0].status
          && (!h.calls[0].pending ==> h.calls[0].status == h.answers[0]))
  }

  /** A flush for asymmetric access drops what it takes, any other calls it back. */
  predicate TakesFit(o: Io, ana: bool, takes: seq<bool>) {
    takes == if o.home.InFlush? then [ana] else if o.dropped then [true] else if o.byFlush then [false] else []
  }

  ghost predicate Fits(s: State, k: nat, h: Story) {
    && h.ana == s.flag.ana
    && if IsIo(s, k) then
         var o := s.ios[k];
         LooksFit(o, |s.slots|, h.looks) && AnswersFit(s, o, k, h.pages, h.answers) && CallsFit(o, h)
         && TakesFit(o, h.ana, h.takes)
       else h == UNTOLD.(ana := h.ana)
  }

  // ---- Every step goes on with the story ----

  /** The step is the actor's, on slot i and host I/O j. */
  ghost predicate StepBy(s: State, t: State, i: nat, j: nat, a: Actor) {
    && (t.slots == s.slots || (IsSlot(s, i) && |t.slots| == |s.slots| && t.slots == s.slots[i := t.slots[i]]))
    && (t.ios == s.ios || (IsIo(s, j) && |t.ios| == |s.ios| && t.ios == s.ios[j := t.ios[j]]))
    && Touches(s, t, i, j, a)
    && (SlotAt(s, i).point.Free? || SlotAt(t, i).owner == SlotAt(s, i).owner)
  }

  lemma OwnLooks(s: State, t: State, i: nat, k: nat, looks: seq<Look>)
    requires StepBy(s, t, i, k, Thread) && IsIo(s, k) && IoOk(s, k, s.ios[k]) && LooksFit(s.ios[k], |s.slots|, looks)
    ensures IsIo(t, k)
    ensures var o := s.ios[k];
            LooksFit(t.ios[k], |s.slots|,
                     if o.pc.Scanning? && IsSlot(s, o.pc.p)
                     then looks + [Look(o.pc.p, s.slots[o.pc.p].bits == FREE)] else looks)
  {
  }

  lemma OtherLooks(s: State, t: State, i: nat, j: nat, a: Actor, k: nat, looks: seq<Look>)
    requires StepBy(s, t, i, j, a) && IsIo(s, k) && !(a.Thread? && j == k) && LooksFit(s.ios[k], |s.slots|, looks)
    ensures IsIo(t, k) && LooksFit(t.ios[k], |s.slots|, looks)
  {
    assert t.ios[k].pc == s.ios[k].pc && t.ios[k].slot == s.ios[k].slot && t.ios[k].rejected == s.ios[k].rejected;
  }

  lemma TakesStep(s: State, t: State, i: nat, j: nat, a: Actor, k: nat, h: Story)
    requires StepBy(s, t, i, j, a) && IsIo(s, k) && IoOk(s, k, s.ios[k]) && FlushOk(s)
    requires a.Flusher? ==> FlushEnabled(s)
    requires (FlushCalls(s.flush) ==> !s.flag.ana) && (a.Caller? && IsIo(s, j) ==> s.ios[j].home.InScq?)
    requires TakesFit(s.ios[k], h.ana, h.takes) && h.ana == s.flag.ana == t.flag.ana
    requires s.flush.FlushClaim? && s.slots[s.flush.p].parent == Some(k) ==> s.ios[k].home.InSlot?
    ensures IsIo(t, k)
    ensures var took := a.Flusher? && s.flush.FlushClaim? && s.slots[s.flush.p].parent == Some(k);
            TakesFit(t.ios[k], h.ana, if took then h.takes + [h.ana] else h.takes)
  {
  }

  lemma CallsStep(s: State, t: State, i: nat, j: nat, a: Actor, k: nat, h: Story, g: Story)
    requires StepBy(s, t, i, j, a) && IsIo(s, k) && IoOk(s, k, s.ios[k]) && FlushOk(s)
    requires a.Flusher? ==> FlushEnabled(s)
    requires CallsFit(s.ios[k], h)
    requires a.Caller? && IsIo(s, j) ==>
               s.ios[j].home.InScq? && (j == k ==> StatusTold(s, i, h.answers))
    requires g.calls == (if a.Caller? && j == k
                         then h.calls + [Call(s.slots[i].status, StorePending(s, i))] else h.calls)
    requires g.flushCalls == (if a.Flusher? && s.flush.FlushCall? && j == k then h.flushCalls + 1 else h.flushCalls)
    requires |g.answers| <= 1 && h.answers <= g.answers
    ensures IsIo(t, k) && CallsFit(t.ios[k], g)
  {
  }

  /** The target has answered, and the slot holds that status unless a store is pending. */
  predicate StatusTold(s: State, i: nat, answers: seq<int>) {
    IsSlot(s, i) && answers == [s.slots[i].answer] && (StorePending(s, i) || s.slots[i].status == s.slots[i].answer)
  }

  lemma CallerTold(s: State, i: nat, k: nat, h: Story)
    requires At(s, i, k) && s.scq.ScqCall? && s.scq.slot == i && s.scq.io == k && IsIo(s, k)
    requires AnswersFit(s, s.ios[k], k, h.pages, h.answers)
    ensures StatusTold(s, i, h.answers) && s.ios[k].home.InScq?
  {
  }

  // What the thread and the target themselves do.

  lemma ParentLife(s: State, k: nat, i: nat, pages: nat, before: Option<nat>, answers: seq<int>)
    requires IsIo(s, k) && s.ios[k].pc == SubAt(Parenting, i) && IsSlot(s, i) && s.slots[i].point.Parenting?
    requires s.ios[k].slot == i && AnswersFit(s, s.ios[k], k, before, answers)
    ensures var t := SubParent(s, k, i, pages); AnswersFit(t, t.ios[k], k, Some(pages), answers)
  {
  }

  lemma AnswerLife(s: State, c: nat, status: int, k: nat, pages: Option<nat>, answers: seq<int>)
    requires c in s.owed && IsSlot(s, s.owed[c]) && s.count.recvPosted > 0 && s.slots[s.owed[c]].resp.Owed?
    requires IsIo(s, k) && AnswersFit(s, s.ios[k], k, pages, answers) && !s.slots[s.owed[c]].point.Free?
    requires s.slots[s.owed[c]].owner == k ==> !s.ios[k].pc.Scanning? && s.ios[k].slot == s.owed[c]
    ensures var t := TargetAnswer(s, c, status);
            AnswersFit(t, t.ios[k], k, pages, if s.slots[s.owed[c]].owner == k then answers + [status] else answers)
  {
  }

  /** A step of another actor, or of another thread, leaves the life for host I/O k as told. */
  lemma LifeKept(s: State, t: State, i: nat, j: nat, a: Actor, k: nat, h: Story)
    requires StepBy(s, t, i, j, a) && !a.Target? && IsIo(s, k) && (a.Thread? ==> IsIo(s, j) && IoOk(s, j, s.ios[j]))
    requires IsSlot(s, s.ios[k].slot) ==> HolderOk(s, s.ios[k].slot, s.slots[s.ios[k].slot])
    requires IsSlot(s, i) ==> Local(s.slots[i])
    requires !(a.Thread? && j == k && s.ios[k].pc.SubAt? && s.ios[k].pc.point.Parenting?)
    requires AnswersFit(s, s.ios[k], k, h.pages, h.answers)
    ensures IsIo(t, k) && AnswersFit(t, t.ios[k], k, h.pages, h.answers)
  {
    if a.Thread? && j == k && s.ios[k].pc.Scanning? {
      ClaimLife(s, t, i, k, h);
    } else if i == s.ios[k].slot && IsSlot(s, i) {
      OtherLife(s, t, i, j, a, k, h);
    } else {
      IoKept(s, t, i, j, a, k);
      ElsewhereLife(s, t, k, h);
    }
  }

  lemma ClaimLife(s: State, t: State, i: nat, k: nat, h: Story)
    requires StepBy(s, t, i, k, Thread) && IsIo(s, k) && s.ios[k].pc.Scanning?
    requires IsSlot(s, s.ios[k].slot) ==> HolderOk(s, s.ios[k].slot, s.slots[s.ios[k].slot])
    requires IsSlot(s, i) ==> Local(s.slots[i])
    requires AnswersFit(s, s.ios[k], k, h.pages, h.answers)
    ensures IsIo(t, k) && AnswersFit(t, t.ios[k], k, h.pages, h.answers)
  {
    if IsSlot(s, s.ios[k].pc.p) && s.slots[s.ios[k].pc.p].bits == FREE {
      ClaimedLife(s.slots[i], t.slots[i], t.ios[k].pc, k, h);
    } else if IsSlot(s, s.ios[k].slot) {
      UnclaimedLife(s, t, i, k, s.ios[k].slot);
    }
  }

  lemma ClaimedLife(x: Slot, y: Slot, pc: SubPc, k: nat, h: Story)
    requires TouchesSlot(x, y, Thread) && Local(x) && x.bits == FREE && h.answers == [] && !Mapped(pc)
    requires x.point.Free? && !y.point.Free? ==> y.resp.NoCommand?
    ensures LifeFits(y, pc, k, h.pages, h.answers)
  {
  }

  /** A thread that claims no slot has none. */
  lemma UnclaimedLife(s: State, t: State, i: nat, k: nat, q: nat)
    requires StepBy(s, t, i, k, Thread) && IsIo(s, k) && s.ios[k].pc.Scanning? && IsSlot(s, q)
    requires HolderOk(s, q, s.slots[q]) && !(IsSlot(s, s.ios[k].pc.p) && s.slots[s.ios[k].pc.p].bits == FREE)
    requires IsSlot(s, i) ==> Local(s.slots[i])
    ensures IsSlot(t, q) && (t.slots[q].owner == k ==> t.slots[q].point.Free?)
  {
  }

  /** As far as the life is concerned, the thread's record is as before. */
  predicate SameIo(o: Io, p: Io) {
    p.slot == o.slot && (p.pc.Scanning? <==> o.pc.Scanning?) && (Mapped(p.pc) ==> Mapped(o.pc))
  }

  lemma IoKept(s: State, t: State, i: nat, j: nat, a: Actor, k: nat)
    requires StepBy(s, t, i, j, a) && IsIo(s, k)
    requires a.Thread? && j == k ==>
               !s.ios[k].pc.Scanning? && !(s.ios[k].pc.SubAt? && s.ios[k].pc.point.Parenting?)
    ensures IsIo(t, k) && SameIo(s.ios[k], t.ios[k])
  {
  }

  lemma OtherLife(s: State, t: State, i: nat, j: nat, a: Actor, k: nat, h: Story)
    requires StepBy(s, t, i, j, a) && !a.Target? && IsIo(s, k) && (a.Thread? ==> IsIo(s, j) && IoOk(s, j, s.ios[j]))
    requires IsSlot(s, i) && s.ios[k].slot == i && !(a.Thread? && j == k && s.ios[k].pc.Scanning?)
    requires !(a.Thread? && j == k && s.ios[k].pc.SubAt? && s.ios[k].pc.point.Parenting?)
    requires AnswersFit(s, s.ios[k], k, h.pages, h.answers)
    ensures IsIo(t, k) && AnswersFit(t, t.ios[k], k, h.pages, h.answers)
  {
    IoKept(s, t, i, j, a, k);
  }

  lemma ElsewhereLife(s: State, t: State, k: nat, h: Story)
    requires |t.slots| == |s.slots| && IsIo(s, k) && IsIo(t, k) && SameIo(s.ios[k], t.ios[k])
    requires IsSlot(s, s.ios[k].slot) ==> t.slots[s.ios[k].slot] == s.slots[s.ios[k].slot]
    requires AnswersFit(s, s.ios[k], k, h.pages, h.answers)
    ensures AnswersFit(t, t.ios[k], k, h.pages, h.answers)
  {
  }

  // Putting the parts together.

  /** What the event adds, in terms of the actor. */
  lemma NoteParts(s: State, e: Event, i: nat, j: nat, k: nat, h: Story)
    requires Enabled(s, e) && Internal(e) && IsIo(s, k) && TouchesIo(s, Step(s, e), i, j, ActorOf(s, e))
    requires e.Submitter? ==> j == e.io
    ensures var g, a, o := Note(s, e, k, h), ActorOf(s, e), s.ios[k];
            && g.ana == h.ana && h.answers <= g.answers && (!a.Target? ==> g.answers == h.answers)
            && g.looks == (if a.Thread? && j == k && o.pc.Scanning? && IsSlot(s, o.pc.p)
                           then h.looks + [Look(o.pc.p, s.slots[o.pc.p].bits == FREE)] else h.looks)
            && g.takes == (if a.Flusher? && s.flush.FlushClaim? && s.slots[s.flush.p].parent == Some(k)
                           then h.takes + [h.ana] else h.takes)
            && g.calls == (if a.Caller? && j == k
                           then h.calls + [Call(s.slots[i].status, StorePending(s, i))] else h.calls)
            && g.flushCalls == (if a.Flusher? && s.flush.FlushCall? && j == k then h.flushCalls + 1 else h.flushCalls)
            && (!(e.Submitter? && j == k && o.pc.SubAt? && o.pc.point.Parenting?) ==> g.pages == h.pages)
  {
  }

  lemma AnswerPart(s: State, c: nat, status: int, n: nat, r: nat, k: nat, h: Story)
    requires Sound(s, n, r) && Enabled(s, TargetAnswers(c, status)) && IsIo(s, k)
    requires AnswersFit(s, s.ios[k], k, h.pages, h.answers)
    ensures var g, t := Note(s, TargetAnswers(c, status), k, h), TargetAnswer(s, c, status);
            IsIo(t, k) && AnswersFit(t, t.ios[k], k, g.pages, g.answers)
  {
    assert OwedOk(s, c, s.owed[c]) && Local(s.slots[s.owed[c]]) && HolderOk(s, s.owed[c], s.slots[s.owed[c]]);
    AnswerLife(s, c, status, k, h.pages, h.answers);
  }

  lemma ParentPart(s: State, pages: nat, n: nat, r: nat, k: nat, h: Story)
    requires Sound(s, n, r) && SubEnabled(s, k) && s.ios[k].pc.SubAt? && s.ios[k].pc.point.Parenting?
    requires AnswersFit(s, s.ios[k], k, h.pages, h.answers)
    ensures var g, t := Note(s, Submitter(k, pages), k, h), SubStep(s, k, pages);
            IsIo(t, k) && AnswersFit(t, t.ios[k], k, g.pages, g.answers)
  {
    AsideOf(s, k);
    assert HolderOk(s, s.ios[k].pc.slot, s.slots[s.ios[k].pc.slot]);
    ParentLife(s, k, s.ios[k].pc.slot, pages, h.pages, h.answers);
    assert SubStep(s, k, pages) == SubParent(s, k, s.ios[k].pc.slot, pages);
  }

  lemma OtherPart(s: State, t: State, n: nat, r: nat, i: nat, j: nat, a: Actor, k: nat, h: Story)
    requires Sound(s, n, r) && IsIo(s, k) && StepBy(s, t, i, j, a) && !a.Target? && (a.Thread? ==> IsIo(s, j))
    requires !(a.Thread? && j == k && s.ios[k].pc.SubAt? && s.ios[k].pc.point.Parenting?)
    requires AnswersFit(s, s.ios[k], k, h.pages, h.answers)
    ensures IsIo(t, k) && AnswersFit(t, t.ios[k], k, h.pages, h.answers)
  {
    assert IsIo(s, j) ==> IoOk(s, j, s.ios[j]);
    assert IsSlot(s, s.ios[k].slot) ==> HolderOk(s, s.ios[k].slot, s.slots[s.ios[k].slot]);
    LifeKept(s, t, i, j, a, k, h);
  }

  /** The life of host I/O k after the event, as the story then has it. */
  lemma LifePart(s: State, e: Event, n: nat, r: nat, i: nat, j: nat, k: nat, h: Story)
    requires Sound(s, n, r) && Enabled(s, e) && Internal(e) && IsIo(s, k)
    requires StepBy(s, Step(s, e), i, j, ActorOf(s, e)) && (e.Submitter? ==> j == e.io)
    requires AnswersFit(s, s.ios[k], k, h.pages, h.answers)
    ensures IsIo(Step(s, e), k)
    ensures AnswersFit(Step(s, e), Step(s, e).ios[k], k, Note(s, e, k, h).pages, Note(s, e, k, h).answers)
  {
    if e.TargetAnswers? {
      AnswerPart(s, e.id, e.status, n, r, k, h);
    } else if e.Submitter? && j == k && s.ios[k].pc.SubAt? && s.ios[k].pc.point.Parenting? {
      ParentPart(s, e.pages, n, r, k, h);
    } else {
      NoteParts(s, e, i, j, k, h);
      OtherPart(s, Step(s, e), n, r, i, j, ActorOf(s, e), k, h);
    }
  }

  lemma TakesReady(s: State, n: nat, r: nat, k: nat)
    requires Sound(s, n, r) && IsIo(s, k)
    ensures IoOk(s, k, s.ios[k]) && FlushOk(s) && (FlushCalls(s.flush) ==> !s.flag.ana)
    ensures s.flush.FlushClaim? && s.slots[s.flush.p].parent == Some(k) ==> s.ios[k].home.InSlot?
    ensures s.scq.ScqCall? ==> IsIo(s, s.scq.io) && s.ios[s.scq.io].home.InScq?
  {
    AsideOf(s, k);
    if s.flush.FlushClaim? { assert HolderOk(s, s.flush.p, s.slots[s.flush.p]); }
  }

  lemma TakesPart(s: State, e: Event, n: nat, r: nat, i: nat, j: nat, k: nat, h: Story)
    requires Sound(s, n, r) && Enabled(s, e) && Internal(e) && IsIo(s, k)
    requires StepBy(s, Step(s, e), i, j, ActorOf(s, e)) && (e.Submitter? ==> j == e.io)
    requires TakesFit(s.ios[k], h.ana, h.takes) && h.ana == s.flag.ana == Step(s, e).flag.ana
    ensures IsIo(Step(s, e), k) && Note(s, e, k, h).ana == h.ana
    ensures TakesFit(Step(s, e).ios[k], h.ana, Note(s, e, k, h).takes)
  {
    TakesReady(s, n, r, k);
    NoteParts(s, e, i, j, k, h);
    TakesStep(s, Step(s, e), i, j, ActorOf(s, e), k, h);
  }

  lemma CallsReady(s: State, n: nat, r: nat, k: nat, h: Story)
    requires Sound(s, n, r) && IsIo(s, k) && AnswersFit(s, s.ios[k], k, h.pages, h.answers)
    ensures s.scq.ScqCall? && s.scq.io == k ==> StatusTold(s, s.scq.slot, h.answers)
  {
    if s.scq.ScqCall? && s.scq.io == k {
      AsideOf(s, k);
      AtSlot(s, s.scq.slot, k);
      CallerTold(s, s.scq.slot, k, h);
    }
  }

  lemma CallsPart(s: State, e: Event, n: nat, r: nat, i: nat, j: nat, k: nat, h: Story)
    requires Sound(s, n, r) && Enabled(s, e) && Internal(e) && IsIo(s, k)
    requires StepBy(s, Step(s, e), i, j, ActorOf(s, e)) && (e.Submitter? ==> j == e.io)
    requires AnswersFit(s, s.ios[k], k, h.pages, h.answers) && CallsFit(s.ios[k], h)
    requires |Note(s, e, k, h).answers| <= 1
    ensures IsIo(Step(s, e), k) && CallsFit(Step(s, e).ios[k], Note(s, e, k, h))
  {
    TakesReady(s, n, r, k);
    CallsReady(s, n, r, k, h);
    NoteParts(s, e, i, j, k, h);
    CallsStep(s, Step(s, e), i, j, ActorOf(s, e), k, h, Note(s, e, k, h));
  }

  lemma LooksPart(s: State, e: Event, n: nat, r: nat, i: nat, j: nat, k: nat, h: Story)
    requires Sound(s, n, r) && Enabled(s, e) && Internal(e) && IsIo(s, k)
    requires StepBy(s, Step(s, e), i, j, ActorOf(s, e)) && (e.Submitter? ==> j == e.io)
    requires LooksFit(s.ios[k], |s.slots|, h.looks)
    ensures IsIo(Step(s, e), k) && LooksFit(Step(s, e).ios[k], |Step(s, e).slots|, Note(s, e, k, h).looks)
  {
    NoteParts(s, e, i, j, k, h);
    TakesReady(s, n, r, k);
    if e.Submitter? && j == k { OwnLooks(s, Step(s, e), i, k, h.looks); }
    else { OtherLooks(s, Step(s, e), i, j, ActorOf(s, e), k, h.looks); }
  }

  lemma AdmitFits(s: State, n: nat, r: nat, k: nat, h: Story)
    requires Sound(s, n, r) && Fits(s, k, h)
    ensures Fits(AdmitIo(s), k, h)
  {
  }

  /** A flush begins when there is none in progress. */
  lemma FlagsFit(s: State, t: State, n: nat, r: nat, k: nat, h: Story)
    requires Sound(s, n, r) && Fits(s, k, h) && t == s.(flush := t.flush, flag := t.flag)
    requires s.flush.FlushIdle? || t.flag.ana == s.flag.ana
    ensures Fits(t, k, h.(ana := t.flag.ana))
  {
    AsideOf(s, k);
  }

  lemma OutsideFits(s: State, e: Event, n: nat, r: nat, k: nat, h: Story)
    requires Sound(s, n, r) && Enabled(s, e) && !Internal(e) && Fits(s, k, h)
    ensures Fits(Step(s, e), k, Note(s, e, k, h))
  {
    if e.Admit? { AdmitFits(s, n, r, k, h); } else { FlagsFit(s, Step(s, e), n, r, k, h); }
  }

  lemma NotYetFits(s: State, e: Event, n: nat, r: nat, k: nat, h: Story)
    requires Sound(s, n, r) && Enabled(s, e) && Internal(e) && !IsIo(s, k)
    ensures Note(s, e, k, h) == h
  {
    AsideOf(s, k);
  }

  lemma FitsStep(s: State, e: Event, n: nat, r: nat, k: nat, h: Story)
    requires Sound(s, n, r) && Enabled(s, e) && !Step(s, e).flag.collided && Fits(s, k, h)
    ensures Fits(Step(s, e), k, Note(s, e, k, h))
  {
    if !Internal(e) {
      OutsideFits(s, e, n, r, k, h);
    } else {
      var i, j := StepTallied(s, e, r);
      if IsIo(s, k) {
        LooksPart(s, e, n, r, i, j, k, h);
        LifePart(s, e, n, r, i, j, k, h);
        CallsPart(s, e, n, r, i, j, k, h);
        TakesPart(s, e, n, r, i, j, k, h);
      } else {
        NotYetFits(s, e, n, r, k, h);
      }
    }
  }

  lemma {:induction false} FitsRun(s: State, run: seq<Event>, n: nat, r: nat, k: nat, h: Story)
    requires Sound(s, n, r) && Runnable(s, run) && !Run(s, run).flag.collided && Fits(s, k, h)
    ensures Fits(Run(s, run), k, Tell(s, run, k, h)) && Sound(Run(s, run), n, r)
    decreases |run|
  {
    if run != [] {
      var t := Step(s, run[0]);
      if t.flag.collided { RunCollided(t, run[1..]); }
      SoundStep(s, run[0], n, r);
      FitsStep(s, run[0], n, r, k, h);
      FitsRun(t, run[1..], n, r, k, Note(s, run[0], k, h));
    }
  }

  lemma StoryFits(n: nat, r: nat, run: seq<Event>, k: nat)
    requires Runnable(Init(n, r), run) && !Run(Init(n, r), run).flag.collided
    ensures Fits(Run(Init(n, r), run), k, StoryOf(n, r, run, k)) && Sound(Run(Init(n, r), run), n, r)
  {
    InitSound(n, r);
    FitsRun(Init(n, r), run, n, r, k, UNTOLD);
  }

  // ---- The results ----

  /** A thread is turned away exactly if it found every slot busy when it came to it; if it claimed one, that is the
   first it found free; while it scans it has found busy all that it has come to. */
  lemma TurnedAwayExactly(n: nat, r: nat, run: seq<Event>, k: nat)
    requires Runnable(Init(n, r), run) && !Run(Init(n, r), run).flag.collided && IsIo(Run(Init(n, r), run), k)
    ensures var o, looks := Run(Init(n, r), run).ios[k], StoryOf(n, r, run, k).looks;
            && (o.rejected <==> !o.pc.Scanning? && |looks| == n && AllBusy(looks, n))
            && (!o.rejected && !o.pc.Scanning? ==>
                  |looks| == o.slot + 1 <= n && AllBusy(looks, o.slot) && looks[o.slot] == Look(o.slot, true))
            && (o.pc.Scanning? ==> |looks| == o.pc.p && AllBusy(looks, o.pc.p))
  {
    StoryFits(n, r, run, k);
    AsideOf(Run(Init(n, r), run), k);
  }

  /** All callbacks of a host I/O, one at most, are the handler's or a flush's. The handler's gets the status that the
   target answered this life's command with, unless the store of a status was pending: then it gets what the slot
   held. */
  lemma CallbackGetsAnswer(n: nat, r: nat, run: seq<Event>, k: nat)
    requires Runnable(Init(n, r), run) && !Run(Init(n, r), run).flag.collided && IsIo(Run(Init(n, r), run), k)
    ensures var o, h := Run(Init(n, r), run).ios[k], StoryOf(n, r, run, k);
            && o.calls == |h.calls| + h.flushCalls <= 1
            && (|h.calls| == 1 ==> |h.answers| == 1 && o.delivered == h.calls[0].status
                                   && (!h.calls[0].pending ==> o.delivered == h.answers[0]))
  {
    StoryFits(n, r, run, k);
    AsideOf(Run(Init(n, r), run), k);
  }

  /** A host I/O is dropped exactly if the flush that took it began for asymmetric access, and called back by a flush
   exactly if one took it that did not; no flush takes it twice. */
  lemma DroppedExactly(n: nat, r: nat, run: seq<Event>, k: nat)
    requires Runnable(Init(n, r), run) && !Run(Init(n, r), run).flag.collided && IsIo(Run(Init(n, r), run), k)
    ensures var o, h := Run(Init(n, r), run).ios[k], StoryOf(n, r, run, k);
            && |h.takes| <= 1
            && (o.home.Over? ==> (o.dropped <==> h.takes == [true]) && (h.flushCalls == 1 <==> h.takes == [false]))
            && (!o.home.Over? ==> !o.dropped && h.flushCalls == 0)
            && (o.dropped ==> o.calls == 0)
  {
    StoryFits(n, r, run, k);
    AsideOf(Run(Init(n, r), run), k);
  }

  /** The pages that a life registers are those of the map that its thread built for it. */
  lemma PagesMapped(n: nat, r: nat, run: seq<Event>, i: nat)
    requires Runnable(Init(n, r), run) && !Run(Init(n, r), run).flag.collided && IsSlot(Run(Init(n, r), run), i)
    ensures var x := Run(Init(n, r), run).slots[i];
            Order(x.point) >= 3 ==> StoryOf(n, r, run, x.owner).pages == Some(x.pages)
  {
    var s := Run(Init(n, r), run);
    StoryFits(n, r, run, s.slots[i].owner);
    AtSlot(s, i, s.slots[i].owner);
  }

  /** Where nothing can move: whoever was turned away had found every slot busy; what a flush for asymmetric access took
   was not called back; everything else was called back once, by the flush that took it, or else by the handler after
   the target's one answer. */
  lemma StuckTells(n: nat, r: nat, run: seq<Event>, k: nat)
    requires Runnable(Init(n, r), run) && !Run(Init(n, r), run).flag.collided && IsIo(Run(Init(n, r), run), k)
    requires r > 0 && Stuck(Run(Init(n, r), run))
    ensures var o, h := Run(Init(n, r), run).ios[k], StoryOf(n, r, run, k);
            if o.rejected then o.calls == 0 && |h.looks| == n && AllBusy(h.looks, n)
            else if h.takes == [true] then o.calls == 0
            else if h.takes == [false] then o.calls == h.flushCalls == 1
            else o.calls == |h.calls| == |h.answers| == 1
  {
    StoryFits(n, r, run, k);
    StuckIsSettled(Run(Init(n, r), run), n, r);
    AsideOf(Run(Init(n, r), run), k);
  }

  lemma {:induction false} TellsNoAna(s: State, run: seq<Event>, k: nat, h: Story)
    requires Runnable(s, run) && (forall e :: e in run && e.FlushBegins? ==> !e.ana) && !h.ana && true !in h.takes
    ensures true !in Tell(s, run, k, h).takes
    decreases |run|
  {
    if run != [] {
      assert run[0] in run && forall e :: e in run[1..] ==> e in run;
      TellsNoAna(Step(s, run[0]), run[1..], k, Note(s, run[0], k, h));
    }
  }

  /** In a run without a flush for asymmetric access no host I/O is ever dropped, and where nothing can move every one
   that was not turned away has been called back once. */
  lemma NoneDropped(n: nat, r: nat, run: seq<Event>, k: nat)
    requires Runnable(Init(n, r), run) && !Run(Init(n, r), run).flag.collided && IsIo(Run(Init(n, r), run), k)
    requires forall e :: e in run && e.FlushBegins? ==> !e.ana
    ensures !Run(Init(n, r), run).ios[k].dropped
    ensures r > 0 && Stuck(Run(Init(n, r), run)) && !Run(Init(n, r), run).ios[k].rejected ==>
              Run(Init(n, r), run).ios[k].calls == 1
  {
    DroppedExactly(n, r, run, k);
    TellsNoAna(Init(n, r), run, k, UNTOLD);
    if r > 0 && Stuck(Run(Init(n, r), run)) { StuckTells(n, r, run, k); }
  }

  // ---- One step ----

  lemma CallRecorded(s: State, t: State, i: nat, k: nat)
    requires StepBy(s, t, i, k, Caller) && IsIo(s, k) && s.ios[k].calls == 0
    ensures i == s.scq.slot && k == s.scq.io && IsIo(t, k) && t.ios[k].calls == 1
    ensures t.ios[k].delivered == s.slots[i].status && t.ios[k].answer == s.slots[i].answer
    ensures t.ios[k].late <==> StorePending(s, i)
  {
  }

  /** The handler is at the callback of the slot's own host I/O, which nobody has called back. */
  lemma CallerAt(s: State)
    requires Inv(s) && s.scq.ScqCall?
    ensures IsSlot(s, s.scq.slot) && IsIo(s, s.scq.io) && s.ios[s.scq.io].calls == 0
    ensures s.slots[s.scq.slot].owner == s.scq.io
  {
    AsideOf(s, s.scq.io);
  }

  /** The callback gets the status that the slot holds now, and is recorded as late exactly if a store is pending. */
  lemma CallStep(n: nat, r: nat, s: State, pick: nat)
    requires Reachable(n, r, s) && !s.flag.collided && s.scq.ScqCall?
    ensures var i, k := s.scq.slot, s.scq.io;
            && IsSlot(s, i) && IsIo(s, k) && Enabled(s, ScqRuns(pick)) && IsIo(Step(s, ScqRuns(pick)), k)
            && s.slots[i].owner == k
            && (var p := Step(s, ScqRuns(pick)).ios[k];
                && p.calls == 1 && p.delivered == s.slots[i].status && p.answer == s.slots[i].answer
                && (p.late <==> StorePending(s, i)))
  {
    ReachableSound(n, r, s);
    CallerAt(s);
    SoundCall(s, pick, n, r);
  }

  lemma SoundCall(s: State, pick: nat, n: nat, r: nat)
    requires Sound(s, n, r) && s.scq.ScqCall? && IsSlot(s, s.scq.slot) && IsIo(s, s.scq.io)
    requires s.ios[s.scq.io].calls == 0
    ensures IsIo(Step(s, ScqRuns(pick)), s.scq.io)
    ensures var i, p := s.scq.slot, Step(s, ScqRuns(pick)).ios[s.scq.io];
            && p.calls == 1 && p.delivered == s.slots[i].status && p.answer == s.slots[i].answer
            && (p.late <==> StorePending(s, i))
  {
    var i, k := StepTallied(s, ScqRuns(pick), r);
    CallRecorded(s, Step(s, ScqRuns(pick)), i, k);
  }

  lemma LookRecorded(s: State, t: State, i: nat, k: nat)
    requires StepBy(s, t, i, k, Thread) && IsIo(s, k) && s.ios[k].pc.Scanning? && IsSlot(s, s.ios[k].pc.p)
    ensures var j := s.ios[k].pc.p;
            && IsSlot(t, j) && IsIo(t, k)
            && (if s.slots[j].bits == FREE
                then t.slots[j].bits == ALLOCATED && t.slots[j].owner == k && t.ios[k].pc == SubAt(Ticketing, j)
                else t.ios[k].pc == Scanning(j + 1))
  {
  }

  /** A thread that has come to slot j claims it exactly if it is FREE, and goes on to the next otherwise. */
  lemma ScanStep(n: nat, r: nat, s: State, k: nat, pages: nat)
    requires Reachable(n, r, s) && !s.flag.collided && IsIo(s, k) && s.ios[k].pc.Scanning? && IsSlot(s, s.ios[k].pc.p)
    ensures Enabled(s, Submitter(k, pages))
    ensures var j, t := s.ios[k].pc.p, Step(s, Submitter(k, pages));
            && IsSlot(t, j) && IsIo(t, k)
            && (if s.slots[j].bits == FREE
                then t.slots[j].bits == ALLOCATED && t.slots[j].owner == k && t.ios[k].pc == SubAt(Ticketing, j)
                else t.ios[k].pc == Scanning(j + 1))
  {
    ReachableSound(n, r, s);
    var i, o := StepTallied(s, Submitter(k, pages), r);
    LookRecorded(s, Step(s, Submitter(k, pages)), i, o);
  }

  // ---- Where a flush has been ----

  /** A flush has come to the slot: whether it found the request prepared, and then its parent at the exchange. */
  datatype Visit = Visit(slot: nat, prepared: bool, parent: Option<nat>)

  function NoteVisit(s: State, e: Event, v: seq<Visit>): seq<Visit>
    requires Enabled(s, e)
  {
    match e
    case FlushBegins(_) => []
    case FlushRuns =>
      if s.flush.FlushTest? && IsSlot(s, s.flush.p) && !Has(s.slots[s.flush.p].bits, INITIALIZED)
      then v + [Visit(s.flush.p, false, None)]
      else if s.flush.FlushClaim? then v + [Visit(s.flush.p, true, s.slots[s.flush.p].parent)]
      else v
    case _ => v
  }

  /** The visits of the last flush of the run, when they were v before. */
  function Visits(s: State, run: seq<Event>, v: seq<Visit>): seq<Visit>
    requires Runnable(s, run)
    decreases |run|
  {
    if run == [] then v else Visits(Step(s, run[0]), run[1..], NoteVisit(s, run[0], v))
  }

  /** How many slots the flush has been to. */
  function Been(s: State): nat {
    match s.flush
    case FlushIdle => if s.flag.flushed then |s.slots| else 0
    case FlushTest(p) => p
    case FlushClaim(p) => p
    case FlushHas(p, _) => p + 1
    case FlushTake(p, _) => p + 1
    case FlushCall(p, _, _) => p + 1
    case FlushCount(p, _) => p + 1
  }

  predicate TakenIo(o: Io) { o.home.InFlush? || o.dropped || o.byFlush }

  predicate VisitFits(s: State, j: nat, w: Visit) {
    w.slot == j && (w.parent.Some? ==> IsIo(s, w.parent.value) && TakenIo(s.ios[w.parent.value]))
  }

  ghost predicate VisitsFit(s: State, v: seq<Visit>) {
    |v| == Been(s) <= |s.slots| && forall j: nat :: j < |v| ==> VisitFits(s, j, v[j])
  }

  lemma StaysTaken(s: State, t: State, i: nat, j: nat, a: Actor, k: nat)
    requires StepBy(s, t, i, j, a) && IsIo(s, k) && TakenIo(s.ios[k]) && IoOk(s, k, s.ios[k])
    requires a.Caller? && IsIo(s, j) ==> s.ios[j].home.InScq?
    ensures IsIo(t, k) && TakenIo(t.ios[k])
  {
  }

  /** What the step of a flush adds to its visits. */
  function VisitBy(s: State, a: Actor, v: seq<Visit>): seq<Visit> {
    if !a.Flusher? then v
    else if s.flush.FlushTest? && IsSlot(s, s.flush.p) && !Has(s.slots[s.flush.p].bits, INITIALIZED)
    then v + [Visit(s.flush.p, false, None)]
    else if s.flush.FlushClaim? && IsSlot(s, s.flush.p) then v + [Visit(s.flush.p, true, s.slots[s.flush.p].parent)]
    else v
  }

  lemma BeenStep(s: State, t: State, i: nat, j: nat, a: Actor, v: seq<Visit>)
    requires StepBy(s, t, i, j, a) && t.flag.flushed == s.flag.flushed && |v| == Been(s) <= |s.slots|
    requires !s.flag.flushed ==> s.flush.FlushIdle?
    ensures |VisitBy(s, a, v)| == Been(t) <= |t.slots|
  {
  }

  lemma VisitsStep(s: State, e: Event, n: nat, r: nat, v: seq<Visit>)
    requires Sound(s, n, r) && Enabled(s, e) && Internal(e) && VisitsFit(s, v)
    ensures VisitsFit(Step(s, e), NoteVisit(s, e, v))
  {
    var t, a := Step(s, e), ActorOf(s, e);
    var i, j := StepTallied(s, e, r);
    BeenStep(s, t, i, j, a, v);
    assert NoteVisit(s, e, v) == VisitBy(s, a, v);
    AsideOf(s, j);
    VisitsKept(s, t, n, r, i, j, a, v);
  }

  lemma VisitsKept(s: State, t: State, n: nat, r: nat, i: nat, j: nat, a: Actor, v: seq<Visit>)
    requires Sound(s, n, r) && StepBy(s, t, i, j, a) && VisitsFit(s, v) && |VisitBy(s, a, v)| == Been(t) <= |t.slots|
    requires a.Caller? && IsIo(s, j) ==> s.ios[j].home.InScq?
    ensures VisitsFit(t, VisitBy(s, a, v))
  {
    var w := VisitBy(s, a, v);
    forall m: nat | m < |w| ensures VisitFits(t, m, w[m]) {
      if m < |v| {
        assert VisitFits(s, m, v[m]);
        if v[m].parent.Some? {
          assert IoOk(s, v[m].parent.value, s.ios[v[m].parent.value]);
          StaysTaken(s, t, i, j, a, v[m].parent.value);
        }
      } else if s.flush.FlushClaim? {
        assert HolderOk(s, s.flush.p, s.slots[s.flush.p]) && Local(s.slots[s.flush.p]);
      }
    }
  }

  lemma VisitsOutside(s: State, e: Event, v: seq<Visit>)
    requires Enabled(s, e) && !Internal(e) && VisitsFit(s, v)
    ensures VisitsFit(Step(s, e), NoteVisit(s, e, v))
  {
    assert forall m: nat :: m < |v| ==> VisitFits(s, m, v[m]);
  }

  lemma {:induction false} VisitsRun(s: State, run: seq<Event>, n: nat, r: nat, v: seq<Visit>)
    requires Sound(s, n, r) && Runnable(s, run) && !Run(s, run).flag.collided && VisitsFit(s, v)
    ensures VisitsFit(Run(s, run), Visits(s, run, v)) && Sound(Run(s, run), n, r)
    decreases |run|
  {
    if run != [] {
      var t := Step(s, run[0]);
      if t.flag.collided { RunCollided(t, run[1..]); }
      SoundStep(s, run[0], n, r);
      if Internal(run[0]) { VisitsStep(s, run[0], n, r, v); } else { VisitsOutside(s, run[0], v); }
      VisitsRun(t, run[1..], n, r, NoteVisit(s, run[0], v));
    }
  }

  /** A flush comes to every slot in turn. It leaves a slot with its host I/O only if the request was not INITIALIZED
   when it was tested, or had no parent at the exchange; every other host I/O it takes, and at its end has called
   back or dropped. */
  lemma FlushVisitsAll(n: nat, r: nat, run: seq<Event>, j: nat)
    requires Runnable(Init(n, r), run) && !Run(Init(n, r), run).flag.collided
    requires j < Been(Run(Init(n, r), run))
    ensures var s, v := Run(Init(n, r), run), Visits(Init(n, r), run, []);
            && |v| == Been(s) <= n && v[j].slot == j
            && (v[j].parent.Some? ==>
                  var k := v[j].parent.value;
                  IsIo(s, k) && (s.flush.FlushIdle? ==> s.ios[k].home.Over?)
                  && |StoryOf(n, r, run, k).takes| == 1)
  {
    var s, v := Run(Init(n, r), run), Visits(Init(n, r), run, []);
    InitSound(n, r);
    VisitsRun(Init(n, r), run, n, r, []);
    assert VisitFits(s, j, v[j]);
    if v[j].parent.Some? {
      StoryFits(n, r, run, v[j].parent.value);
      AsideOf(s, v[j].parent.value);
    }
  }
}

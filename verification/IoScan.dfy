/**
 The lookup of a response's request by a plain scan over all slots, which the command table replaces. Freed slots keep
 the ids they had, unused ones show 0xFFFF, and a submitter scans, claims and takes its id in separate steps; so a lower
 slot may show the id of a command in flight. When exactly it does is stated by tickets, and by the schedule.
 */
module IoScan {
  import opened IoProtocol
  import opened IoInvariant
  import opened IoSteps
  import opened IoCounters
  import opened IoRuns
  import opened Search
  import opened TicketIds

  /** The first slot that shows the id, free or not. */
  function Scan(s: State, c: nat): Option<nat> {
    First(s.slots, (x: Slot) => x.cmdId == c, 0)
  }

  /** The last ticket that the slot took, None before the first. */
  function LastTicket(x: Slot): Option<nat> {
    if NeverUsed(x) then None else Some(x.ticket)
  }

  lemma SlotShowsIff(x: Slot, ticket: nat, next: nat)
    requires Labelled(x, next) && LastTicket(x) != Some(ticket)
    ensures x.cmdId == ticket % ID_COUNT <==> Shadows(LastTicket(x), ticket)
  {
    ShowsIff(LastTicket(x), ticket);
  }

  // ---- In one state ----

  /** While a command is in flight, the scan agrees with the table exactly if no lower slot's last ticket is another one
   that is a multiple of 65536 from the command's, and no lower slot is unused while the command's id is 0xFFFF. */
  lemma ScanExact(n: nat, r: nat, s: State, i: nat)
    requires Reachable(n, r, s) && !s.flag.collided && IsSlot(s, i) && Tabled(s.slots[i])
    ensures IsId(s, s.slots[i].cmdId) && s.table[s.slots[i].cmdId] == Some(i)
    ensures Scan(s, s.slots[i].cmdId) == s.table[s.slots[i].cmdId]
            <==> forall j: nat :: j < i ==> !Shadows(LastTicket(s.slots[j]), s.slots[i].ticket)
  {
    ReachableSound(n, r, s);
    SoundScan(s, n, r, i);
  }

  lemma SoundScan(s: State, n: nat, r: nat, i: nat)
    requires Sound(s, n, r) && IsSlot(s, i) && Tabled(s.slots[i])
    ensures IsId(s, s.slots[i].cmdId) && s.table[s.slots[i].cmdId] == Some(i)
    ensures s.slots[i].cmdId == s.slots[i].ticket % ID_COUNT
    ensures Scan(s, s.slots[i].cmdId) == s.table[s.slots[i].cmdId]
            <==> forall j: nat :: j < i ==> !Shadows(LastTicket(s.slots[j]), s.slots[i].ticket)
  {
    assert AnswerOk(s, i, s.slots[i]) && Local(s.slots[i]);
    UsedLabel(s.slots[i]);
    var c := s.slots[i].cmdId;
    FirstIff(s.slots, (x: Slot) => x.cmdId == c, i);
    forall j: nat | j < i ensures s.slots[j].cmdId == c <==> Shadows(LastTicket(s.slots[j]), s.slots[i].ticket) {
      assert Labelled(s.slots[j], s.next) && Distinct(s.slots[j], s.slots[i]);
      SlotShowsIff(s.slots[j], s.slots[i].ticket, s.next);
    }
  }

  lemma UsedLabel(x: Slot)
    requires Local(x) && Ticketed(x)
    ensures !NeverUsed(x)
  {
  }

  // ---- Over a run ----

  /** The slot has taken no ticket in between. */
  predicate SameLabel(x: Slot, y: Slot) { y.cmdId == x.cmdId && y.ticket == x.ticket }

  /** The slot has taken a ticket in between. */
  predicate Relabelled(s: State, t: State, y: Slot) { s.next <= y.ticket < t.next && !NeverUsed(y) }

  lemma LabelStep(s: State, e: Event, n: nat, r: nat, j: nat)
    requires Sound(s, n, r) && Enabled(s, e) && IsSlot(s, j)
    ensures IsSlot(Step(s, e), j) && s.next <= Step(s, e).next
    ensures SameLabel(s.slots[j], Step(s, e).slots[j]) || Relabelled(s, Step(s, e), Step(s, e).slots[j])
  {
    if !(e.Admit? || e.FlushBegins? || e.Disconnects?) {
      var i, k := StepTallied(s, e, r);
      PacedLabel(s, Step(s, e), i, j);
    }
  }

  lemma PacedLabel(s: State, t: State, i: nat, j: nat)
    requires Paced(s, t, i) && IsSlot(s, j)
    requires t.slots == s.slots || (IsSlot(s, i) && |t.slots| == |s.slots| && t.slots == s.slots[i := t.slots[i]])
    ensures IsSlot(t, j) && s.next <= t.next && (SameLabel(s.slots[j], t.slots[j]) || Relabelled(s, t, t.slots[j]))
  {
  }

  lemma {:induction false} LabelRun(s: State, run: seq<Event>, n: nat, r: nat, j: nat)
    requires Sound(s, n, r) && Runnable(s, run) && !Run(s, run).flag.collided && IsSlot(s, j)
    ensures IsSlot(Run(s, run), j) && s.next <= Run(s, run).next
    ensures SameLabel(s.slots[j], Run(s, run).slots[j]) || Relabelled(s, Run(s, run), Run(s, run).slots[j])
    decreases |run|
  {
    if run != [] {
      var t := Step(s, run[0]);
      if t.flag.collided { RunCollided(t, run[1..]); }
      SoundStep(s, run[0], n, r);
      LabelStep(s, run[0], n, r, j);
      LabelRun(t, run[1..], n, r, j);
    }
  }

  /** The slot shadowed the ticket and has taken none since, or the last that it has taken is a multiple of 65536
   later. */
  predicate StillShadows(x: Slot, y: Slot, ticket: nat) {
    if SameLabel(x, y) then Shadows(LastTicket(x), ticket)
    else y.ticket > ticket && (y.ticket - ticket) % ID_COUNT == 0
  }

  lemma LabelShadows(x: Slot, y: Slot, ticket: nat, next: nat)
    requires ticket < next && Labelled(x, next) && (SameLabel(x, y) || (next <= y.ticket && !NeverUsed(y)))
    ensures Shadows(LastTicket(y), ticket) <==> StillShadows(x, y, ticket)
  {
  }

  /** A slot shadows a ticket after a run exactly if it did before and has taken no ticket since, or the last one it has
   taken since is a multiple of 65536 later. */
  lemma ShadowSince(t: State, run: seq<Event>, n: nat, r: nat, j: nat, ticket: nat)
    requires Sound(t, n, r) && Runnable(t, run) && !Run(t, run).flag.collided && IsSlot(t, j) && ticket < t.next
    ensures IsSlot(Run(t, run), j)
    ensures Shadows(LastTicket(Run(t, run).slots[j]), ticket)
            <==> StillShadows(t.slots[j], Run(t, run).slots[j], ticket)
  {
    LabelRun(t, run, n, r, j);
    assert Labelled(t.slots[j], t.next);
    LabelShadows(t.slots[j], Run(t, run).slots[j], ticket, t.next);
  }

  /** The step is that of a submitter that takes an id for slot i. */
  predicate TakesTicket(s: State, e: Event, i: nat)
    requires Enabled(s, e)
  {
    && IsSlot(s, i) && IsSlot(Step(s, e), i)
    && s.slots[i].point.Ticketing? && Step(s, e).slots[i].point.Parenting?
  }

  /** Slot i's ticket, which was the counter's value in s, has been taken. */
  ghost predicate JustTaken(s: State, t: State, i: nat) {
    && t.next == s.next + 1 && |t.slots| == |s.slots| && IsSlot(s, i) && t.slots == s.slots[i := t.slots[i]]
    && t.slots[i].ticket == s.next && Ticketed(t.slots[i])
  }

  lemma TicketTaken(s: State, e: Event, n: nat, r: nat, i: nat)
    requires Sound(s, n, r) && Enabled(s, e) && TakesTicket(s, e, i) && !Step(s, e).flag.collided
    ensures Sound(Step(s, e), n, r) && JustTaken(s, Step(s, e), i)
    ensures Step(s, e).slots[i].cmdId == s.next % ID_COUNT
  {
    SoundStep(s, e, n, r);
    if !(e.Admit? || e.FlushBegins? || e.Disconnects?) {
      var j, k := StepTallied(s, e, r);
      PacedTakes(s, Step(s, e), j, i);
    }
  }

  lemma PacedTakes(s: State, t: State, j: nat, i: nat)
    requires Paced(s, t, j) && IsSlot(s, i) && IsSlot(t, i)
    requires t.slots == s.slots || (IsSlot(s, j) && |t.slots| == |s.slots| && t.slots == s.slots[j := t.slots[j]])
    requires s.slots[i].point.Ticketing? && t.slots[i].point.Parenting?
    ensures i == j && JustTaken(s, t, i) && t.slots[i].cmdId == s.next % ID_COUNT
  {
    assert t.slots[i] != s.slots[i];
  }

  /** A slot showed the ticket's id when the ticket was taken and has taken none since, or the last that it has taken
   is a multiple of 65536 later. */
  predicate StillShows(x: Slot, y: Slot, ticket: nat) {
    (x.cmdId == ticket % ID_COUNT && SameLabel(x, y)) || (y.ticket > ticket && (y.ticket - ticket) % ID_COUNT == 0)
  }

  lemma ShadowsSinceTaken(s: State, t: State, run: seq<Event>, n: nat, r: nat, i: nat, j: nat)
    requires Sound(t, n, r) && Runnable(t, run) && !Run(t, run).flag.collided && JustTaken(s, t, i) && j < i
    ensures IsSlot(Run(t, run), j)
    ensures Shadows(LastTicket(Run(t, run).slots[j]), s.next)
            <==> StillShows(s.slots[j], Run(t, run).slots[j], s.next)
  {
    ShadowSince(t, run, n, r, j, s.next);
    LabelRun(t, run, n, r, j);
    assert Local(t.slots[i]);
    UsedLabel(t.slots[i]);
    assert Labelled(t.slots[j], t.next) && Distinct(t.slots[j], t.slots[i]);
    StillShowsIff(s.slots[j], Run(t, run).slots[j], s.next);
  }

  lemma StillShowsIff(x: Slot, y: Slot, ticket: nat)
    requires Labelled(x, ticket + 1) && LastTicket(x) != Some(ticket)
    requires SameLabel(x, y) || (ticket < y.ticket && !NeverUsed(y))
    ensures StillShows(x, y, ticket) <==> StillShadows(x, y, ticket)
  {
    SlotShowsIff(x, ticket, ticket + 1);
  }

  lemma LifeScan(s: State, t: State, run: seq<Event>, n: nat, r: nat, i: nat)
    requires Sound(t, n, r) && Runnable(t, run) && !Run(t, run).flag.collided && JustTaken(s, t, i)
    requires IsSlot(Run(t, run), i) && Tabled(Run(t, run).slots[i]) && Run(t, run).slots[i].ticket == s.next
    ensures var u, c := Run(t, run), s.next % ID_COUNT;
            && |u.slots| == |s.slots| && IsId(u, c) && u.table[c] == Some(i)
            && (Scan(u, c) == u.table[c] <==> forall j: nat :: j < i ==> !StillShows(s.slots[j], u.slots[j], s.next))
  {
    RunSound(t, run, n, r);
    SoundScan(Run(t, run), n, r, i);
    forall j: nat | j < i
      ensures Shadows(LastTicket(Run(t, run).slots[j]), s.next)
              <==> StillShows(s.slots[j], Run(t, run).slots[j], s.next)
    {
      ShadowsSinceTaken(s, t, run, n, r, i, j);
    }
  }

  /** A request's command, from its ticket to its response: the scan finds it exactly if every lower slot that showed
   its id when it took the ticket has taken a ticket of its own since, and none is a multiple of 65536 later. */
  lemma ScanThroughLife(n: nat, r: nat, s: State, e: Event, run: seq<Event>, i: nat)
    requires Reachable(n, r, s) && !s.flag.collided && Enabled(s, e) && TakesTicket(s, e, i)
    requires Runnable(Step(s, e), run) && !Run(Step(s, e), run).flag.collided
    requires IsSlot(Run(Step(s, e), run), i)
    requires Tabled(Run(Step(s, e), run).slots[i]) && Run(Step(s, e), run).slots[i].ticket == s.next
    ensures var u, c := Run(Step(s, e), run), s.next % ID_COUNT;
            && |u.slots| == |s.slots| && IsId(u, c) && u.table[c] == Some(i)
            && (Scan(u, c) == u.table[c] <==> forall j: nat :: j < i ==> !StillShows(s.slots[j], u.slots[j], s.next))
  {
    var t := Step(s, e);
    if t.flag.collided { RunCollided(t, run); }
    ReachableSound(n, r, s);
    TicketTaken(s, e, n, r, i);
    LifeScan(s, t, run, n, r, i);
  }

  /** Within the window, a slot that still shows the ticket's id is one that has taken no ticket since. */
  lemma WindowShows(x: Slot, y: Slot, ticket: nat, next: nat)
    requires Labelled(y, next) && next - ticket <= ID_COUNT && StillShows(x, y, ticket)
    ensures SameLabel(x, y) && x.cmdId == ticket % ID_COUNT
  {
  }

  // ---- Schedules ----

  /** The slots below this one the thread has passed, while it scans and until it posts. */
  function PassedTo(o: Io): nat {
    match o.pc
    case Scanning(p) => p
    case SubAt(_, i) => i
    case _ => 0
  }

  /** The scan of thread k goes on from slot j to the next. */
  predicate Passes(s: State, t: State, k: nat, j: nat) {
    IsIo(s, k) && IsIo(t, k) && s.ios[k].pc == Scanning(j) && t.ios[k].pc == Scanning(j + 1)
  }

  /** Slot j is not among those that the thread has passed. */
  predicate Before(s: State, k: nat, j: nat) { IsIo(s, k) ==> PassedTo(s.ios[k]) <= j }

  lemma ScansKeepBefore(s: State, t: State, i: nat, o: nat, a: Actor, k: nat, j: nat)
    requires TouchesIo(s, t, i, o, a) && !Passes(s, t, k, j) && Before(s, k, j)
    requires t.ios == s.ios || (IsIo(s, o) && |t.ios| == |s.ios| && t.ios == s.ios[o := t.ios[o]])
    ensures Before(t, k, j)
  {
  }

  /** A thread passes one slot after the other, from slot 0 on. */
  lemma PassStep(s: State, e: Event, n: nat, r: nat, k: nat, j: nat)
    requires Sound(s, n, r) && Enabled(s, e) && !Passes(s, Step(s, e), k, j) && Before(s, k, j)
    ensures Before(Step(s, e), k, j)
  {
    if !(e.Admit? || e.FlushBegins? || e.Disconnects?) {
      var i, o := StepTallied(s, e, r);
      ScansKeepBefore(s, Step(s, e), i, o, ActorOf(s, e), k, j);
    }
  }

  /** Whenever thread k passes slot j in the run, the request there has its id, taken less than 65536 tickets before
   `next`. */
  ghost predicate FoundBusy(s: State, run: seq<Event>, k: nat, j: nat, next: nat)
    requires Runnable(s, run)
    decreases |run|
  {
    run == []
    || ((Passes(s, Step(s, run[0]), k, j) ==>
           IsSlot(s, j) && Ticketed(s.slots[j]) && next - s.slots[j].ticket < ID_COUNT)
        && FoundBusy(Step(s, run[0]), run[1..], k, j, next))
  }

  lemma LateEnough(y: Slot, ticket: nat, next: nat)
    requires Labelled(y, next) && !NeverUsed(y) && ticket <= y.ticket && next - ticket < ID_COUNT
    ensures y.cmdId != next % ID_COUNT
  {
    NearIds(y.ticket, next);
  }

  /** A slot whose request has an id, taken less than 65536 tickets before the end of the run, does not show the next id
   there: not while it stays busy, nor when it is freed, nor when it is claimed again. */
  lemma PassedNumbered(s: State, run: seq<Event>, n: nat, r: nat, j: nat)
    requires Sound(s, n, r) && Runnable(s, run) && !Run(s, run).flag.collided
    requires IsSlot(s, j) && Ticketed(s.slots[j]) && Run(s, run).next - s.slots[j].ticket < ID_COUNT
    ensures IsSlot(Run(s, run), j) && Run(s, run).slots[j].cmdId != Run(s, run).next % ID_COUNT
  {
    var u := Run(s, run);
    RunSound(s, run, n, r);
    LabelRun(s, run, n, r, j);
    UsedLabel(s.slots[j]);
    assert Labelled(s.slots[j], s.next) && Labelled(u.slots[j], u.next);
    LateEnough(u.slots[j], s.slots[j].ticket, u.next);
  }

  /** So a slot that the thread has passed since does not show the next id. */
  lemma {:induction false} PassedDiffers(s: State, run: seq<Event>, n: nat, r: nat, k: nat, j: nat)
    requires Sound(s, n, r) && Runnable(s, run) && !Run(s, run).flag.collided
    requires !Before(Run(s, run), k, j)
    requires Before(s, k, j) && FoundBusy(s, run, k, j, Run(s, run).next)
    ensures IsSlot(Run(s, run), j) && Run(s, run).slots[j].cmdId != Run(s, run).next % ID_COUNT
    decreases |run|
  {
    var t := Step(s, run[0]);
    if Passes(s, t, k, j) {
      PassedNumbered(s, run, n, r, j);
    } else {
      if t.flag.collided { RunCollided(t, run[1..]); }
      SoundStep(s, run[0], n, r);
      PassStep(s, run[0], n, r, k, j);
      PassedDiffers(t, run[1..], n, r, k, j);
    }
  }

  /** A submitter about to take an id takes one that no lower slot shows, and no request in progress has. */
  ghost predicate Clear(s: State, e: Event)
    requires Enabled(s, e)
  {
    forall i: nat, j: nat :: TakesTicket(s, e, i) && IsSlot(s, j) && (j < i || Ticketed(s.slots[j])) ==>
                               s.slots[j].cmdId != s.next % ID_COUNT
  }

  /** In the whole run, all ids are so taken. */
  ghost predicate RunClear(s: State, run: seq<Event>)
    requires Runnable(s, run)
    decreases |run|
  {
    run == [] || (Clear(s, run[0]) && RunClear(Step(s, run[0]), run[1..]))
  }

  /** No numbered request is shadowed. */
  ghost predicate Unshadowed(s: State) {
    forall i: nat, j: nat :: j < i < |s.slots| && Ticketed(s.slots[i]) ==>
                               !Shadows(LastTicket(s.slots[j]), s.slots[i].ticket)
  }

  /** The slot was used before and keeps its label, or has just taken a ticket. */
  lemma ClearTaken(s: State, t: State, n: nat, r: nat, k: nat, i: nat, j: nat)
    requires Sound(s, n, r) && Sound(t, n, r) && JustTaken(s, t, k)
    requires j < i < n && Ticketed(t.slots[i]) && k in {i, j}
    requires if k == i then s.slots[j].cmdId != s.next % ID_COUNT else s.slots[i].cmdId != s.next % ID_COUNT
    ensures !Shadows(LastTicket(t.slots[j]), t.slots[i].ticket)
  {
    assert Local(t.slots[i]) && Local(t.slots[k]);
    UsedLabel(t.slots[i]);
    UsedLabel(t.slots[k]);
    assert Labelled(t.slots[j], t.next) && Labelled(t.slots[i], t.next) && Distinct(t.slots[j], t.slots[i]);
    SlotShowsIff(t.slots[j], t.slots[i].ticket, t.next);
  }

  /** A step that takes no ticket shadows nothing. */
  lemma StaysClear(s: State, t: State, k: nat, i: nat, j: nat)
    requires Paced(s, t, k) && j < i < |s.slots| == |t.slots|
    requires t.slots == s.slots || (IsSlot(s, k) && t.slots == s.slots[k := t.slots[k]])
    requires IsSlot(s, k) ==> !(s.slots[k].point.Ticketing? && t.slots[k].point.Parenting?)
    requires Ticketed(t.slots[i])
    requires Ticketed(s.slots[i]) ==> !Shadows(LastTicket(s.slots[j]), s.slots[i].ticket)
    ensures !Shadows(LastTicket(t.slots[j]), t.slots[i].ticket)
  {
  }

  /** A step that takes a ticket for slot k, if any, leaves slot i unshadowed by slot j. */
  lemma ClearAt(s: State, t: State, n: nat, r: nat, k: nat, i: nat, j: nat, takes: bool)
    requires Sound(s, n, r) && Sound(t, n, r) && Unshadowed(s) && Paced(s, t, k) && j < i < n && Ticketed(t.slots[i])
    requires t.slots == s.slots || (IsSlot(s, k) && t.slots == s.slots[k := t.slots[k]])
    requires IsSlot(s, k) ==> (takes <==> s.slots[k].point.Ticketing? && t.slots[k].point.Parenting?)
    requires takes ==> JustTaken(s, t, k)
    requires takes && k == i ==> s.slots[j].cmdId != s.next % ID_COUNT
    requires takes && k == j && Ticketed(s.slots[i]) ==> s.slots[i].cmdId != s.next % ID_COUNT
    ensures !Shadows(LastTicket(t.slots[j]), t.slots[i].ticket)
  {
    if !takes { StaysClear(s, t, k, i, j); }
    else if k in {i, j} { ClearTaken(s, t, n, r, k, i, j); }
  }

  lemma ClearKept(s: State, t: State, n: nat, r: nat, k: nat, takes: bool)
    requires Sound(s, n, r) && Sound(t, n, r) && Unshadowed(s) && Paced(s, t, k)
    requires t.slots == s.slots || (IsSlot(s, k) && t.slots == s.slots[k := t.slots[k]])
    requires IsSlot(s, k) ==> (takes <==> s.slots[k].point.Ticketing? && t.slots[k].point.Parenting?)
    requires takes ==> JustTaken(s, t, k)
    requires forall j: nat :: takes && j < n && (j < k || Ticketed(s.slots[j])) ==>
                                s.slots[j].cmdId != s.next % ID_COUNT
    ensures Unshadowed(t)
  {
    forall i: nat, j: nat | j < i < |t.slots| && Ticketed(t.slots[i])
      ensures !Shadows(LastTicket(t.slots[j]), t.slots[i].ticket)
    {
      ClearAt(s, t, n, r, k, i, j, takes);
    }
  }

  lemma ClearStep(s: State, e: Event, n: nat, r: nat)
    requires Sound(s, n, r) && Enabled(s, e) && !Step(s, e).flag.collided && Unshadowed(s) && Clear(s, e)
    ensures Unshadowed(Step(s, e))
  {
    if !(e.Admit? || e.FlushBegins? || e.Disconnects?) {
      var k, o := StepTallied(s, e, r);
      SoundStep(s, e, n, r);
      var takes := TakesTicket(s, e, k);
      if takes { TicketTaken(s, e, n, r, k); }
      ClearKept(s, Step(s, e), n, r, k, takes);
    }
  }

  lemma {:induction false} ClearRun(s: State, run: seq<Event>, n: nat, r: nat)
    requires Sound(s, n, r) && Runnable(s, run) && !Run(s, run).flag.collided && Unshadowed(s) && RunClear(s, run)
    ensures Unshadowed(Run(s, run))
    decreases |run|
  {
    if run != [] {
      var t := Step(s, run[0]);
      if t.flag.collided { RunCollided(t, run[1..]); }
      SoundStep(s, run[0], n, r);
      ClearStep(s, run[0], n, r);
      ClearRun(t, run[1..], n, r);
    }
  }

  /** If nobody in the run takes an id that a lower slot shows, or that a request in progress has, the scan finds every
   command in flight. */
  lemma ScanAgrees(n: nat, r: nat, run: seq<Event>, i: nat)
    requires Runnable(Init(n, r), run) && !Run(Init(n, r), run).flag.collided && RunClear(Init(n, r), run)
    requires IsSlot(Run(Init(n, r), run), i) && Tabled(Run(Init(n, r), run).slots[i])
    ensures var s := Run(Init(n, r), run); var c := s.slots[i].cmdId;
            IsId(s, c) && s.table[c] == Some(i) && Scan(s, c) == Some(i)
  {
    var s := Run(Init(n, r), run);
    InitSound(n, r);
    RunSound(Init(n, r), run, n, r);
    ClearRun(Init(n, r), run, n, r);
    SoundScan(s, n, r, i);
    assert Local(s.slots[i]);
    assert Ticketed(s.slots[i]);
  }

  // ---- First fit ----

  /** Every request in progress took its id less than 65536 tickets ago. */
  ghost predicate InProgressRecent(s: State) {
    forall j: nat :: j < |s.slots| && Ticketed(s.slots[j]) ==> s.next - s.slots[j].ticket < ID_COUNT
  }

  /** If the step after the run `done` takes an id: its thread has passed only slots whose requests had their ids, and
   those ids, and the ids of all requests in progress, are recent. */
  ghost predicate TakenInTurn(s: State, done: seq<Event>, e: Event)
    requires Runnable(s, done) && Enabled(Run(s, done), e)
  {
    var t := Run(s, done);
    forall i: nat :: TakesTicket(t, e, i) ==>
                       InProgressRecent(t) && forall j: nat :: j < i ==> FoundBusy(s, done, t.slots[i].owner, j, t.next)
  }

  /** And so is every id that is taken in the rest of the run. */
  ghost predicate FirstFit(s: State, done: seq<Event>, rest: seq<Event>)
    requires Runnable(s, done) && Runnable(Run(s, done), rest)
    decreases |rest|
  {
    rest == []
    || (TakenInTurn(s, done, rest[0])
        && (RunAppend(s, done, rest[0]); FirstFit(s, done + [rest[0]], rest[1..])))
  }

  lemma OwnerPassed(s: State, i: nat)
    requires Inv(s) && IsSlot(s, i) && s.slots[i].point.Ticketing?
    ensures IsIo(s, s.slots[i].owner) && PassedTo(s.ios[s.slots[i].owner]) == i
  {
    AtSlot(s, i, 0);
  }

  lemma InTurnClear(n: nat, r: nat, done: seq<Event>, e: Event)
    requires Runnable(Init(n, r), done) && !Run(Init(n, r), done).flag.collided && Enabled(Run(Init(n, r), done), e)
    requires TakenInTurn(Init(n, r), done, e)
    ensures Clear(Run(Init(n, r), done), e)
  {
    var s := Run(Init(n, r), done);
    InitSound(n, r);
    RunSound(Init(n, r), done, n, r);
    forall i: nat, j: nat | TakesTicket(s, e, i) && IsSlot(s, j) && (j < i || Ticketed(s.slots[j]))
      ensures s.slots[j].cmdId != s.next % ID_COUNT
    {
      if j < i {
        OwnerPassed(s, i);
        PassedDiffers(Init(n, r), done, n, r, s.slots[i].owner, j);
      } else {
        assert Local(s.slots[j]) && Labelled(s.slots[j], s.next);
        UsedLabel(s.slots[j]);
        LateEnough(s.slots[j], s.slots[j].ticket, s.next);
      }
    }
  }

  lemma {:induction false} FirstFitClear(n: nat, r: nat, done: seq<Event>, rest: seq<Event>)
    requires Runnable(Init(n, r), done) && Runnable(Run(Init(n, r), done), rest) && FirstFit(Init(n, r), done, rest)
    requires !Run(Run(Init(n, r), done), rest).flag.collided
    ensures RunClear(Run(Init(n, r), done), rest)
    decreases |rest|
  {
    if rest != [] {
      var s := Run(Init(n, r), done);
      if s.flag.collided { RunCollided(s, rest); }
      InTurnClear(n, r, done, rest[0]);
      RunAppend(Init(n, r), done, rest[0]);
      FirstFitClear(n, r, done + [rest[0]], rest[1..]);
    }
  }

  /** If a submitter that takes an id has passed only slots whose requests had theirs, so that nobody stopped between
   the claim of a slot and its id while another went by, and these ids and those of all requests in progress were taken
   less than 65536 tickets ago, then the scan finds every command in flight. */
  lemma FirstFitAgrees(n: nat, r: nat, run: seq<Event>, i: nat)
    requires Runnable(Init(n, r), run) && !Run(Init(n, r), run).flag.collided && FirstFit(Init(n, r), [], run)
    requires IsSlot(Run(Init(n, r), run), i) && Tabled(Run(Init(n, r), run).slots[i])
    ensures var s := Run(Init(n, r), run); var c := s.slots[i].cmdId;
            IsId(s, c) && s.table[c] == Some(i) && Scan(s, c) == Some(i)
  {
    FirstFitClear(n, r, [], run);
    ScanAgrees(n, r, run, i);
  }
}

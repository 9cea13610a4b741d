/** Runs of the request engine, and the command ids that its requests hold at one time. */
module IoRuns {
  import opened IoProtocol
  import opened IoInvariant
  import opened IoSteps
  import opened IoCounters
  import opened TicketIds

  // ---- Tickets ----

  /** The slot has never taken a ticket: it shows the id that an unused request carries. */
  predicate NeverUsed(x: Slot) { x.cmdId == UNUSED_ID && x.ticket == 0 }

  /** Every slot that was ever used shows, busy or not, the id of the last ticket it took; the counter is past all
   tickets, and no two slots share one. */
  ghost predicate Tickets(s: State) {
    && (forall i: nat :: i < |s.slots| ==> Labelled(s.slots[i], s.next))
    && (forall i: nat, j: nat :: i < j < |s.slots| ==> Distinct(s.slots[i], s.slots[j]))
  }

  predicate Labelled(x: Slot, next: nat) {
    NeverUsed(x) || (x.ticket < next && x.cmdId == x.ticket % ID_COUNT)
  }

  predicate Distinct(x: Slot, y: Slot) {
    NeverUsed(x) || NeverUsed(y) || x.ticket != y.ticket
  }

  lemma TicketsKept(s: State, t: State, i: nat)
    requires Tickets(s) && Paced(s, t, i)
    requires t.slots == s.slots || (IsSlot(s, i) && |t.slots| == |s.slots| && t.slots == s.slots[i := t.slots[i]])
    ensures Tickets(t)
  {
    forall a: nat | a < |t.slots| ensures Labelled(t.slots[a], t.next) {
      assert Labelled(s.slots[a], s.next);
    }
    forall a: nat, b: nat | a < b < |t.slots| ensures Distinct(t.slots[a], t.slots[b]) {
      assert Labelled(s.slots[a], s.next) && Labelled(s.slots[b], s.next) && Distinct(s.slots[a], s.slots[b]);
    }
  }

  /** Until a flush runs, every slot has the host I/O that its life is for. */
  ghost predicate Unrobbed(s: State) {
    !s.flag.flushed ==> forall i: nat :: i < |s.slots| ==> !Robbed(s.slots[i])
  }

  lemma UnrobbedKept(s: State, t: State, i: nat)
    requires Unrobbed(s) && Onward(s, t, i) && t.flag.flushed == s.flag.flushed
    requires (!s.flag.flushed ==> s.flush.FlushIdle?)
    requires t.slots == s.slots || (IsSlot(s, i) && |t.slots| == |s.slots| && t.slots == s.slots[i := t.slots[i]])
    ensures Unrobbed(t)
  {
  }

  // ---- Runs ----

  /** Everything that is known of a queue of depth n with r receives. */
  ghost predicate Sound(s: State, n: nat, r: nat) {
    |s.slots| == n && Inv(s) && Counts(s, r) && Tickets(s) && Unrobbed(s)
  }

  lemma InitSound(n: nat, r: nat)
    ensures Sound(Init(n, r), n, r)
  {
    InitInv(n, r);
    InitCounts(n, r);
  }

  lemma SoundStep(s: State, e: Event, n: nat, r: nat)
    requires Sound(s, n, r) && Enabled(s, e) && !Step(s, e).flag.collided
    ensures Sound(Step(s, e), n, r)
  {
    InvKept(s, e);
    CountsStep(s, e, r);
    if !(e.Admit? || e.FlushBegins? || e.Disconnects?) {
      var i, k := StepTallied(s, e, r);
      TicketsKept(s, Step(s, e), i);
      UnrobbedKept(s, Step(s, e), i);
    }
  }

  lemma CollidedStays(s: State, e: Event)
    requires Enabled(s, e) && s.flag.collided
    ensures Step(s, e).flag.collided
  {
    match e {
      case Submitter(k, pages) => assert Step(s, e) == SubStep(s, k, pages);
      case ScqRuns(pick) => assert Step(s, e) == ScqStep(s, pick);
      case RcqRuns(pick) => assert Step(s, e) == RcqStep(s, pick);
      case FlushRuns => assert Step(s, e) == FlushStep(s);
      case _ =>
    }
  }

  lemma {:induction false} RunCollided(s: State, run: seq<Event>)
    requires Runnable(s, run) && s.flag.collided
    ensures Run(s, run).flag.collided
    decreases |run|
  {
    if run != [] {
      CollidedStays(s, run[0]);
      RunCollided(Step(s, run[0]), run[1..]);
    }
  }

  /** A run in which no insert meets an occupied entry keeps everything that is known. */
  lemma {:induction false} RunSound(s: State, run: seq<Event>, n: nat, r: nat)
    requires Sound(s, n, r) && Runnable(s, run) && !Run(s, run).flag.collided
    ensures Sound(Run(s, run), n, r)
    decreases |run|
  {
    if run != [] {
      var t := Step(s, run[0]);
      if t.flag.collided { RunCollided(t, run[1..]); }
      SoundStep(s, run[0], n, r);
      RunSound(t, run[1..], n, r);
    }
  }

  lemma {:induction false} RunAppend(s: State, run: seq<Event>, e: Event)
    requires Runnable(s, run) && Enabled(Run(s, run), e)
    ensures Runnable(s, run + [e]) && Run(s, run + [e]) == Step(Run(s, run), e)
    decreases |run|
  {
    if run == [] {
      assert run + [e] == [e];
      assert Runnable(Step(s, e), []);
    } else {
      RunAppend(Step(s, run[0]), run[1..], e);
      assert (run + [e])[1..] == run[1..] + [e];
    }
  }

  lemma ReachableSound(n: nat, r: nat, s: State)
    requires Reachable(n, r, s) && !s.flag.collided
    ensures Sound(s, n, r)
  {
    var run :| Runnable(Init(n, r), run) && Run(Init(n, r), run) == s;
    InitSound(n, r);
    RunSound(Init(n, r), run, n, r);
  }

  // ---- When an insert meets an occupied entry ----

  /** Another slot has slot i's id, and its response has not been fetched. */
  ghost predicate Rival(s: State, i: nat, j: nat) {
    IsSlot(s, i) && IsSlot(s, j) && j != i && Tabled(s.slots[j]) && s.slots[j].cmdId == s.slots[i].cmdId
  }

  lemma OccupiedIff(s: State, i: nat)
    requires Inv(s) && IsSlot(s, i) && s.slots[i].point.Inserting?
    ensures IsId(s, s.slots[i].cmdId) && (s.table[s.slots[i].cmdId] != None <==> exists j: nat :: Rival(s, i, j))
  {
    AtSlot(s, i, 0);
    var c := s.slots[i].cmdId;
    assert EntryOk(s, c, s.table[c]);
    if s.table[c].Some? { assert Rival(s, i, s.table[c].value); }
    forall j: nat | Rival(s, i, j) ensures s.table[c] == Some(j) { assert AnswerOk(s, j, s.slots[j]); }
  }

  /** A step meets an occupied entry exactly if it is an insert and its slot has a rival. */
  lemma CollidesIff(s: State, e: Event)
    requires Inv(s) && Enabled(s, e) && !s.flag.collided
    ensures Step(s, e).flag.collided <==>
            e.ScqRuns? && s.scq.ScqAt? && s.scq.point == Inserting && exists j: nat :: Rival(s, s.scq.slot, j)
  {
    if e.ScqRuns? && s.scq.ScqAt? && s.scq.point == Inserting {
      assert ScqOk(s);
      OccupiedIff(s, s.scq.slot);
      assert Step(s, e) == FrInsert(s, s.scq.slot);
    } else {
      NoCollision(s, e);
    }
  }

  lemma NoCollision(s: State, e: Event)
    requires Enabled(s, e) && !s.flag.collided && !(e.ScqRuns? && s.scq.ScqAt? && s.scq.point == Inserting)
    ensures !Step(s, e).flag.collided
  {
  }

  /** The slot's id is in the table, or about to be entered. */
  predicate NeedsId(x: Slot) { x.point.Inserting? || Tabled(x) }

  /** Every request whose id is in the table, or about to be entered, has one of the last 65536 tickets. */
  ghost predicate Windowed(s: State) {
    forall i: nat :: i < |s.slots| && NeedsId(s.slots[i]) ==> s.next - s.slots[i].ticket <= ID_COUNT
  }

  /** Rivals' tickets are at least 65536 apart, so within the window no insert has a rival. */
  lemma NoRival(s: State, i: nat, j: nat)
    requires Inv(s) && Tickets(s) && Windowed(s) && IsSlot(s, i) && s.slots[i].point.Inserting?
    ensures !Rival(s, i, j)
  {
    if Rival(s, i, j) {
      assert Local(s.slots[i]) && Local(s.slots[j]);
      assert Labelled(s.slots[i], s.next) && Labelled(s.slots[j], s.next);
      assert if i < j then Distinct(s.slots[i], s.slots[j]) else Distinct(s.slots[j], s.slots[i]);
      NearIds(s.slots[i].ticket, s.slots[j].ticket);
    }
  }

  /** Within the window, an insert finds its entry empty. */
  lemma WindowStep(s: State, e: Event)
    requires Inv(s) && Tickets(s) && Enabled(s, e) && !s.flag.collided && Windowed(s)
    ensures !Step(s, e).flag.collided
  {
    CollidesIff(s, e);
    if Step(s, e).flag.collided {
      var j: nat :| Rival(s, s.scq.slot, j);
      assert ScqOk(s);
      NoRival(s, s.scq.slot, j);
    }
  }

  /** The window holds in every state that the run passes through. */
  ghost predicate RunWindowed(s: State, run: seq<Event>)
    requires Runnable(s, run)
    decreases |run|
  {
    Windowed(s) && (run == [] || RunWindowed(Step(s, run[0]), run[1..]))
  }

  /** A run that stays within the window never meets an occupied entry. */
  lemma {:induction false} WindowRun(s: State, run: seq<Event>, n: nat, r: nat)
    requires Sound(s, n, r) && !s.flag.collided && Runnable(s, run) && RunWindowed(s, run)
    ensures !Run(s, run).flag.collided && Sound(Run(s, run), n, r)
    decreases |run|
  {
    if run != [] {
      WindowStep(s, run[0]);
      SoundStep(s, run[0], n, r);
      WindowRun(Step(s, run[0]), run[1..], n, r);
    }
  }
}

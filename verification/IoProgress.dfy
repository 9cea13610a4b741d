/**
 Everything that was admitted is completed, flush or not: there is always less to do, and no stopping before the end.
 */
module IoProgress {
  import opened ReqState
  import opened IoProtocol
  import opened IoInvariant
  import opened IoSteps
  import opened IoCounters
  import opened IoRuns
  import opened Totals

  /** A step of a thread, a handler, NDK or the target, as opposed to a new request from outside. */
  predicate Internal(e: Event) {
    !(e.Admit? || e.FlushBegins? || e.Disconnects?)
  }

  // ---- There is always less to do ----

  /** What is left to do for the requests in the queue. */
  function Work(s: State): int {
    Total(s.slots, SlotRank) + Total(s.ios, IoWeight(|s.slots|)) + ScqRank(s.scq) + RcqRank(s.rcq)
    + FlushRank(s.flush, |s.slots|)
  }

  /** What is left to do for handlers between two completions. */
  ghost function Idling(s: State): int {
    (match s.scq case ScqIdle => 1 case ScqPoll => if ScqEmpty(s) then 3 else 0 case ScqArm => 2 case _ => 0)
    + (match s.rcq case RcqIdle => 1 case RcqPoll => if s.answers == map[] then 3 else 0 case RcqArm => 2 case _ => 0)
  }

  ghost function Rank(s: State): int {
    7 * Work(s) + Idling(s)
  }

  lemma TurnFalls(s: State, t: State)
    requires Between(s, t)
    ensures Work(t) == Work(s) && Idling(t) < Idling(s)
  {
    assert ScqEmpty(t) <==> ScqEmpty(s) by {
      assert forall i: nat :: InScqQueue(t, i) == InScqQueue(s, i);
    }
  }

  lemma WorkFalls(s: State, t: State, i: nat, k: nat)
    requires Balanced(s, t, i, k) && Downhill(s, t, i, k) && !Between(s, t)
    ensures Work(t) < Work(s)
  {
    SlotSums(s, t, i, SlotRank);
    IoSums(s, t, k, IoWeight(|s.slots|));
    assert |t.slots| == |s.slots|;
  }

  /** Six turns between completions weigh less than one other step. */
  lemma DownhillFalls(s: State, t: State, i: nat, k: nat)
    requires Balanced(s, t, i, k) && Downhill(s, t, i, k)
    ensures Rank(t) < Rank(s)
  {
    if Between(s, t) { TurnFalls(s, t); } else { WorkFalls(s, t, i, k); }
  }

  /** Every internal step leaves less to do. */
  lemma RankFalls(s: State, e: Event, n: nat, r: nat)
    requires Sound(s, n, r) && Internal(e) && Enabled(s, e)
    ensures Rank(Step(s, e)) < Rank(s)
  {
    var i, k := StepTallied(s, e, r);
    DownhillFalls(s, Step(s, e), i, k);
  }

  lemma {:induction false} TotalNat<T(!new)>(xs: seq<T>, w: T -> int)
    requires forall x :: x in xs ==> 0 <= w(x)
    ensures 0 <= Total(xs, w)
  {
    if xs != [] {
      assert forall x :: x in xs[..|xs| - 1] ==> x in xs;
      TotalNat(xs[..|xs| - 1], w);
      assert xs[|xs| - 1] in xs;
    }
  }

  lemma RankNat(s: State)
    ensures 0 <= Rank(s)
  {
    TotalNat(s.slots, SlotRank);
    TotalNat(s.ios, IoWeight(|s.slots|));
  }

  /** A flush does not begin by itself. */
  lemma FlushedStays(s: State, e: Event, n: nat, r: nat)
    requires Sound(s, n, r) && Internal(e) && Enabled(s, e)
    ensures Step(s, e).flag.flushed == s.flag.flushed
  {
    var i, k := StepTallied(s, e, r);
  }

  /** A run of internal steps is no longer than the rank of the state it starts from: the queue cannot run for ever
   without new requests. */
  lemma {:induction false} RunsOut(s: State, run: seq<Event>, n: nat, r: nat)
    requires Sound(s, n, r) && Runnable(s, run) && (forall e :: e in run ==> Internal(e))
    requires !Run(s, run).flag.collided
    ensures |run| + Rank(Run(s, run)) <= Rank(s) && Sound(Run(s, run), n, r)
    ensures Run(s, run).flag.flushed == s.flag.flushed
    decreases |run|
  {
    if run != [] {
      var t := Step(s, run[0]);
      assert run[0] in run;
      if t.flag.collided { RunCollided(t, run[1..]); }
      SoundStep(s, run[0], n, r);
      FlushedStays(s, run[0], n, r);
      RankFalls(s, run[0], n, r);
      assert forall e :: e in run[1..] ==> e in run;
      RunsOut(t, run[1..], n, r);
    }
  }

  // ---- No stopping before the end ----

  /** Nothing that a thread, a handler, NDK or the target could do next is enabled. */
  ghost predicate Stuck(s: State) {
    forall e :: Internal(e) ==> !Enabled(s, e)
  }

  lemma ScqAtRest(s: State)
    requires Inv(s) && Stuck(s)
    ensures s.scq.ScqIdle?
  {
    assert !Enabled(s, ScqRuns(0));
    AsideOf(s, 0);
    if s.scq.ScqAt? { AtSlot(s, s.scq.slot, 0); }
    if s.scq.ScqPoll? {
      var i: nat :| InScqQueue(s, i);
      assert Enabled(s, ScqRuns(i));
    }
  }

  lemma RcqAtRest(s: State)
    requires Inv(s) && Stuck(s)
    ensures s.rcq.RcqIdle?
  {
    assert !Enabled(s, RcqRuns(0));
    AsideOf(s, 0);
    if s.rcq.RcqPoll? {
      var c :| c in s.answers;
      assert QueuedOk(s, c, s.answers[c].slot);
      assert Enabled(s, RcqRuns(c));
    }
  }

  lemma QueuesEmpty(s: State, r: nat)
    requires Counts(s, r) && ScqOk(s) && Stuck(s) && s.scq.ScqIdle? && s.rcq.RcqIdle?
    ensures s.answers == map[] && ScqEmpty(s) && s.count.recvPosted == r
  {
    assert !Enabled(s, ScqFires) && !Enabled(s, RcqFires);
  }

  lemma NobodyOwes(s: State)
    requires Replies(s) && s.count.recvPosted > 0 && Stuck(s)
    ensures s.owed == map[]
  {
    if s.owed != map[] {
      var c :| c in s.owed;
      assert OwedOk(s, c, s.owed[c]);
      assert Enabled(s, TargetAnswers(c, 0));
    }
  }

  lemma FlushAtRest(s: State)
    requires Inv(s) && Stuck(s)
    ensures s.flush.FlushIdle?
  {
    assert !Enabled(s, FlushRuns);
    AsideOf(s, 0);
  }

  lemma SlotAtRest(s: State, i: nat)
    requires Inv(s) && Stuck(s) && IsSlot(s, i)
    requires s.scq.ScqIdle? && s.rcq.RcqIdle? && s.answers == map[] && s.owed == map[] && ScqEmpty(s)
    ensures s.slots[i].point.Free? || s.slots[i].point.Orphan?
  {
    AtSlot(s, i, 0);
    var x := s.slots[i];
    assert !InScqQueue(s, i) && !Enabled(s, NdkCompletes(i)) && !Enabled(s, Submitter(x.owner, 0));
    Rests(s, i, x);
  }

  lemma Rests(s: State, i: nat, x: Slot)
    requires HolderOk(s, i, x) && AnswerOk(s, i, x) && Local(x) && x.wr == Owned
    requires s.scq.ScqIdle? && s.rcq.RcqIdle? && s.answers == map[] && s.owed == map[] && !SubHeld(x.point)
    ensures x.point.Free? || x.point.Orphan?
  {
  }

  lemma IoAtRest(s: State, k: nat)
    requires Inv(s) && s.flush.FlushIdle? && Stuck(s) && IsIo(s, k) && TallyOk(s, k, s.ios[k]) && s.scq.ScqIdle?
    requires forall i: nat :: i < |s.slots| ==> s.slots[i].point.Free? || s.slots[i].point.Orphan?
    ensures Completed(s.ios[k])
  {
    AsideOf(s, k);
    assert !Enabled(s, Submitter(k, 0));
  }

  /** The host I/O was called back once, or turned away for want of a slot, or kept by an asymmetric-access disconnect,
   and is no longer counted. */
  predicate Completed(o: Io) {
    && o.pc.Returned? && o.home.Over? && !o.counted
    && o.calls == (if o.rejected || o.dropped then 0 else 1)
  }

  /** Every host I/O is completed; a slot is free exactly if no flush took its host I/O; nothing is owed, and the
   receives, the fast registers and the outstanding count are back where they were at the start, and the sends but for
   those that a flush counted down. */
  ghost predicate Settled(s: State, r: nat) {
    && (forall i: nat :: i < |s.slots| ==> (s.slots[i].bits == FREE <==> !Robbed(s.slots[i])))
    && (forall k: nat :: k < |s.ios| ==> Completed(s.ios[k]))
    && s.owed == map[] && s.answers == map[] && (forall c: nat :: c < |s.table| ==> s.table[c] == None)
    && s.count.recvPosted == s.count.recvOutstanding == r && s.count.frOutstanding == 0 && s.count.outstanding == 0
    && s.count.sendOutstanding == -Total(s.ios, FlushedDown)
    && s.flag.scqArmed && s.flag.rcqArmed && s.flush.FlushIdle?
  }

  /** And every slot is free, no host I/O was kept, and all the counters are back. */
  ghost predicate Quiet(s: State, r: nat) {
    && Settled(s, r)
    && (forall i: nat :: i < |s.slots| ==> s.slots[i].bits == FREE)
    && (forall k: nat :: k < |s.ios| ==> !s.ios[k].dropped)
    && s.count == Counters(r, r, 0, 0, 0, 0)
  }

  lemma TotalZero<T(!new)>(xs: seq<T>, w: T -> int)
    requires forall x :: x in xs ==> w(x) == 0
    ensures Total(xs, w) == 0
  {
    TotalBounds(xs, w, 0, 0);
  }

  lemma CountersAtRest(s: State, r: nat)
    requires Sums(s, r) && s.rcq.RcqIdle? && s.answers == map[]
    requires forall i: nat :: i < |s.slots| ==> s.slots[i].point.Free? || s.slots[i].point.Orphan?
    requires forall k: nat :: k < |s.ios| ==> Completed(s.ios[k])
    ensures s.count.recvPosted == s.count.recvOutstanding == r && s.count.frOutstanding == 0 && s.count.outstanding == 0
  {
    TotalZero(s.slots, FrPending);
    TotalZero(s.ios, AboutToCount);
    TotalZero(s.ios, Counted);
  }

  lemma SendsAtRest(s: State, r: nat)
    requires Sums(s, r) && forall i: nat :: i < |s.slots| ==> s.slots[i].point.Free? || s.slots[i].point.Orphan?
    ensures s.count.sendOutstanding == -Total(s.ios, FlushedDown)
  {
    TotalZero(s.slots, SendPending);
  }

  lemma CountersAllFree(s: State, r: nat)
    requires Counts(s, r) && !s.flag.flushed && (forall i: nat :: i < |s.slots| ==> s.slots[i].point.Free?)
    ensures s.count.regPages == 0 && s.count.sendOutstanding == 0
  {
    TotalZero(s.slots, Pages);
    TotalZero(s.slots, SendPending);
    forall o | o in s.ios ensures FlushedDown(o) == 0 {
      var k: nat :| k < |s.ios| && s.ios[k] == o;
      assert TallyOk(s, k, s.ios[k]);
    }
    TotalZero(s.ios, FlushedDown);
  }

  lemma FreeOrOrphan(x: Slot)
    requires Local(x) && (x.point.Free? || x.point.Orphan?)
    ensures (x.bits == FREE <==> !Robbed(x)) && (x.bits == FREE <==> x.point.Free?)
  {
  }

  /** With at least one receive, the queue can stop only where everything is settled. */
  lemma StuckIsSettled(s: State, n: nat, r: nat)
    requires Sound(s, n, r) && r > 0 && Stuck(s)
    ensures Settled(s, r)
    ensures !s.flag.flushed ==> Quiet(s, r)
  {
    ScqAtRest(s);
    RcqAtRest(s);
    FlushAtRest(s);
    QueuesEmpty(s, r);
    NobodyOwes(s);
    forall i: nat | i < |s.slots|
      ensures (s.slots[i].point.Free? || s.slots[i].point.Orphan?) && (s.slots[i].bits == FREE <==> !Robbed(s.slots[i]))
      ensures s.slots[i].bits == FREE <==> s.slots[i].point.Free?
    {
      SlotAtRest(s, i);
      FreeOrOrphan(s.slots[i]);
    }
    forall k: nat | k < |s.ios| ensures Completed(s.ios[k]) && (s.ios[k].dropped ==> s.flag.flushed) {
      assert TallyOk(s, k, s.ios[k]);
      IoAtRest(s, k);
    }
    forall c: nat | c < |s.table| ensures s.table[c] == None { assert EntryOk(s, c, s.table[c]); }
    CountersAtRest(s, r);
    SendsAtRest(s, r);
    if !s.flag.flushed { CountersAllFree(s, r); }
  }

  // ---- The theorem ----

  /** With at least one receive: however threads, handlers, NDK, the target and a flush take their turns, they take no
   more than Rank(s) of them. If they have none left, every host I/O that was admitted is completed, and exactly the
   slots whose host I/O a flush took are not free; without a flush the queue is as at the start. */
  lemma Progress(n: nat, r: nat, s: State, run: seq<Event>)
    requires Reachable(n, r, s) && r > 0
    requires Runnable(s, run) && (forall e :: e in run ==> Internal(e)) && !Run(s, run).flag.collided
    ensures |run| <= Rank(s)
    ensures Stuck(Run(s, run)) ==> Settled(Run(s, run), r) && (!s.flag.flushed ==> Quiet(Run(s, run), r))
  {
    if s.flag.collided { RunCollided(s, run); }
    ReachableSound(n, r, s);
    RunsOut(s, run, n, r);
    RankNat(Run(s, run));
    if Stuck(Run(s, run)) { StuckIsSettled(Run(s, run), n, r); }
  }

  lemma {:induction false} SettlesOrCollides(s: State, n: nat, r: nat) returns (run: seq<Event>)
    requires Sound(s, n, r) && r > 0
    ensures Runnable(s, run) && (forall e :: e in run ==> Internal(e))
    ensures Settled(Run(s, run), r) || Run(s, run).flag.collided
    decreases Rank(s)
  {
    if Stuck(s) {
      StuckIsSettled(s, n, r);
      run := [];
    } else {
      var e :| Internal(e) && Enabled(s, e);
      var t := Step(s, e);
      if t.flag.collided {
        run := [e];
        assert Runnable(t, run[1..]);
      } else {
        SoundStep(s, e, n, r);
        RankFalls(s, e, n, r);
        RankNat(s);
        var rest := SettlesOrCollides(t, n, r);
        run := [e] + rest;
        assert run[1..] == rest;
      }
    }
  }

  /** And from every such state they can get to a settled one, unless the run leaves the window and an insert meets an
   occupied entry on the way. */
  lemma Finishes(s: State, n: nat, r: nat) returns (run: seq<Event>)
    requires Sound(s, n, r) && r > 0
    ensures Runnable(s, run) && (forall e :: e in run ==> Internal(e))
    ensures Settled(Run(s, run), r) || Run(s, run).flag.collided
    ensures !s.flag.collided && RunWindowed(s, run) ==> Settled(Run(s, run), r)
  {
    run := SettlesOrCollides(s, n, r);
    if !s.flag.collided && RunWindowed(s, run) { WindowRun(s, run, n, r); }
  }
}

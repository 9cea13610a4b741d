/** The receives of the admin queue: posted at first, fetched and posted again by the receive-queue callback, or
 retired. */
module AdminReceives {

  datatype Status = Success | Cancelled | Failure

  /** A receive that NDK hands back: the buffer, how it went, how much came, whether its command was found, and whether
   the buffer, if it is posted again, is taken. */
  datatype Result = Result(buffer: nat, status: Status, bytes: nat, known: bool, taken: bool)

  /** The buffers that NDK has, and those that were taken out of use. */
  datatype Buffers = Buffers(posted: set<nat>, retired: set<nat>)

  /** Whatever it holds, a successful receive is posted again if NDK takes it; a cancelled or failed one is not. */
  function Handled(b: Buffers, r: Result): Buffers {
    if r.status.Success? && r.taken then b else Buffers(b.posted - {r.buffer}, b.retired + {r.buffer})
  }

  function HandledAll(b: Buffers, rs: seq<Result>): Buffers {
    if rs == [] then b else Handled(HandledAll(b, rs[..|rs| - 1]), rs[|rs| - 1])
  }

  /** NDK hands back only buffers that it has when their turn comes. */
  ghost predicate Deliverable(b: Buffers, rs: seq<Result>) {
    forall k :: 0 <= k < |rs| ==> rs[k].buffer in HandledAll(b, rs[..k]).posted
  }

  lemma OneMore(b: Buffers, rs: seq<Result>, k: nat)
    requires k < |rs| && Deliverable(b, rs)
    ensures rs[k].buffer in HandledAll(b, rs[..k]).posted
    ensures HandledAll(b, rs[..k + 1]) == Handled(HandledAll(b, rs[..k]), rs[k])
  {
    assert rs[..k + 1][..k] == rs[..k];
  }

  /** Buffers are neither lost nor doubled: what was posted is posted again or retired. */
  lemma {:induction false} BuffersConserved(b: Buffers, rs: seq<Result>)
    requires b.posted !! b.retired && Deliverable(b, rs)
    ensures var c := HandledAll(b, rs); c.posted !! c.retired && c.posted + c.retired == b.posted + b.retired
  {
    if rs != [] {
      var init := rs[..|rs| - 1];
      assert forall k :: 0 <= k < |init| ==> init[..k] == rs[..k];
      BuffersConserved(b, init);
    }
  }

  /** Every receive of the buffer succeeded, and NDK took the buffer again. */
  predicate AllWell(rs: seq<Result>, x: nat) {
    forall k :: 0 <= k < |rs| && rs[k].buffer == x ==> rs[k].status.Success? && rs[k].taken
  }

  /** A buffer is still posted exactly if it was, and every receive of it succeeded and was taken again by NDK: one that
   was cancelled, failed or not taken is never posted afterwards. */
  lemma {:induction false} PostedIff(b: Buffers, rs: seq<Result>, x: nat)
    ensures x in HandledAll(b, rs).posted <==> x in b.posted && AllWell(rs, x)
  {
    if rs != [] {
      var n := |rs| - 1;
      assert forall k :: 0 <= k < n ==> rs[..n][k] == rs[k];
      PostedIff(b, rs[..n], x);
    }
  }

  lemma AllPosted(b: Buffers, rs: seq<Result>)
    ensures forall x: nat :: x in HandledAll(b, rs).posted <==> x in b.posted && AllWell(rs, x)
  {
    forall x: nat ensures x in HandledAll(b, rs).posted <==> x in b.posted && AllWell(rs, x) { PostedIff(b, rs, x); }
  }

  /** A buffer is retired exactly if it was, or a receive of it was cancelled or failed, or could not be
   posted again. */
  lemma {:induction false} RetiredIff(b: Buffers, rs: seq<Result>, x: nat)
    requires Deliverable(b, rs)
    ensures x in HandledAll(b, rs).retired <==>
              || x in b.retired
              || exists k :: 0 <= k < |rs| && rs[k].buffer == x && !(rs[k].status.Success? && rs[k].taken)
  {
    if rs != [] {
      var n := |rs| - 1;
      assert forall k :: 0 <= k < n ==> rs[..n][..k] == rs[..k] && rs[..n][k] == rs[k];
      RetiredIff(b, rs[..n], x);
    }
  }

  /** The size of a completion queue entry. */
  const CQE_SIZE: nat := 16

  /** The first buffer from b on that NDK does not take, or n. */
  function Refused(takes: nat -> bool, b: nat, n: nat): (r: nat)
    requires b <= n
    decreases n - b
    ensures b <= r <= n && (r < n ==> !takes(r)) && forall i: nat :: b <= i < r ==> takes(i)
  {
    if b == n || !takes(b) then b else Refused(takes, b + 1, n)
  }

  class AdminQueue {
    const count: nat
    var posted: set<nat>
    var retired: set<nat>
    var inHandler: set<nat>
    var lOutstanding: int
    var llSubmitted: int
    var llCompleted: int
    var armed: bool

    constructor (n: nat)
      ensures Valid() && count == n && posted == {} && retired == {}
    {
      count := n;
      posted, retired, inHandler := {}, {}, {};
      lOutstanding, llSubmitted, llCompleted := 0, 0, 0;
      armed := false;
    }

    /** The counters count the receives that NDK has, and every buffer is in one place. */
    ghost predicate Valid()
      reads this
    {
      && llSubmitted - llCompleted == lOutstanding == |posted|
      && (forall b :: b in posted ==> b < count && b !in retired && b !in inHandler)
      && (forall b :: b in retired ==> b < count && b !in inHandler)
      && (forall b :: b in inHandler ==> b < count)
    }

    ghost function Contents(): Buffers
      reads this
    {
      Buffers(posted, retired)
    }

    method PostReceive(b: nat)
      requires Valid() && b < count && b !in posted && b !in retired && b !in inHandler
      modifies this`posted, this`llSubmitted, this`lOutstanding
      ensures Valid() && posted == old(posted) + {b}
    {
      posted := posted + {b};
      llSubmitted := llSubmitted + 1;
      lOutstanding := lOutstanding + 1;
    }

    /** Posts every buffer, up to the first that NDK does not take. */
    method SubmitReceiveRequests(takes: nat -> bool) returns (ok: bool)
      requires Valid() && posted == {} && retired == {} && inHandler == {}
      modifies this`posted, this`llSubmitted, this`lOutstanding
      ensures Valid()
      ensures ok <==> Refused(takes, 0, count) == count
      ensures forall b: nat :: b in posted <==> b < Refused(takes, 0, count)
    {
      var b := 0;
      ok := true;
      while b < count
        invariant b <= count && Valid() && ok && Refused(takes, 0, count) == Refused(takes, b, count)
        invariant forall i: nat :: i in posted <==> i < b
      {
        if !takes(b) { return false; }
        PostReceive(b);
        b := b + 1;
      }
    }

    /** One completed receive, already counted as completed. */
    method HandleRcqRcvReq(r: Result)
      requires r.buffer in inHandler && !r.status.Cancelled?
      modifies this
      ensures inHandler == old(inHandler) && llCompleted == old(llCompleted) && retired == old(retired)
      ensures armed == old(armed)
      ensures forall b :: b in posted <==> b in old(posted) || (b == r.buffer && r.status.Success? && r.taken)
      ensures lOutstanding - old(lOutstanding) == llSubmitted - old(llSubmitted)
              == if r.status.Success? && r.taken then 1 else 0
    {
      var resubmit: bool;
      if r.status.Success? {
        if r.bytes >= CQE_SIZE && r.known {
          resubmit := true;  // after the completion of the command
        } else {
          resubmit := true;
        }
      } else {
        resubmit := false;
      }
      if resubmit && r.taken {
        posted := posted + {r.buffer};
        lOutstanding := lOutstanding + 1;
        llSubmitted := llSubmitted + 1;
      }
    }

    /** One fetched result: counted as completed, and handled unless it was cancelled. */
    method HandleResult(r: Result)
      requires Valid() && r.buffer in posted && inHandler == {}
      modifies this
      ensures Valid() && Contents() == Handled(old(Contents()), r) && inHandler == {} && armed == old(armed)
    {
      ghost var before := posted;
      posted, inHandler := posted - {r.buffer}, {r.buffer};
      assert |posted| == |before| - 1 && posted + {r.buffer} == before;
      lOutstanding := lOutstanding - 1;
      llCompleted := llCompleted + 1;
      if !r.status.Cancelled? {
        HandleRcqRcvReq(r);
      }
      if r.status.Success? && r.taken { assert posted == before; } else { assert posted == before - {r.buffer}; }
      inHandler := {};
      if r.buffer !in posted { retired := retired + {r.buffer}; }
    }

    /** One batch of results, from number `done` up to number `end`. */
    method HandleBatch(results: seq<Result>, done: nat, end: nat, ghost start: Buffers)
      requires Valid() && inHandler == {} && Deliverable(start, results)
      requires done <= end <= |results| && Contents() == HandledAll(start, results[..done])
      modifies this
      ensures Valid() && inHandler == {} && armed == old(armed)
      ensures Contents() == HandledAll(start, results[..end])
    {
      var i := done;
      while i < end
        invariant done <= i <= end && Valid() && inHandler == {} && armed == old(armed)
        invariant Contents() == HandledAll(start, results[..i])
      {
        OneMore(start, results, i);
        HandleResult(results[i]);
        i := i + 1;
      }
    }

    /** The callback: takes results, as many at a time as NDK gives, until there are none, and arms the queue if NDK
     still has a receive. */
    method RcqCallback(results: seq<Result>)
      requires Valid() && inHandler == {} && Deliverable(Contents(), results)
      modifies this
      ensures Valid() && inHandler == {}
      ensures Contents() == HandledAll(old(Contents()), results)
      ensures forall x: nat :: x in posted <==> x in old(posted) && AllWell(results, x)
      ensures armed <==> old(armed) || posted != {}
    {
      var done := 0;
      while done < |results|
        invariant done <= |results| && Valid() && inHandler == {} && armed == old(armed)
        invariant Contents() == HandledAll(old(Contents()), results[..done])
      {
        var batch: nat :| 0 < batch <= |results| - done;
        HandleBatch(results, done, done + batch, old(Contents()));
        done := done + batch;
      }
      assert results[..done] == results;
      AllPosted(old(Contents()), results);
      if lOutstanding != 0 { armed := true; }
    }
  }
}

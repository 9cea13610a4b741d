/** The flush of one I/O queue on disconnect, as one processor runs it over the queue's request list. */
module FlushQueues {
  import opened ReqState
  import opened IoProtocol

  /** As much of a request as the flush looks at: its state word and the host I/O it is for. */
  datatype Request = Request(bits: Bits, parent: Option<nat>)

  /** A host I/O: whether its callback pointer is still set, and how often it was called back. */
  datatype HostIo = HostIo(fn: bool, calls: nat)

  /** The flush takes the host I/O out of this request. */
  predicate Loses(x: Request) { Has(x.bits, INITIALIZED) && x.parent.Some? }

  function Emptied(x: Request): Request {
    if Has(x.bits, INITIALIZED) then x.(parent := None) else x
  }

  function Losses(xs: seq<Request>): nat {
    if xs == [] then 0 else Losses(xs[..|xs| - 1]) + (if Loses(xs[|xs| - 1]) then 1 else 0)
  }

  /** One of the requests loses host I/O k. */
  ghost predicate Taken(xs: seq<Request>, k: nat) {
    exists p :: 0 <= p < |xs| && Loses(xs[p]) && xs[p].parent.value == k
  }

  /** A host I/O that is taken is called back, once, if it has its callback and the disconnect is not for asymmetric
   access. */
  ghost function CalledBack(o: HostIo, taken: bool, ana: bool): HostIo {
    if taken && !ana && o.fn then HostIo(false, o.calls + 1) else o
  }

  lemma TakenOne(xs: seq<Request>, i: nat, k: nat)
    requires i < |xs|
    ensures Taken(xs[..i + 1], k) <==> Taken(xs[..i], k) || (Loses(xs[i]) && xs[i].parent.value == k)
  {
    if Taken(xs[..i], k) {
      var p :| 0 <= p < i && Loses(xs[..i][p]) && xs[..i][p].parent.value == k;
      assert xs[..i + 1][p] == xs[..i][p];
    }
    if Loses(xs[i]) && xs[i].parent.value == k { assert xs[..i + 1][i] == xs[i]; }
    if Taken(xs[..i + 1], k) {
      var p :| 0 <= p < i + 1 && Loses(xs[..i + 1][p]) && xs[..i + 1][p].parent.value == k;
      assert p < i ==> xs[..i][p] == xs[..i + 1][p];
    }
  }

  lemma {:induction false} NoLosses(xs: seq<Request>)
    requires forall p :: 0 <= p < |xs| ==> !Loses(xs[p])
    ensures Losses(xs) == 0
  {
    if xs != [] { NoLosses(xs[..|xs| - 1]); }
  }

  /** A second flush finds nothing to take. */
  lemma FlushedOnce(xs: seq<Request>, k: nat)
    ensures var ys := seq(|xs|, p requires 0 <= p < |xs| => Emptied(xs[p])); Losses(ys) == 0 && !Taken(ys, k)
  {
    NoLosses(seq(|xs|, p requires 0 <= p < |xs| => Emptied(xs[p])));
  }

  /** The places of the initialized requests that have a host I/O. */
  ghost function LostAt(xs: seq<Request>): set<int> {
    set p | 0 <= p < |xs| && Has(xs[p].bits, INITIALIZED) && xs[p].parent.Some?
  }

  lemma {:induction false} LossesCount(xs: seq<Request>)
    ensures Losses(xs) == |LostAt(xs)|
  {
    if xs == [] {
      assert LostAt(xs) == {};
    } else {
      var n := |xs| - 1;
      LossesCount(xs[..n]);
      assert LostAt(xs) == LostAt(xs[..n]) + (if Loses(xs[n]) then {n} else {});
    }
  }

  /** An initialized request has host I/O k. */
  ghost predicate Had(xs: seq<Request>, k: nat) {
    exists p :: 0 <= p < |xs| && Has(xs[p].bits, INITIALIZED) && xs[p].parent == Some(k)
  }

  lemma TakenHad(xs: seq<Request>, k: nat)
    ensures Taken(xs, k) <==> Had(xs, k)
  {
    if Had(xs, k) {
      var p :| 0 <= p < |xs| && Has(xs[p].bits, INITIALIZED) && xs[p].parent == Some(k);
      assert Loses(xs[p]);
    }
  }

  class IoQueue {
    const requests: array<Request>
    const ios: array<HostIo>
    var lSubmissionOutstanding: int
    var lOutstandingRequests: int

    constructor (xs: array<Request>, hostIos: array<HostIo>)
      ensures requests == xs && ios == hostIos
    {
      requests, ios := xs, hostIos;
      lSubmissionOutstanding, lOutstandingRequests := 0, 0;
    }

    ghost predicate Valid()
      reads this, requests
    {
      forall p :: 0 <= p < requests.Length && requests[p].parent.Some? ==> requests[p].parent.value < ios.Length
    }

    /** Every initialized request loses its host I/O; each of those is called back, once, if it still has its callback
     and the disconnect is not for asymmetric access; and each is counted down, once for each request. */
    method FlushIOQueue(ana: bool)
      requires Valid()
      modifies this, requests, ios
      ensures Valid()
      ensures forall p :: 0 <= p < requests.Length ==>
                requests[p].bits == old(requests[p].bits)
                && requests[p].parent == if Has(requests[p].bits, INITIALIZED) then None else old(requests[p].parent)
      ensures forall k :: 0 <= k < ios.Length ==>
                if !ana && old(ios[k].fn) && Had(old(requests[..]), k)
                then !ios[k].fn && ios[k].calls == old(ios[k].calls) + 1 else ios[k] == old(ios[k])
      ensures lSubmissionOutstanding == old(lSubmissionOutstanding) - |LostAt(old(requests[..]))|
      ensures lOutstandingRequests == old(lOutstandingRequests) - |LostAt(old(requests[..]))|
    {
      FlushList(ana);
      LossesCount(old(requests[..]));
      forall k: nat ensures Taken(old(requests[..]), k) <==> Had(old(requests[..]), k) {
        TakenHad(old(requests[..]), k);
      }
    }

    method FlushList(ana: bool)
      requires Valid()
      modifies this, requests, ios
      ensures Valid()
      ensures forall p :: 0 <= p < requests.Length ==> requests[p] == Emptied(old(requests[p]))
      ensures forall k :: 0 <= k < ios.Length ==> ios[k] == CalledBack(old(ios[k]), Taken(old(requests[..]), k), ana)
      ensures lSubmissionOutstanding == old(lSubmissionOutstanding) - Losses(old(requests[..]))
      ensures lOutstandingRequests == old(lOutstandingRequests) - Losses(old(requests[..]))
    {
      ghost var xs := requests[..];
      var i := 0;
      while i < requests.Length
        invariant i <= requests.Length && |xs| == requests.Length && xs == old(requests[..])
        invariant forall p :: 0 <= p < requests.Length ==> requests[p] == if p < i then Emptied(xs[p]) else xs[p]
        invariant forall k :: 0 <= k < ios.Length ==> ios[k] == CalledBack(old(ios[k]), Taken(xs[..i], k), ana)
        invariant lSubmissionOutstanding == old(lSubmissionOutstanding) - Losses(xs[..i])
        invariant lOutstandingRequests == old(lOutstandingRequests) - Losses(xs[..i])
      {
        forall k: nat
          ensures Taken(xs[..i + 1], k) <==> Taken(xs[..i], k) || (Loses(xs[i]) && xs[i].parent.value == k)
        {
          TakenOne(xs, i, k);
        }
        assert xs[..i + 1][..i] == xs[..i];
        if Has(requests[i].bits, INITIALIZED) {
          var parent := requests[i].parent;
          requests[i] := requests[i].(parent := None);
          if parent.Some? {
            var k := parent.value;
            if !ana && ios[k].fn { ios[k] := HostIo(false, ios[k].calls + 1); }
            lSubmissionOutstanding := lSubmissionOutstanding - 1;
            lOutstandingRequests := lOutstandingRequests - 1;
          }
        }
        i := i + 1;
      }
      assert xs[..i] == xs;
    }
  }
}

/** NDK objects over the life of a socket's queue pairs: created with rollback, connected, and closed on disconnect. */
module QueuePairs {

  datatype SocketState = Initializing | Initialized | Connecting | Connected | Disconnecting | Disconnected | Closing

  function Rank(s: SocketState): nat {
    match s
    case Initializing => 0
    case Initialized => 1
    case Connecting => 2
    case Connected => 3
    case Disconnecting => 4
    case Disconnected => 5
    case Closing => 6
  }

  datatype Phase = Empty | Created | Joined | Closed

  /** A queue-pair bundle: the handles of its NDK objects, and how far it has come. */
  datatype Bundle = Bundle(phase: Phase, rcq: nat, scq: nat, qp: nat, connector: nat)

  /** Which of the calls that creation makes succeed. */
  datatype Creation = Creation(
    cqParams: bool,
    qpParams: bool,
    rcq: bool,
    scq: bool,
    rcqModeration: bool,
    scqModeration: bool,
    qp: bool)

  /** Which of the calls that a connect makes succeed. */
  datatype Connection = Connection(connector: bool, connect: bool, complete: bool, limits: bool, address: bool)

  function JoinedCount(bs: seq<Bundle>): nat {
    if bs == [] then 0 else JoinedCount(bs[..|bs| - 1]) + (if bs[|bs| - 1].phase.Joined? then 1 else 0)
  }

  lemma {:induction false} JoinedUpdate(bs: seq<Bundle>, j: nat, b: Bundle)
    requires j < |bs|
    ensures JoinedCount(bs[j := b]) ==
            JoinedCount(bs) - (if bs[j].phase.Joined? then 1 else 0) + (if b.phase.Joined? then 1 else 0)
  {
    var n := |bs| - 1;
    if j == n {
      assert bs[j := b][..n] == bs[..n];
    } else {
      assert bs[j := b][..n] == bs[..n][j := b];
      JoinedUpdate(bs[..n], j, b);
    }
  }

  /** The handles that a bundle holds, whether their objects are open or not; 0 is the null handle. */
  function Handles(b: Bundle): set<nat> {
    {b.rcq, b.scq, b.qp, b.connector} - {0}
  }

  predicate Apart(b: Bundle, c: Bundle) { Handles(b) !! Handles(c) }

  /** Of the objects handed out so far, those whose handles are less than `next`, `live` are open; `qpOf` is the queue
   pair that uses a completion queue. A bundle's own objects are open from creation to disconnect. */
  ghost predicate Open(b: Bundle, live: set<nat>, next: nat, qpOf: map<nat, nat>) {
    && (forall h :: h in Handles(b) ==> h < next)
    && (b.rcq in qpOf ==> qpOf[b.rcq] == b.qp) && (b.scq in qpOf ==> qpOf[b.scq] == b.qp)
    && (b.connector == 0 || b.connector !in {b.rcq, b.scq, b.qp})
    && (b.phase.Created? || b.phase.Joined? ==>
          {b.rcq, b.scq, b.qp} <= live && 0 !in {b.rcq, b.scq, b.qp}
          && b.rcq != b.scq && b.qp != b.rcq && b.qp != b.scq)
    && (b.phase.Joined? ==> b.connector in live)
    && (b.phase.Empty? || b.phase.Closed? ==> Handles(b) !! live)
  }

  /** Every bundle has its own objects. */
  ghost predicate AllOpen(bs: seq<Bundle>, live: set<nat>, next: nat, qpOf: map<nat, nat>) {
    && next > 0 && 0 !in live && (forall h :: h in live ==> h < next)
    && 0 !in qpOf && (forall q :: q in qpOf ==> q < next)
    && (forall j :: 0 <= j < |bs| ==> Open(bs[j], live, next, qpOf))
    && (forall j, k :: 0 <= j < |bs| && 0 <= k < |bs| && j != k ==> Apart(bs[j], bs[k]))
  }

  /** The two states agree on handle h. */
  predicate Alike(h: nat, live: set<nat>, qpOf: map<nat, nat>, live': set<nat>, qpOf': map<nat, nat>) {
    (h in live <==> h in live') && (h in qpOf <==> h in qpOf') && (h in qpOf && h in qpOf' ==> qpOf[h] == qpOf'[h])
  }

  /** The objects that were handed out before, and are not b's, are as they were. */
  ghost predicate Elsewhere(b: Bundle, next: nat, live: set<nat>, qpOf: map<nat, nat>, live': set<nat>,
                            qpOf': map<nat, nat>)
  {
    forall h: nat :: h < next && h !in Handles(b) ==> Alike(h, live, qpOf, live', qpOf')
  }

  lemma StaysOpen(b: Bundle, c: Bundle, live: set<nat>, next: nat, qpOf: map<nat, nat>, live': set<nat>, next': nat,
                  qpOf': map<nat, nat>)
    requires Open(c, live, next, qpOf) && Apart(b, c) && Elsewhere(b, next, live, qpOf, live', qpOf')
    requires 0 < next <= next' && 0 !in live && 0 !in live' && 0 !in qpOf && 0 !in qpOf'
    ensures Open(c, live', next', qpOf')
  {
    forall h | h in Handles(c) + {0} ensures Alike(h, live, qpOf, live', qpOf') {
      if h != 0 { assert h in Handles(c) && h !in Handles(b); }
    }
    assert c.rcq in Handles(c) + {0} && c.scq in Handles(c) + {0} && c.qp in Handles(c) + {0};
    assert c.connector in Handles(c) + {0};
  }

  /** A bundle may take new handles, or keep its own, without touching the others. */
  lemma Replaced(bs: seq<Bundle>, j: nat, b: Bundle, live: set<nat>, next: nat, qpOf: map<nat, nat>, live': set<nat>,
                 next': nat, qpOf': map<nat, nat>)
    requires AllOpen(bs, live, next, qpOf) && j < |bs| && Open(b, live', next', qpOf') && next <= next'
    requires 0 !in live' && (forall h :: h in live' ==> h < next')
    requires 0 !in qpOf' && (forall q :: q in qpOf' ==> q < next')
    requires Elsewhere(bs[j], next, live, qpOf, live', qpOf')
    requires forall h :: h in Handles(b) ==> h in Handles(bs[j]) || h >= next
    ensures AllOpen(bs[j := b], live', next', qpOf')
  {
    forall k | 0 <= k < |bs| && k != j
      ensures Open(bs[k], live', next', qpOf') && Apart(bs[k], b)
    {
      assert Apart(bs[j], bs[k]) && Open(bs[k], live, next, qpOf);
      StaysOpen(bs[j], bs[k], live, next, qpOf, live', next', qpOf');
    }
    var cs := bs[j := b];
    forall i, k | 0 <= i < |cs| && 0 <= k < |cs| && i != k ensures Apart(cs[i], cs[k]) { assert Apart(bs[i], bs[k]); }
  }

  /** What a creation that fails leaves in the bundle: null where NDK made no object, and the handles of the completion
   queues that it made and closed again. */
  function Abandoned(b: Bundle, c: Creation, moderates: bool, rcq: nat, scq: nat): Bundle {
    if !c.cqParams || !c.qpParams then b
    else if !c.rcq then b.(rcq := 0)
    else if !c.scq then b.(rcq := rcq, scq := 0)
    else if moderates && !(c.rcqModeration && c.scqModeration) then b.(rcq := rcq, scq := scq)
    else b.(rcq := rcq, scq := scq, qp := 0)
  }

  class Socket {
    const moderates: bool
    var live: set<nat>
    var next: nat
    var buffers: nat
    var qpOf: map<nat, nat>
    var bundles: seq<Bundle>
    var state: SocketState
    var refCount: int
    var qpCount: nat
    var armed: set<nat>
    /** History: a handle was closed that no object was open for. */
    var misused: bool

    constructor (moderation: bool, n: nat)
      ensures Valid() && Paired() && !misused && state == Initialized && live == {} && refCount == 0
      ensures bundles == seq(n, i => Bundle(Empty, 0, 0, 0, 0)) && moderates == moderation
    {
      moderates := moderation;
      live, next, buffers, qpOf := {}, 1, 0, map[];
      bundles := seq(n, i => Bundle(Empty, 0, 0, 0, 0));
      state, refCount, qpCount, armed, misused := Initialized, 0, 0, {}, false;
      new;
      NoneJoined(bundles);
    }

    /** Every bundle has its own objects, open from creation to disconnect. */
    ghost predicate Valid()
      reads this
    {
      refCount >= 0 && AllOpen(bundles, live, next, qpOf)
    }

    /** The reference count is the number of connected pairs, and the socket is Connected while there is one. */
    ghost predicate Paired()
      reads this
    {
      refCount == JoinedCount(bundles) && (refCount > 0 ==> state == Connected)
    }

    /** A new NDK object. */
    method NewObject() returns (h: nat)
      requires next > 0
      modifies this`live, this`next
      ensures h == old(next) > 0 && next == old(next) + 1 && live == old(live) + {h}
    {
      h := next;
      next := next + 1;
      live := live + {h};
    }

    /** A completion queue may be closed only after the queue pair that uses it. */
    method CloseCompletionQueue(h: nat)
      requires h in qpOf ==> qpOf[h] !in live
      modifies this`live, this`misused
      ensures live == old(live) - {h} && misused == (old(misused) || h !in old(live))
    {
      misused := misused || h !in live;
      live := live - {h};
    }

    method CloseObject(h: nat)
      modifies this`live, this`misused
      ensures live == old(live) - {h} && misused == (old(misused) || h !in old(live))
    {
      misused := misused || h !in live;
      live := live - {h};
    }

    // ---- Creation ----

    /** Creates the two completion queues and the queue pair of bundle j. A creation that fails anywhere gives back
     every object and both parameter buffers, and leaves only null handles and handles of closed objects behind. */
    method CreateRdmaQPair(j: nat, c: Creation) returns (ok: bool)
      requires Valid() && j < |bundles| && (bundles[j].phase.Empty? || bundles[j].phase.Closed?)
      modifies this
      ensures Valid() && state == old(state) && refCount == old(refCount) && armed == old(armed)
      ensures (old(Paired()) ==> Paired()) && misused == old(misused)
      ensures ok <==> c.cqParams && c.qpParams && c.rcq && c.scq && c.qp
                      && (moderates ==> c.rcqModeration && c.scqModeration)
      ensures buffers == old(buffers) && |bundles| == |old(bundles)| && bundles == old(bundles)[j := bundles[j]]
      ensures !ok ==> live == old(live) && qpOf == old(qpOf) && qpCount == old(qpCount)
      ensures !ok ==> bundles[j] == Abandoned(old(bundles[j]), c, moderates, bundles[j].rcq, bundles[j].scq)
      ensures ok ==> bundles[j] == old(bundles[j]).(phase := Created, rcq := bundles[j].rcq, scq := bundles[j].scq,
                                                    qp := bundles[j].qp, connector := 0)
                     && live == old(live) + {bundles[j].rcq, bundles[j].scq, bundles[j].qp}
                     && {bundles[j].rcq, bundles[j].scq, bundles[j].qp} !! old(live)
                     && qpCount == (old(qpCount) + 1) % 0x1_0000
    {
      if !c.cqParams { return false; }
      buffers := buffers + 1;
      if !c.qpParams {
        buffers := buffers - 1;
        return false;
      }
      buffers := buffers + 1;
      ok := CreateObjects(j, c);
      buffers := buffers - 2;
    }

    /** Creates the two completion queues of a bundle, and sets their interrupt moderation if the adapter has it. */
    method CreateCompletionQueues(b: Bundle, c: Creation) returns (ok: bool, d: Bundle)
      requires next > 0 && (forall h :: h in live ==> h < next) && (forall q :: q in qpOf ==> q < next)
      modifies this`live, this`next, this`misused
      ensures ok <==> c.rcq && c.scq && (moderates ==> c.rcqModeration && c.scqModeration)
      ensures next >= old(next) && (!ok ==> live == old(live)) && misused == old(misused)
      ensures ok ==> live == old(live) + {d.rcq, d.scq}
      ensures d == if !c.rcq then b.(rcq := 0) else if !c.scq then b.(rcq := d.rcq, scq := 0)
                   else b.(rcq := d.rcq, scq := d.scq)
      ensures (c.rcq ==> old(next) <= d.rcq < next) && (c.rcq && c.scq ==> old(next) <= d.rcq < d.scq < next)
    {
      ghost var before := live;
      if !c.rcq { return false, b.(rcq := 0); }
      var rcq := NewObject();
      if !c.scq {
        CloseCompletionQueue(rcq);
        assert live == before;
        return false, b.(rcq := rcq, scq := 0);
      }
      var scq := NewObject();
      d := b.(rcq := rcq, scq := scq);
      ok := !moderates || (c.rcqModeration && c.scqModeration);
      if !ok { CloseBoth(rcq, scq, before); }
    }

    method CloseBoth(rcq: nat, scq: nat, ghost before: set<nat>)
      requires rcq != scq && live == before + {rcq, scq} && rcq !in before && scq !in before && rcq !in qpOf
      requires scq !in qpOf
      modifies this`live, this`misused
      ensures live == before && misused == old(misused)
    {
      CloseCompletionQueue(rcq);
      CloseCompletionQueue(scq);
      assert live == before;
    }

    method CreateObjects(j: nat, c: Creation) returns (ok: bool)
      requires Valid() && j < |bundles| && (bundles[j].phase.Empty? || bundles[j].phase.Closed?)
      requires c.cqParams && c.qpParams
      modifies this`live, this`next, this`qpOf, this`qpCount, this`bundles, this`misused
      ensures Valid() && (old(Paired()) ==> Paired()) && misused == old(misused)
      ensures ok <==> c.rcq && c.scq && c.qp && (moderates ==> c.rcqModeration && c.scqModeration)
      ensures |bundles| == |old(bundles)| && bundles == old(bundles)[j := bundles[j]]
      ensures !ok ==> live == old(live) && qpOf == old(qpOf) && qpCount == old(qpCount)
      ensures !ok ==> bundles[j] == Abandoned(old(bundles[j]), c, moderates, bundles[j].rcq, bundles[j].scq)
      ensures ok ==> bundles[j] == old(bundles[j]).(phase := Created, rcq := bundles[j].rcq, scq := bundles[j].scq,
                                                    qp := bundles[j].qp, connector := 0)
                     && live == old(live) + {bundles[j].rcq, bundles[j].scq, bundles[j].qp}
                     && {bundles[j].rcq, bundles[j].scq, bundles[j].qp} !! old(live)
                     && qpCount == (old(qpCount) + 1) % 0x1_0000
    {
      var b: Bundle;
      ok, b := CreateBundle(j, c);
      JoinedUpdate(bundles, j, b);
      bundles := bundles[j := b];
    }

    /** The objects of bundle j, and the bundle to be recorded for them. */
    method CreateBundle(j: nat, c: Creation) returns (ok: bool, b: Bundle)
      requires Valid() && j < |bundles| && (bundles[j].phase.Empty? || bundles[j].phase.Closed?)
      requires c.cqParams && c.qpParams
      modifies this`live, this`next, this`qpOf, this`qpCount, this`misused
      ensures AllOpen(bundles[j := b], live, next, qpOf) && misused == old(misused)
      ensures ok <==> c.rcq && c.scq && c.qp && (moderates ==> c.rcqModeration && c.scqModeration)
      ensures !ok ==> live == old(live) && qpOf == old(qpOf) && qpCount == old(qpCount)
      ensures !ok ==> b == Abandoned(bundles[j], c, moderates, b.rcq, b.scq)
      ensures ok ==> b == Bundle(Created, b.rcq, b.scq, b.qp, 0) && live == old(live) + {b.rcq, b.scq, b.qp}
                     && {b.rcq, b.scq, b.qp} !! old(live) && qpCount == (old(qpCount) + 1) % 0x1_0000
    {
      ghost var before, first := live, next;
      ok, b := CreateCompletionQueues(bundles[j], c);
      if ok && c.qp {
        var qp := NewObject();
        b := Bundle(Created, b.rcq, b.scq, qp, 0);
        Makes(bundles, j, b, before, first, qpOf);
        qpOf := qpOf[b.rcq := qp][b.scq := qp];
        qpCount := (qpCount + 1) % 0x1_0000;
        assert live == before + {b.rcq, b.scq, b.qp};
        return;
      }
      if ok {
        CloseBoth(b.rcq, b.scq, before);
        b := b.(qp := 0);
      }
      ok := false;
      Abandons(bundles, j, b, before, first, next, qpOf);
    }

    // ---- Connect and disconnect ----

    /** Connects bundle j's pair. A failure at the connector or at the connect leaves the live objects as on entry; a
     later one leaves the connector open, in the bundle but not counted. */
    method ConnectRdmaQPair(j: nat, c: Connection) returns (ok: bool)
      requires Valid() && j < |bundles| && bundles[j].phase.Created?
      modifies this`live, this`next, this`bundles, this`armed, this`state, this`refCount, this`misused
      ensures Valid() && |bundles| == |old(bundles)| && (old(Paired()) ==> Paired()) && misused == old(misused)
      ensures ok <==> c.connector && c.connect && c.complete && c.limits && c.address
      ensures bundles == old(bundles)[j := bundles[j]]
      ensures bundles[j] == old(bundles[j]).(phase := if ok then Joined else Created, connector := bundles[j].connector)
      ensures ok ==>
                && state == Connected && refCount == old(refCount) + 1
                && live == old(live) + {bundles[j].connector} && bundles[j].connector !in old(live)
                && armed == old(armed) + {bundles[j].rcq, bundles[j].scq}
      ensures !ok ==> state == old(state) && refCount == old(refCount) && armed == old(armed)
      ensures !ok && c.connector && c.connect ==>
                live == old(live) + {bundles[j].connector} && bundles[j].connector !in old(live)
      ensures !ok && !(c.connector && c.connect) ==> live == old(live) && bundles[j].connector !in live
    {
      ghost var before, first := live, next;
      var h := OpenConnector(c);
      ok := c.connector && c.connect && c.complete && c.limits && c.address;
      var b := bundles[j].(phase := if ok then Joined else Created, connector := h);
      Attaches(bundles, j, b, before, live, first, next, qpOf);
      JoinedUpdate(bundles, j, b);
      bundles := bundles[j := b];
      if ok {
        armed := armed + {b.rcq, b.scq};
        state := Connected;
        refCount := refCount + 1;
      }
    }

    /** Creates the connector and connects it, or closes it again. */
    method OpenConnector(c: Connection) returns (h: nat)
      requires next > 0 && next !in live
      modifies this`live, this`next, this`misused
      ensures misused == old(misused) && next == old(next) + (if c.connector then 1 else 0)
      ensures h == (if c.connector then old(next) else 0)
      ensures live == old(live) + (if c.connector && c.connect then {h} else {})
    {
      if !c.connector { return 0; }
      h := NewObject();
      if !c.connect { CloseObject(h); }
    }

    /** The socket is Disconnected only by a disconnect that finds no reference left, and then the count stays as it
     is. */
    method DropReference()
      modifies this`state, this`refCount
      ensures if old(refCount) == 0 then state == Disconnected && refCount == 0
              else state == old(state) && refCount == (if old(refCount) > 0 then old(refCount) - 1 else old(refCount))
    {
      if refCount == 0 {
        state := Disconnected;
      } else if refCount > 0 {
        refCount := refCount - 1;
      }
    }

    /** Closes whatever handles bundle j holds, the queue pair before its completion queues, connected or not. No
     handle is misused exactly if all four are open; the count stays the number of connected pairs exactly if the
     bundle was connected or the count was zero; and only in the second case does the socket become Disconnected. */
    method DisconnectSyncAsyncRdmaSocketQP(j: nat)
      requires Valid() && j < |bundles|
      modifies this`live, this`bundles, this`state, this`refCount, this`misused
      ensures Valid() && |bundles| == |old(bundles)|
      ensures old(state) in {Initializing, Initialized, Connecting} ==>
                live == old(live) && bundles == old(bundles) && state == old(state) && refCount == old(refCount)
                && misused == old(misused)
      ensures old(state) in {Connected, Disconnecting, Disconnected, Closing} ==>
                var b := old(bundles[j]);
                && bundles == old(bundles)[j := b.(phase := Closed)]
                && live == old(live) - Handles(b)
                && misused == (old(misused) || !({b.rcq, b.scq, b.qp, b.connector} <= old(live)))
                && state == (if old(refCount) == 0 then Disconnected else old(state))
                && refCount == (if old(refCount) == 0 then 0 else old(refCount) - 1)
                && (old(Paired()) ==> (Paired() <==> b.phase.Joined? || old(refCount) == 0))
                && (old(Paired()) && b.phase.Joined? ==> old(refCount) > 0 && misused == old(misused))
    {
      if Rank(state) > Rank(Connecting) {
        var b := bundles[j];
        assert Open(b, live, next, qpOf);
        Detaches(bundles, j, live, next, qpOf);
        if b.phase.Joined? { JoinedHere(bundles, j); }
        JoinedUpdate(bundles, j, b.(phase := Closed));
        CloseHandles(b);
        bundles := bundles[j := b.(phase := Closed)];
        DropReference();
      }
    }

    method CloseHandles(b: Bundle)
      requires Open(b, live, next, qpOf) && 0 !in live && 0 !in qpOf
      modifies this`live, this`misused
      ensures live == old(live) - Handles(b)
      ensures misused == (old(misused) || !({b.rcq, b.scq, b.qp, b.connector} <= old(live)))
    {
      CloseObject(b.connector);
      CloseObject(b.qp);
      CloseCompletionQueue(b.rcq);
      CloseCompletionQueue(b.scq);
    }
  }

  // ---- Each change of a bundle leaves every bundle its own objects ----

  lemma Makes(bs: seq<Bundle>, j: nat, b: Bundle, live: set<nat>, next: nat, qpOf: map<nat, nat>)
    requires AllOpen(bs, live, next, qpOf) && j < |bs| && b == Bundle(Created, b.rcq, b.scq, b.qp, 0)
    requires next <= b.rcq < b.scq < b.qp
    ensures AllOpen(bs[j := b], live + {b.rcq, b.scq, b.qp}, b.qp + 1, qpOf[b.rcq := b.qp][b.scq := b.qp])
  {
    Replaced(bs, j, b, live, next, qpOf, live + {b.rcq, b.scq, b.qp}, b.qp + 1, qpOf[b.rcq := b.qp][b.scq := b.qp]);
  }

  lemma Abandons(bs: seq<Bundle>, j: nat, b: Bundle, live: set<nat>, next: nat, next': nat, qpOf: map<nat, nat>)
    requires AllOpen(bs, live, next, qpOf) && j < |bs| && (bs[j].phase.Empty? || bs[j].phase.Closed?) && next <= next'
    requires b == bs[j].(rcq := b.rcq, scq := b.scq, qp := b.qp)
    requires (b.rcq == 0 || next <= b.rcq < next') && (b.scq in {0, bs[j].scq} || next <= b.scq < next')
    requires b.qp == bs[j].qp || (b.qp == 0 && next <= b.scq)
    ensures AllOpen(bs[j := b], live, next', qpOf)
  {
    assert Open(bs[j], live, next, qpOf) && Handles(b) <= Handles(bs[j]) + {b.rcq, b.scq};
    assert b.connector == 0 || b.connector in Handles(bs[j]);
    assert Handles(b) !! live;
    Replaced(bs, j, b, live, next, qpOf, live, next', qpOf);
  }

  lemma Attaches(bs: seq<Bundle>, j: nat, b: Bundle, live: set<nat>, live': set<nat>, next: nat, next': nat,
                 qpOf: map<nat, nat>)
    requires AllOpen(bs, live, next, qpOf) && j < |bs| && bs[j].phase.Created?
    requires b == bs[j].(phase := b.phase, connector := b.connector) && b.phase in {Created, Joined}
    requires (b.connector == 0 && next' == next) || (b.connector == next && next' == next + 1)
    requires live' == live || (b.connector == next && live' == live + {next})
    requires b.phase.Joined? ==> b.connector in live'
    ensures AllOpen(bs[j := b], live', next', qpOf)
  {
    assert Open(bs[j], live, next, qpOf);
    Replaced(bs, j, b, live, next, qpOf, live', next', qpOf);
  }

  lemma Detaches(bs: seq<Bundle>, j: nat, live: set<nat>, next: nat, qpOf: map<nat, nat>)
    requires AllOpen(bs, live, next, qpOf) && j < |bs|
    ensures AllOpen(bs[j := bs[j].(phase := Closed)], live - Handles(bs[j]), next, qpOf)
  {
    assert Open(bs[j], live, next, qpOf);
    Replaced(bs, j, bs[j].(phase := Closed), live, next, qpOf, live - Handles(bs[j]), next, qpOf);
  }

  // ---- What a late failure to connect leads to ----

  /** A connect that fails after the NDK connect leaves its connector open, in a pair that is not connected. */
  method LeftOpen() returns (s: Socket)
    ensures fresh(s) && s.Valid() && s.Paired() && |s.bundles| == 2 && s.state == Connected && !s.misused
    ensures s.bundles[0].phase.Joined? && s.refCount == 1
    ensures var b := s.bundles[1]; b.phase.Created? && {b.rcq, b.scq, b.qp, b.connector} <= s.live
  {
    s := new Socket(false, 2);
    var made := Creation(true, true, true, true, true, true, true);
    var joined := Connection(true, true, true, true, true);
    var ok := s.CreateRdmaQPair(0, made);
    ok := s.CreateRdmaQPair(1, made);
    ok := s.ConnectRdmaQPair(0, joined);
    ok := s.ConnectRdmaQPair(1, joined.(complete := false));
  }

  /** A disconnect of that pair takes the reference of the other, which is still connected; no handle is misused. */
  method StolenReference() returns (s: Socket)
    ensures fresh(s) && s.Valid() && |s.bundles| == 2 && s.bundles[0].phase.Joined? && s.state == Connected
    ensures s.refCount == 0 && !s.Paired() && !s.misused
  {
    s := LeftOpen();
    s.DisconnectSyncAsyncRdmaSocketQP(1);
    JoinedHere(s.bundles, 0);
  }

  /** The places of the connected bundles. */
  ghost function JoinedAt(bs: seq<Bundle>): set<int> {
    set j | 0 <= j < |bs| && bs[j].phase.Joined?
  }

  /** The count is that of the connected bundles. */
  lemma {:induction false} JoinedCounts(bs: seq<Bundle>)
    ensures JoinedCount(bs) == |JoinedAt(bs)|
  {
    if bs == [] {
      assert JoinedAt(bs) == {};
    } else {
      var n := |bs| - 1;
      JoinedCounts(bs[..n]);
      assert JoinedAt(bs) == JoinedAt(bs[..n]) + (if bs[n].phase.Joined? then {n} else {});
    }
  }

  lemma {:induction false} JoinedHere(bs: seq<Bundle>, j: nat)
    requires j < |bs| && bs[j].phase.Joined?
    ensures JoinedCount(bs) > 0
  {
    if j < |bs| - 1 { JoinedHere(bs[..|bs| - 1], j); }
  }

  lemma {:induction false} NoneJoined(bs: seq<Bundle>)
    requires forall j :: 0 <= j < |bs| ==> !bs[j].phase.Joined?
    ensures JoinedCount(bs) == 0
  {
    if bs != [] { NoneJoined(bs[..|bs| - 1]); }
  }
}

/**
 The command ids of one queue: first-fit allocation of a request with the next id, the table that maps an id in flight
 to its request, and the plain scan over all requests that the table replaces.
 */
module CommandIds {
  import opened IoProtocol
  import opened Search
  import opened TicketIds

  /** Where a request is in its life, as far as its command id is concerned. */
  datatype Life = Idle | Claimed | Numbered | Inserted | Answered

  /** `ticket` is history: the count that the id was taken from, None before the first. */
  datatype Request = Request(life: Life, cmdId: nat, ticket: Option<nat>)

  datatype Ids = Ids(requests: seq<Request>, table: seq<Option<nat>>, next: nat)

  const NEW_REQUEST: Request := Request(Idle, UNUSED_ID, None)

  function Fresh(n: nat): Ids {
    Ids(seq(n, i => NEW_REQUEST), NoEntries(), 0)
  }

  // ---- The operations ----

  /** The first idle request at or after p. */
  function FirstIdle(xs: seq<Request>, p: nat): Option<nat>
    requires p <= |xs|
  {
    First(xs, (x: Request) => x.life.Idle?, p)
  }

  /** The first request at or after p that holds the id c, idle or not. */
  function FirstMatch(xs: seq<Request>, c: nat, p: nat): Option<nat>
    requires p <= |xs|
  {
    First(xs, (x: Request) => x.cmdId == c, p)
  }

  /** The compare-and-swap on a request found idle. */
  function Claim(s: Ids, i: nat): Ids
    requires i < |s.requests|
  {
    s.(requests := s.requests[i := s.requests[i].(life := Claimed)])
  }

  /** Takes the next id. */
  function Number(s: Ids, i: nat): Ids
    requires i < |s.requests|
  {
    s.(requests := s.requests[i := Request(Numbered, s.next % ID_COUNT, Some(s.next))], next := s.next + 1)
  }

  /** An allocation that nobody interrupts. */
  function Allocate(s: Ids): Ids {
    var p := FirstIdle(s.requests, 0);
    if p.None? then s else Number(Claim(s, p.value), p.value)
  }

  /** The compare-and-swap on the table; an occupied entry is left as it is. */
  function Insert(s: Ids, i: nat): Ids
    requires i < |s.requests| && s.requests[i].cmdId < |s.table|
  {
    var c := s.requests[i].cmdId;
    s.(requests := s.requests[i := s.requests[i].(life := Inserted)],
       table := if s.table[c] == None then s.table[c := Some(i)] else s.table)
  }

  /** The lookup through the table. */
  function Lookup(s: Ids, c: nat): Option<nat>
    requires c < |s.table|
  {
    if s.table[c].Some? && s.table[c].value < |s.requests| && s.requests[s.table[c].value].cmdId == c
    then s.table[c] else None
  }

  /** The lookup by a plain scan. */
  function Scan(s: Ids, c: nat): Option<nat> {
    FirstMatch(s.requests, c, 0)
  }

  /** A response for id c: looked up through the table, and its entry removed. */
  function Respond(s: Ids, c: nat): Ids
    requires c < |s.table|
  {
    var p := Lookup(s, c);
    if p.None? then s
    else s.(requests := s.requests[p.value := s.requests[p.value].(life := Answered)], table := s.table[c := None])
  }

  /** A completed request becomes idle and keeps its id. */
  function Release(s: Ids, i: nat): Ids
    requires i < |s.requests|
  {
    s.(requests := s.requests[i := s.requests[i].(life := Idle)])
  }

  // ---- Runs ----

  datatype Op = Allocates | Claims(i: nat) | Numbers(i: nat) | Inserts(i: nat) | Responds(c: nat) | Releases(i: nat)

  predicate Is(s: Ids, i: nat, life: Life) { i < |s.requests| && s.requests[i].life == life }

  /** A compare-and-swap that succeeds finds its request idle; a request below may have been freed since
   it was passed. */
  predicate Ready(s: Ids, o: Op) {
    match o
    case Allocates => true
    case Claims(i) => Is(s, i, Idle)
    case Numbers(i) => Is(s, i, Claimed)
    case Inserts(i) => Is(s, i, Numbered) && s.requests[i].cmdId < |s.table|
    case Responds(c) => c < |s.table|
    case Releases(i) => Is(s, i, Answered)
  }

  function Do(s: Ids, o: Op): Ids
    requires Ready(s, o)
  {
    match o
    case Allocates => Allocate(s)
    case Claims(i) => Claim(s, i)
    case Numbers(i) => Number(s, i)
    case Inserts(i) => Insert(s, i)
    case Responds(c) => Respond(s, c)
    case Releases(i) => Release(s, i)
  }

  /** The request is in the window: it got its id among the last 65536. */
  predicate Recent(s: Ids, x: Request) { x.ticket.Some? && s.next - x.ticket.value <= ID_COUNT }

  /** Every request whose id is in the table, or about to be entered, is in the window. */
  predicate InWindow(s: Ids) {
    forall i :: 0 <= i < |s.requests| && (s.requests[i].life.Numbered? || s.requests[i].life.Inserted?) ==>
                  Recent(s, s.requests[i])
  }

  /** The run can be made, and every state that it passes through satisfies the window. */
  predicate Goes(s: Ids, run: seq<Op>)
    decreases |run|
  {
    InWindow(s) && (run == [] || (Ready(s, run[0]) && Goes(Do(s, run[0]), run[1..])))
  }

  function After(s: Ids, run: seq<Op>): Ids
    requires Goes(s, run)
    decreases |run|
  {
    if run == [] then s else After(Do(s, run[0]), run[1..])
  }

  // ---- What every run keeps ----

  predicate RequestOk(s: Ids, x: Request) {
    && x.cmdId == IdOf(x.ticket)
    && (if x.ticket.None? then x.life.Idle? || x.life.Claimed? else x.ticket.value < s.next)
  }

  predicate Different(x: Request, y: Request) { x.ticket.None? || x.ticket != y.ticket }

  predicate EntryOk(s: Ids, c: nat, e: Option<nat>) {
    e.Some? ==> Is(s, e.value, Inserted) && s.requests[e.value].cmdId == c
  }

  /** Requests show the id of their last ticket, no two share a ticket, and the table holds the inserted ones. */
  ghost predicate Kept(s: Ids) {
    && |s.table| == ID_COUNT
    && (forall i: nat :: i < |s.requests| ==> RequestOk(s, s.requests[i]))
    && (forall j: nat, i: nat :: j < i < |s.requests| ==> Different(s.requests[j], s.requests[i]))
    && (forall c: nat :: c < |s.table| ==> EntryOk(s, c, s.table[c]))
    && (forall i: nat :: i < |s.requests| && s.requests[i].life.Inserted? ==>
          s.requests[i].cmdId < ID_COUNT && s.table[s.requests[i].cmdId] == Some(i))
  }

  lemma FreshKept(n: nat)
    ensures Kept(Fresh(n))
  {
  }

  /** No two requests whose ids are in the table, or about to be entered, share an id. */
  lemma InFlightDiffer(s: Ids, j: nat, i: nat)
    requires Kept(s) && j < |s.requests| && i < |s.requests| && j != i
    requires Recent(s, s.requests[i]) && Recent(s, s.requests[j])
    ensures s.requests[j].cmdId != s.requests[i].cmdId
  {
    var x, y := s.requests[j], s.requests[i];
    assert RequestOk(s, x) && RequestOk(s, y) && (if j < i then Different(x, y) else Different(y, x));
    NearIds(x.ticket.value, y.ticket.value);
  }

  /** A step on one request that leaves its ticket as it is, or takes the next for it. */
  lemma RequestKept(s: Ids, t: Ids, i: nat)
    requires Kept(s) && i < |s.requests| && |t.requests| == |s.requests| && t.requests == s.requests[i := t.requests[i]]
    requires if t.next == s.next then t.requests[i] == s.requests[i].(life := t.requests[i].life)
             else t.next == s.next + 1 && t.requests[i] == Request(Numbered, s.next % ID_COUNT, Some(s.next))
    requires t.requests[i].ticket.None? ==> t.requests[i].life.Idle? || t.requests[i].life.Claimed?
    ensures forall j: nat :: j < |t.requests| ==> RequestOk(t, t.requests[j])
    ensures forall j: nat, k: nat :: j < k < |t.requests| ==> Different(t.requests[j], t.requests[k])
  {
    forall j: nat | j < |t.requests| ensures RequestOk(t, t.requests[j]) { assert RequestOk(s, s.requests[j]); }
    forall j: nat, k: nat | j < k < |t.requests| ensures Different(t.requests[j], t.requests[k]) {
      assert Different(s.requests[j], s.requests[k]) && RequestOk(s, s.requests[j]) && RequestOk(s, s.requests[k]);
    }
  }

  lemma ClaimKept(s: Ids, i: nat)
    requires Kept(s) && Is(s, i, Idle)
    ensures Kept(Claim(s, i))
  {
    var t := Claim(s, i);
    RequestKept(s, t, i);
    forall c: nat | c < |t.table| ensures EntryOk(t, c, t.table[c]) { assert EntryOk(s, c, s.table[c]); }
  }

  lemma NumberKept(s: Ids, i: nat)
    requires Kept(s) && Is(s, i, Claimed)
    ensures Kept(Number(s, i))
  {
    var t := Number(s, i);
    RequestKept(s, t, i);
    forall c: nat | c < |t.table| ensures EntryOk(t, c, t.table[c]) { assert EntryOk(s, c, s.table[c]); }
  }

  lemma AllocateKept(s: Ids)
    requires Kept(s)
    ensures Kept(Allocate(s))
  {
    var p := FirstIdle(s.requests, 0);
    if p.Some? {
      ClaimKept(s, p.value);
      NumberKept(Claim(s, p.value), p.value);
    }
  }

  lemma InsertKept(s: Ids, i: nat)
    requires Kept(s) && InWindow(s) && Ready(s, Inserts(i))
    ensures s.table[s.requests[i].cmdId] == None && Kept(Insert(s, i))
  {
    var c := s.requests[i].cmdId;
    assert EntryOk(s, c, s.table[c]) && RequestOk(s, s.requests[i]);
    if s.table[c].Some? { InFlightDiffer(s, s.table[c].value, i); }
    var t := Insert(s, i);
    RequestKept(s, t, i);
    forall d: nat | d < |s.table| ensures EntryOk(t, d, t.table[d]) { assert EntryOk(s, d, s.table[d]); }
  }

  lemma RespondKept(s: Ids, c: nat)
    requires Kept(s) && c < |s.table|
    ensures Kept(Respond(s, c))
  {
    assert EntryOk(s, c, s.table[c]);
    if s.table[c].Some? {
      var t := Respond(s, c);
      assert RequestOk(s, s.requests[s.table[c].value]);
      RequestKept(s, t, s.table[c].value);
      forall d: nat | d < |t.table| ensures EntryOk(t, d, t.table[d]) { assert EntryOk(s, d, s.table[d]); }
    }
  }

  lemma ReleaseKept(s: Ids, i: nat)
    requires Kept(s) && Ready(s, Releases(i))
    ensures Kept(Release(s, i))
  {
    var t := Release(s, i);
    RequestKept(s, t, i);
    forall d: nat | d < |s.table| ensures EntryOk(t, d, s.table[d]) { assert EntryOk(s, d, s.table[d]); }
  }

  lemma DoKept(s: Ids, o: Op)
    requires Kept(s) && InWindow(s) && Ready(s, o)
    ensures Kept(Do(s, o))
  {
    match o {
      case Allocates => AllocateKept(s);
      case Claims(i) => ClaimKept(s, i);
      case Numbers(i) => NumberKept(s, i);
      case Inserts(i) => InsertKept(s, i);
      case Responds(c) => RespondKept(s, c);
      case Releases(i) => ReleaseKept(s, i);
    }
  }

  lemma {:induction false} RunKept(s: Ids, run: seq<Op>)
    requires Kept(s) && Goes(s, run)
    ensures Kept(After(s, run)) && InWindow(After(s, run))
    decreases |run|
  {
    if run != [] {
      DoKept(s, run[0]);
      RunKept(Do(s, run[0]), run[1..]);
    }
  }

  // ---- The table and the scan ----

  /** The id's command has been inserted and not answered: a response with it may come. */
  ghost predicate InFlight(s: Ids, c: nat) {
    exists i: nat :: Is(s, i, Inserted) && s.requests[i].cmdId == c
  }

  /** A request of the lower ones shadows the one that the table holds. */
  ghost predicate Shadowed(s: Ids, c: nat) {
    exists i: nat, j: nat ::
      Is(s, i, Inserted) && s.requests[i].cmdId == c && j < i
      && s.requests[i].ticket.Some? && Shadows(s.requests[j].ticket, s.requests[i].ticket.value)
  }

  lemma LowerShowsIff(s: Ids, j: nat, i: nat)
    requires Kept(s) && j < i < |s.requests| && s.requests[i].ticket.Some?
    ensures s.requests[j].cmdId == s.requests[i].cmdId
            <==> Shadows(s.requests[j].ticket, s.requests[i].ticket.value)
  {
    assert RequestOk(s, s.requests[j]) && RequestOk(s, s.requests[i]) && Different(s.requests[j], s.requests[i]);
    ShowsIff(s.requests[j].ticket, s.requests[i].ticket.value);
  }

  /** However claims, ids, inserts, responses and releases interleave: the table answers exactly for the ids in flight,
   and for those the scan gives the same request exactly if no lower one shadows it. For any other id the table has
   nothing, though the scan finds whoever shows it. */
  lemma LookupIsScan(n: nat, run: seq<Op>, c: nat)
    requires Goes(Fresh(n), run) && c < ID_COUNT
    ensures |After(Fresh(n), run).table| == ID_COUNT
    ensures var s := After(Fresh(n), run);
            && (Lookup(s, c).Some? <==> InFlight(s, c))
            && (InFlight(s, c) ==> (Lookup(s, c) == Scan(s, c) <==> !Shadowed(s, c)))
            && (Scan(s, c).Some? <==> exists j: nat :: j < |s.requests| && s.requests[j].cmdId == c)
  {
    var s := After(Fresh(n), run);
    FreshKept(n);
    RunKept(Fresh(n), run);
    assert EntryOk(s, c, s.table[c]);
    if s.table[c].Some? {
      var i := s.table[c].value;
      assert Is(s, i, Inserted);
      FirstIff(s.requests, (x: Request) => x.cmdId == c, i);
      forall j: nat | j < i
        ensures s.requests[j].cmdId == c <==> Shadows(s.requests[j].ticket, s.requests[i].ticket.value)
      {
        LowerShowsIff(s, j, i);
      }
    }
  }

  // ---- Allocations that nobody interrupts ----

  /** Nobody stops between claiming a request and taking its id. */
  predicate Uninterrupted(run: seq<Op>) {
    forall o :: o in run ==> !o.Claims? && !o.Numbers?
  }

  /** Every busy request, answered or not, is in the window. */
  ghost predicate BusyInWindow(s: Ids) {
    forall i :: 0 <= i < |s.requests| && !s.requests[i].life.Idle? ==> Recent(s, s.requests[i])
  }

  /** And so it is in every state that the run passes through. */
  ghost predicate BusyRecent(s: Ids, run: seq<Op>)
    requires Goes(s, run)
    decreases |run|
  {
    && BusyInWindow(s)
    && (run == [] || BusyRecent(Do(s, run[0]), run[1..]))
  }

  /** A request below a busy one was busy when that was allocated, so it has had an id not long before, or since. */
  predicate Below(lower: Request, busy: Request) {
    !busy.life.Idle? && busy.ticket.Some? ==>
      lower.ticket.Some? && busy.ticket.value - lower.ticket.value < ID_COUNT
  }

  ghost predicate Ordered(s: Ids) {
    && (forall i: nat :: i < |s.requests| ==> !s.requests[i].life.Claimed?)
    && (forall j: nat, i: nat :: j < i < |s.requests| ==> Below(s.requests[j], s.requests[i]))
  }

  /** A request becomes busy with the next ticket only where all below it are busy. */
  lemma RequestOrdered(s: Ids, t: Ids, i: nat)
    requires Kept(s) && Ordered(s) && i < |s.requests| && |t.requests| == |s.requests|
    requires t.requests == s.requests[i := t.requests[i]] && !t.requests[i].life.Claimed? && BusyInWindow(t)
    requires || (&& t.next == s.next && t.requests[i].ticket == s.requests[i].ticket
                 && (s.requests[i].life.Idle? ==> t.requests[i].life.Idle?))
             || (&& t.next == s.next + 1 && t.requests[i].ticket == Some(s.next)
                 && forall j: nat :: j < i ==> !s.requests[j].life.Idle?)
    ensures Ordered(t)
  {
    forall j: nat, k: nat | j < k < |t.requests| ensures Below(t.requests[j], t.requests[k]) {
      assert Below(s.requests[j], s.requests[k]) && RequestOk(s, s.requests[j]) && RequestOk(s, s.requests[k]);
    }
  }

  lemma AllocateOrdered(s: Ids)
    requires Kept(s) && Ordered(s) && BusyInWindow(Allocate(s))
    ensures Ordered(Allocate(s))
  {
    var p := FirstIdle(s.requests, 0);
    if p.Some? { RequestOrdered(s, Allocate(s), p.value); }
  }

  lemma RespondOrdered(s: Ids, c: nat)
    requires Kept(s) && Ordered(s) && c < |s.table| && BusyInWindow(Respond(s, c))
    ensures Ordered(Respond(s, c))
  {
    assert EntryOk(s, c, s.table[c]);
    if Lookup(s, c).Some? { RequestOrdered(s, Respond(s, c), s.table[c].value); }
  }

  lemma DoOrdered(s: Ids, o: Op)
    requires Kept(s) && Ordered(s) && Ready(s, o) && !o.Claims? && !o.Numbers? && BusyInWindow(Do(s, o))
    ensures Ordered(Do(s, o))
  {
    match o {
      case Allocates => AllocateOrdered(s);
      case Inserts(i) => RequestOrdered(s, Insert(s, i), i);
      case Responds(c) => RespondOrdered(s, c);
      case Releases(i) => RequestOrdered(s, Release(s, i), i);
    }
  }

  lemma {:induction false} RunOrdered(s: Ids, run: seq<Op>)
    requires Kept(s) && Ordered(s) && Goes(s, run) && Uninterrupted(run) && BusyRecent(s, run)
    ensures Kept(After(s, run)) && Ordered(After(s, run))
    decreases |run|
  {
    if run != [] {
      assert run[0] in run;
      DoKept(s, run[0]);
      DoOrdered(s, run[0]);
      assert forall o :: o in run[1..] ==> o in run;
      RunOrdered(Do(s, run[0]), run[1..]);
    }
  }

  lemma NotShadowed(lower: Request, busy: Request)
    requires Below(lower, busy) && !busy.life.Idle? && busy.ticket.Some? && lower.ticket != busy.ticket
    requires lower.ticket.Some? ==> lower.ticket.value - busy.ticket.value < ID_COUNT
    ensures !Shadows(lower.ticket, busy.ticket.value)
  {
  }

  /** Then no lower request, idle or not, shows the id of a busy one. */
  lemma LowerDiffers(s: Ids, j: nat, i: nat)
    requires Kept(s) && Ordered(s) && j < i < |s.requests| && !s.requests[i].life.Idle? && Recent(s, s.requests[i])
    ensures s.requests[j].cmdId != s.requests[i].cmdId
  {
    assert Below(s.requests[j], s.requests[i]) && Different(s.requests[j], s.requests[i]);
    assert RequestOk(s, s.requests[j]);
    NotShadowed(s.requests[j], s.requests[i]);
    LowerShowsIff(s, j, i);
  }

  /** So first-fit allocation alone makes table and scan agree for every id in flight. */
  lemma UninterruptedAgrees(n: nat, run: seq<Op>, c: nat)
    requires Goes(Fresh(n), run) && Uninterrupted(run) && BusyRecent(Fresh(n), run) && c < ID_COUNT
    ensures |After(Fresh(n), run).table| == ID_COUNT
    ensures InFlight(After(Fresh(n), run), c) ==> Lookup(After(Fresh(n), run), c) == Scan(After(Fresh(n), run), c)
  {
    var s := After(Fresh(n), run);
    FreshKept(n);
    RunOrdered(Fresh(n), run);
    RunKept(Fresh(n), run);
    LookupIsScan(n, run, c);
    if Shadowed(s, c) {
      var i: nat, j: nat :| Is(s, i, Inserted) && s.requests[i].cmdId == c && j < i
                            && s.requests[i].ticket.Some? && Shadows(s.requests[j].ticket, s.requests[i].ticket.value);
      LowerShowsIff(s, j, i);
      LowerDiffers(s, j, i);
    }
  }

  // ---- An allocation that is interrupted ----

  lemma {:induction false} GoesOn(s: Ids, run: seq<Op>, o: Op)
    requires Goes(s, run) && Ready(After(s, run), o) && InWindow(Do(After(s, run), o))
    ensures Goes(s, run + [o]) && After(s, run + [o]) == Do(After(s, run), o)
    decreases |run|
  {
    if run == [] {
      assert run + [o] == [o];
      assert Goes(Do(s, o), []);
    } else {
      GoesOn(Do(s, run[0]), run[1..], o);
      assert (run + [o])[1..] == run[1..] + [o];
    }
  }

  /** s is what some run of a queue of n requests leaves, within the window all the time. */
  ghost predicate Left(n: nat, s: Ids) {
    exists run :: Goes(Fresh(n), run) && After(Fresh(n), run) == s
  }

  lemma LeftBy(n: nat, s: Ids, o: Op)
    requires Left(n, s) && Ready(s, o) && InWindow(Do(s, o))
    ensures Left(n, Do(s, o))
  {
    var run :| Goes(Fresh(n), run) && After(Fresh(n), run) == s;
    GoesOn(Fresh(n), run, o);
  }

  function Used(ticket: nat, life: Life): Request { Request(life, ticket % ID_COUNT, Some(ticket)) }

  /** The first idle request among x, y and others. */
  lemma FirstOf(xs: seq<Request>, k: nat)
    requires k < |xs| <= 3 && xs[k].life.Idle? && forall j :: 0 <= j < k ==> !xs[j].life.Idle?
    ensures FirstIdle(xs, 0) == Some(k)
  {
    FirstIff(xs, (x: Request) => x.life.Idle?, k);
  }

  /** One request is allocated, inserted, answered and released while all below it are busy, and nothing else is in the
   table. */
  lemma Cycle(n: nat, xs: seq<Request>, next: nat, k: nat)
    requires Left(n, Ids(xs, NoEntries(), next)) && k < |xs| <= 3
    requires xs[k].life.Idle? && forall j :: 0 <= j < k ==> !xs[j].life.Idle?
    requires forall j :: 0 <= j < |xs| ==> !xs[j].life.Numbered? && !xs[j].life.Inserted?
    ensures Left(n, Ids(xs[k := Used(next, Inserted)], NoEntries()[next % ID_COUNT := Some(k)], next + 1))
    ensures Left(n, Ids(xs[k := Used(next, Answered)], NoEntries(), next + 1))
    ensures Left(n, Ids(xs[k := Used(next, Idle)], NoEntries(), next + 1))
  {
    var c := next % ID_COUNT;
    FirstOf(xs, k);
    LeftBy(n, Ids(xs, NoEntries(), next), Allocates);
    var a := Ids(xs[k := Used(next, Numbered)], NoEntries(), next + 1);
    assert Allocate(Ids(xs, NoEntries(), next)) == a;
    LeftBy(n, a, Inserts(k));
    var b := Ids(xs[k := Used(next, Inserted)], NoEntries()[c := Some(k)], next + 1);
    assert Insert(a, k) == b;
    LeftBy(n, b, Responds(c));
    var d := Ids(xs[k := Used(next, Answered)], NoEntries(), next + 1);
    assert Respond(b, c) == d;
    LeftBy(n, d, Releases(k));
    assert Release(d, k) == Ids(xs[k := Used(next, Idle)], NoEntries(), next + 1);
  }

  lemma FreshLeft(n: nat)
    ensures Left(n, Ids(seq(n, i => NEW_REQUEST), NoEntries(), 0))
  {
    assert Goes(Fresh(n), []) && After(Fresh(n), []) == Fresh(n);
  }

  /** Request k is used over and over, while those below it are busy. */
  lemma {:induction false} Cycles(n: nat, xs: seq<Request>, first: nat, k: nat, next: nat)
    requires Left(n, Ids(xs, NoEntries(), first)) && k < |xs| <= 3 && first <= next
    requires xs[k].life.Idle? && forall j :: 0 <= j < k ==> !xs[j].life.Idle?
    requires forall j :: 0 <= j < |xs| ==> !xs[j].life.Numbered? && !xs[j].life.Inserted?
    ensures exists x: Request :: x.life.Idle? && Left(n, Ids(xs[k := x], NoEntries(), next))
    decreases next - first
  {
    if first == next {
      assert xs[k := xs[k]] == xs;
    } else {
      Cycle(n, xs, first, k);
      var ys := xs[k := Used(first, Idle)];
      Cycles(n, ys, first + 1, k, next);
      var x: Request :| x.life.Idle? && Left(n, Ids(ys[k := x], NoEntries(), next));
      assert ys[k := x] == xs[k := x];
    }
  }

  /** Request 0 has had ticket 0 and is claimed again, and its submitter stops there. When request 1 gets ticket 65536,
   the scan finds request 0 by the id of its last life. The table does not. */
  lemma InterruptedScanFails() returns (s: Ids)
    ensures Left(2, s) && |s.table| == ID_COUNT && InFlight(s, 0)
    ensures Lookup(s, 0) == Some(1) && Scan(s, 0) == Some(0)
  {
    FreshLeft(2);
    var start := seq(2, i => NEW_REQUEST);
    Cycle(2, start, 0, 0);
    var xs := [Used(0, Idle), NEW_REQUEST];
    assert start[0 := Used(0, Idle)] == xs;
    LeftBy(2, Ids(xs, NoEntries(), 1), Claims(0));
    var ys := [Request(Claimed, 0, Some(0)), NEW_REQUEST];
    assert Claim(Ids(xs, NoEntries(), 1), 0) == Ids(ys, NoEntries(), 1);
    Cycles(2, ys, 1, 1, ID_COUNT);
    var x: Request :| x.life.Idle? && Left(2, Ids(ys[1 := x], NoEntries(), ID_COUNT));
    Cycle(2, ys[1 := x], ID_COUNT, 1);
    var zs := [Request(Claimed, 0, Some(0)), Used(ID_COUNT, Inserted)];
    assert ys[1 := x][1 := Used(ID_COUNT, Inserted)] == zs;
    s := Ids(zs, NoEntries()[0 := Some(1)], ID_COUNT + 1);
    ScanIs(s, 0, 0);
    assert Is(s, 1, Inserted) && s.requests[1].cmdId == 0;
  }

  /** One other allocation is enough. Request 1 has had ticket 1, request 0 has been used until the
   counter is at 65537 and is busy; then a submitter claims request 1 and stops, and one more allocation
   gets request 2 and ticket 65537. */
  lemma OnePasserScanFails() returns (s: Ids)
    ensures Left(3, s) && |s.table| == ID_COUNT && InFlight(s, 1)
    ensures Lookup(s, 1) == Some(2) && Scan(s, 1) == Some(1)
  {
    var last := ID_COUNT;
    OneBehind();
    var e := [Used(last, Answered), Used(1, Idle), NEW_REQUEST];
    LeftBy(3, Ids(e, NoEntries(), last + 1), Claims(1));
    var f := [Used(last, Answered), Used(1, Claimed), NEW_REQUEST];
    assert Claim(Ids(e, NoEntries(), last + 1), 1) == Ids(f, NoEntries(), last + 1);
    Cycle(3, f, last + 1, 2);
    var g := [Used(last, Answered), Used(1, Claimed), Used(last + 1, Inserted)];
    assert f[2 := Used(last + 1, Inserted)] == g;
    s := Ids(g, NoEntries()[1 := Some(2)], last + 2);
    ScanIs(s, 1, 1);
    assert Is(s, 2, Inserted) && s.requests[2].cmdId == 1;
  }

  lemma OneBehind()
    ensures Left(3, Ids([Used(ID_COUNT, Answered), Used(1, Idle), NEW_REQUEST], NoEntries(), ID_COUNT + 1))
  {
    FreshLeft(3);
    var start := seq(3, i => NEW_REQUEST);
    Cycle(3, start, 0, 0);
    var a := [Used(0, Answered), NEW_REQUEST, NEW_REQUEST];
    assert start[0 := Used(0, Answered)] == a;
    Cycle(3, a, 1, 1);
    var b := [Used(0, Answered), Used(1, Idle), NEW_REQUEST];
    assert a[1 := Used(1, Idle)] == b;
    LeftBy(3, Ids(b, NoEntries(), 2), Releases(0));
    var d := [Used(0, Idle), Used(1, Idle), NEW_REQUEST];
    assert Release(Ids(b, NoEntries(), 2), 0) == Ids(d, NoEntries(), 2);
    UsedAgain(d);
  }

  lemma UsedAgain(d: seq<Request>)
    requires d == [Used(0, Idle), Used(1, Idle), NEW_REQUEST] && Left(3, Ids(d, NoEntries(), 2))
    ensures Left(3, Ids([Used(ID_COUNT, Answered), Used(1, Idle), NEW_REQUEST], NoEntries(), ID_COUNT + 1))
  {
    Cycles(3, d, 2, 0, ID_COUNT);
    var x: Request :| x.life.Idle? && Left(3, Ids(d[0 := x], NoEntries(), ID_COUNT));
    Cycle(3, d[0 := x], ID_COUNT, 0);
    assert d[0 := x][0 := Used(ID_COUNT, Answered)] == [Used(ID_COUNT, Answered), Used(1, Idle), NEW_REQUEST];
  }

  lemma ScanIs(s: Ids, c: nat, k: nat)
    requires k < |s.requests| && s.requests[k].cmdId == c && forall j :: 0 <= j < k ==> s.requests[j].cmdId != c
    ensures Scan(s, c) == Some(k)
  {
    FirstIff(s.requests, (x: Request) => x.cmdId == c, k);
  }
}

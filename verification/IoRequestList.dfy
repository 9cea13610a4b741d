/**
 The request list of one I/O queue and its table of command ids, as the driver keeps them: fixed arrays, updated in
 place. Each method does to the arrays what the operation of CommandIds does to the values.
 */
module IoRequestLists {
  import opened IoProtocol
  import C = CommandIds

  class IoRequestList {
    const requests: array<C.Request>
    const table: array<Option<nat>>
    var nextCmdId: nat

    ghost function Contents(): C.Ids
      reads this, requests, table
    {
      C.Ids(requests[..], table[..], nextCmdId)
    }

    constructor (depth: nat)
      ensures fresh(requests) && fresh(table)
      ensures Contents() == C.Fresh(depth)
    {
      requests := new C.Request[depth](i => C.NEW_REQUEST);
      table := new Option<nat>[ID_COUNT](i => None);
      nextCmdId := 0;
      new;
      assert requests[..] == C.Fresh(depth).requests;
      assert table[..] == C.Fresh(depth).table;
    }

    /** Claims the first idle request and gives it the next id. */
    method GetCurrentFreeIORequest() returns (p: Option<nat>)
      modifies this`nextCmdId, requests
      ensures p == C.FirstIdle(old(requests[..]), 0)
      ensures Contents() == C.Allocate(old(Contents()))
      ensures p.None? ==> requests[..] == old(requests[..]) && nextCmdId == old(nextCmdId)
                          && forall j :: 0 <= j < requests.Length ==> !requests[j].life.Idle?
      ensures p.Some? ==>
                && p.value < requests.Length && nextCmdId == old(nextCmdId) + 1
                && old(requests[..])[p.value].life.Idle?
                && (forall j :: 0 <= j < p.value ==> !old(requests[..])[j].life.Idle?)
                && requests[..] == old(requests[..])
                                   [p.value := C.Request(C.Numbered, old(nextCmdId) % ID_COUNT, Some(old(nextCmdId)))]
    {
      var i := 0;
      while i < requests.Length
        invariant i <= requests.Length && Contents() == old(Contents())
        invariant C.FirstIdle(requests[..], 0) == C.FirstIdle(requests[..], i)
      {
        if requests[i].life.Idle? {
          requests[i] := requests[i].(life := C.Claimed);
          requests[i] := C.Request(C.Numbered, nextCmdId % ID_COUNT, Some(nextCmdId));
          nextCmdId := nextCmdId + 1;
          return Some(i);
        }
        i := i + 1;
      }
      return None;
    }

    /** Whether an allocation would succeed. */
    method IsIOSlotAvailable() returns (found: bool)
      ensures found <==> C.FirstIdle(requests[..], 0).Some?
      ensures found <==> exists j :: 0 <= j < requests.Length && requests[j].life.Idle?
    {
      var i := 0;
      while i < requests.Length
        invariant i <= requests.Length
        invariant C.FirstIdle(requests[..], 0) == C.FirstIdle(requests[..], i)
      {
        if requests[i].life.Idle? { return true; }
        i := i + 1;
      }
      return false;
    }

    /** Publishes request i under its id, unless the entry is taken. */
    method InsertCommand(i: nat) returns (ok: bool)
      requires i < requests.Length && requests[i].cmdId < table.Length
      modifies requests, table
      ensures ok == (old(table[requests[i].cmdId]) == None)
      ensures Contents() == C.Insert(old(Contents()), i)
      ensures requests[..] == old(requests[..])[i := old(requests[i]).(life := C.Inserted)]
      ensures table[..] == if ok then old(table[..])[old(requests[i].cmdId) := Some(i)] else old(table[..])
    {
      var c := requests[i].cmdId;
      ok := table[c] == None;
      if ok { table[c] := Some(i); }
      requests[i] := requests[i].(life := C.Inserted);
      assert table[..] == C.Insert(old(Contents()), i).table;
    }

    /** The request that a response with id c answers, through the table; its entry is removed if asked for. */
    method GetRequestByCmdId(c: nat, remove: bool) returns (p: Option<nat>)
      requires c < table.Length
      modifies requests, table
      ensures p == C.Lookup(old(Contents()), c)
      ensures p == if old(table[c]).Some? && old(table[c]).value < requests.Length
                      && old(requests[..])[old(table[c]).value].cmdId == c then old(table[c]) else None
      ensures if remove && p.Some?
              then table[..] == old(table[..])[c := None]
                   && requests[..] == old(requests[..])[p.value := old(requests[..])[p.value].(life := C.Answered)]
              else table[..] == old(table[..]) && requests[..] == old(requests[..])
      ensures Contents() == if remove then C.Respond(old(Contents()), c) else old(Contents())
    {
      p := table[c];
      if p.Some? && p.value < requests.Length && requests[p.value].cmdId == c {
        if remove {
          table[c] := None;
          requests[p.value] := requests[p.value].(life := C.Answered);
        }
      } else {
        p := None;
      }
      assert !remove ==> Contents() == old(Contents());
    }

    /** The same by a scan over all requests. */
    method ScanForCmdId(c: nat) returns (p: Option<nat>)
      ensures p == C.Scan(Contents(), c)
      ensures if p.Some? then p.value < requests.Length && requests[p.value].cmdId == c
                              && forall j :: 0 <= j < p.value ==> requests[j].cmdId != c
              else forall j :: 0 <= j < requests.Length ==> requests[j].cmdId != c
    {
      var i := 0;
      while i < requests.Length
        invariant i <= requests.Length
        invariant C.FirstMatch(requests[..], c, 0) == C.FirstMatch(requests[..], c, i)
      {
        if requests[i].cmdId == c { return Some(i); }
        i := i + 1;
      }
      return None;
    }

    /** Request i is done with and can be allocated again; it keeps its id, so that neither lookup
     changes its answers. */
    method ReleaseRequest(i: nat)
      requires i < requests.Length
      modifies requests
      ensures Contents() == C.Release(old(Contents()), i)
      ensures requests[..] == old(requests[..])[i := old(requests[i]).(life := C.Idle)]
      ensures C.FirstIdle(requests[..], 0).Some? && C.FirstIdle(requests[..], 0).value <= i
      ensures forall c: nat :: C.Scan(Contents(), c) == C.Scan(old(Contents()), c)
      ensures forall c: nat :: c < table.Length ==> C.Lookup(Contents(), c) == C.Lookup(old(Contents()), c)
    {
      ghost var before := Contents();
      requests[i] := requests[i].(life := C.Idle);
      forall c: nat ensures C.Scan(Contents(), c) == C.Scan(before, c) { SameScan(before, Contents(), c); }
    }
  }

  lemma SameScan(s: C.Ids, t: C.Ids, c: nat)
    requires |t.requests| == |s.requests|
    requires forall j :: 0 <= j < |s.requests| ==> t.requests[j].cmdId == s.requests[j].cmdId
    ensures C.Scan(t, c) == C.Scan(s, c)
  {
    var p := C.Scan(s, c);
    if p.Some? { C.ScanIs(t, c, p.value); } else { assert C.Scan(t, c).None?; }
  }
}

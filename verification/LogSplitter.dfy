/** A message for the system event log, split over numbered packets of a fixed greatest size. */
module LogSplitter {
  import opened DivMod

  const ULONG: nat := 0x1_0000_0000

  /** The greatest size of a packet and the offset of its text, which the system's headers give. */
  datatype Layout = Layout(maximum: nat, offset: nat)

  /** There is room for more than one wide character, and sizes fit one byte. */
  predicate Sane(y: Layout) {
    y.offset + 4 <= y.maximum < 256
  }

  datatype Packet = Packet(number: nat, text: string)

  /** The wide characters that fit in the largest packet. */
  function Room(y: Layout): (n: nat)
    requires Sane(y)
    ensures n >= 2
  {
    (y.maximum - y.offset) / 2
  }

  /** How many packets are reserved for a message of `left` characters, its end mark included. */
  function Reserved(y: Layout, left: nat): (n: nat)
    requires Sane(y)
    ensures n > 0
  {
    left / (Room(y) - 1) + 1
  }

  /** How many characters the next packet takes. */
  function Chunk(y: Layout, left: nat): (n: nat)
    requires Sane(y)
    ensures n <= left
  {
    if left * 2 + y.offset < y.maximum then left else Room(y) - 1
  }

  /** The text of the next packet: up to the end mark, which the message does not contain. */
  function Text(message: string, pos: nat, n: nat): string
    requires pos <= |message| + 1
  {
    if pos >= |message| then [] else if pos + n <= |message| then message[pos..pos + n] else message[pos..]
  }

  /** The packets that are written from number `first` up to `last`, when `left` characters are left; a packet that
   cannot be allocated is passed over. */
  function Written(y: Layout, message: string, left: nat, first: nat, last: nat, works: nat -> bool): seq<Packet>
    requires Sane(y) && left <= |message| + 1
    decreases last - first
  {
    if first >= last then []
    else if !works(first) then Written(y, message, left, first + 1, last, works)
    else
      var n := Chunk(y, left);
      [Packet(first, Text(message, |message| + 1 - left, n))] + Written(y, message, left - n, first + 1, last, works)
  }

  class EventLog {
    const layout: Layout
    var sequenceNumber: nat
    var entries: seq<Packet>

    constructor (y: Layout)
      requires Sane(y)
      ensures layout == y && sequenceNumber == 0 && entries == []
    {
      layout, sequenceNumber, entries := y, 0, [];
    }

    /** Reserves numbers for the packets, then writes the packets with those numbers. */
    method LogSystemEvent(message: string, works: nat -> bool)
      requires Sane(layout) && sequenceNumber < ULONG && |message| + 1 < ULONG
      modifies this
      ensures sequenceNumber == (old(sequenceNumber) + Reserved(layout, |message| + 1)) % ULONG
      ensures entries == old(entries)
                         + Written(layout, message, |message| + 1, old(sequenceNumber), sequenceNumber, works)
    {
      var count := (|message| + 1) / (Room(layout) - 1) + 1;
      var last := (sequenceNumber + count) % ULONG;
      var first := (last - count) % ULONG;
      assert first == sequenceNumber;
      sequenceNumber := last;
      WritePackets(message, first, last, works);
    }

    method WritePackets(message: string, first: nat, last: nat, works: nat -> bool)
      requires Sane(layout)
      modifies this`entries
      ensures entries == old(entries) + Written(layout, message, |message| + 1, first, last, works)
    {
      var left: nat, pos: nat, current := |message| + 1, 0, first;
      while current < last
        invariant pos + left == |message| + 1
        invariant entries + Written(layout, message, left, current, last, works)
                  == old(entries) + Written(layout, message, |message| + 1, first, last, works)
      {
        var size := if left * 2 + layout.offset < layout.maximum then left * 2 + layout.offset else layout.maximum;
        if works(current) {
          var n := if size == layout.maximum then Room(layout) - 1 else left;
          var text := AsciiToWChar(message, pos, n);
          NextPacket(entries, layout, message, left, current, last, works);
          entries := entries + [Packet(current, text)];
          pos := pos + n;
          left := left - n;
        }
        current := current + 1;
      }
    }

    /** Copies characters until there are enough or the message ends. */
    method AsciiToWChar(message: string, pos: nat, n: nat) returns (text: string)
      requires pos <= |message| + 1
      ensures text == Text(message, pos, n)
    {
      text := [];
      while |text| < n && pos + |text| < |message|
        invariant text == Text(message, pos, |text|) && |text| <= n && (pos <= |message| ==> pos + |text| <= |message|)
        invariant pos > |message| ==> text == []
      {
        text := text + [message[pos + |text|]];
      }
    }
  }

  lemma NextPacket(before: seq<Packet>, y: Layout, message: string, left: nat, first: nat, last: nat,
      works: nat -> bool)
    requires Sane(y) && left <= |message| + 1 && first < last && works(first)
    ensures before + Written(y, message, left, first, last, works)
            == (before + [Packet(first, Text(message, |message| + 1 - left, Chunk(y, left)))])
               + Written(y, message, left - Chunk(y, left), first + 1, last, works)
  {
  }

  // ---- What is written ----

  function Joined(ps: seq<Packet>): string {
    if ps == [] then [] else ps[0].text + Joined(ps[1..])
  }

  /** Packets that the rest of the message needs. */
  function Needed(y: Layout, left: nat): nat
    requires Sane(y)
  {
    if left == 0 then 0 else 1 + Needed(y, left - Chunk(y, left))
  }

  /** The reserved packets suffice. */
  lemma {:induction false} Suffices(y: Layout, left: nat)
    requires Sane(y)
    ensures Needed(y, left) <= Reserved(y, left)
    decreases left
  {
    if left * 2 + y.offset < y.maximum {
      assert Needed(y, left) == if left == 0 then 0 else 1 + Needed(y, 0);
    } else {
      var rest := left - (Room(y) - 1);
      assert Needed(y, left) == 1 + Needed(y, rest);
      Suffices(y, rest);
      ReservedStep(y, left);
    }
  }

  /** And no more than two of them are left over. */
  lemma {:induction false} FewLeftOver(y: Layout, left: nat)
    requires Sane(y)
    ensures Reserved(y, left) <= Needed(y, left) + 2
    decreases left
  {
    if left * 2 + y.offset < y.maximum {
      assert Needed(y, left) == if left == 0 then 0 else 1 + Needed(y, 0);
      ShortShare(left, Room(y) - 1);
    } else {
      var rest := left - (Room(y) - 1);
      assert Needed(y, left) == 1 + Needed(y, rest);
      FewLeftOver(y, rest);
      ReservedStep(y, left);
    }
  }

  lemma ShortShare(left: nat, c: nat)
    requires 0 < c && left <= c + 1
    ensures left / c <= (if left == 0 then 0 else 2)
  {
    if left < c { ModIs(left, c, 0, left); }
    else if left == c { ModIs(left, c, 1, 0); }
    else if c == 1 { ModIs(left, c, 2, 0); }
    else { ModIs(left, c, 1, 1); }
  }

  lemma ReservedStep(y: Layout, left: nat)
    requires Sane(y) && Room(y) - 1 <= left
    ensures Reserved(y, left) == Reserved(y, left - (Room(y) - 1)) + 1
  {
    OneChunkLess(left, Room(y) - 1);
  }

  lemma OneChunkLess(left: nat, c: nat)
    requires 0 < c <= left
    ensures left / c == (left - c) / c + 1
  {
    var q, m := (left - c) / c, (left - c) % c;
    assert left == (q + 1) * c + m;
    ModIs(left, c, q + 1, m);
  }

  function Successes(first: nat, last: nat, works: nat -> bool): nat
    decreases last - first
  {
    if first >= last then 0 else (if works(first) then 1 else 0) + Successes(first + 1, last, works)
  }

  lemma TextSplits(message: string, left: nat, n: nat)
    requires n <= left <= |message| + 1
    ensures Text(message, |message| + 1 - left, left)
            == Text(message, |message| + 1 - left, n) + Text(message, |message| + 1 - (left - n), left - n)
  {
  }

  /** The first packet that can be allocated, and the rest. */
  lemma WrittenSplits(y: Layout, message: string, left: nat, first: nat, last: nat, works: nat -> bool)
    requires Sane(y) && left <= |message| + 1 && first < last && works(first)
    ensures Joined(Written(y, message, left, first, last, works))
            == Text(message, |message| + 1 - left, Chunk(y, left))
               + Joined(Written(y, message, left - Chunk(y, left), first + 1, last, works))
  {
    var tail := Written(y, message, left - Chunk(y, left), first + 1, last, works);
    assert Written(y, message, left, first, last, works)[1..] == tail;
  }

  lemma PrefixAfter(head: string, a: string, b: string)
    requires a <= b
    ensures head + a <= head + b
  {
  }

  lemma {:induction false} SaysSome(y: Layout, message: string, left: nat, first: nat, last: nat, works: nat -> bool)
    requires Sane(y) && left <= |message| + 1
    ensures Joined(Written(y, message, left, first, last, works)) <= Text(message, |message| + 1 - left, left)
    decreases last - first
  {
    if first < last {
      if works(first) {
        var n := Chunk(y, left);
        SaysSome(y, message, left - n, first + 1, last, works);
        WrittenSplits(y, message, left, first, last, works);
        TextSplits(message, left, n);
        PrefixAfter(Text(message, |message| + 1 - left, n),
                    Joined(Written(y, message, left - n, first + 1, last, works)),
                    Text(message, |message| + 1 - (left - n), left - n));
      } else {
        SaysSome(y, message, left, first + 1, last, works);
      }
    }
  }

  lemma {:induction false} SaysAll(y: Layout, message: string, left: nat, first: nat, last: nat, works: nat -> bool)
    requires Sane(y) && left <= |message| + 1 && Needed(y, left) <= Successes(first, last, works)
    ensures Joined(Written(y, message, left, first, last, works)) == Text(message, |message| + 1 - left, left)
    decreases last - first
  {
    if first < last {
      if works(first) {
        var n := Chunk(y, left);
        SaysAll(y, message, left - n, first + 1, last, works);
        WrittenSplits(y, message, left, first, last, works);
        TextSplits(message, left, n);
      } else {
        SaysAll(y, message, left, first + 1, last, works);
      }
    }
  }

  /** Whatever fails, the packets say a prefix of the message, and all of it if as many were allocated as it needs. */
  lemma SaysPrefix(y: Layout, message: string, left: nat, first: nat, last: nat, works: nat -> bool)
    requires Sane(y) && left <= |message| + 1
    ensures Joined(Written(y, message, left, first, last, works)) <= Text(message, |message| + 1 - left, left)
    ensures Needed(y, left) <= Successes(first, last, works) ==>
              Joined(Written(y, message, left, first, last, works)) == Text(message, |message| + 1 - left, left)
  {
    SaysSome(y, message, left, first, last, works);
    if Needed(y, left) <= Successes(first, last, works) { SaysAll(y, message, left, first, last, works); }
  }

  lemma {:induction false} AllSucceed(first: nat, last: nat, works: nat -> bool)
    requires first <= last && forall i: nat :: first <= i < last ==> works(i)
    ensures Successes(first, last, works) == last - first
    decreases last - first
  {
    if first < last { AllSucceed(first + 1, last, works); }
  }

  lemma ReservedFits(y: Layout, left: nat)
    requires Sane(y)
    ensures Reserved(y, left) <= left + 1
  {
    var c := Room(y) - 1;
    TimesLess(1, c, left / c);
  }

  lemma Wraps(a: nat, b: nat)
    requires a < ULONG && b <= ULONG
    ensures (a + b) % ULONG == if a + b < ULONG then a + b else a + b - ULONG
  {
  }

  lemma WholeUnwrapped(y: Layout, message: string, first: nat, last: nat, works: nat -> bool)
    requires Sane(y) && (forall i: nat :: works(i)) && first + Needed(y, |message| + 1) <= last
    ensures Joined(Written(y, message, |message| + 1, first, last, works)) == message
  {
    AllSucceed(first, last, works);
    SaysPrefix(y, message, |message| + 1, first, last, works);
    assert Text(message, 0, |message| + 1) == message;
  }

  /** The message is whole if enough packets are reserved, unless their numbers wrap. */
  lemma WholeIfEnough(y: Layout, message: string, first: nat, count: nat, works: nat -> bool)
    requires Sane(y) && first < ULONG && |message| + 1 < ULONG && forall i: nat :: works(i)
    requires Needed(y, |message| + 1) <= count <= |message| + 2
    ensures Joined(Written(y, message, |message| + 1, first, (first + count) % ULONG, works))
            == if first + count < ULONG then message else []
  {
    Wraps(first, count);
    if first + count < ULONG { WholeUnwrapped(y, message, first, first + count, works); }
  }

  /** If every packet can be allocated, the packets joined are the message, unless the numbers wrap round on the way:
   then the loop over them ends before it begins, and nothing is written. */
  lemma WholeMessage(y: Layout, message: string, first: nat, works: nat -> bool)
    requires Sane(y) && first < ULONG && |message| + 1 < ULONG && forall i: nat :: works(i)
    ensures var last := (first + Reserved(y, |message| + 1)) % ULONG;
            Joined(Written(y, message, |message| + 1, first, last, works))
            == if first + Reserved(y, |message| + 1) < ULONG then message else []
  {
    Suffices(y, |message| + 1);
    ReservedFits(y, |message| + 1);
    WholeIfEnough(y, message, first, Reserved(y, |message| + 1), works);
  }

  /** A message's packets bear numbers that it reserved, each at most once, in order. */
  lemma {:induction false} OwnNumbers(y: Layout, message: string, left: nat, first: nat, last: nat,
      works: nat -> bool, k: nat)
    requires Sane(y) && left <= |message| + 1 && k < |Written(y, message, left, first, last, works)|
    ensures var ps := Written(y, message, left, first, last, works);
            first <= ps[k].number < last && (k > 0 ==> ps[k - 1].number < ps[k].number)
    decreases last - first
  {
    if works(first) {
      var tail := Written(y, message, left - Chunk(y, left), first + 1, last, works);
      assert Written(y, message, left, first, last, works)[1..] == tail;
      if k > 0 {
        OwnNumbers(y, message, left - Chunk(y, left), first + 1, last, works, k - 1);
      }
    } else {
      OwnNumbers(y, message, left, first + 1, last, works, k);
    }
  }

  ghost predicate Bears(ps: seq<Packet>, x: nat) {
    exists k :: 0 <= k < |ps| && ps[k].number == x
  }

  lemma BearsOneMore(p: Packet, ps: seq<Packet>, x: nat)
    ensures Bears([p] + ps, x) <==> p.number == x || Bears(ps, x)
  {
    if p.number == x { assert ([p] + ps)[0].number == x; }
    if Bears(ps, x) {
      var k :| 0 <= k < |ps| && ps[k].number == x;
      assert ([p] + ps)[k + 1].number == x;
    }
  }

  /** Some packet bears a number exactly if it is one of those reserved whose packet could be allocated. */
  lemma {:induction false} NumbersAllocated(y: Layout, message: string, left: nat, first: nat, last: nat,
      works: nat -> bool, x: nat)
    requires Sane(y) && left <= |message| + 1
    ensures Bears(Written(y, message, left, first, last, works), x) <==> first <= x < last && works(x)
    decreases last - first
  {
    if first < last {
      if works(first) {
        var rest := left - Chunk(y, left);
        NumbersAllocated(y, message, rest, first + 1, last, works, x);
        BearsOneMore(Packet(first, Text(message, |message| + 1 - left, Chunk(y, left))),
                     Written(y, message, rest, first + 1, last, works), x);
      } else {
        NumbersAllocated(y, message, left, first + 1, last, works, x);
      }
    }
  }

  /** The text, with an end mark, fits in a packet of the greatest size. */
  predicate TextFits(y: Layout, p: Packet) { y.offset + 2 * (|p.text| + 1) <= y.maximum }

  /** One more character would not. */
  predicate Full(y: Layout, p: Packet) { y.maximum < y.offset + 2 * (|p.text| + 2) }

  lemma ChunkFits(y: Layout, message: string, left: nat, number: nat)
    requires Sane(y) && left <= |message| + 1
    ensures var p := Packet(number, Text(message, |message| + 1 - left, Chunk(y, left)));
            TextFits(y, p) && (Chunk(y, left) < left ==> Full(y, p))
  {
  }

  /** What is written when nothing but the end mark, or nothing at all, is left has no text. */
  lemma {:induction false} NoText(y: Layout, message: string, left: nat, first: nat, last: nat, works: nat -> bool,
      k: nat)
    requires Sane(y) && left == 0 && k < |Written(y, message, left, first, last, works)|
    ensures Written(y, message, left, first, last, works)[k].text == []
    decreases last - first
  {
    if works(first) {
      assert Written(y, message, left, first, last, works)[1..] == Written(y, message, 0, first + 1, last, works);
      if k > 0 { NoText(y, message, 0, first + 1, last, works, k - 1); }
    } else {
      NoText(y, message, left, first + 1, last, works, k);
    }
  }

  /** Each packet's text and end mark fit, and each packet before one with text is full. */
  lemma {:induction false} PacketsFull(y: Layout, message: string, left: nat, first: nat, last: nat,
      works: nat -> bool, k: nat)
    requires Sane(y) && left <= |message| + 1 && k < |Written(y, message, left, first, last, works)|
    ensures var ps := Written(y, message, left, first, last, works);
            TextFits(y, ps[k]) && (k + 1 < |ps| && ps[k + 1].text != [] ==> Full(y, ps[k]))
    decreases last - first
  {
    if works(first) {
      var rest := left - Chunk(y, left);
      var tail := Written(y, message, rest, first + 1, last, works);
      assert Written(y, message, left, first, last, works)[1..] == tail;
      ChunkFits(y, message, left, first);
      if k > 0 { PacketsFull(y, message, rest, first + 1, last, works, k - 1); }
      else if rest == 0 && tail != [] { NoText(y, message, rest, first + 1, last, works, 0); }
    } else {
      PacketsFull(y, message, left, first + 1, last, works, k);
    }
  }

  /** Where the numbers of message k begin, if messages are logged, or reserve their numbers, in this order. */
  function Begin(y: Layout, messages: seq<string>, first: nat, k: nat): nat
    requires Sane(y) && k <= |messages|
  {
    if k == 0 then first else Begin(y, messages, first, k - 1) + Reserved(y, |messages[k - 1]| + 1)
  }

  lemma {:induction false} BeginGrows(y: Layout, messages: seq<string>, first: nat, j: nat, k: nat)
    requires Sane(y) && j <= k <= |messages|
    ensures Begin(y, messages, first, j) <= Begin(y, messages, first, k)
    decreases k - j
  {
    if j < k { BeginGrows(y, messages, first, j, k - 1); }
  }

  /** The packets of message k, whose numbers are counted with 32 bits. */
  function PacketsOf(y: Layout, messages: seq<string>, first: nat, works: nat -> bool, k: nat): seq<Packet>
    requires Sane(y) && k < |messages|
  {
    Written(y, messages[k], |messages[k]| + 1,
            Begin(y, messages, first, k) % ULONG, Begin(y, messages, first, k + 1) % ULONG, works)
  }

  lemma Unwrapped(y: Layout, message: string, first: nat, last: nat, works: nat -> bool, a: nat)
    requires Sane(y) && first < ULONG && last < ULONG
    requires a < |Written(y, message, |message| + 1, first % ULONG, last % ULONG, works)|
    ensures first <= Written(y, message, |message| + 1, first % ULONG, last % ULONG, works)[a].number < last
  {
    assert first % ULONG == first && last % ULONG == last;
    OwnNumbers(y, message, |message| + 1, first, last, works, a);
  }

  lemma Within(y: Layout, messages: seq<string>, first: nat, works: nat -> bool, k: nat, a: nat)
    requires Sane(y) && k < |messages| && Begin(y, messages, first, |messages|) < ULONG
    requires a < |PacketsOf(y, messages, first, works, k)|
    ensures Begin(y, messages, first, k) <= PacketsOf(y, messages, first, works, k)[a].number
    ensures PacketsOf(y, messages, first, works, k)[a].number < Begin(y, messages, first, k + 1)
  {
    BeginGrows(y, messages, first, k, |messages|);
    BeginGrows(y, messages, first, k + 1, |messages|);
    Unwrapped(y, messages[k], Begin(y, messages, first, k), Begin(y, messages, first, k + 1), works, a);
  }

  /** While the numbers do not wrap round, no packet of one message bears a number of another's, whichever callers log
   them and whichever packets cannot be allocated. */
  lemma NeverShared(y: Layout, messages: seq<string>, first: nat, works: nat -> bool, j: nat, k: nat, a: nat, b: nat)
    requires Sane(y) && j < k < |messages| && Begin(y, messages, first, |messages|) < ULONG
    requires a < |PacketsOf(y, messages, first, works, j)| && b < |PacketsOf(y, messages, first, works, k)|
    ensures PacketsOf(y, messages, first, works, j)[a].number < PacketsOf(y, messages, first, works, k)[b].number
  {
    Within(y, messages, first, works, j, a);
    Within(y, messages, first, works, k, b);
    BeginGrows(y, messages, first, j + 1, k);
  }
}

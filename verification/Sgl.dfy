/** From a page map to the scatter/gather list that NDK is given: one element for each page. */
module Sgl {

  const PAGE_SIZE: nat := 4096
  /** Lengths and offsets are 32 bits wide. */
  const ULONG: nat := 0x1_0000_0000

  /** A scatter/gather element: a memory region token, a logical address and a length. */
  datatype Sge = Sge(token: nat, address: int, length: nat)

  function Sub32(a: nat, b: nat): nat {
    (a - b) % ULONG
  }

  function Min3(a: nat, b: nat, c: nat): nat {
    var m := if a < b then a else b;
    if m < c then m else c
  }

  /** How much of the page the next element takes. */
  function Chunk(off: nat, len: nat): (n: nat)
    ensures n <= len
  {
    Min3(PAGE_SIZE, Sub32(PAGE_SIZE, off), len)
  }

  function Elements(pages: seq<int>, token: nat, off: nat, len: nat): seq<Sge> {
    if pages == [] then []
    else [Sge(token, pages[0] + off, Chunk(off, len))] + Elements(pages[1..], token, 0, len - Chunk(off, len))
  }

  lemma NextElement(pages: seq<int>, k: nat, token: nat, off: nat, len: nat)
    requires k < |pages|
    ensures Elements(pages[k..], token, off, len)
            == [Sge(token, pages[k] + off, Chunk(off, len))] + Elements(pages[k + 1..], token, 0, len - Chunk(off, len))
  {
    assert pages[k..][1..] == pages[k + 1..];
  }

  /** Fills the caller's list, which has room for every page, and says how many elements it filled. */
  method PopulateSglFromLam(pages: array?<int>, context: bool, sgl: array<Sge>, token: nat, offset: nat, length: nat)
    returns (count: nat)
    requires pages != null ==> pages.Length <= sgl.Length
    requires offset < ULONG && length < ULONG
    modifies sgl
    ensures count == if pages != null && context then pages.Length else 0
    ensures count > 0 ==> sgl[..count] == Elements(pages[..], token, offset, length)
    ensures forall k :: count <= k < sgl.Length ==> sgl[k] == old(sgl[k])
  {
    if pages == null || !context { return 0; }
    var off: nat, len: nat := offset, length;
    ghost var ps := pages[..];
    count := 0;
    while count < pages.Length
      invariant count <= pages.Length && off < ULONG && len <= length
      invariant sgl[..count] + Elements(ps[count..], token, off, len) == Elements(ps, token, offset, length)
      invariant forall k :: count <= k < sgl.Length ==> sgl[k] == old(sgl[k])
    {
      ghost var filled := sgl[..count];
      ghost var rest := Elements(ps[count + 1..], token, 0, len - Chunk(off, len));
      NextElement(ps, count, token, off, len);
      var chunk := Chunk(off, len);
      sgl[count] := Sge(token, pages[count] + off, chunk);
      assert sgl[..count + 1] == filled + [sgl[count]];
      assert (filled + [sgl[count]]) + rest == filled + ([sgl[count]] + rest);
      off := 0;
      len := len - chunk;
      count := count + 1;
    }
  }

  // ---- What the list says ----

  /** The addresses of the bytes that the elements describe, in order. */
  function Bytes(sgl: seq<Sge>): seq<int> {
    if sgl == [] then [] else seq(sgl[0].length, i => sgl[0].address + i) + Bytes(sgl[1..])
  }

  /** The room that the pages have from the offset on. */
  function Room(pages: seq<int>, off: nat): nat {
    if |pages| * PAGE_SIZE <= off then 0 else |pages| * PAGE_SIZE - off
  }

  lemma {:induction false} BytesLength(pages: seq<int>, token: nat, off: nat, len: nat)
    requires off <= PAGE_SIZE
    ensures |Bytes(Elements(pages, token, off, len))| == if len < Room(pages, off) then len else Room(pages, off)
  {
    if pages != [] {
      var es := Elements(pages, token, off, len);
      assert es[1..] == Elements(pages[1..], token, 0, len - Chunk(off, len));
      BytesLength(pages[1..], token, 0, len - Chunk(off, len));
      assert Room(pages[1..], 0) == (|pages| - 1) * PAGE_SIZE;
    }
  }

  /** Byte i of the buffer is at its place in page (off + i) / PAGE_SIZE. */
  lemma {:induction false} BytesAddress(pages: seq<int>, token: nat, off: nat, len: nat, i: nat)
    requires off <= PAGE_SIZE && i < |Bytes(Elements(pages, token, off, len))|
    ensures (off + i) / PAGE_SIZE < |pages|
    ensures Bytes(Elements(pages, token, off, len))[i] == pages[(off + i) / PAGE_SIZE] + (off + i) % PAGE_SIZE
  {
    var es := Elements(pages, token, off, len);
    var rest := Elements(pages[1..], token, 0, len - Chunk(off, len));
    assert es[1..] == rest;
    BytesLength(pages, token, off, len);
    var c := Chunk(off, len);
    if i < c {
      assert off + i < PAGE_SIZE;
    } else {
      assert c == PAGE_SIZE - off;
      BytesAddress(pages[1..], token, 0, len - c, i - c);
      NextPage(i - c);
    }
  }

  lemma NextPage(i: nat)
    ensures (PAGE_SIZE + i) / PAGE_SIZE == 1 + i / PAGE_SIZE && (PAGE_SIZE + i) % PAGE_SIZE == i % PAGE_SIZE
  {
  }

  /** The list describes the whole buffer exactly if the pages have room for it. */
  lemma {:induction false} CoversIff(pages: seq<int>, token: nat, off: nat, len: nat)
    requires off <= PAGE_SIZE
    ensures |Bytes(Elements(pages, token, off, len))| == len <==> len == 0 || off + len <= |pages| * PAGE_SIZE
  {
    BytesLength(pages, token, off, len);
  }

  /** No element crosses the end of its page, and the lengths that are subtracted never exceed what is left. */
  lemma {:induction false} WithinPage(pages: seq<int>, token: nat, off: nat, len: nat, j: nat)
    requires off <= PAGE_SIZE && j < |pages|
    ensures |Elements(pages, token, off, len)| == |pages|
    ensures var e := Elements(pages, token, off, len)[j];
            pages[j] <= e.address && e.address + e.length <= pages[j] + PAGE_SIZE && e.token == token
  {
    if j > 0 {
      WithinPage(pages[1..], token, 0, len - Chunk(off, len), j - 1);
    } else if |pages| > 1 {
      WithinPage(pages[1..], token, 0, len - Chunk(off, len), 0);
    }
  }
}

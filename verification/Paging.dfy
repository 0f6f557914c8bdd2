/**
 Address translation with a translation cache.

 The cache may keep every translation that was used since the page-table base was last written
 (Intel SDM volume 3A, sections 4.3, 4.10.2 and 4.10.4). An access may therefore use the current
 page-table entry or any cached translation of the page; which one is up to the processor.
 */
module Paging {
  import opened Frames
  import opened CopyData

  datatype Entry = Entry(frame: nat, present: bool)

  const NO_ENTRY := Entry(0, false)

  class Machine {
    const tasks: nat
    const mem: array2<Byte>
    const tables: array2<Entry>
    /** The task whose table is in force. */
    var cr3: nat
    /** Translations, page to frame, that the processor may still use. */
    var tlb: set<(nat, nat)>

    constructor (n: nat, boot: nat)
      requires boot < n
      ensures Valid() && tasks == n && cr3 == boot && tlb == {} && fresh(mem) && fresh(tables)
      ensures forall t, p :: 0 <= t < n && 0 <= p < TOTAL_PAGES ==> tables[t, p] == NO_ENTRY
      ensures forall f, o :: 0 <= f < TOTAL_PAGES && 0 <= o < PAGE_SIZE ==> mem[f, o] == 0
    {
      tasks := n;
      mem := new Byte[TOTAL_PAGES, PAGE_SIZE]((_, _) => 0);
      tables := new Entry[n, TOTAL_PAGES]((_, _) => NO_ENTRY);
      cr3, tlb := boot, {};
    }

    ghost predicate Valid()
      reads this, mem, tables
    {
      && mem.Length0 == TOTAL_PAGES && mem.Length1 == PAGE_SIZE
      && tables.Length0 == tasks && tables.Length1 == TOTAL_PAGES && cr3 < tasks
      && (forall t, p :: 0 <= t < tasks && 0 <= p < TOTAL_PAGES ==> tables[t, p].frame < TOTAL_PAGES)
      && (forall e :: e in tlb ==> e.1 < TOTAL_PAGES)
    }

    /** Every translation that an access to page can use leads to frame. */
    ghost predicate Resolves(page: nat, frame: nat)
      requires Valid()
      reads this, mem, tables
    {
      page < TOTAL_PAGES && tables[cr3, page] == Entry(frame, true) && forall f :: (page, f) in tlb ==> f == frame
    }

    /** Every translation the processor may still use agrees with the table in force. */
    ghost predicate Coherent()
      requires Valid()
      reads this, mem, tables
    {
      forall e :: e in tlb ==> e.0 < TOTAL_PAGES && tables[cr3, e.0] == Entry(e.1, true)
    }

    method SetSsPag(t: nat, page: nat, frame: nat)
      requires Valid() && t < tasks && page < TOTAL_PAGES && frame < TOTAL_PAGES
      modifies tables
      ensures Valid() && tables[t, page] == Entry(frame, true)
      ensures forall u, p :: 0 <= u < tasks && 0 <= p < TOTAL_PAGES && !(u == t && p == page) ==> tables[u, p] == old(tables[u, p])
    {
      tables[t, page] := Entry(frame, true);
    }

    method DelSsPag(t: nat, page: nat)
      requires Valid() && t < tasks && page < TOTAL_PAGES
      modifies tables
      ensures Valid() && tables[t, page] == NO_ENTRY
      ensures forall u, p :: 0 <= u < tasks && 0 <= p < TOTAL_PAGES && !(u == t && p == page) ==> tables[u, p] == old(tables[u, p])
    {
      tables[t, page] := NO_ENTRY;
    }

    function GetFrame(t: nat, page: nat): nat
      requires Valid() && t < tasks && page < TOTAL_PAGES
      reads this, mem, tables
    {
      tables[t, page].frame
    }

    /** Writing the page-table base empties the cache. */
    method SetCr3(t: nat)
      requires Valid() && t < tasks
      modifies this`cr3, this`tlb
      ensures Valid() && cr3 == t && tlb == {}
    {
      cr3, tlb := t, {};
    }

    /** The processor picks one of the translations it may use, and may keep it. */
    method Translate(page: nat) returns (frame: nat)
      requires Valid() && page < TOTAL_PAGES && (tables[cr3, page].present || exists f :: (page, f) in tlb)
      modifies this`tlb
      ensures Valid() && frame < TOTAL_PAGES && tlb == old(tlb) + {(page, frame)}
      ensures (page, frame) in old(tlb) || tables[cr3, page] == Entry(frame, true)
    {
      var cached := set e | e in tlb && e.0 == page;
      if tables[cr3, page].present {
        frame := tables[cr3, page].frame;
        if cached != {} {
          if * {
            var e :| e in cached;
            frame := e.1;
          }
        }
      } else {
        ghost var f :| (page, f) in tlb;
        assert (page, f) in cached;
        var e :| e in cached;
        frame := e.1;
      }
      tlb := tlb + {(page, frame)};
    }

    method ReadByte(page: nat, off: nat, ghost frame: nat) returns (b: Byte)
      requires Valid() && Resolves(page, frame) && off < PAGE_SIZE
      modifies this`tlb
      ensures Valid() && b == mem[frame, off] && tlb == old(tlb) + {(page, frame)}
    {
      var f := Translate(page);
      b := mem[f, off];
    }

    method WriteByte(page: nat, off: nat, b: Byte, ghost frame: nat)
      requires Valid() && Resolves(page, frame) && off < PAGE_SIZE
      modifies this`tlb, mem
      ensures Valid() && tlb == old(tlb) + {(page, frame)}
      ensures mem[frame, off] == b
      ensures forall f, o :: 0 <= f < TOTAL_PAGES && 0 <= o < PAGE_SIZE && !(f == frame && o == off) ==> mem[f, o] == old(mem[f, o])
    {
      var f := Translate(page);
      mem[f, off] := b;
    }

    method MoveWord(src: nat, dst: nat, off: nat, ghost from: nat, ghost to: nat)
      requires Valid() && Resolves(src, from) && Resolves(dst, to) && off + 4 <= PAGE_SIZE && from != to
      modifies this`tlb, mem
      ensures Valid() && tlb == old(tlb) + {(src, from), (dst, to)}
      ensures forall o :: off <= o < off + 4 ==> mem[to, o] == old(mem[from, o])
      ensures forall f, o :: 0 <= f < TOTAL_PAGES && 0 <= o < PAGE_SIZE && !(f == to && off <= o < off + 4) ==> mem[f, o] == old(mem[f, o])
    {
      var b0 := ReadByte(src, off, from);
      var b1 := ReadByte(src, off + 1, from);
      var b2 := ReadByte(src, off + 2, from);
      var b3 := ReadByte(src, off + 3, from);
      WriteByte(dst, off, b0, to);
      WriteByte(dst, off + 1, b1, to);
      WriteByte(dst, off + 2, b2, to);
      WriteByte(dst, off + 3, b3, to);
      assert tlb == old(tlb) + {(src, from), (dst, to)};
    }

    // The copy routine on whole pages

    ghost function Page(f: nat): (s: seq<Byte>)
      requires Valid() && f < TOTAL_PAGES
      reads this, mem, tables
      ensures |s| == PAGE_SIZE && forall o :: 0 <= o < PAGE_SIZE ==> s[o] == mem[f, o]
    {
      seq(PAGE_SIZE, o requires 0 <= o < PAGE_SIZE reads this, mem, tables requires Valid() => mem[f, o])
    }

    /** Two frames, seen as the one block that the copy routine works on. */
    ghost function Block(from: nat, to: nat): (s: seq<Byte>)
      requires Valid() && from < TOTAL_PAGES && to < TOTAL_PAGES
      reads this, mem, tables
      ensures |s| == 2 * PAGE_SIZE
    {
      Page(from) + Page(to)
    }

    /** No frame but this one changes. */
    twostate predicate OnlyFrame(to: nat)
      requires old(Valid()) && Valid()
      reads this, mem, tables
    {
      forall f, o :: 0 <= f < TOTAL_PAGES && 0 <= o < PAGE_SIZE && f != to ==> mem[f, o] == old(mem[f, o])
    }

    method CopyWord(src: nat, dst: nat, off: nat, ghost from: nat, ghost to: nat)
      requires Valid() && Resolves(src, from) && Resolves(dst, to) && off + 4 <= PAGE_SIZE && from != to
      modifies this`tlb, mem
      ensures Valid() && tlb == old(tlb) + {(src, from), (dst, to)} && OnlyFrame(to)
      ensures Block(from, to) == WordMoved(old(Block(from, to)), off, PAGE_SIZE + off)
    {
      MoveWord(src, dst, off, from, to);
    }

    method CopyByte(src: nat, dst: nat, off: nat, ghost from: nat, ghost to: nat)
      requires Valid() && Resolves(src, from) && Resolves(dst, to) && off < PAGE_SIZE && from != to
      modifies this`tlb, mem
      ensures Valid() && tlb == old(tlb) + {(src, from), (dst, to)} && OnlyFrame(to)
      ensures Block(from, to) == old(Block(from, to))[PAGE_SIZE + off := old(Block(from, to))[off]]
    {
      var b := ReadByte(src, off, from);
      WriteByte(dst, off, b, to);
      assert tlb == old(tlb) + {(src, from), (dst, to)};
    }

    /** The copy routine, applied to whole pages through their logical addresses, does what it does on plain memory. */
    method CopyPage(src: nat, dst: nat, ghost from: nat, ghost to: nat)
      requires Valid() && Resolves(src, from) && Resolves(dst, to) && from != to
      modifies this`tlb, mem
      ensures Valid() && tlb == old(tlb) + {(src, from), (dst, to)} && OnlyFrame(to)
      ensures Block(from, to) == WordCopy(old(Block(from, to)), 0, PAGE_SIZE, PAGE_SIZE)
      ensures forall o :: 0 <= o < PAGE_SIZE ==> mem[to, o] == old(mem[from, o])
      ensures forall f, o :: 0 <= f < TOTAL_PAGES && 0 <= o < PAGE_SIZE && f != to ==> mem[f, o] == old(mem[f, o])
    {
      hide WordCopy, ByteCopy, WordMoved, Page;
      ghost var s := Block(from, to);
      var off, left := 0, PAGE_SIZE;
      while left > 4
        invariant 0 < left && off + left == PAGE_SIZE && off % 4 == 0
        invariant Valid() && Resolves(src, from) && Resolves(dst, to) && OnlyFrame(to)
        invariant tlb == if off == 0 then old(tlb) else old(tlb) + {(src, from), (dst, to)}
        invariant WordCopy(Block(from, to), off, PAGE_SIZE + off, left) == WordCopy(s, 0, PAGE_SIZE, PAGE_SIZE)
      {
        WordCopyOn(Block(from, to), off, PAGE_SIZE + off, left);
        CopyWord(src, dst, off, from, to);
        off, left := off + 4, left - 4;
      }
      WordCopyOn(Block(from, to), off, PAGE_SIZE + off, left);
      ghost var words, first := Block(from, to), off;
      ByteCopyOn(words, first, PAGE_SIZE + first, 0);
      while left > 0
        invariant 0 <= left && off + left == PAGE_SIZE && first <= off
        invariant Valid() && Resolves(src, from) && Resolves(dst, to) && OnlyFrame(to)
        invariant tlb == old(tlb) + {(src, from), (dst, to)}
        invariant Block(from, to) == ByteCopy(words, first, PAGE_SIZE + first, off - first)
      {
        ByteCopyOn(words, first, PAGE_SIZE + first, off - first);
        CopyByte(src, dst, off, from, to);
        off, left := off + 1, left - 1;
      }
      WordCopyDoubles(s, PAGE_SIZE);
      Copied(from, to, s);
    }

    lemma Copied(from: nat, to: nat, s: seq<Byte>)
      requires Valid() && from < TOTAL_PAGES && to < TOTAL_PAGES && |s| == 2 * PAGE_SIZE
      requires Block(from, to) == s[..PAGE_SIZE] + s[..PAGE_SIZE]
      ensures forall o :: 0 <= o < PAGE_SIZE ==> mem[to, o] == s[o]
    {
      forall o | 0 <= o < PAGE_SIZE
        ensures mem[to, o] == s[o]
      {
        assert Block(from, to)[PAGE_SIZE + o] == Page(to)[o];
      }
    }
  }
}

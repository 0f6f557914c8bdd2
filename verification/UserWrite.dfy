/**
 The write call that shows user memory to the console through a window of one page.

 The window slides over the frames of the caller's buffer; after every move the page-table base is
 written again, because the translation cache would otherwise still lead to the previous frame.
 */
module UserWrite {
  import opened Frames
  import opened CopyData
  import opened Paging

  const USER_FIRST_PAGE: nat := 256
  const USER_PAGES: nat := 28
  const WINDOW: nat := 1023
  const TAM_BUFFER: nat := 512
  const WORD: nat := 0x1_0000_0000

  const EBADF := 9
  const EFAULT := 14
  const EINVAL := 22

  /** The address check of a read, on 32-bit addresses that wrap around. */
  predicate AccessOk(addr: nat, size: nat) {
    var first, last := addr / PAGE_SIZE, (addr + size) % WORD / PAGE_SIZE;
    last >= first && first >= USER_FIRST_PAGE && last <= USER_FIRST_PAGE + USER_PAGES
  }

  /** For sizes a caller can pass, no wrap-around gets through; one page beyond the user pages does. */
  lemma AccessOkMeans(addr: nat, size: nat)
    requires addr < WORD && size < WORD / 2
    ensures AccessOk(addr, size) <==> USER_FIRST_PAGE * PAGE_SIZE <= addr && addr + size < (USER_FIRST_PAGE + USER_PAGES + 1) * PAGE_SIZE
  {
    if addr + size >= WORD {
      assert (addr + size) % WORD == addr + size - WORD;
    }
  }

  /** The frame behind an address, zero if its page has none. */
  function FrameAt(frames: seq<nat>, a: nat): nat
    requires a < |frames| * PAGE_SIZE
  {
    frames[a / PAGE_SIZE]
  }

  /** How many of the n bytes at addr lie before the first page without a frame. */
  function Readable(frames: seq<nat>, addr: nat, n: nat): (k: nat)
    requires addr + n <= |frames| * PAGE_SIZE
    ensures k <= n
    ensures forall a :: addr <= a < addr + k ==> FrameAt(frames, a) >= 1
    ensures k < n ==> FrameAt(frames, addr + k) < 1 && (k > 0 ==> (addr + k) % PAGE_SIZE == 0)
    decreases n
  {
    if n == 0 || FrameAt(frames, addr) < 1 then 0
    else
      var chunk := PAGE_SIZE - addr % PAGE_SIZE;
      if n <= chunk then n else chunk + Readable(frames, addr + chunk, n - chunk)
  }

  /** Within one page all or nothing is readable, so the rest can be counted from any point of it. */
  lemma ReadableRest(frames: seq<nat>, addr: nat, n: nat, m: nat)
    requires addr + n <= |frames| * PAGE_SIZE && m <= n && addr % PAGE_SIZE + m <= PAGE_SIZE
    requires addr < |frames| * PAGE_SIZE && FrameAt(frames, addr) >= 1
    ensures Readable(frames, addr, n) == m + Readable(frames, addr + m, n - m)
  {
    if 0 < m < n && addr % PAGE_SIZE + m < PAGE_SIZE {
      assert (addr + m) / PAGE_SIZE == addr / PAGE_SIZE && (addr + m) % PAGE_SIZE == addr % PAGE_SIZE + m;
    }
  }

  lemma AddressParts(page: nat, off: nat)
    requires off < PAGE_SIZE
    ensures (page * PAGE_SIZE + off) / PAGE_SIZE == page && (page * PAGE_SIZE + off) % PAGE_SIZE == off
  {
  }

  class Terminal {
    const machine: Machine
    var console: seq<Byte>

    constructor (m: Machine)
      ensures machine == m && console == []
    {
      machine, console := m, [];
    }

    /** The frames that the current table gives to the first n pages. */
    ghost function Row(n: nat): (r: seq<nat>)
      requires machine.Valid() && n <= TOTAL_PAGES
      reads machine, machine.mem, machine.tables
      ensures |r| == n && forall p :: 0 <= p < n ==> r[p] == machine.tables[machine.cr3, p].frame < TOTAL_PAGES
    {
      if n == 0 then [] else Row(n - 1) + [machine.tables[machine.cr3, n - 1].frame]
    }

    ghost predicate Sized() {
      machine.mem.Length0 == TOTAL_PAGES && machine.mem.Length1 == PAGE_SIZE
    }

    ghost predicate Fits(frames: seq<nat>) {
      forall p :: 0 <= p < |frames| ==> frames[p] < TOTAL_PAGES
    }

    ghost function ByteAt(frames: seq<nat>, a: nat): Byte
      requires Sized() && Fits(frames) && a < |frames| * PAGE_SIZE
      reads machine.mem
    {
      machine.mem[FrameAt(frames, a), a % PAGE_SIZE]
    }

    /** The n bytes at addr of a process whose pages have the given frames. */
    ghost function UserBytes(frames: seq<nat>, addr: nat, n: nat): (b: seq<Byte>)
      requires Sized() && Fits(frames) && addr + n <= |frames| * PAGE_SIZE
      reads machine.mem
      ensures |b| == n
    {
      if n == 0 then [] else UserBytes(frames, addr, n - 1) + [ByteAt(frames, addr + n - 1)]
    }

    /** Prints n bytes of the window, which shows the page of addr. */
    method WriteConsole(off: nat, n: nat, ghost frames: seq<nat>, ghost addr: nat)
      requires machine.Valid() && Fits(frames) && addr + n <= |frames| * PAGE_SIZE && addr < |frames| * PAGE_SIZE
      requires machine.Resolves(WINDOW, FrameAt(frames, addr)) && machine.Coherent()
      requires off + n <= PAGE_SIZE && off == addr % PAGE_SIZE
      modifies this`console, machine`tlb
      ensures machine.Valid() && machine.Resolves(WINDOW, FrameAt(frames, addr)) && machine.Coherent()
      ensures console == old(console) + UserBytes(frames, addr, n)
    {
      for i := 0 to n
        invariant machine.Valid() && machine.Resolves(WINDOW, FrameAt(frames, addr)) && machine.Coherent()
        invariant console == old(console) + UserBytes(frames, addr, i)
      {
        ghost var shown := UserBytes(frames, addr, i);
        var b := machine.ReadByte(WINDOW, off + i, FrameAt(frames, addr));
        assert b == ByteAt(frames, addr + i) by {
          AddressParts(addr / PAGE_SIZE, off + i);
        }
        assert UserBytes(frames, addr, i + 1) == shown + [b];
        assert old(console) + shown + [b] == old(console) + (shown + [b]);
        console := console + [b];
      }
    }

    method MoveWindow(frame: nat)
      requires machine.Valid() && frame < TOTAL_PAGES
      modifies machine, machine.tables
      ensures machine.Valid() && machine.cr3 == old(machine.cr3) && machine.Resolves(WINDOW, frame) && machine.Coherent()
      ensures forall t, p :: 0 <= t < machine.tasks && 0 <= p < TOTAL_PAGES && !(t == machine.cr3 && p == WINDOW) ==>
                machine.tables[t, p] == old(machine.tables[t, p])
    {
      machine.SetSsPag(machine.cr3, WINDOW, frame);
      machine.SetCr3(machine.cr3);
    }

    lemma {:induction false} BytesSplit(frames: seq<nat>, addr: nat, m: nat, n: nat)
      requires Sized() && Fits(frames) && addr + m + n <= |frames| * PAGE_SIZE
      ensures UserBytes(frames, addr, m) + UserBytes(frames, addr + m, n) == UserBytes(frames, addr, m + n)
    {
      hide ByteAt;
      if n > 0 {
        BytesSplit(frames, addr, m, n - 1);
      }
    }

    /** Byte i of what is shown is the caller's byte at addr + i. */
    lemma {:induction false} BytesInOrder(frames: seq<nat>, addr: nat, n: nat, i: nat)
      requires Sized() && Fits(frames) && addr + n <= |frames| * PAGE_SIZE && i < n
      ensures UserBytes(frames, addr, n)[i] == ByteAt(frames, addr + i)
    {
      hide ByteAt;
      if i < n - 1 {
        BytesInOrder(frames, addr, n - 1, i);
      }
    }

    /** Every entry of the current table but the window's keeps its frame. */
    ghost predicate Shows(frames: seq<nat>)
      reads machine`cr3, machine.tables
    {
      && |frames| == WINDOW && machine.cr3 < machine.tables.Length0 && machine.tables.Length1 == TOTAL_PAGES
      && forall p :: 0 <= p < WINDOW ==> frames[p] == machine.tables[machine.cr3, p].frame
    }

    /** Prints at most 512 bytes, and none beyond the end of the window. */
    method ShowPart(page: nat, off: nat, left: nat, ghost frames: seq<nat>) returns (toWrite: nat)
      requires machine.Valid() && Fits(frames) && page < |frames| && off < PAGE_SIZE && left > 0
      requires page * PAGE_SIZE + off + left <= |frames| * PAGE_SIZE
      requires machine.Resolves(WINDOW, frames[page]) && machine.Coherent()
      modifies this`console, machine`tlb
      ensures machine.Valid() && machine.Resolves(WINDOW, frames[page]) && machine.Coherent()
      ensures 0 < toWrite <= left && off + toWrite <= PAGE_SIZE
      ensures FrameAt(frames, page * PAGE_SIZE + off) == frames[page] && (page * PAGE_SIZE + off) % PAGE_SIZE == off
      ensures console == old(console) + UserBytes(frames, page * PAGE_SIZE + off, toWrite)
    {
      hide UserBytes;
      var toEnd := PAGE_SIZE - off;
      var least := if left < toEnd then left else toEnd;
      toWrite := if least < TAM_BUFFER then least else TAM_BUFFER;
      AddressParts(page, off);
      WriteConsole(off, toWrite, frames, page * PAGE_SIZE + off);
    }

    /** With left bytes to go, the console shows all earlier ones and the window is at the next one. */
    ghost predicate Showing(addr: nat, n: nat, page: nat, off: nat, left: nat, frames: seq<nat>, before: seq<Byte>)
      requires Sized() && Fits(frames) && addr + n <= |frames| * PAGE_SIZE
      reads this, machine.mem
    {
      && left <= n && off <= PAGE_SIZE && page < |frames| && frames[page] >= 1 && page * PAGE_SIZE + off == addr + n - left
      && console == before + UserBytes(frames, addr, n - left)
      && Readable(frames, addr, n) == n - left + Readable(frames, addr + n - left, left)
    }

    /** Where the loop ends or turns a page. */
    lemma Turn(addr: nat, n: nat, page: nat, off: nat, left: nat, frames: seq<nat>, before: seq<Byte>)
      requires Sized() && Fits(frames) && addr + n <= |frames| * PAGE_SIZE && Showing(addr, n, page, off, left, frames, before)
      ensures left == 0 ==> Readable(frames, addr, n) == n && console == before + UserBytes(frames, addr, n)
      ensures left > 0 && off == PAGE_SIZE ==>
                page + 1 < |frames| &&
                if frames[page + 1] >= 1 then Showing(addr, n, page + 1, 0, left, frames, before)
                else Readable(frames, addr, n) < n && console == before + UserBytes(frames, addr, Readable(frames, addr, n))
    {
      hide Readable, UserBytes;
      if left > 0 && off == PAGE_SIZE && frames[page + 1] < 1 {
        AddressParts(page + 1, 0);
        assert FrameAt(frames, addr + n - left) < 1;
        assert Readable(frames, addr, n) == n - left;
      }
    }

    /** Shows the next part. */
    method Advance(addr: nat, n: nat, page: nat, off: nat, left: nat, ghost frames: seq<nat>, ghost before: seq<Byte>) returns (toWrite: nat)
      requires machine.Valid() && Fits(frames) && addr + n <= |frames| * PAGE_SIZE
      requires Showing(addr, n, page, off, left, frames, before) && left > 0 && off < PAGE_SIZE
      requires machine.Resolves(WINDOW, frames[page]) && machine.Coherent()
      modifies this`console, machine`tlb
      ensures machine.Valid() && machine.Resolves(WINDOW, frames[page]) && machine.Coherent()
      ensures 0 < toWrite <= left && off + toWrite <= PAGE_SIZE
      ensures Showing(addr, n, page, off + toWrite, left - toWrite, frames, before)
    {
      hide Readable, UserBytes, FrameAt;
      ghost var shown, at := UserBytes(frames, addr, n - left), addr + n - left;
      toWrite := ShowPart(page, off, left, frames);
      ghost var part := UserBytes(frames, at, toWrite);
      BytesSplit(frames, addr, n - left, toWrite);
      assert before + shown + part == before + (shown + part);
      ReadableRest(frames, at, left, toWrite);
    }

    /** One round of the loop; false if it stops at a page without a frame. */
    method Round(addr: nat, n: nat, page: nat, off: nat, left: nat, ghost frames: seq<nat>, ghost before: seq<Byte>)
      returns (page': nat, off': nat, left': nat, ok: bool)
      requires machine.Valid() && Fits(frames) && Shows(frames) && addr + n <= |frames| * PAGE_SIZE
      requires Showing(addr, n, page, off, left, frames, before) && left > 0 && page < WINDOW && off < PAGE_SIZE
      requires machine.Resolves(WINDOW, frames[page]) && machine.Coherent()
      modifies this`console, machine, machine.tables
      ensures machine.Valid() && machine.cr3 == old(machine.cr3) && Shows(frames) && left' < left
      ensures forall t, p :: 0 <= t < machine.tasks && 0 <= p < TOTAL_PAGES && !(t == machine.cr3 && p == WINDOW) ==>
                machine.tables[t, p] == old(machine.tables[t, p])
      ensures ok ==> page' < WINDOW && (left' > 0 ==> off' < PAGE_SIZE) && Showing(addr, n, page', off', left', frames, before)
      ensures ok ==> machine.Resolves(WINDOW, frames[page']) && machine.Coherent()
      ensures !ok ==> machine.tables[machine.cr3, WINDOW] == NO_ENTRY && Readable(frames, addr, n) < n
      ensures !ok ==> console == before + UserBytes(frames, addr, Readable(frames, addr, n))
    {
      hide Readable, UserBytes, FrameAt, Showing, Fits, Machine.Resolves, Machine.Coherent;
      var toWrite := Advance(addr, n, page, off, left, frames, before);
      page', off', left' := page, off + toWrite, left - toWrite;
      Turn(addr, n, page', off', left', frames, before);
      if off' >= PAGE_SIZE && left' > 0 {
        page', off' := page' + 1, 0;
        ok := NextPage(page', frames);
      } else {
        ok := true;
      }
    }

    method CloseWindow()
      requires machine.Valid()
      modifies machine, machine.tables
      ensures machine.Valid() && machine.cr3 == old(machine.cr3) && machine.tables[machine.cr3, WINDOW] == NO_ENTRY && machine.tlb == {}
      ensures forall t, p :: 0 <= t < machine.tasks && 0 <= p < TOTAL_PAGES && !(t == machine.cr3 && p == WINDOW) ==>
                machine.tables[t, p] == old(machine.tables[t, p])
    {
      machine.DelSsPag(machine.cr3, WINDOW);
      machine.SetCr3(machine.cr3);
    }

    /** The loop of the call; false if it stops at a page without a frame. */
    method Show(addr: nat, n: nat, ghost frames: seq<nat>) returns (ok: bool)
      requires machine.Valid() && Fits(frames) && Shows(frames) && addr + n < (USER_FIRST_PAGE + USER_PAGES + 1) * PAGE_SIZE
      requires FrameAt(frames, addr) >= 1 && machine.Resolves(WINDOW, FrameAt(frames, addr)) && machine.Coherent()
      modifies this`console, machine, machine.tables
      ensures machine.Valid() && machine.cr3 == old(machine.cr3) && machine.tables[machine.cr3, WINDOW] == NO_ENTRY
      ensures forall t, p :: 0 <= t < machine.tasks && 0 <= p < TOTAL_PAGES && !(t == machine.cr3 && p == WINDOW) ==>
                machine.tables[t, p] == old(machine.tables[t, p])
      ensures ok <==> Readable(frames, addr, n) == n
      ensures console == old(console) + UserBytes(frames, addr, Readable(frames, addr, n))
      ensures ok ==> machine.tlb == {}
    {
      var page: nat, off: nat, left: nat := addr / PAGE_SIZE, addr % PAGE_SIZE, n;
      assert Showing(addr, n, page, off, left, frames, console);
      hide Readable, UserBytes, FrameAt, Showing, Fits, Machine.Resolves, Machine.Coherent;
      while left > 0
        invariant page < WINDOW && (left > 0 ==> off < PAGE_SIZE) && Showing(addr, n, page, off, left, frames, old(console))
        invariant machine.Valid() && machine.cr3 == old(machine.cr3) && Shows(frames)
        invariant machine.Resolves(WINDOW, frames[page]) && machine.Coherent()
        invariant forall t, p :: 0 <= t < machine.tasks && 0 <= p < TOTAL_PAGES && !(t == machine.cr3 && p == WINDOW) ==>
                    machine.tables[t, p] == old(machine.tables[t, p])
      {
        page, off, left, ok := Round(addr, n, page, off, left, frames, old(console));
        if !ok {
          return;
        }
      }
      Turn(addr, n, page, off, left, frames, old(console));
      CloseWindow();
      return true;
    }

    /** Closes the window and opens it on the given page, if that has a frame. */
    method NextPage(page: nat, ghost frames: seq<nat>) returns (there: bool)
      requires machine.Valid() && page < WINDOW && Shows(frames)
      modifies machine, machine.tables
      ensures machine.Valid() && machine.cr3 == old(machine.cr3) && Shows(frames)
      ensures there == (frames[page] >= 1) && FrameAt(frames, page * PAGE_SIZE) == frames[page]
      ensures if there then machine.Resolves(WINDOW, frames[page]) && machine.Coherent()
              else machine.tables[machine.cr3, WINDOW] == NO_ENTRY && machine.tlb == old(machine.tlb)
      ensures forall t, p :: 0 <= t < machine.tasks && 0 <= p < TOTAL_PAGES && !(t == machine.cr3 && p == WINDOW) ==>
                machine.tables[t, p] == old(machine.tables[t, p])
    {
      machine.DelSsPag(machine.cr3, WINDOW);
      var frame := machine.GetFrame(machine.cr3, page);
      if frame < 1 {
        return false;
      }
      MoveWindow(frame);
      return true;
    }

    /**
     The console receives exactly the caller's bytes, in order, up to the first page without a frame.
     Only the window entry of the caller's table is touched, and it ends up empty.
     */
    method SysWrite(fd: int, addr: nat, nbytes: int) returns (r: int)
      requires machine.Valid() && addr < WORD && nbytes < WORD / 2
      modifies this`console, machine, machine.tables
      ensures machine.Valid() && machine.cr3 == old(machine.cr3)
      ensures fd != 1 ==> r == -EBADF
      ensures fd == 1 && nbytes < 0 ==> r == -EINVAL
      ensures fd == 1 && nbytes >= 0 && (!AccessOk(addr, nbytes) || old(FrameAt(Row(WINDOW), addr)) < 1) ==> r == -EFAULT
      ensures fd != 1 || nbytes < 0 || !AccessOk(addr, nbytes) || old(FrameAt(Row(WINDOW), addr)) < 1 ==>
                unchanged(this, machine, machine.tables)
      ensures fd == 1 && nbytes >= 0 && AccessOk(addr, nbytes) && old(FrameAt(Row(WINDOW), addr)) >= 1 ==>
                var frames := old(Row(WINDOW));
                var k := Readable(frames, addr, nbytes);
                && r == (if k == nbytes then nbytes else -EFAULT)
                && console == old(console) + UserBytes(frames, addr, k)
                && machine.tables[machine.cr3, WINDOW] == NO_ENTRY
                && (r >= 0 ==> machine.tlb == {})
      ensures forall t, p :: 0 <= t < machine.tasks && 0 <= p < TOTAL_PAGES && !(t == machine.cr3 && p == WINDOW) ==>
                machine.tables[t, p] == old(machine.tables[t, p])
    {
      if fd != 1 {
        return -EBADF;
      }
      if nbytes < 0 {
        return -EINVAL;
      }
      AccessOkMeans(addr, nbytes);
      if !AccessOk(addr, nbytes) {
        return -EFAULT;
      }
      ghost var frames := Row(WINDOW);
      var frame := machine.GetFrame(machine.cr3, addr / PAGE_SIZE);
      if frame < 1 {
        return -EFAULT;
      }
      MoveWindow(frame);
      var ok := Show(addr, nbytes, frames);
      return if ok then nbytes else -EFAULT;
    }
  }
}

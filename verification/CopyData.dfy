/**
 The kernel's copy routine moves four bytes at a time while more than four are left, and single
 bytes after that.
 */
module CopyData {

  type Byte = b: int | 0 <= b < 256

  /** Copying byte by byte in ascending order. */
  function ByteCopy(s: seq<Byte>, p: nat, q: nat, size: nat): (r: seq<Byte>)
    requires p + size <= |s| && q + size <= |s|
    ensures |r| == |s|
    decreases size
  {
    if size == 0 then s else
      var rest := ByteCopy(s, p, q, size - 1);
      rest[q + size - 1 := rest[p + size - 1]]
  }

  /** The four bytes at p are read before the four bytes at q are written. */
  function WordMoved(s: seq<Byte>, p: nat, q: nat): (r: seq<Byte>)
    requires p + 4 <= |s| && q + 4 <= |s|
    ensures |r| == |s|
  {
    s[q := s[p]][q + 1 := s[p + 1]][q + 2 := s[p + 2]][q + 3 := s[p + 3]]
  }

  /** What the routine computes: words while more than four bytes are left, then bytes. */
  function WordCopy(s: seq<Byte>, p: nat, q: nat, size: nat): (r: seq<Byte>)
    requires p + size <= |s| && q + size <= |s|
    ensures |r| == |s|
    decreases size
  {
    if size > 4 then WordCopy(WordMoved(s, p, q), p + 4, q + 4, size - 4) else ByteCopy(s, p, q, size)
  }

  method CopyData(a: array<Byte>, start: nat, dest: nat, size: int)
    requires size > 0 ==> start + size <= a.Length && dest + size <= a.Length
    modifies a
    ensures a[..] == if size <= 0 then old(a[..]) else WordCopy(old(a[..]), start, dest, size)
  {
    if size <= 0 {
      return;
    }
    hide WordCopy, ByteCopy, WordMoved;
    var p, q, left := start, dest, size;
    while left > 4
      invariant 0 < left && p + left == start + size && q + left == dest + size
      invariant WordCopy(a[..], p, q, left) == WordCopy(old(a[..]), start, dest, size)
    {
      WordCopyOn(a[..], p, q, left);
      MoveWord(a, p, q);
      p, q, left := p + 4, q + 4, left - 4;
    }
    WordCopyOn(a[..], p, q, left);
    CopyBytes(a, p, q, left);
  }

  method CopyBytes(a: array<Byte>, start: nat, dest: nat, size: nat)
    requires start + size <= a.Length && dest + size <= a.Length
    modifies a
    ensures a[..] == ByteCopy(old(a[..]), start, dest, size)
  {
    assert a[..] == ByteCopy(a[..], start, dest, 0);
    hide ByteCopy;
    var p, q, left := start, dest, size;
    ghost var done := 0;
    while left > 0
      invariant 0 <= left && done + left == size && p == start + done && q == dest + done
      invariant a[..] == ByteCopy(old(a[..]), start, dest, done)
    {
      ByteCopyOn(old(a[..]), start, dest, done);
      a[q] := a[p];
      p, q, left := p + 1, q + 1, left - 1;
      done := done + 1;
    }
  }

  method MoveWord(a: array<Byte>, p: nat, q: nat)
    requires p + 4 <= a.Length && q + 4 <= a.Length
    modifies a
    ensures a[..] == WordMoved(old(a[..]), p, q)
  {
    a[q], a[q + 1], a[q + 2], a[q + 3] := a[p], a[p + 1], a[p + 2], a[p + 3];
  }

  lemma WordCopyOn(s: seq<Byte>, p: nat, q: nat, size: nat)
    requires p + size <= |s| && q + size <= |s|
    ensures size > 4 ==> WordCopy(s, p, q, size) == WordCopy(WordMoved(s, p, q), p + 4, q + 4, size - 4)
    ensures size <= 4 ==> WordCopy(s, p, q, size) == ByteCopy(s, p, q, size)
  {
  }

  lemma ByteCopyOn(s: seq<Byte>, p: nat, q: nat, size: nat)
    requires p + size < |s| && q + size < |s|
    ensures ByteCopy(s, p, q, 0) == s
    ensures ByteCopy(s, p, q, size + 1) == ByteCopy(s, p, q, size)[q + size := ByteCopy(s, p, q, size)[p + size]]
  {
  }

  /** A copy can be made in two parts. */
  lemma {:induction false} ByteCopySplits(s: seq<Byte>, p: nat, q: nat, n: nat, m: nat)
    requires p + n + m <= |s| && q + n + m <= |s|
    ensures ByteCopy(s, p, q, n + m) == ByteCopy(ByteCopy(s, p, q, n), p + n, q + n, m)
    decreases m
  {
    if m > 0 {
      ByteCopySplits(s, p, q, n, m - 1);
    }
  }

  /** A word does what four bytes do, unless it would have to read what it has just written. */
  lemma WordIsFourBytes(s: seq<Byte>, p: nat, q: nat)
    requires p + 4 <= |s| && q + 4 <= |s| && !(p < q < p + 4)
    ensures WordMoved(s, p, q) == ByteCopy(s, p, q, 4)
  {
    var s1 := s[q := s[p]];
    var s2 := s1[q + 1 := s1[p + 1]];
    var s3 := s2[q + 2 := s2[p + 2]];
    assert ByteCopy(s, p, q, 1) == s1;
    assert ByteCopy(s, p, q, 2) == s2;
    assert ByteCopy(s, p, q, 3) == s3;
    assert ByteCopy(s, p, q, 4) == s3[q + 3 := s3[p + 3]];
  }

  /** Unless the target starts up to three bytes into the source, the routine is a byte copy. */
  lemma {:induction false} WordCopyIsByteCopy(s: seq<Byte>, p: nat, q: nat, size: nat)
    requires p + size <= |s| && q + size <= |s| && !(p < q < p + 4 && size > 4)
    ensures WordCopy(s, p, q, size) == ByteCopy(s, p, q, size)
    decreases size
  {
    if size > 4 {
      WordIsFourBytes(s, p, q);
      ByteCopySplits(s, p, q, 4, size - 4);
      WordCopyIsByteCopy(WordMoved(s, p, q), p + 4, q + 4, size - 4);
    }
  }

  /** Only bytes from q on change. */
  lemma {:induction false} WordCopyKeepsFront(s: seq<Byte>, p: nat, q: nat, size: nat, k: nat)
    requires p + size <= |s| && q + size <= |s| && k < q && k < |s|
    ensures WordCopy(s, p, q, size)[k] == s[k] && ByteCopy(s, p, q, size)[k] == s[k]
    decreases size
  {
    if size > 4 {
      WordCopyKeepsFront(WordMoved(s, p, q), p + 4, q + 4, size - 4, k);
    }
    if size > 0 {
      ByteCopyKeepsFront(s, p, q, size, k);
    }
  }

  lemma {:induction false} ByteCopyKeepsFront(s: seq<Byte>, p: nat, q: nat, size: nat, k: nat)
    requires p + size <= |s| && q + size <= |s| && k < q && k < |s|
    ensures ByteCopy(s, p, q, size)[k] == s[k]
    decreases size
  {
    if size > 0 {
      ByteCopyKeepsFront(s, p, q, size - 1, k);
    }
  }

  /** In the remaining case it is not, whatever the sizes and places: some contents tell the two apart. */
  lemma WordsDifferOnOverlap(n: nat, p: nat, q: nat, size: nat) returns (s: seq<Byte>)
    requires p + size <= n && q + size <= n && p < q < p + 4 && size > 4
    ensures |s| == n && WordCopy(s, p, q, size) != ByteCopy(s, p, q, size)
  {
    var zeros := seq(n, _ => 0);
    s := zeros[p := 1];
    var k := q + (q - p);
    WordCopyKeepsFront(WordMoved(s, p, q), p + 4, q + 4, size - 4, k);
    assert WordCopy(s, p, q, size)[k] == s[q] == 0;
    ByteCopyRepeats(s, p, q, size);
  }

  /** Byte by byte, the first byte of the source comes back where the target overlaps it. */
  lemma ByteCopyRepeats(s: seq<Byte>, p: nat, q: nat, size: nat)
    requires p + size <= |s| && q + size <= |s| && p < q && size > q - p
    ensures ByteCopy(s, p, q, size)[q + (q - p)] == s[p]
  {
    var d := q - p;
    var k := q + d;
    ByteCopySplits(s, p, q, d + 1, size - d - 1);
    ByteCopyKeepsFront(ByteCopy(s, p, q, d + 1), p + d + 1, q + d + 1, size - d - 1, k);
    ByteCopySplits(s, p, q, 1, d - 1);
    assert ByteCopy(s, p, q, 1)[q] == s[p];
    ByteCopyKeepsFront(ByteCopy(s, p, q, 1), p + 1, q + 1, d - 1, q);
    assert ByteCopy(s, p, q, d + 1)[k] == ByteCopy(s, p, q, d)[q];
  }

  /** If the target does not start inside the source, it ends up with what the source held; nothing else changes. */
  lemma {:induction false} ByteCopyCopies(s: seq<Byte>, p: nat, q: nat, size: nat, k: nat)
    requires p + size <= |s| && q + size <= |s| && k < |s| && (q <= p || p + size <= q)
    ensures ByteCopy(s, p, q, size)[k] == if q <= k < q + size then s[p + k - q] else s[k]
    decreases size
  {
    if size > 0 {
      ByteCopyCopies(s, p, q, size - 1, k);
      ByteCopyCopies(s, p, q, size - 1, p + size - 1);
    }
  }

  /** The routine copies a block onto the one after it and leaves the first as it is. */
  lemma WordCopyDoubles(s: seq<Byte>, n: nat)
    requires |s| == 2 * n
    ensures WordCopy(s, 0, n, n) == s[..n] + s[..n]
  {
    WordCopyIsByteCopy(s, 0, n, n);
    hide WordCopy, ByteCopy;
    forall k | 0 <= k < 2 * n
      ensures WordCopy(s, 0, n, n)[k] == (s[..n] + s[..n])[k]
    {
      ByteCopyCopies(s, 0, n, n, k);
    }
  }
}

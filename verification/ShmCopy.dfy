/** Shared-memory buffers: the check made when a buffer is created, and the row copy it protects on
    every later update, through any number of pool resizes. */
module ShmCopy {
  import opened NativeBytes

  type I32 = x: int | -0x8000_0000 <= x < 0x8000_0000
  newtype I64 = x: int | -0x8000_0000_0000_0000 <= x < 0x8000_0000_0000_0000
  newtype U64 = x: int | 0 <= x < 0x1_0000_0000_0000_0000

  const LIMIT := 0x1_0000_0000_0000_0000

  // ---------------------------------------------------------------------------------------------
  // The check
  // ---------------------------------------------------------------------------------------------

  /** The rows of a buffer are whole, and its last stride ends inside `len` bytes. */
  predicate Fits(offset: int, width: int, height: int, stride: int, len: int) {
    width > 0 && height > 0 && offset >= 0 && stride >= 4 * width && offset + stride * height <= len
  }

  lemma ProductBound(a: int, b: int, m: int, n: int)
    requires 0 <= a <= m && 0 <= b <= n
    ensures 0 <= a * b <= m * n
  {
    assert m * n == a * b + a * (n - b) + (m - a) * n;
  }

  /** The check of `create_buffer`, in 64-bit arithmetic on 32-bit arguments: nothing overflows, and the
      buffer is accepted exactly when it fits. A negative size is refused before it is multiplied. */
  method CreateBuffer(width: I32, height: I32, offset: I32, stride: I32, poolLen: I32) returns (accepted: bool)
    requires poolLen >= 0
    ensures accepted <==> Fits(offset, width, height, stride, poolLen)
  {
    var (w, h, o, st) := (width as I64, height as I64, offset as I64, stride as I64);
    if w <= 0 || h <= 0 || o < 0 || st < w * 4 {
      return false;
    }
    ProductBound(stride, height, 0x7fff_ffff, 0x7fff_ffff);
    if o + st * h > poolLen as I64 {
      return false;
    }
    accepted := true;
  }

  lemma OneMore(y: int, d: int)
    ensures (y + 1) * d == y * d + d
  {
  }

  lemma {:induction false} Multiples(y: nat, n: nat, d: nat)
    requires y <= n
    ensures y * d <= n * d
    ensures y < n ==> y * d + d <= n * d
    decreases n - y
  {
    if y < n {
      OneMore(y, d);
      Multiples(y + 1, n, d);
    }
  }

  lemma MultiplesOfLess(n: nat, c: nat, d: nat)
    requires c <= d
    ensures n * c <= n * d
  {
    assert n * d == n * c + n * (d - c);
  }

  /** What the check buys: every row lies in the pool, and the staging buffer has room for all rows. */
  lemma RowsInPool(offset: nat, width: nat, height: nat, stride: nat, len: nat, y: nat)
    requires Fits(offset, width, height, stride, len) && y < height
    ensures offset + y * stride + 4 * width <= len
    ensures y * (4 * width) + 4 * width <= height * (4 * width) <= len
  {
    Multiples(y, height, stride);
    Multiples(y, height, 4 * width);
    MultiplesOfLess(height, 4 * width, stride);
    assert stride * height == height * stride;
  }

  predicate RowsFit(offset: nat, width: nat, height: nat, stride: nat, len: nat) {
    forall y: nat | y < height :: offset + y * stride + 4 * width <= len
  }

  /** The check asks for more than the rows need, as the last row may not use its whole stride. A buffer
      whose rows all fit is refused exactly when the pool ends inside the rest of the last stride. */
  lemma RefusedThoughRowsFitIff(offset: nat, width: nat, height: nat, stride: nat, len: nat)
    requires width > 0 && height > 0 && stride >= 4 * width
    ensures RowsFit(offset, width, height, stride, len) && !Fits(offset, width, height, stride, len)
            <==> offset + (height - 1) * stride + 4 * width <= len < offset + stride * height
  {
    if offset + (height - 1) * stride + 4 * width <= len {
      forall y: nat | y < height ensures offset + y * stride + 4 * width <= len {
        Multiples(y, height - 1, stride);
      }
    }
  }

  // ---------------------------------------------------------------------------------------------
  // The pool
  // ---------------------------------------------------------------------------------------------

  class ShmPool {
    var data: array<Byte>

    /** Maps the start of the file, which holds `file`. */
    constructor (size: nat, file: nat -> Byte)
      ensures fresh(data) && data.Length == size && forall i | 0 <= i < size :: data[i] == file(i)
    {
      data := new Byte[size](i requires 0 <= i < size => file(i));
    }

    /** Shrinking is ignored. Growing maps more of the file; the bytes mapped before stay. `file` is what
        the file holds and `remapped` whether the mapping could be changed. */
    method Resize(size: I32, file: nat -> Byte, remapped: bool) returns (ok: bool)
      modifies this
      ensures ok <==> size < old(data.Length) || remapped
      ensures data == old(data) || fresh(data)
      ensures data.Length == if size < old(data.Length) || !remapped then old(data.Length) else size
      ensures data[..old(data.Length)] == old(data[..])
      ensures forall i | old(data.Length) <= i < data.Length :: data[i] == file(i)
    {
      if size < 0 || size < data.Length {
        return true;
      }
      if !remapped {
        return false;
      }
      var was := data;
      var bigger := new Byte[size](i requires 0 <= i < size reads was => if i < was.Length then was[i] else file(i));
      assert bigger[..was.Length] == was[..];
      data := bigger;
      ok := true;
    }
  }

  /** The length of a pool after some resize requests, each with whether the mapping could be changed. */
  function LengthAfter(len: nat, requests: seq<(I32, bool)>): nat
    decreases |requests|
  {
    if requests == [] then len
    else
      var (size, remapped) := requests[0];
      LengthAfter(if size < len || !remapped then len else size, requests[1..])
  }

  /** A buffer accepted once fits after any number of later resizes. */
  lemma {:induction false} FitsForever(offset: int, width: int, height: int, stride: int, len: nat,
                                       requests: seq<(I32, bool)>)
    requires Fits(offset, width, height, stride, len)
    ensures Fits(offset, width, height, stride, LengthAfter(len, requests)) && len <= LengthAfter(len, requests)
    decreases |requests|
  {
    if requests != [] {
      var (size, remapped) := requests[0];
      FitsForever(offset, width, height, stride, if size < len || !remapped then len else size, requests[1..]);
    }
  }

  // ---------------------------------------------------------------------------------------------
  // The copy
  // ---------------------------------------------------------------------------------------------

  /** The first `n` rows of a buffer, tightly packed. */
  function Rows(src: seq<Byte>, offset: nat, stride: nat, row: nat, n: nat): (r: seq<Byte>)
    requires n > 0 ==> offset + (n - 1) * stride + row <= |src|
    ensures |r| == n * row
  {
    if n == 0 then []
    else
      OneMore(n - 2, stride);
      OneMore(n - 1, row);
      var start := offset + (n - 1) * stride;
      Rows(src, offset, stride, row, n - 1) + src[start..start + row]
  }

  /** Byte `i` of row `y` of the staging buffer is byte `i` of row `y` in the pool. */
  lemma {:induction false} RowsAt(src: seq<Byte>, offset: nat, stride: nat, row: nat, n: nat, y: nat, i: nat)
    requires n > 0 && offset + (n - 1) * stride + row <= |src| && y < n && i < row
    ensures 0 <= y * row + i < n * row && 0 <= offset + y * stride + i < |src|
    ensures Rows(src, offset, stride, row, n)[y * row + i] == src[offset + y * stride + i]
    decreases n
  {
    Multiples(y, n, row);
    Multiples(y, n - 1, stride);
    if y < n - 1 {
      OneMore(n - 2, stride);
      Multiples(y, n - 1, row);
      RowsAt(src, offset, stride, row, n - 1, y, i);
    }
    OneMore(n - 1, row);
  }

  /** `staged` starts with the first `n` rows, tightly packed. */
  ghost predicate Packed(staged: seq<Byte>, src: seq<Byte>, offset: nat, stride: nat, row: nat, n: nat) {
    && 0 <= n * row <= |staged| && (n > 0 ==> offset + (n - 1) * stride + row <= |src|)
    && staged[..n * row] == Rows(src, offset, stride, row, n)
  }

  /** Row `n` was copied behind the first `n` rows. */
  lemma RowsGrow(src: seq<Byte>, was: seq<Byte>, now: seq<Byte>, offset: nat, stride: nat, row: nat, n: nat,
                 at: nat, from: nat)
    requires Packed(was, src, offset, stride, row, n) && at == n * row && from == offset + n * stride
    requires from + row <= |src| && at + row <= |was|
    requires now == was[..at] + src[from..from + row] + was[at + row..]
    ensures Packed(now, src, offset, stride, row, n + 1)
  {
    OneMore(n, row);
    TakeJoined(was[..at], src[from..from + row], was[at + row..]);
  }

  lemma TakeJoined(a: seq<Byte>, b: seq<Byte>, c: seq<Byte>)
    ensures (a + b + c)[..|a| + |b|] == a + b
  {
  }

  lemma TimesFour(y: nat, w: nat)
    ensures y * w * 4 == y * (4 * w)
  {
  }

  method CopyFromSlice(dst: array<Byte>, at: nat, src: array<Byte>, from: nat, n: nat)
    requires dst != src && at + n <= dst.Length && from + n <= src.Length
    modifies dst
    ensures dst[..] == old(dst[..at]) + src[from..from + n] + old(dst[at + n..])
  {
    forall i | 0 <= i < n {
      dst[at + i] := src[from + i];
    }
  }

  class ShmBufferBacking {
    const pool: ShmPool
    const offset: U64
    const stride: U64
    const width: U64
    const height: U64
    const staging: array<Byte>
    var next: nat

    ghost predicate Accepted()
      reads this, pool
    {
      && Fits(offset as int, width as int, height as int, stride as int, pool.data.Length)
      && offset < 0x8000_0000 && stride < 0x8000_0000 && width < 0x8000_0000 && height < 0x8000_0000
      && staging.Length == height as int * (4 * width as int)
      && staging != pool.data
    }

    function Geometry(): (int, int, int, int) {
      (offset as int, stride as int, width as int, height as int)
    }

    constructor (pool: ShmPool, offset: I32, stride: I32, width: I32, height: I32)
      requires Fits(offset, width, height, stride, pool.data.Length)
      ensures this.pool == pool && Accepted() && fresh(staging) && next == 0
      ensures Geometry() == (offset, stride, width, height)
    {
      this.pool := pool;
      this.offset, this.stride := offset as U64, stride as U64;
      this.width, this.height := width as U64, height as U64;
      staging := new Byte[height * (4 * width)];
      next := 0;
    }

    /** One row: the 64-bit arithmetic and the bounds checks of the code. For an accepted buffer
        nothing overflows and no check fails. */
    method CopyRow(y: U64) returns (ok: bool, ghost at: nat, ghost from: nat)
      requires Accepted() && y < height
      modifies staging
      ensures ok
      ensures at == y as int * (4 * width as int) && from == offset as int + y as int * stride as int
      ensures at + 4 * width as int <= staging.Length && from + 4 * width as int <= pool.data.Length
      ensures staging[..] == old(staging[..])[..at] + old(pool.data[..])[from..from + 4 * width as int]
                           + old(staging[..])[at + 4 * width as int..]
    {
      var data := pool.data;
      ghost var (was, src, row) := (staging[..], data[..], 4 * width as int);
      RowsInPool(offset as int, width as int, height as int, stride as int, data.Length, y as int);
      ProductBound(y as int, stride as int, 0x7fff_ffff, 0x7fff_ffff);
      ProductBound(y as int, width as int, 0x7fff_ffff, 0x7fff_ffff);
      var shmOffset := offset + y * stride;
      var gpuOffset := y * width * 4;
      var lineLen := width * 4;
      TimesFour(y as int, width as int);
      at, from := gpuOffset as int, shmOffset as int;
      if (gpuOffset + lineLen) as int > staging.Length || (shmOffset + lineLen) as int > data.Length {
        return false, at, from;
      }
      CopyFromSlice(staging, gpuOffset as int, data, shmOffset as int, lineLen as int);
      assert was[..at] == old(staging[..at]) && src[from..from + row] == old(data[from..from + row]);
      assert was[at + row..] == old(staging[at + row..]);
      ok := true;
    }

    /** The first `n` rows are copied. */
    ghost predicate RowsCopied(n: nat)
      reads this, pool, pool.data, staging
    {
      Packed(staging[..], pool.data[..], offset as int, stride as int, 4 * width as int, n)
    }

    method CopyNext(y: U64) returns (ok: bool)
      requires Accepted() && y < height && RowsCopied(y as int)
      modifies staging
      ensures ok && Accepted() && RowsCopied(y as int + 1)
    {
      ghost var (was, src) := (staging[..], pool.data[..]);
      ghost var at, from;
      ok, at, from := CopyRow(y);
      RowsGrow(src, was, staging[..], offset as int, stride as int, 4 * width as int, y as int, at, from);
    }

    /** Copies row by row and stops at a row that reaches outside; for an accepted buffer it never does:
        `complete` is always true. */
    method CopyRows() returns (complete: bool)
      requires Accepted()
      modifies staging
      ensures complete
      ensures Staged()
    {
      var y: U64 := 0;
      while y < height
        invariant 0 <= y <= height && Accepted() && RowsCopied(y as int)
      {
        var ok := CopyNext(y);
        if !ok {
          return false;
        }
        y := y + 1;
      }
      assert staging[..][..height as int * (4 * width as int)] == staging[..];
      complete := true;
    }

    /** Takes an acquire and a release point from a wrapping counter, copies unless the staging buffer
        cannot be written, and queues the upload in either case. */
    method Update(writable: bool) returns (acquire: nat, release: nat, queued: seq<nat>)
      requires Accepted()
      modifies this, staging
      ensures acquire == old(next) && release == (acquire + 1) % LIMIT && next == (release + 1) % LIMIT
      ensures queued == [acquire]
      ensures Accepted()
      ensures !writable ==> staging[..] == old(staging[..])
      ensures writable ==> Staged()
      ensures writable ==> forall y: nat, i: nat | y < height as int && i < 4 * width as int :: ByteCopied(y, i)
    {
      acquire := next;
      next := (next + 1) % LIMIT;
      release := next;
      next := (next + 1) % LIMIT;
      if writable {
        var complete := CopyRows();
        forall y: nat, i: nat | y < height as int && i < 4 * width as int ensures ByteCopied(y, i) {
          RowsAt(pool.data[..], offset as int, stride as int, 4 * width as int, height as int, y, i);
        }
      }
      queued := [acquire];
    }

    /** The staging buffer is the packed rows. */
    ghost predicate Staged()
      reads this, pool, pool.data, staging
    {
      var (row, n) := (4 * width as int, height as int);
      && n > 0 && offset as int + (n - 1) * stride as int + row <= pool.data.Length
      && staging[..] == Rows(pool.data[..], offset as int, stride as int, row, n)
    }

    /** Staging byte `y * 4w + i` is pool byte `offset + y * stride + i`. */
    ghost predicate ByteCopied(y: nat, i: nat)
      reads this, pool, pool.data, staging
    {
      var at := y * (4 * width as int) + i;
      var from := offset as int + y * stride as int + i;
      at < staging.Length && from < pool.data.Length && staging[at] == pool.data[from]
    }
  }

  /** A pool, one request for a buffer in it, any number of resizes, and an update. The buffer is accepted
      exactly when it fits the first size; then, however the pool grew, the update stages the rows of what
      the pool holds by now. */
  method CreateResizeUpdate(poolSize: I32, offset: I32, width: I32, height: I32, stride: I32,
                            resizes: seq<(I32, bool)>, file: nat -> Byte)
    returns (accepted: bool, pooled: seq<Byte>, staged: seq<Byte>)
    requires poolSize >= 0
    ensures accepted <==> Fits(offset, width, height, stride, poolSize)
    ensures accepted ==>
              && |pooled| == LengthAfter(poolSize, resizes)
              && offset as int + (height - 1) * stride + 4 * width <= |pooled|
              && staged == Rows(pooled, offset, stride, 4 * width, height)
              && forall i | 0 <= i < |pooled| :: pooled[i] == file(i)
  {
    pooled, staged := [], [];
    var pool := new ShmPool(poolSize, file);
    accepted := CreateBuffer(width, height, offset, stride, poolSize);
    if !accepted {
      return;
    }
    var backing := new ShmBufferBacking(pool, offset, stride, width, height);
    var i := 0;
    while i < |resizes|
      invariant 0 <= i <= |resizes| && fresh(pool) && fresh(pool.data) && backing.pool == pool
      invariant fresh(backing) && fresh(backing.staging) && backing.Accepted()
      invariant backing.Geometry() == (offset, stride, width, height)
      invariant forall j | 0 <= j < pool.data.Length :: pool.data[j] == file(j)
      invariant LengthAfter(poolSize, resizes) == LengthAfter(pool.data.Length, resizes[i..])
    {
      ghost var len, was := pool.data.Length, pool.data[..];
      var (size, remapped) := resizes[i];
      assert resizes[i..][0] == resizes[i] && resizes[i..][1..] == resizes[i + 1..];
      var ok := pool.Resize(size, file, remapped);
      assert forall j | 0 <= j < len :: pool.data[j] == was[j];
      FitsForever(offset, width, height, stride, len, [(size, remapped)]);
      i := i + 1;
    }
    var acquire, release, queued := backing.Update(true);
    pooled, staged := pool.data[..], backing.staging[..];
  }
}

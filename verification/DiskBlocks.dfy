/** Disk images cut into blocks: what block-difference replication computes. */
module DiskBlocks {

  type byte = b: int | 0 <= b < 256

  type Disk = seq<byte>

  /** Where block i starts. */
  function Offset(blockSize: nat, i: nat): nat {
    if i == 0 then 0 else Offset(blockSize, i - 1) + blockSize
  }

  /**
   * replication.go's blockCount, for sizes a float64 represents exactly: the size divided by the block size,
   * rounded up.
   */
  function BlockCount(size: nat, blockSize: nat): nat {
    if size == 0 || blockSize == 0 then 0
    else if size <= blockSize then 1
    else BlockCount(size - blockSize, blockSize) + 1
  }

  function Min(a: nat, b: nat): nat {
    if a <= b then a else b
  }

  /** Up to `length` bytes from `offset`; fewer at the end of the disk, none past it. */
  function ReadAt(disk: Disk, offset: nat, length: nat): Disk {
    disk[Min(offset, |disk|)..Min(offset + length, |disk|)]
  }

  function WriteAt(disk: Disk, data: Disk, offset: nat): Disk
    requires offset <= |disk|
  {
    disk[..offset] + data + if offset + |data| <= |disk| then disk[offset + |data|..] else []
  }

  function Block(disk: Disk, blockSize: nat, i: nat): Disk {
    ReadAt(disk, Offset(blockSize, i), blockSize)
  }

  predicate Differs(source: Disk, target: Disk, blockSize: nat, i: nat) {
    Block(source, blockSize, i) != Block(target, blockSize, i)
  }

  /** How many of the first n blocks differ. */
  function DifferingBlocks(source: Disk, target: Disk, blockSize: nat, n: nat): nat {
    if n == 0 then 0
    else DifferingBlocks(source, target, blockSize, n - 1) + if Differs(source, target, blockSize, n - 1) then 1 else 0
  }

  /** One flag per block, set where the disks differ. */
  function DirtyMap(source: Disk, target: Disk, blockSize: nat, n: nat): (r: seq<bool>)
    ensures |r| == n
  {
    if n == 0 then [] else DirtyMap(source, target, blockSize, n - 1) + [Differs(source, target, blockSize, n - 1)]
  }

  lemma {:induction false} DirtyMapAt(source: Disk, target: Disk, blockSize: nat, n: nat, i: nat)
    requires i < n
    ensures DirtyMap(source, target, blockSize, n)[i] <==> Differs(source, target, blockSize, i)
  {
    if i < n - 1 {
      DirtyMapAt(source, target, blockSize, n - 1, i);
    }
  }

  /** The total length of the differing blocks among the first n, as the source has them. */
  function DifferingBytes(source: Disk, target: Disk, blockSize: nat, n: nat): nat {
    if n == 0 then 0
    else
      DifferingBytes(source, target, blockSize, n - 1) +
      if Differs(source, target, blockSize, n - 1) then |Block(source, blockSize, n - 1)| else 0
  }

  /** The target once its first m bytes have been made equal to the source. */
  function Overlay(source: Disk, target: Disk, m: nat): Disk
    requires m <= |source|
  {
    source[..m] + if m <= |target| then target[m..] else []
  }

  /** What a completed synchronisation leaves: the source, then whatever the target had beyond it. */
  function Synced(source: Disk, target: Disk): Disk {
    Overlay(source, target, |source|)
  }

  /** Where a bulk copy starts: the target is kept if it could be a prefix, else emptied. */
  function CopyBase(source: Disk, target: Disk): (base: Disk)
    ensures |base| <= |source|
  {
    if |target| > |source| then [] else target
  }

  function Copied(source: Disk, target: Disk): Disk {
    CopyBase(source, target) + source[|CopyBase(source, target)|..]
  }

  /** What an interrupted bulk copy can leave. */
  ghost predicate PartlyCopied(source: Disk, before: Disk, after: Disk) {
    || after == before
    || exists m :: |CopyBase(source, before)| <= m <= |source| &&
                   after == CopyBase(source, before) + source[|CopyBase(source, before)|..m]
  }

  // ---------- Arithmetic of blocks ----------

  lemma {:induction false} OffsetIsProduct(blockSize: nat, i: nat)
    ensures Offset(blockSize, i) == i * blockSize
  {
    if i > 0 {
      OffsetIsProduct(blockSize, i - 1);
      assert i * blockSize == (i - 1) * blockSize + blockSize;
    }
  }

  lemma {:induction false} OffsetMonotone(blockSize: nat, i: nat, j: nat)
    requires i <= j
    ensures Offset(blockSize, i) <= Offset(blockSize, j)
    ensures i < j ==> Offset(blockSize, i) + blockSize <= Offset(blockSize, j)
  {
    if i < j {
      OffsetMonotone(blockSize, i, j - 1);
    }
  }

  /** The blocks cover the disk, and the last one is not empty. */
  lemma {:induction false} BlocksCover(size: nat, blockSize: nat)
    requires blockSize > 0
    ensures size <= Offset(blockSize, BlockCount(size, blockSize))
    ensures size > 0 ==> BlockCount(size, blockSize) > 0 && Offset(blockSize, BlockCount(size, blockSize) - 1) < size
  {
    if size > blockSize {
      BlocksCover(size - blockSize, blockSize);
    }
  }

  /** The last block is full exactly when the size is a multiple of the block size. */
  lemma {:induction false} WholeBlocks(size: nat, blockSize: nat)
    requires blockSize > 0
    ensures Offset(blockSize, BlockCount(size, blockSize)) == size <==> size % blockSize == 0
  {
    BlocksCover(size, blockSize);
    var n := BlockCount(size, blockSize);
    OffsetIsProduct(blockSize, n);
    if size > 0 {
      Multiple(size, blockSize, n);
    }
  }

  lemma {:induction false} CeilingDivision(size: nat, blockSize: nat)
    requires blockSize > 0
    ensures BlockCount(size, blockSize) == (size + blockSize - 1) / blockSize
  {
    BlocksCover(size, blockSize);
    var n := BlockCount(size, blockSize);
    OffsetIsProduct(blockSize, n);
    if n > 0 {
      OffsetIsProduct(blockSize, n - 1);
      assert n * blockSize == (n - 1) * blockSize + blockSize;
    }
    SameQuotient(size + blockSize - 1, blockSize, n, (size + blockSize - 1) / blockSize);
  }

  lemma {:induction false} SameQuotient(x: int, d: nat, n: int, q: int)
    requires n * d <= x < n * d + d && q * d <= x < q * d + d
    ensures n == q
  {
    SmallMultiple(n - q, d);
    assert (n - q) * d == n * d - q * d;
  }

  lemma {:induction false} AtLeastOnce(d: nat, blockSize: nat)
    requires d >= 1
    ensures d * blockSize >= blockSize
  {
    if d > 1 {
      AtLeastOnce(d - 1, blockSize);
      assert d * blockSize == (d - 1) * blockSize + blockSize;
    }
  }

  lemma {:induction false} SmallMultiple(d: int, blockSize: nat)
    ensures d == 0 || d * blockSize >= blockSize || d * blockSize + blockSize <= 0
  {
    if d >= 1 {
      AtLeastOnce(d, blockSize);
    } else if d <= -1 {
      AtLeastOnce(-d, blockSize);
      assert d * blockSize == -((-d) * blockSize as int);
    }
  }

  lemma {:induction false} Multiple(size: nat, blockSize: nat, n: nat)
    requires blockSize > 0 && n > 0 && n * blockSize - blockSize < size <= n * blockSize
    ensures n * blockSize == size <==> size % blockSize == 0
  {
    var q, r := size / blockSize, size % blockSize;
    assert size == q * blockSize + r;
    assert (n - q) * blockSize == n * blockSize - q * blockSize;
    if r == 0 || n * blockSize == size {
      SmallMultiple(n - q, blockSize);
    }
  }
}

/** replication.go: resumable bulk copy and block-difference synchronisation of one disk. */
module Replication {
  import opened Collections
  import opened DiskBlocks

  // ---------- What the two operations achieve together ----------

  /** A completed copy followed by a completed synchronisation equals the source, whatever the target held. */
  lemma {:induction false} CopyThenSync(source: Disk, target: Disk)
    ensures Synced(source, Copied(source, target)) == source
  {
  }

  /** Each attempt left what an interrupted copy can leave. */
  ghost predicate Attempts(source: Disk, attempts: seq<Disk>) {
    if |attempts| <= 1 then attempts == [[]]
    else
      && Attempts(source, attempts[..|attempts| - 1])
      && PartlyCopied(source, attempts[|attempts| - 2], attempts[|attempts| - 1])
  }

  /** Starting from nothing, copies interrupted any number of times and then one that completes suffice. */
  lemma {:induction false} InterruptedCopiesFinish(source: Disk, attempts: seq<Disk>)
    requires Attempts(source, attempts)
    ensures attempts != [] && attempts[|attempts| - 1] <= source
    ensures Copied(source, attempts[|attempts| - 1]) == source
  {
    if |attempts| > 1 {
      var init := attempts[..|attempts| - 1];
      InterruptedCopiesFinish(source, init);
      assert init[|init| - 1] == attempts[|attempts| - 2];
    }
  }

  /** Overlaying source bytes never makes an equal block unequal. */
  lemma {:induction false} OverlayKeepsEqualBlock(source: Disk, target: Disk, blockSize: nat, m: nat, i: nat)
    requires m <= |source| && !Differs(source, target, blockSize, i)
    ensures !Differs(source, Overlay(source, target, m), blockSize, i)
  {
    var lo := Offset(blockSize, i);
    var t := Overlay(source, target, m);
    var s, was, now := Block(source, blockSize, i), Block(target, blockSize, i), Block(t, blockSize, i);
    assert |t| == if m <= |target| then |target| else m;
    assert |now| == |s|;
    forall j | 0 <= j < |s| ensures now[j] == s[j] {
      assert s[j] == source[lo + j] && was[j] == target[lo + j] && now[j] == t[lo + j];
    }
  }

  /** An interrupted synchronisation never increases the number of differing blocks. */
  lemma {:induction false} InterruptedSyncNeverWorse(source: Disk, target: Disk, blockSize: nat, m: nat, n: nat)
    requires m <= |source|
    ensures DifferingBlocks(source, Overlay(source, target, m), blockSize, n) <=
            DifferingBlocks(source, target, blockSize, n)
  {
    forall i: nat | i < n && !Differs(source, target, blockSize, i)
      ensures !Differs(source, Overlay(source, target, m), blockSize, i)
    {
      OverlayKeepsEqualBlock(source, target, blockSize, m, i);
    }
    FewerDiffer(source, Overlay(source, target, m), target, blockSize, n);
  }

  lemma {:induction false} FewerDiffer(source: Disk, a: Disk, b: Disk, blockSize: nat, n: nat)
    requires forall i: nat :: i < n && !Differs(source, b, blockSize, i) ==> !Differs(source, a, blockSize, i)
    ensures DifferingBlocks(source, a, blockSize, n) <= DifferingBlocks(source, b, blockSize, n)
  {
    if n > 0 {
      FewerDiffer(source, a, b, blockSize, n - 1);
    }
  }

  lemma {:induction false} NoneDiffer(source: Disk, target: Disk, blockSize: nat, n: nat)
    ensures DifferingBlocks(source, target, blockSize, n) == 0 <==>
            forall i :: 0 <= i < n ==> !Differs(source, target, blockSize, i)
  {
    if n > 0 {
      NoneDiffer(source, target, blockSize, n - 1);
    }
  }

  /**
   * A second synchronisation finds nothing to do exactly when the target was not longer than the
   * source, or the source is a whole number of blocks: the target is never truncated, so a longer
   * one makes the short last block differ for ever.
   */
  lemma {:induction false} RepeatSyncClean(source: Disk, target: Disk, blockSize: nat)
    requires blockSize > 0
    ensures DifferingBlocks(source, Synced(source, target), blockSize, BlockCount(|source|, blockSize)) == 0 <==>
            |target| <= |source| || |source| % blockSize == 0
  {
    var n, t := BlockCount(|source|, blockSize), Synced(source, target);
    BlocksCover(|source|, blockSize);
    WholeBlocks(|source|, blockSize);
    NoneDiffer(source, t, blockSize, n);
    if |target| <= |source| {
      assert t == source;
    } else if Offset(blockSize, n) == |source| {
      WholeBlocksAgree(source, target, blockSize, n);
    } else {
      LastBlockDiffers(source, target, blockSize, n);
    }
  }

  lemma {:induction false} WholeBlocksAgree(source: Disk, target: Disk, blockSize: nat, n: nat)
    requires Offset(blockSize, n) == |source|
    ensures forall i :: 0 <= i < n ==> !Differs(source, Synced(source, target), blockSize, i)
  {
    forall i | 0 <= i < n ensures !Differs(source, Synced(source, target), blockSize, i) {
      OffsetMonotone(blockSize, i, n);
    }
  }

  lemma {:induction false} LastBlockDiffers(source: Disk, target: Disk, blockSize: nat, n: nat)
    requires n > 0 && Offset(blockSize, n - 1) < |source| < Offset(blockSize, n) && |source| < |target|
    ensures Differs(source, Synced(source, target), blockSize, n - 1)
  {
    assert |Block(source, blockSize, n - 1)| < |Block(Synced(source, target), blockSize, n - 1)|;
  }

  // ---------- The replicator ----------

  const DEFAULT_BLOCK_SIZE_KB := 1024

  datatype Outcome = Finished | Interrupted

  datatype SyncResult = SyncResult(dirtyBlocks: nat, bytesSynced: nat, round: nat)

  /** What happened to one block: equal, rewritten, or given up on (after it was found to differ, or before). */
  datatype BlockStep = Clean | Rewritten(length: nat) | GivenUp(differed: bool)

  /** What a synchronisation has found and written so far. */
  datatype Progress = Progress(dirty: seq<bool>, blocks: nat, bytes: nat) {
    function Add(step: BlockStep): Progress {
      if step.Rewritten? then Progress(dirty + [true], blocks + 1, bytes + step.length)
      else Progress(dirty + [false], blocks, bytes)
    }
  }

  ghost function Tally(source: Disk, target: Disk, blockSize: nat, n: nat): Progress {
    Progress(DirtyMap(source, target, blockSize, n), DifferingBlocks(source, target, blockSize, n),
             DifferingBytes(source, target, blockSize, n))
  }

  /** The first i blocks have been brought in line with the source. */
  ghost predicate SyncedUpTo(source: Disk, was: Disk, blockSize: nat, i: nat, target: Disk) {
    target == Overlay(source, was, Min(Offset(blockSize, i), |source|))
  }

  /** What an interrupted synchronisation can leave. */
  ghost predicate PartlySynced(source: Disk, was: Disk, target: Disk) {
    exists m :: 0 <= m <= |source| && target == Overlay(source, was, m)
  }

  /** The loop starts with nothing done, has a block to do in every iteration, and ends with everything done. */
  lemma {:induction false} SyncEnds(source: Disk, was: Disk, blockSize: nat)
    requires blockSize > 0
    ensures SyncedUpTo(source, was, blockSize, 0, was)
    ensures var n := BlockCount(|source|, blockSize);
            && (forall i: nat :: i < n ==> Offset(blockSize, i) < |source|)
            && forall t :: SyncedUpTo(source, was, blockSize, n, t) ==> t == Synced(source, was)
  {
    var n := BlockCount(|source|, blockSize);
    BlocksCover(|source|, blockSize);
    forall i: nat | i < n ensures Offset(blockSize, i) < |source| {
      OffsetMonotone(blockSize, i, n - 1);
    }
  }

  /** One byte-range write seen as growing the overlay. */
  lemma {:induction false} WriteExtendsOverlay(source: Disk, target: Disk, lo: nat, hi: nat)
    requires lo <= hi <= |source|
    ensures lo <= |Overlay(source, target, lo)|
    ensures WriteAt(Overlay(source, target, lo), source[lo..hi], lo) == Overlay(source, target, hi)
  {
  }

  /** Skipping an equal block also grows the overlay. */
  lemma {:induction false} SkipExtendsOverlay(source: Disk, target: Disk, blockSize: nat, i: nat)
    requires Offset(blockSize, i) <= |source| && !Differs(source, target, blockSize, i)
    ensures Overlay(source, target, Offset(blockSize, i)) ==
            Overlay(source, target, Min(Offset(blockSize, i + 1), |source|))
  {
    var lo, hi := Offset(blockSize, i), Min(Offset(blockSize, i + 1), |source|);
    var s, t := Block(source, blockSize, i), Block(target, blockSize, i);
    assert s == source[lo..hi] && |t| == hi - lo;
    if lo < hi {
      assert t == target[lo..hi];
      assert target[lo..] == target[lo..hi] + target[hi..];
    }
    assert source[..hi] == source[..lo] + source[lo..hi];
  }

  /** While block i is being compared, the target still shows its original block i. */
  lemma {:induction false} BlockUntouched(source: Disk, target: Disk, blockSize: nat, i: nat)
    requires Offset(blockSize, i) <= |source|
    ensures Block(Overlay(source, target, Offset(blockSize, i)), blockSize, i) == Block(target, blockSize, i)
  {
  }

  /** What the loop reads: the source's block, and the block the target had at the start. */
  lemma {:induction false} ReadsBlocks(source: Disk, was: Disk, blockSize: nat, i: nat, target: Disk)
    requires Offset(blockSize, i) < |source| && SyncedUpTo(source, was, blockSize, i, target)
    ensures var offset := Offset(blockSize, i);
            && ReadAt(source, offset, blockSize) == Block(source, blockSize, i)
            && (if offset < |was| then ReadAt(target, offset, blockSize) else []) == Block(was, blockSize, i)
  {
    BlockUntouched(source, was, blockSize, i);
  }

  /** What the loop writes: the block, or the first bytes of it. */
  lemma {:induction false} WritesBlock(source: Disk, was: Disk, blockSize: nat, i: nat, target: Disk, written: nat)
    requires Offset(blockSize, i) < |source| && SyncedUpTo(source, was, blockSize, i, target)
    requires written <= |Block(source, blockSize, i)|
    ensures var offset, block := Offset(blockSize, i), Block(source, blockSize, i);
            && offset <= |target|
            && SyncedUpTo(source, was, blockSize, i + 1, WriteAt(target, block, offset))
            && PartlySynced(source, was, WriteAt(target, block[..written], offset))
  {
    var offset, block := Offset(blockSize, i), Block(source, blockSize, i);
    WriteExtendsOverlay(source, was, offset, offset + |block|);
    WriteExtendsOverlay(source, was, offset, offset + written);
    assert block[..written] == source[offset..offset + written];
  }

  class Replicator {
    const blockSize: nat
    var target: Disk
    var phase: string
    var bytesCopied: nat
    var dirtyBitmap: seq<bool>
    var syncRounds: nat

    ghost predicate Valid() {
      blockSize > 0
    }

    constructor (blockSizeKB: int, target: Disk)
      ensures Valid() && this.target == target && syncRounds == 0
      ensures blockSize == 1024 * if blockSizeKB <= 0 then DEFAULT_BLOCK_SIZE_KB else blockSizeKB
    {
      blockSize := 1024 * if blockSizeKB <= 0 then DEFAULT_BLOCK_SIZE_KB else blockSizeKB;
      this.target := target;
      phase, bytesCopied, dirtyBitmap, syncRounds := "", 0, [], 0;
    }

    /**
     * StartInitialCopy.  Any read may be short; any read, write or final save may fail, a failing
     * write may still have written some bytes, and the context may be cancelled before any read.
     */
    method StartInitialCopy(source: Disk) returns (outcome: Outcome)
      requires Valid()
      modifies this
      ensures Valid() && syncRounds == old(syncRounds)
      ensures outcome.Finished? ==> target == Copied(source, old(target)) && bytesCopied == |source|
      ensures outcome.Finished? ==>
                && |dirtyBitmap| == BlockCount(|source|, blockSize)
                && forall i :: 0 <= i < |dirtyBitmap| ==> !dirtyBitmap[i]
      ensures outcome.Interrupted? ==> PartlyCopied(source, old(target), target)
    {
      var available: bool := *;
      if !available {
        return Interrupted;
      }
      var base := CopyBase(source, target);
      target := base;
      phase, bytesCopied := "initial-copy", |base|;
      dirtyBitmap := seq(BlockCount(|source|, blockSize), _ => false);
      var complete := CopyRest(source, base);
      var saved: bool := *;
      outcome := if complete && saved then Finished else Interrupted;
    }

    /** The read and write loop; `base` is what the target started with. */
    method CopyRest(source: Disk, base: Disk) returns (complete: bool)
      requires blockSize > 0 && |base| <= |source| && target == base && bytesCopied == |base|
      modifies this`target, this`bytesCopied
      ensures |base| <= |target| <= |source| && target == base + source[|base|..|target|]
      ensures complete ==> bytesCopied == |target| == |source|
    {
      while bytesCopied < |source|
        invariant |base| <= bytesCopied == |target| <= |source|
        invariant target == base + source[|base|..bytesCopied]
      {
        var cancelled: bool, readFailed: bool := *, *;
        if cancelled {
          return false;
        }
        var most := Min(blockSize, |source| - bytesCopied);
        var n: nat :| n <= most && (readFailed || n > 0);
        var written := CopyChunk(source, base, n);
        if !written || readFailed {
          return false;
        }
      }
      return true;
    }

    /** Writes n bytes read at the current position; a failing write may still have written some of them. */
    method CopyChunk(source: Disk, ghost base: Disk, n: nat) returns (ok: bool)
      requires |base| <= bytesCopied && bytesCopied + n <= |source| && bytesCopied == |target|
      requires target == base + source[|base|..bytesCopied]
      modifies this`target, this`bytesCopied
      ensures old(bytesCopied) <= |target| <= old(bytesCopied) + n && target == base + source[|base|..|target|]
      ensures ok ==> bytesCopied == |target| == old(bytesCopied) + n
    {
      ok := *;
      if n == 0 {
        return true;
      }
      var written: nat := n;
      if !ok {
        written :| written <= n;
      }
      target := target + source[bytesCopied..bytesCopied + written];
      if ok {
        bytesCopied := bytesCopied + n;
      }
    }

    method BlockOffset(i: nat) returns (offset: nat)
      ensures offset == Offset(blockSize, i)
    {
      OffsetIsProduct(blockSize, i);
      offset := i * blockSize;
    }

    /** One iteration of runSync's loop; a failing write may leave part of the block written. */
    method SyncBlock(source: Disk, i: nat, targetSize: nat, ghost was: Disk) returns (step: BlockStep)
      requires Offset(blockSize, i) < |source| && targetSize == |was|
      requires SyncedUpTo(source, was, blockSize, i, target)
      modifies this`target
      ensures !step.GivenUp? ==>
                && SyncedUpTo(source, was, blockSize, i + 1, target)
                && Tally(source, was, blockSize, i + 1) == Tally(source, was, blockSize, i).Add(step)
      ensures step.GivenUp? ==> PartlySynced(source, was, target)
    {
      var stopped: bool, writeFailed: bool := *, *;
      if stopped {
        return GivenUp(false);
      }
      var offset := BlockOffset(i);
      var sourceBlock := ReadAt(source, offset, blockSize);
      var targetBlock := if offset < targetSize then ReadAt(target, offset, blockSize) else [];
      ReadsBlocks(source, was, blockSize, i, target);
      if sourceBlock == targetBlock {
        SkipExtendsOverlay(source, was, blockSize, i);
        return Clean;
      }
      var written: nat :| written <= |sourceBlock|;
      WritesBlock(source, was, blockSize, i, target, written);
      if writeFailed {
        target := WriteAt(target, sourceBlock[..written], offset);
        return GivenUp(true);
      }
      target := WriteAt(target, sourceBlock, offset);
      step := Rewritten(|sourceBlock|);
    }

    /**
     * runSync.  On success the target is the source followed by its own bytes beyond the source's
     * end, the bitmap marks exactly the blocks that differed at the start, and the result counts
     * them and their bytes.  Interrupted anywhere, a prefix of that work has been done.
     */
    method RunSync(source: Disk, syncPhase: string) returns (r: Option<SyncResult>)
      requires Valid()
      modifies this
      ensures Valid()
      ensures r.Some? ==>
                var n := BlockCount(|source|, blockSize);
                && target == Synced(source, old(target))
                && dirtyBitmap == DirtyMap(source, old(target), blockSize, n)
                && r.value.dirtyBlocks == DifferingBlocks(source, old(target), blockSize, n)
                && r.value.bytesSynced == DifferingBytes(source, old(target), blockSize, n)
                && bytesCopied == old(bytesCopied) + r.value.bytesSynced
                && r.value.round == syncRounds == old(syncRounds) + 1 && phase == syncPhase
      ensures r.None? ==> exists m :: 0 <= m <= |source| && target == Overlay(source, old(target), m)
    {
      ghost var was := target;
      assert target == Overlay(source, was, 0);
      var available: bool := *;
      if !available {
        return None;
      }
      phase, syncRounds := syncPhase, syncRounds + 1;
      var progress, finished := SyncBlocks(source, was);
      dirtyBitmap := progress.dirty;
      bytesCopied := bytesCopied + progress.bytes;
      var saved: bool := *;
      if !finished || !saved {
        return None;
      }
      r := Some(SyncResult(progress.blocks, progress.bytes, syncRounds));
    }

    /** The loop over all blocks.  The bitmap has one flag per block even if the loop stops early. */
    method SyncBlocks(source: Disk, ghost was: Disk) returns (progress: Progress, finished: bool)
      requires blockSize > 0 && target == was
      modifies this`target
      ensures |progress.dirty| == BlockCount(|source|, blockSize)
      ensures finished ==> target == Synced(source, was) &&
                           progress == Tally(source, was, blockSize, BlockCount(|source|, blockSize))
      ensures !finished ==> PartlySynced(source, was, target)
    {
      var targetSize := |target|;
      var totalBlocks := BlockCount(|source|, blockSize);
      progress := Progress([], 0, 0);
      SyncEnds(source, was, blockSize);
      for i := 0 to totalBlocks
        invariant SyncedUpTo(source, was, blockSize, i, target)
        invariant progress == Tally(source, was, blockSize, i)
      {
        var step := SyncBlock(source, i, targetSize, was);
        if step.GivenUp? {
          var rest := seq(totalBlocks - i, j => j == 0 && step.differed);
          return progress.(dirty := progress.dirty + rest), false;
        }
        progress := progress.Add(step);
      }
      finished := true;
    }

    /**
     * A warm migration of an unchanging disk: copies retried until one finishes, then the final
     * synchronisation of ExecuteCutover.  If it reports success the disks are equal.
     */
    method CopyAndCutOver(source: Disk, retries: nat) returns (success: bool)
      requires Valid()
      modifies this
      ensures success ==> target == source
    {
      var outcome := StartInitialCopy(source);
      for k := 0 to retries
        invariant outcome.Finished? ==> exists t :: target == Copied(source, t)
      {
        if outcome.Interrupted? {
          ghost var before := target;
          outcome := StartInitialCopy(source);
          assert outcome.Finished? ==> target == Copied(source, before);
        }
      }
      if outcome.Interrupted? {
        return false;
      }
      ghost var t :| target == Copied(source, t);
      CopyThenSync(source, t);
      var r := RunSync(source, "final-sync");
      success := r.Some?;
    }
  }
}

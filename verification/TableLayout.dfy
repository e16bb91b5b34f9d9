/** nvm_structure_build and the queue filling of nvm_system_init: where the tables lie and what they first hold. */
module TableLayout {
  import opened BurstBuffer
  import opened BurstRuns

  const PAGE_SIZE := 0x1000

  /** The sizes of the structures in bytes, and how many volume entries there are. */
  datatype Sizes = Sizes(metadata: nat, volumeEntry: nat, inodeEntry: nat, maxVolume: nat)

  /** The part of the region at its end that does not fill a block. */
  function UnusedEnd(nvm: nat, size: nat): nat { (nvm + size) % BLOCK_SIZE }

  /** What is left for inode entries and blocks; the code takes it to be non-negative. */
  function Room(z: Sizes, nvm: nat, size: nat): int {
    size - z.metadata - z.volumeEntry * z.maxVolume - UnusedEnd(nvm, size)
  }

  /** How many inode entries and blocks the room is divided into, and what is left of it. */
  function Quotient(z: Sizes, nvm: nat, size: nat): int { Room(z, nvm, size) / (z.inodeEntry + BLOCK_SIZE) }

  function Remainder(z: Sizes, nvm: nat, size: nat): int { Room(z, nvm, size) % (z.inodeEntry + BLOCK_SIZE) }

  /** uint32_t max_block */
  function MaxBlock(z: Sizes, nvm: nat, size: nat): int { Quotient(z, nvm, size) % UINT32 }

  function InodeTable(z: Sizes, nvm: nat): nat { nvm + z.metadata + z.volumeEntry * z.maxVolume }

  function InodeTableEnd(z: Sizes, nvm: nat, size: nat): int { InodeTable(z, nvm) + MaxBlock(z, nvm, size) * z.inodeEntry }

  /** The end of the inode table, rounded up to a block boundary, and always to a later one. */
  function BlockTable(z: Sizes, nvm: nat, size: nat): int {
    var end := InodeTableEnd(z, nvm, size);
    end - end % BLOCK_SIZE + BLOCK_SIZE
  }

  function BlockTableEnd(z: Sizes, nvm: nat, size: nat): int { BlockTable(z, nvm, size) + MaxBlock(z, nvm, size) * BLOCK_SIZE }

  function RegionEnd(nvm: nat, size: nat): int { nvm + size - UnusedEnd(nvm, size) }

  /** Rounding x up past the next boundary stays within x + left, itself a boundary, unless nothing is left. */
  lemma RoundUp(x: int, left: nat)
    requires (x + left) % BLOCK_SIZE == 0
    ensures x - x % BLOCK_SIZE + BLOCK_SIZE <= x + left <==> left != 0
    ensures left == 0 ==> x % BLOCK_SIZE == 0
  {
  }

  lemma Multiple(x: int, k: int)
    ensures (x - k * BLOCK_SIZE) % BLOCK_SIZE == x % BLOCK_SIZE
  {
  }

  /**
   The inode table ends before the block table, which is aligned. The blocks fit the region if and only if the division
   that gives their number leaves a remainder or its quotient is cut to 32 bits; otherwise they overrun it by exactly
   one block.
   */
  lemma Layout(z: Sizes, nvm: nat, size: nat)
    requires Room(z, nvm, size) >= 0
    ensures InodeTableEnd(z, nvm, size) < BlockTable(z, nvm, size) && BlockTable(z, nvm, size) % BLOCK_SIZE == 0
    ensures var fits := Remainder(z, nvm, size) != 0 || Quotient(z, nvm, size) >= UINT32;
            && (BlockTableEnd(z, nvm, size) <= RegionEnd(nvm, size) <==> fits)
            && (!fits ==> BlockTableEnd(z, nvm, size) == RegionEnd(nvm, size) + BLOCK_SIZE)
  {
    var n := MaxBlock(z, nvm, size);
    var left := Divided(Room(z, nvm, size), z.inodeEntry);
    FitsIff(InodeTable(z, nvm), RegionEnd(nvm, size), n, n * z.inodeEntry, left);
  }

  /** What is left of the room when the quotient, cut to 32 bits, has been laid out. */
  lemma Divided(room: nat, entry: nat) returns (left: nat)
    ensures var unit := entry + BLOCK_SIZE;
            var n := room / unit % UINT32;
            && room == n * entry + n * BLOCK_SIZE + left
            && (left != 0 <==> room % unit != 0 || room / unit >= UINT32)
  {
    var unit := entry + BLOCK_SIZE;
    var q := room / unit;
    var n, cut := q % UINT32, q - q % UINT32;
    Distribute(n, cut, unit);
    Distribute(entry, BLOCK_SIZE, n);
    Product(cut, unit);
    left := cut * unit + room % unit;
    Quotients(room, unit);
  }

  lemma Quotients(room: nat, unit: nat)
    requires unit > 0
    ensures room == (room / unit) * unit + room % unit
  {
  }

  lemma Product(a: nat, b: nat)
    requires b > 0
    ensures a * b >= 0 && (a * b == 0 <==> a == 0)
  {
  }

  lemma Distribute(a: int, b: int, c: int)
    ensures (a + b) * c == a * c + b * c == c * (a + b)
  {
  }

  lemma FitsIff(start: int, regionEnd: int, n: int, inodeBytes: int, left: nat)
    requires regionEnd == start + inodeBytes + n * BLOCK_SIZE + left && regionEnd % BLOCK_SIZE == 0
    ensures var end := start + inodeBytes;
            var blocks := end - end % BLOCK_SIZE + BLOCK_SIZE;
            && end < blocks && blocks % BLOCK_SIZE == 0
            && (blocks + n * BLOCK_SIZE <= regionEnd <==> left != 0)
            && (left == 0 ==> blocks + n * BLOCK_SIZE == regionEnd + BLOCK_SIZE)
  {
    Multiple(regionEnd, n);
    RoundUp(start + inodeBytes, left);
  }

  /** The structures of nvm0nvm.h, nvm0volume.h and nvm0inode.h where pointers take 8 bytes and a mutex takes `mutex`. */
  function SizesWith(mutex: nat): Sizes { Sizes(48, 24, 24 + mutex, 128) }

  /** With a 40-byte mutex and a region that starts at a page, the blocks always fit. */
  lemma FitsWith40(nvm: nat, size: nat)
    requires nvm % PAGE_SIZE == 0 && Room(SizesWith(40), nvm, size) >= 0
    ensures BlockTableEnd(SizesWith(40), nvm, size) <= RegionEnd(nvm, size)
  {
    var z := SizesWith(40);
    Layout(z, nvm, size);
    Quotients(Room(z, nvm, size), z.inodeEntry + BLOCK_SIZE);
    SixteenLeft(nvm, RegionEnd(nvm, size), Quotient(z, nvm, size));
  }

  /** 64-byte inode entries and blocks take multiples of 64 bytes, and what comes before them does not. */
  lemma SixteenLeft(nvm: nat, regionEnd: int, n: int)
    requires nvm % PAGE_SIZE == 0 && regionEnd % BLOCK_SIZE == 0
    ensures regionEnd - nvm - 3120 != n * (64 + BLOCK_SIZE)
  {
    var p, r := nvm / PAGE_SIZE, regionEnd / BLOCK_SIZE;
    assert regionEnd - nvm - 3120 == 64 * (256 * r - 64 * p - 49) + 16;
  }

  /** With a 48-byte mutex they need not: a region of 77 MiB that starts one page behind a block boundary is overrun. */
  lemma OverrunExists()
    ensures var z, size := SizesWith(48), 77 * 0x10_0000;
            Room(z, PAGE_SIZE, size) >= 0 && BlockTableEnd(z, PAGE_SIZE, size) == RegionEnd(PAGE_SIZE, size) + BLOCK_SIZE
  {
    var z, size := SizesWith(48), 77 * 0x10_0000;
    assert UnusedEnd(PAGE_SIZE, size) == PAGE_SIZE;
    assert Room(z, PAGE_SIZE, size) == 77 * 0x10_0000 - 3120 - PAGE_SIZE;
    assert Remainder(z, PAGE_SIZE, size) == 0 && Quotient(z, PAGE_SIZE, size) < UINT32;
    Layout(z, PAGE_SIZE, size);
  }

  // ------------------------------------------------------------------------------------ first contents

  /** Inode i owns block i, and volume v the block after all the inodes' ones. */
  function FirstOwners(inodes: nat, volumes: nat): seq<Owner> {
    seq(inodes + volumes, b requires 0 <= b < inodes + volumes => if b < inodes then OfInode(b) else OfVolume(b - inodes))
  }

  /** The two loops of nvm_structure_build: every inode FREE, and every block with exactly one owner. */
  method StructureBuild(inodes: array<Inode>, spare: array<nat>)
    modifies inodes, spare
    ensures forall i: nat | i < inodes.Length :: inodes[i] == old(inodes[i]).(state := FREE, block := i)
    ensures forall v: nat | v < spare.Length :: spare[v] == inodes.Length + v
    ensures OwnersAgree(FirstOwners(inodes.Length, spare.Length),
                        seq(inodes.Length, i requires 0 <= i < inodes.Length reads inodes => inodes[i].block), spare[..])
  {
    var i := 0;
    while i < inodes.Length
      invariant 0 <= i <= inodes.Length
      invariant forall k: nat | k < inodes.Length ::
                  inodes[k] == if k < i then old(inodes[k]).(state := FREE, block := k) else old(inodes[k])
    {
      inodes[i] := inodes[i].(state := FREE, block := i);
      i := i + 1;
    }
    i := 0;
    while i < spare.Length
      invariant 0 <= i <= spare.Length
      invariant forall k: nat | k < inodes.Length :: inodes[k] == old(inodes[k]).(state := FREE, block := k)
      invariant forall v: nat | v < i :: spare[v] == v + inodes.Length
    {
      spare[i] := i + inodes.Length;
      i := i + 1;
    }
  }

  /** The loop of nvm_system_init that frees every inode and deals them to the free queues in turn. */
  method FillFreeQueues(inodes: array<Inode>, free: array<seq<nat>>) returns (freeCount: nat)
    requires free.Length == NUM_FREE && forall r | 0 <= r < NUM_FREE :: free[r] == []
    modifies inodes, free
    ensures freeCount == inodes.Length && free[0] == FreeList(inodes.Length, 0) && free[1] == FreeList(inodes.Length, 1)
    ensures forall i: nat | i < inodes.Length :: inodes[i] == old(inodes[i]).(state := FREE, lock := Nobody)
  {
    freeCount := inodes.Length;
    var i := 0;
    while i < inodes.Length
      invariant 0 <= i <= inodes.Length && free[0] == FreeList(i, 0) && free[1] == FreeList(i, 1)
      invariant forall k: nat | k < inodes.Length ::
                  inodes[k] == if k < i then old(inodes[k]).(state := FREE, lock := Nobody) else old(inodes[k])
    {
      inodes[i] := inodes[i].(state := FREE, lock := Nobody);
      free[i % NUM_FREE] := free[i % NUM_FREE] + [i];
      i := i + 1;
    }
  }

  /** What nvm_structure_build leaves, nvm_system_init boots from, whatever the files hold. */
  lemma FirstBoot(inodes: nat, volumes: nat, blocks: seq<Block>, files: map<Key, Block>, flushers: nat)
    requires |blocks| == inodes + volumes
    ensures var inodeBlock, volumeBlock := seq(inodes, i => i), seq(volumes, v => v + inodes);
            Reachable(Boot(inodeBlock, volumeBlock, FirstOwners(inodes, volumes), blocks, files, flushers))
  {
    var inodeBlock, volumeBlock := seq(inodes, i => i), seq(volumes, v => v + inodes);
    var owner := FirstOwners(inodes, volumes);
    assert OwnersAgree(owner, inodeBlock, volumeBlock);
    var s := Boot(inodeBlock, volumeBlock, owner, blocks, files, flushers);
    assert ValidRun(s, []) && Exec(s, []) == s;
  }
}

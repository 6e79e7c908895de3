/** Directory entries of the ext4 library (uspace/lib/ext4/libext4_directory.c):
    decoding of the linear directory-entry header, the directory iterator
    that walks those entries block by block, and the validation and
    binary search of a hash-tree (dx) index root.

    Block I/O (block_get, block_put, the inode's logical-to-physical block
    lookup) happens outside this model: a directory's data is given as its
    sequence of logical blocks, and the outcome of each external call is an
    input (BlockIo). All multi-byte on-disk fields are little-endian. */
module Ext4Directory {
  import opened Common

  /** The superblock fields the directory code reads. */
  datatype Superblock = Superblock(
    revLevel: nat,
    minorRevLevel: nat,
    blockSize: nat,
    unsignedHash: bool,        // EXT4_SUPERBLOCK_FLAGS_UNSIGNED_HASH
    hashSeed: seq<nat>)

  datatype Filesystem = Filesystem(superblock: Superblock)

  /** A directory inode: its size in bytes and its data blocks in logical order. */
  datatype DirInode = DirInode(size: nat, blocks: seq<seq<byte>>)

  /** What the on-disk format guarantees about the inputs: block sizes are
      1024 shifted left by the superblock's log field, every data block has
      that size, the inode's size is covered by its blocks, and a directory
      always has its first block. */
  ghost predicate WellFormed(sb: Superblock, inode: DirInode)
  {
    && sb.blockSize >= 1024
    && (forall i :: 0 <= i < |inode.blocks| ==> |inode.blocks[i]| == sb.blockSize)
    && |inode.blocks| >= 1
    && (inode.size == 0 || (inode.size - 1) / sb.blockSize < |inode.blocks|)
  }

  /** Outcomes of the external calls a single operation may make. */
  datatype BlockIo = BlockIo(putRc: int, mapRc: int, getRc: int)

  // ---------------------------------------------------------------------
  // Little-endian field decoding (the *_le2host helpers).

  function U16At(data: seq<byte>, o: nat): (v: nat)
    requires o + 2 <= |data|
    ensures v < 0x1_0000
  {
    data[o] as nat + 256 * data[o + 1] as nat
  }

  function U32At(data: seq<byte>, o: nat): (v: nat)
    requires o + 4 <= |data|
    ensures v < 0x1_0000_0000
  {
    U16At(data, o) + 0x1_0000 * U16At(data, o + 2)
  }

  /** `v` is the little-endian reading of the two bytes at `o`: the byte
      at `o` is its low byte. */
  ghost predicate LittleEndian16(v: nat, data: seq<byte>, o: nat)
    requires o + 2 <= |data|
  {
    v % 256 == data[o] as nat && v / 256 == data[o + 1] as nat
  }

  /** `v` is the little-endian reading of the four bytes at `o`. */
  ghost predicate LittleEndian32(v: nat, data: seq<byte>, o: nat)
    requires o + 4 <= |data|
  {
    LittleEndian16(v % 0x1_0000, data, o) && LittleEndian16(v / 0x1_0000, data, o + 2)
  }

  /** U16At decodes little-endian. */
  lemma U16AtDecodes(data: seq<byte>, o: nat)
    requires o + 2 <= |data|
    ensures LittleEndian16(U16At(data, o), data, o)
  {
  }

  /** Splitting `lo + 0x10000 * hi` into 16-bit halves gives back both parts. */
  lemma SplitHalves(lo: nat, hi: nat)
    requires lo < 0x1_0000
    ensures (lo + 0x1_0000 * hi) % 0x1_0000 == lo && (lo + 0x1_0000 * hi) / 0x1_0000 == hi
  {
  }

  /** U32At decodes little-endian. */
  lemma U32AtDecodes(data: seq<byte>, o: nat)
    requires o + 4 <= |data|
    ensures LittleEndian32(U32At(data, o), data, o)
  {
    U16AtDecodes(data, o);
    U16AtDecodes(data, o + 2);
    SplitHalves(U16At(data, o), U16At(data, o + 2));
  }

  // ---------------------------------------------------------------------
  // Linear directory entry: inode (4 bytes), entry_length (2), name_length
  // (1), name_length_high (1; the file type in newer revisions), name.

  const DIR_ENTRY_HEADER: nat := 8

  /** ext4_directory_entry_ll_get_inode */
  function EntryInode(block: seq<byte>, off: nat): (v: nat)
    requires off + DIR_ENTRY_HEADER <= |block|
    ensures v < 0x1_0000_0000
    ensures LittleEndian32(v, block, off)
  {
    U32AtDecodes(block, off);
    U32At(block, off)
  }

  /** ext4_directory_entry_ll_get_entry_length */
  function EntryLength(block: seq<byte>, off: nat): (v: nat)
    requires off + DIR_ENTRY_HEADER <= |block|
    ensures v < 0x1_0000
    ensures LittleEndian16(v, block, off + 4)
  {
    U16AtDecodes(block, off + 4);
    U16At(block, off + 4)
  }

  /** Whether the superblock describes the old format, where the name
      length has a high byte. */
  predicate OldNameLengthFormat(sb: Superblock)
  {
    sb.revLevel == 0 && sb.minorRevLevel < 5
  }

  /** ext4_directory_entry_ll_get_name_length: in the old format the name
      length is 16 bits wide, `name_length_high` being its upper byte
      (`(high << 8) | low`); otherwise it is the single `name_length` byte. */
  function NameLength(sb: Superblock, block: seq<byte>, off: nat): (n: nat)
    requires off + DIR_ENTRY_HEADER <= |block|
    ensures OldNameLengthFormat(sb) ==> n / 256 == block[off + 7] as nat && n % 256 == block[off + 6] as nat
    ensures !OldNameLengthFormat(sb) ==> n == block[off + 6] as nat && n <= 255
    ensures n < 0x1_0000
  {
    if sb.revLevel == 0 && sb.minorRevLevel < 5 then
      256 * block[off + 7] as nat + block[off + 6] as nat
    else
      block[off + 6] as nat
  }

  /** The entry at `off` lies wholly inside its block: it is 4-byte aligned,
      its fixed header, its whole record and its name all fit. */
  ghost predicate EntryFits(sb: Superblock, block: seq<byte>, off: nat)
  {
    && off % 4 == 0
    && off + DIR_ENTRY_HEADER <= |block|
    && off + EntryLength(block, off) <= |block|
    && DIR_ENTRY_HEADER + NameLength(sb, block, off) <= EntryLength(block, off)
  }

  // ---------------------------------------------------------------------
  // Iterator state and the functions that specify its operations.

  /** The iterator's position: `current` is the offset within the held
      block of the entry it points at (None for NULL), `currentOffset` the
      byte position in the directory, `currentBlock` the held block handle,
      identified by the logical index of the block it holds. */
  datatype IterState = IterState(current: Option<nat>, currentOffset: nat, currentBlock: Option<nat>)

  /** The held block is the one containing `currentOffset`, and `current`
      points at a well-formed entry at that offset. */
  ghost predicate IterValid(sb: Superblock, inode: DirInode, s: IterState)
    requires WellFormed(sb, inode)
  {
    && (s.currentBlock.Some? ==>
          s.currentBlock.value == s.currentOffset / sb.blockSize
          && s.currentBlock.value < |inode.blocks|)
    && (s.current.Some? ==>
          s.currentBlock.Some?
          && s.current.value == s.currentOffset % sb.blockSize
          && EntryFits(sb, inode.blocks[s.currentBlock.value], s.current.value))
  }

  /** ext4_directory_iterator_set: validates the entry at the current offset
      of the held block; EOK and `current` pointing at it exactly when the
      entry fits, EIO and `current` NULL otherwise. */
  function SetSpec(sb: Superblock, inode: DirInode, s: IterState): (r: (IterState, int))
    requires WellFormed(sb, inode)
    requires s.currentBlock.Some? && s.currentBlock.value < |inode.blocks|
    ensures r.0.currentOffset == s.currentOffset && r.0.currentBlock == s.currentBlock
    ensures r.1 == EOK || r.1 == EIO
    ensures r.1 == EOK <==> EntryFits(sb, inode.blocks[s.currentBlock.value], s.currentOffset % sb.blockSize)
    ensures r.0.current == (if r.1 == EOK then Some(s.currentOffset % sb.blockSize) else None)
  {
    var bs := sb.blockSize;
    var block := inode.blocks[s.currentBlock.value];
    var off := s.currentOffset % bs;
    var cleared := s.(current := None);
    if off % 4 != 0 then (cleared, EIO)
    else if off > bs - DIR_ENTRY_HEADER then (cleared, EIO)
    else
      var length := EntryLength(block, off);
      if off + length > bs then (cleared, EIO)
      // the C comparison promotes both sides to int, so `length - 8` may be negative
      else if NameLength(sb, block, off) as int > length as int - DIR_ENTRY_HEADER as int then (cleared, EIO)
      else (s.(current := Some(off)), EOK)
  }

  lemma MulMonotone(d: nat, x: nat, y: nat)
    requires x <= y
    ensures d * x <= d * y
  {
    assert d * y == d * x + d * (y - x);
  }

  /** Integer division by a positive divisor is monotone. */
  lemma DivMonotone(a: nat, b: nat, d: nat)
    requires d > 0 && a <= b
    ensures a / d <= b / d
  {
    var qa, qb := a / d, b / d;
    assert d * qa <= a;
    assert b < d * (qb + 1);
    if qa > qb {
      MulMonotone(d, qb + 1, qa);
      assert false;
    }
  }

  /** Every position inside the directory lies in one of its blocks. */
  lemma PositionInBlocks(sb: Superblock, inode: DirInode, pos: nat)
    requires WellFormed(sb, inode) && pos < inode.size
    ensures pos / sb.blockSize < |inode.blocks|
  {
    DivMonotone(pos, inode.size - 1, sb.blockSize);
  }

  /** Whether seeking to `pos` must fetch a block: none is held, or `pos`
      lies in a different block than the current offset. */
  predicate NeedsFetch(sb: Superblock, s: IterState, pos: nat)
    requires sb.blockSize > 0
  {
    s.currentBlock.None? || s.currentOffset / sb.blockSize != pos / sb.blockSize
  }

  /** Whether one of the calls of a block switch fails: releasing the held
      block, looking up the next block or reading it. */
  predicate SwitchFails(s: IterState, io: BlockIo)
  {
    (s.currentBlock.Some? && io.putRc != EOK) || io.mapRc != EOK || io.getRc != EOK
  }

  /** The code of the first failing call of a block switch. */
  function SwitchErrorCode(s: IterState, io: BlockIo): (rc: int)
    requires SwitchFails(s, io)
    ensures rc != EOK
    ensures rc == io.putRc || rc == io.mapRc || rc == io.getRc
  {
    if s.currentBlock.Some? && io.putRc != EOK then io.putRc
    else if io.mapRc != EOK then io.mapRc
    else io.getRc
  }

  /** The part of ext4_directory_iterator_seek for a position inside the
      directory: the block containing `pos` is fetched when needed (a held
      block is released first), then the entry at `pos` is validated. */
  function SeekWithin(sb: Superblock, inode: DirInode, s: IterState, pos: nat, io: BlockIo): (r: (IterState, int))
    requires WellFormed(sb, inode) && IterValid(sb, inode, s)
    requires pos < inode.size
    ensures IterValid(sb, inode, r.0)
    ensures r.1 == EOK ==>
              r.0.currentOffset == pos
              && r.0.current == Some(pos % sb.blockSize)
              && r.0.currentBlock == Some(pos / sb.blockSize)
    ensures r.1 != EOK ==> r.0.current == None
    ensures !NeedsFetch(sb, s, pos) ==>
              r.0.currentOffset == pos && r.0.currentBlock == s.currentBlock && (r.1 == EOK || r.1 == EIO)
    ensures r.1 != EOK && r.0.currentOffset != pos ==> r.0.currentBlock == None && r.0.currentOffset == s.currentOffset
    ensures NeedsFetch(sb, s, pos) && SwitchFails(s, io) ==>
              r == (IterState(None, s.currentOffset, None), SwitchErrorCode(s, io))
    ensures NeedsFetch(sb, s, pos) && !SwitchFails(s, io) ==>
              r.0.currentOffset == pos && r.0.currentBlock == Some(pos / sb.blockSize) && (r.1 == EOK || r.1 == EIO)
    ensures !NeedsFetch(sb, s, pos) || !SwitchFails(s, io) ==>
              r.0.currentBlock.Some?
              && (r.1 == EOK <==> EntryFits(sb, inode.blocks[r.0.currentBlock.value], pos % sb.blockSize))
  {
    PositionInBlocks(sb, inode, pos);
    var released := IterState(None, s.currentOffset, None);
    if NeedsFetch(sb, s, pos) then
      if SwitchFails(s, io) then (released, SwitchErrorCode(s, io))
      else SetSpec(sb, inode, IterState(None, pos, Some(pos / sb.blockSize)))
    else
      SetSpec(sb, inode, IterState(None, pos, s.currentBlock))
  }

  /** ext4_directory_iterator_seek. At or past the end of the directory the
      held block is released and the offset becomes `pos`; otherwise the
      seek stays within the directory. `current` is NULL after every error. */
  function SeekSpec(sb: Superblock, inode: DirInode, s: IterState, pos: nat, io: BlockIo): (r: (IterState, int))
    requires WellFormed(sb, inode) && IterValid(sb, inode, s)
    ensures IterValid(sb, inode, r.0)
    ensures r.0.current.Some? ==> r.1 == EOK
    ensures pos >= inode.size ==>
              r.0.current == None && r.0.currentBlock == None
              && (r.1 == EOK ==> r.0.currentOffset == pos)
              && (r.1 != EOK ==> r.1 == io.putRc && s.currentBlock.Some? && r.0.currentOffset == s.currentOffset)
    ensures pos >= inode.size && s.currentBlock.None? ==> r.1 == EOK
    ensures pos >= inode.size ==> (r.1 != EOK <==> s.currentBlock.Some? && io.putRc != EOK)
    ensures pos < inode.size ==> r == SeekWithin(sb, inode, s, pos, io)
  {
    if pos >= inode.size then
      if s.currentBlock.Some? && io.putRc != EOK then (IterState(None, s.currentOffset, None), io.putRc)
      else (IterState(None, pos, None), EOK)
    else
      SeekWithin(sb, inode, s, pos, io)
  }

  /** A seek within the held block makes no external call: its outcome
      does not depend on what block I/O would have returned. */
  lemma SeekWithinBlockNeedsNoIo(sb: Superblock, inode: DirInode, s: IterState, pos: nat, io1: BlockIo, io2: BlockIo)
    requires WellFormed(sb, inode) && IterValid(sb, inode, s)
    requires pos < inode.size && !NeedsFetch(sb, s, pos)
    ensures SeekSpec(sb, inode, s, pos, io1) == SeekSpec(sb, inode, s, pos, io2)
  {
  }

  /** The position ext4_directory_iterator_next seeks to: just past the
      record `current` points at. */
  function NextPos(sb: Superblock, inode: DirInode, s: IterState): (pos: nat)
    requires WellFormed(sb, inode) && IterValid(sb, inode, s) && s.current.Some?
    ensures pos >= s.currentOffset + DIR_ENTRY_HEADER
  {
    s.currentOffset + EntryLength(inode.blocks[s.currentBlock.value], s.current.value)
  }

  /** Each successful step of the iterator strictly advances its offset, by
      at least the size of an entry header. */
  lemma NextAdvances(sb: Superblock, inode: DirInode, s: IterState, io: BlockIo)
    requires WellFormed(sb, inode) && IterValid(sb, inode, s) && s.current.Some?
    ensures var r := SeekSpec(sb, inode, s, NextPos(sb, inode, s), io);
            r.1 == EOK ==> r.0.currentOffset >= s.currentOffset + DIR_ENTRY_HEADER
  {
  }

  // ---------------------------------------------------------------------
  // The iterator object.

  class DirIterator {
    var fs: Option<Filesystem>
    var inodeRef: Option<DirInode>
    var current: Option<nat>
    var currentOffset: nat
    var currentBlock: Option<nat>

    function State(): IterState
      reads this
    {
      IterState(current, currentOffset, currentBlock)
    }

    ghost predicate Valid()
      reads this
    {
      && fs.Some? && inodeRef.Some?
      && WellFormed(fs.value.superblock, inodeRef.value)
      && IterValid(fs.value.superblock, inodeRef.value, State())
    }

    constructor ()
      ensures fs == None && inodeRef == None && State() == IterState(None, 0, None)
    {
      fs, inodeRef := None, None;
      current, currentOffset, currentBlock := None, 0, None;
    }

    /** ext4_directory_iterator_set: validates the entry at the current
        offset of the held block. */
    method Set(blockSize: nat) returns (rc: int)
      requires fs.Some? && inodeRef.Some? && WellFormed(fs.value.superblock, inodeRef.value)
      requires blockSize == fs.value.superblock.blockSize
      requires currentBlock.Some? && currentBlock.value < |inodeRef.value.blocks|
      modifies this`current
      ensures (State(), rc) == SetSpec(fs.value.superblock, inodeRef.value, old(State()))
    {
      var block := inodeRef.value.blocks[currentBlock.value];
      var offsetInBlock := currentOffset % blockSize;
      current := None;
      if offsetInBlock % 4 != 0 {
        return EIO;
      }
      if offsetInBlock > blockSize - DIR_ENTRY_HEADER {
        return EIO;
      }
      var length := EntryLength(block, offsetInBlock);
      if offsetInBlock + length > blockSize {
        return EIO;
      }
      if NameLength(fs.value.superblock, block, offsetInBlock) as int > length as int - DIR_ENTRY_HEADER as int {
        return EIO;
      }
      current := Some(offsetInBlock);
      return EOK;
    }

    /** ext4_directory_iterator_seek */
    method Seek(pos: nat, io: BlockIo) returns (rc: int)
      requires Valid()
      modifies this
      ensures fs == old(fs) && inodeRef == old(inodeRef)
      ensures (State(), rc) == SeekSpec(fs.value.superblock, inodeRef.value, old(State()), pos, io)
      ensures Valid()
    {
      current := None;
      if pos >= inodeRef.value.size {
        rc := PutBlock(io.putRc);
        if rc != EOK {
          return rc;
        }
        currentOffset := pos;
        return EOK;
      }
      rc := SeekWithinDirectory(pos, io);
    }

    /** The rest of ext4_directory_iterator_seek, for a position inside the
        directory. */
    method SeekWithinDirectory(pos: nat, io: BlockIo) returns (rc: int)
      requires Valid() && pos < inodeRef.value.size && current == None
      modifies this`current, this`currentOffset, this`currentBlock
      ensures (State(), rc) == SeekWithin(fs.value.superblock, inodeRef.value, old(State()), pos, io)
    {
      ghost var s0 := State();
      var blockSize := fs.value.superblock.blockSize;
      var currentBlockIdx := currentOffset / blockSize;
      var nextBlockIdx := pos / blockSize;
      PositionInBlocks(fs.value.superblock, inodeRef.value, pos);
      if currentBlock.None? || currentBlockIdx != nextBlockIdx {
        assert NeedsFetch(fs.value.superblock, s0, pos);
        rc := FetchBlock(nextBlockIdx, io);
        if rc != EOK {
          assert SwitchFails(s0, io);
          return rc;
        }
        assert State() == IterState(None, s0.currentOffset, Some(nextBlockIdx));
      } else {
        assert !NeedsFetch(fs.value.superblock, s0, pos);
      }
      currentOffset := pos;
      rc := Set(blockSize);
    }

    /** Moves to another block: releases the held one, then looks up and
        reads block `idx` of the directory. Every failure leaves no block
        held and returns the failing call's code. */
    method FetchBlock(idx: nat, io: BlockIo) returns (rc: int)
      modifies this`currentBlock
      ensures SwitchFails(old(State()), io) ==> rc == SwitchErrorCode(old(State()), io) && currentBlock == None
      ensures !SwitchFails(old(State()), io) ==> rc == EOK && currentBlock == Some(idx)
    {
      rc := PutBlock(io.putRc);
      if rc != EOK {
        return rc;
      }
      if io.mapRc != EOK {
        return io.mapRc;
      }
      if io.getRc != EOK {
        currentBlock := None;
        return io.getRc;
      }
      currentBlock := Some(idx);
    }

    /** Releases a held block (block_put, whose outcome is `putRc`) and
        clears the handle; EOK when no block was held. */
    method PutBlock(putRc: int) returns (rc: int)
      modifies this`currentBlock
      ensures currentBlock == None
      ensures rc == (if old(currentBlock).Some? then putRc else EOK)
    {
      rc := EOK;
      if currentBlock.Some? {
        rc := putRc;
        currentBlock := None;
      }
    }

    /** ext4_directory_iterator_init: attaches the iterator to a directory
        and seeks to `pos`. */
    method Init(fs0: Filesystem, inode: DirInode, pos: nat, io: BlockIo) returns (rc: int)
      requires WellFormed(fs0.superblock, inode)
      modifies this
      ensures Valid() && fs == Some(fs0) && inodeRef == Some(inode)
      ensures (State(), rc) == SeekSpec(fs0.superblock, inode, IterState(None, 0, None), pos, io)
    {
      inodeRef := Some(inode);
      fs := Some(fs0);
      current := None;
      currentOffset := 0;
      currentBlock := None;
      rc := Seek(pos, io);
    }

    /** ext4_directory_iterator_next: requires an entry to be current and
        seeks just past its record. */
    method Next(io: BlockIo) returns (rc: int)
      requires Valid() && current.Some?
      modifies this
      ensures Valid() && fs == old(fs) && inodeRef == old(inodeRef)
      ensures (State(), rc) == SeekSpec(fs.value.superblock, inodeRef.value, old(State()),
                                        NextPos(fs.value.superblock, inodeRef.value, old(State())), io)
      ensures rc == EOK ==> currentOffset >= old(currentOffset) + DIR_ENTRY_HEADER
    {
      var skip := EntryLength(inodeRef.value.blocks[currentBlock.value], current.value);
      NextAdvances(fs.value.superblock, inodeRef.value, State(), io);
      rc := Seek(currentOffset + skip, io);
    }

    /** ext4_directory_iterator_fini: detaches the iterator and releases a
        held block, returning block_put's code. As in the source, the
        `currentBlock` handle itself is not cleared. */
    method Fini(putRc: int) returns (rc: int)
      modifies this
      ensures fs == None && inodeRef == None && current == None
      ensures currentOffset == old(currentOffset) && currentBlock == old(currentBlock)
      ensures rc == (if old(currentBlock).Some? then putRc else EOK)
    {
      fs := None;
      inodeRef := None;
      current := None;
      if currentBlock.Some? {
        rc := putRc;
        if rc != EOK {
          return rc;
        }
      }
      return EOK;
    }
  }

  // ---------------------------------------------------------------------
  // Hash-tree index root. Its block begins with the fake "." and ".."
  // entries (12 bytes each), then the root info (8 bytes: reserved word,
  // hash_version, info_length, indirect_levels, unused_flags), then the
  // dx entries (8 bytes each: hash, block). The first dx entry's hash word
  // holds the count/limit header (limit, then count).

  const DX_DOT_ENTRY_SIZE: nat := 12
  const DX_ROOT_INFO_SIZE: nat := 8
  const DX_ENTRY_SIZE: nat := 8
  const DX_ROOT_INFO_OFFSET: nat := 2 * DX_DOT_ENTRY_SIZE
  const DX_ENTRIES_OFFSET: nat := DX_ROOT_INFO_OFFSET + DX_ROOT_INFO_SIZE
  /** The hash-version value of the TEA hash. */
  const EXT4_HASH_VERSION_TEA: nat := 2

  /** ext4_directory_dx_root_info_get_hash_version: the hash_version
      byte, at offset 4 of the root info. */
  function DxHashVersion(root: seq<byte>): (v: nat)
    requires |root| >= DX_ENTRIES_OFFSET
    ensures v < 256 && v == root[DX_ROOT_INFO_OFFSET + 4] as nat
  { root[DX_ROOT_INFO_OFFSET + 4] as nat }

  /** ext4_directory_dx_root_info_get_indirect_levels: the
      indirect_levels byte, at offset 6 of the root info. */
  function DxIndirectLevels(root: seq<byte>): (v: nat)
    requires |root| >= DX_ENTRIES_OFFSET
    ensures v < 256 && v == root[DX_ROOT_INFO_OFFSET + 6] as nat
  { root[DX_ROOT_INFO_OFFSET + 6] as nat }

  /** The unused_flags byte, at offset 7 of the root info (read directly
      by ext4_directory_dx_find_entry). */
  function DxUnusedFlags(root: seq<byte>): (v: nat)
    requires |root| >= DX_ENTRIES_OFFSET
    ensures v < 256 && v == root[DX_ROOT_INFO_OFFSET + 7] as nat
  { root[DX_ROOT_INFO_OFFSET + 7] as nat }

  /** ext4_directory_dx_countlimit_get_limit: the little-endian limit, the
      first half of entry 0's hash word. */
  function DxLimit(root: seq<byte>): (v: nat)
    requires |root| >= DX_ENTRIES_OFFSET + 4
    ensures v < 0x1_0000 && LittleEndian16(v, root, DX_ENTRIES_OFFSET)
  {
    U16AtDecodes(root, DX_ENTRIES_OFFSET);
    U16At(root, DX_ENTRIES_OFFSET)
  }

  /** ext4_directory_dx_countlimit_get_count: the little-endian count,
      the second half of entry 0's hash word. */
  function DxCount(root: seq<byte>): (v: nat)
    requires |root| >= DX_ENTRIES_OFFSET + 4
    ensures v < 0x1_0000 && LittleEndian16(v, root, DX_ENTRIES_OFFSET + 2)
  {
    U16AtDecodes(root, DX_ENTRIES_OFFSET + 2);
    U16At(root, DX_ENTRIES_OFFSET + 2)
  }

  /** ext4_directory_dx_entry_get_hash of entry `i` of the root: the
      little-endian word at the start of the entry. */
  function DxEntryHash(root: seq<byte>, i: nat): (v: nat)
    requires DX_ENTRIES_OFFSET + DX_ENTRY_SIZE * (i + 1) <= |root|
    ensures v < 0x1_0000_0000 && LittleEndian32(v, root, DX_ENTRIES_OFFSET + DX_ENTRY_SIZE * i)
  {
    U32AtDecodes(root, DX_ENTRIES_OFFSET + DX_ENTRY_SIZE * i);
    U32At(root, DX_ENTRIES_OFFSET + DX_ENTRY_SIZE * i)
  }

  /** How many dx entries fit in the root block after its header. */
  function EntrySpace(blockSize: nat): (n: nat)
    requires blockSize >= DX_ENTRIES_OFFSET
    ensures DX_ENTRIES_OFFSET + DX_ENTRY_SIZE * n <= blockSize < DX_ENTRIES_OFFSET + DX_ENTRY_SIZE * (n + 1)
  {
    (blockSize - 2 * DX_DOT_ENTRY_SIZE - DX_ROOT_INFO_SIZE) / DX_ENTRY_SIZE
  }

  /** The checks ext4_directory_dx_find_entry makes on the index root before
      searching it. */
  predicate DxRootAccepted(blockSize: nat, root: seq<byte>)
    requires blockSize >= 1024 && |root| == blockSize
  {
    && DxUnusedFlags(root) == 0
    && DxIndirectLevels(root) <= 1
    && DxLimit(root) == EntrySpace(blockSize)
    && DxCount(root) != 0 && DxCount(root) <= DxLimit(root)
  }

  /** An accepted root's `count` entries all lie inside its block. */
  lemma AcceptedRootEntriesFit(blockSize: nat, root: seq<byte>)
    requires blockSize >= 1024 && |root| == blockSize
    requires DxRootAccepted(blockSize, root)
    ensures 1 <= DxCount(root) && DX_ENTRIES_OFFSET + DX_ENTRY_SIZE * DxCount(root) <= |root|
  {
    var n := EntrySpace(blockSize);
    assert DX_ENTRY_SIZE * DxCount(root) <= DX_ENTRY_SIZE * n;
  }

  /** Entries 1 .. count-1 (entry 0 carries the count/limit header) are in
      non-decreasing hash order. */
  ghost predicate DxSorted(root: seq<byte>, count: nat)
    requires DX_ENTRIES_OFFSET + DX_ENTRY_SIZE * count <= |root|
  {
    forall i, j :: 1 <= i <= j < count ==> DxEntryHash(root, i) <= DxEntryHash(root, j)
  }

  /** The binary search of ext4_directory_dx_find_entry over entries
      1 .. count-1: it ends with `p` in 1 .. count and, when those entries
      are sorted, `p` is the first of them whose hash exceeds `hash`. */
  method DxSearch(root: seq<byte>, count: nat, hash: nat) returns (p: int)
    requires 1 <= count && DX_ENTRIES_OFFSET + DX_ENTRY_SIZE * count <= |root|
    ensures 1 <= p <= count
    ensures DxSorted(root, count) ==>
              (forall i :: 1 <= i < p ==> DxEntryHash(root, i) <= hash)
              && (forall i :: p <= i < count ==> DxEntryHash(root, i) > hash)
  {
    p := 1;
    var q := count - 1;
    while p <= q
      invariant 1 <= p <= q + 1 <= count
      invariant DxSorted(root, count) ==> forall i :: 1 <= i < p ==> DxEntryHash(root, i) <= hash
      invariant DxSorted(root, count) ==> forall i :: q < i < count ==> DxEntryHash(root, i) > hash
      decreases q - p
    {
      var m := p + (q - p) / 2;
      if DxEntryHash(root, m) > hash {
        q := m - 1;
      } else {
        p := m + 1;
      }
    }
  }

  /** Hash parameters handed to the name hash. */
  datatype HashInfo = HashInfo(hashVersion: nat, seed: seq<nat>)

  /** The hash version is moved to its unsigned variant (+3) when the
      superblock says so and the version is one of the first three. */
  function HashInfoFor(sb: Superblock, root: seq<byte>): (h: HashInfo)
    requires |root| >= DX_ENTRIES_OFFSET
    ensures h.seed == sb.hashSeed
    ensures DxHashVersion(root) <= EXT4_HASH_VERSION_TEA && sb.unsignedHash ==>
              h.hashVersion == DxHashVersion(root) + 3
    ensures !(DxHashVersion(root) <= EXT4_HASH_VERSION_TEA && sb.unsignedHash) ==>
              h.hashVersion == DxHashVersion(root)
  {
    var v := DxHashVersion(root);
    HashInfo(if v <= EXT4_HASH_VERSION_TEA && sb.unsignedHash then v + 3 else v, sb.hashSeed)
  }

  /** ext4_directory_dx_find_entry as written: the lookup of block 0 and
      its read pass their error codes through (a failed read also clears
      the iterator's block handle); a root failing any check yields
      EXT4_ERR_BAD_DX_DIR; an accepted root is searched, and the function
      still returns EXT4_ERR_BAD_DX_DIR because the descent below the root
      is unfinished. The ghost result is the search position `p`, present
      exactly when the search ran. `hashString` stands for ext4_hash_string
      and `name` None for a NULL name. */
  method DxFindEntry(it: DirIterator, fs0: Filesystem, inode: DirInode, name: Option<seq<char>>,
                     hashString: (HashInfo, seq<char>) -> nat, io: BlockIo)
    returns (rc: int, ghost searched: Option<int>)
    requires WellFormed(fs0.superblock, inode)
    modifies it
    ensures io.mapRc != EOK ==> rc == io.mapRc && searched == None && it.currentBlock == old(it.currentBlock)
    ensures io.mapRc == EOK && io.getRc != EOK ==> rc == io.getRc && searched == None && it.currentBlock == None
    ensures io.mapRc == EOK && io.getRc == EOK ==>
              rc == EXT4_ERR_BAD_DX_DIR && it.currentBlock == old(it.currentBlock)
              && (searched.Some? <==> DxRootAccepted(fs0.superblock.blockSize, inode.blocks[0]))
    ensures searched.Some? ==>
              var root := inode.blocks[0];
              var hash := if name.Some? then hashString(HashInfoFor(fs0.superblock, root), name.value) else 0;
              && 1 <= searched.value <= DxCount(root)
              && DX_ENTRIES_OFFSET + DX_ENTRY_SIZE * DxCount(root) <= |root|
              && (DxSorted(root, DxCount(root)) ==>
                    (forall i :: 1 <= i < searched.value ==> DxEntryHash(root, i) <= hash)
                    && (forall i :: searched.value <= i < DxCount(root) ==> DxEntryHash(root, i) > hash))
    ensures it.fs == old(it.fs) && it.inodeRef == old(it.inodeRef)
    ensures it.current == old(it.current) && it.currentOffset == old(it.currentOffset)
  {
    searched := None;
    if io.mapRc != EOK {
      return io.mapRc, None;
    }
    if io.getRc != EOK {
      it.currentBlock := None;
      return io.getRc, None;
    }
    var root := inode.blocks[0];
    if DxUnusedFlags(root) != 0 {
      return EXT4_ERR_BAD_DX_DIR, None;
    }
    if DxIndirectLevels(root) > 1 {
      return EXT4_ERR_BAD_DX_DIR, None;
    }
    var bs := fs0.superblock.blockSize;
    var entrySpace := EntrySpace(bs);
    var limit := DxLimit(root);
    var count := DxCount(root);
    if limit != entrySpace {
      return EXT4_ERR_BAD_DX_DIR, None;
    }
    if count == 0 || count > limit {
      return EXT4_ERR_BAD_DX_DIR, None;
    }
    AcceptedRootEntriesFit(bs, root);
    var hinfo := HashInfoFor(fs0.superblock, root);
    var hash := 0;
    if name.Some? {
      hash := hashString(hinfo, name.value);
    }
    var p := DxSearch(root, count, hash);
    searched := Some(p);
    rc := EXT4_ERR_BAD_DX_DIR;
  }
}

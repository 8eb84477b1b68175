/** The render-buffer allocator of src/buffer2.rs: a free list of 128-sample blocks, one
    shared block of zeroes, and `ChannelData`, a reference-counted handle to a block that
    copies on write.

    Blocks live in the `heap` map under ids. The strong count of a block (`Rc::strong_count`)
    is the number of its owners: the pool owns one reference to each pooled block, the
    allocator owns one reference to the zero block, and every live `ChannelData` owns one
    reference to its block. The allocator counts the live handles of every block in
    `handles`, and the strong count is derived from that count (`StrongCount`). */
module ChannelPool {

  /** Samples per block (`crate::BUFFER_SIZE`). */
  const LEN: nat := 128

  type BlockId = nat

  /** The contents of one block: exactly `LEN` samples. */
  type Samples = s: seq<real> | |s| == LEN witness seq(LEN, _ => 0.0)

  /** A freshly allocated block: `[0.; LEN]`. */
  function Zeros(): (s: Samples)
    ensures forall i :: 0 <= i < LEN ==> s[i] == 0.0
  {
    seq(LEN, _ => 0.0)
  }

  /** The two sample-wise combinations the buffers use: the sum of `ChannelData::add` and
      the mean `(l + r) / 2.` of the stereo-to-mono down-mix. */
  datatype Combine = Plus | Mean

  function Apply(op: Combine, x: real, y: real): real {
    match op
    case Plus => x + y
    case Mean => (x + y) / 2.0
  }

  /** Sample-wise combination of two blocks. */
  function Zipped(op: Combine, a: Samples, b: Samples): (s: Samples)
    ensures forall i :: 0 <= i < LEN ==> s[i] == Apply(op, a[i], b[i])
  {
    seq(LEN, i requires 0 <= i < LEN => Apply(op, a[i], b[i]))
  }

  /** Adding the zero block on either side changes nothing. */
  lemma PlusZeros(a: Samples)
    ensures Zipped(Plus, Zeros(), a) == a && Zipped(Plus, a, Zeros()) == a
  {
    assert forall i :: 0 <= i < LEN ==> Zipped(Plus, Zeros(), a)[i] == a[i];
    assert forall i :: 0 <= i < LEN ==> Zipped(Plus, a, Zeros())[i] == a[i];
  }

  /** A block with every sample equal to `c`. */
  function Constant(c: real): (s: Samples)
    ensures forall i :: 0 <= i < LEN ==> s[i] == c
  {
    seq(LEN, _ => c)
  }

  /** The closure `|v| *v += c`. */
  function Shift(c: real): real -> real {
    x => x + c
  }

  /** A block with `f` applied to every sample. */
  function Mapped(a: Samples, f: real -> real): (s: Samples)
    ensures forall i :: 0 <= i < LEN ==> s[i] == f(a[i])
  {
    seq(LEN, i requires 0 <= i < LEN => f(a[i]))
  }

  /** Shifting a constant block gives the constant block of the shifted value. */
  lemma ShiftedConstant(a: real, c: real)
    ensures Mapped(Constant(a), Shift(c)) == Constant(a + c)
  {
    assert forall i :: 0 <= i < LEN ==> Mapped(Constant(a), Shift(c))[i] == Constant(a + c)[i];
  }

  /** The zero block is the constant block of zero. */
  lemma ZerosAreConstant()
    ensures Zeros() == Constant(0.0)
  {
    assert forall i :: 0 <= i < LEN ==> Zeros()[i] == Constant(0.0)[i];
  }

  /** The first `i` samples combined with `o`, the rest still those of `a`: the state of a
      zip loop after `i` steps. */
  function ZippedUpTo(op: Combine, a: Samples, o: Samples, i: nat): Samples
    requires i <= LEN
  {
    seq(LEN, k requires 0 <= k < LEN => if k < i then Apply(op, a[k], o[k]) else a[k])
  }

  lemma ZippedUpToNone(op: Combine, a: Samples, o: Samples)
    ensures ZippedUpTo(op, a, o, 0) == a
  {
  }

  lemma ZippedUpToStep(op: Combine, a: Samples, o: Samples, i: nat)
    requires i < LEN
    ensures ZippedUpTo(op, a, o, i)[i := Apply(op, a[i], o[i])] == ZippedUpTo(op, a, o, i + 1)
  {
  }

  lemma ZippedUpToAll(op: Combine, a: Samples, o: Samples)
    ensures ZippedUpTo(op, a, o, LEN) == Zipped(op, a, o)
  {
  }

  /** The first `i` samples mapped by `f`, the rest still those of `a`. */
  function MappedUpTo(a: Samples, f: real -> real, i: nat): Samples
    requires i <= LEN
  {
    seq(LEN, k requires 0 <= k < LEN => if k < i then f(a[k]) else a[k])
  }

  lemma MappedUpToNone(a: Samples, f: real -> real)
    ensures MappedUpTo(a, f, 0) == a
  {
  }

  lemma MappedUpToStep(a: Samples, f: real -> real, i: nat)
    requires i < LEN
    ensures MappedUpTo(a, f, i)[i := f(a[i])] == MappedUpTo(a, f, i + 1)
  {
  }

  lemma MappedUpToAll(a: Samples, f: real -> real)
    ensures MappedUpTo(a, f, LEN) == Mapped(a, f)
  {
  }

  /** A `ChannelData` handle: a counted reference to block `block`. */
  datatype ChannelData = ChannelData(block: BlockId)

  ghost predicate NoDuplicates<T>(s: seq<T>) {
    forall i, j :: 0 <= i < j < |s| ==> s[i] != s[j]
  }

  /** Handle counts after one handle to `from` has been replaced by one to `to`. */
  function Moved(counts: map<BlockId, nat>, from: BlockId, to: BlockId): map<BlockId, nat>
    requires from in counts && counts[from] > 0
  {
    if from == to then counts
    else counts[from := counts[from] - 1][to := (if to in counts then counts[to] else 0) + 1]
  }

  /** Two updates of a map at different keys can be swapped. */
  lemma UpdatesCommute<K, V>(m: map<K, V>, k1: K, v1: V, k2: K, v2: V)
    requires k1 != k2
    ensures m[k1 := v1][k2 := v2] == m[k2 := v2][k1 := v1]
  {
  }

  lemma UpdateTwice<K, V>(m: map<K, V>, k: K, v1: V, v2: V)
    ensures m[k := v1][k := v2] == m[k := v2]
  {
  }

  lemma UpdateSame<K, V>(m: map<K, V>, k: K)
    requires k in m
    ensures m[k := m[k]] == m
  {
  }

  class Alloc {
    /** The zero block, shared by every silent handle. */
    const zeroes: BlockId
    /** Free blocks; `pop` and `push` work at the end. */
    var pool: seq<BlockId>
    /** Contents of every block created so far. */
    var heap: map<BlockId, Samples>
    /** Number of live `ChannelData` handles to each block. */
    var handles: map<BlockId, nat>
    /** Every block id is below `nextBlock`; a fresh block takes `nextBlock`. */
    var nextBlock: BlockId
    /** The blocks, other than the zero block, that some live handle refers to. */
    ghost var inUse: set<BlockId>

    /** Ownership: a pooled block is owned by the pool alone, and every block ever created
        is pooled, in use or the zero block. */
    ghost predicate Valid()
      reads this
    {
      && zeroes in heap && heap[zeroes] == Zeros()
      && handles.Keys == heap.Keys
      && (forall b :: b in heap ==> b < nextBlock)
      && (forall i :: 0 <= i < |pool| ==> pool[i] in heap && pool[i] != zeroes && handles[pool[i]] == 0)
      && NoDuplicates(pool)
      && (forall b :: b in inUse <==> b in handles && handles[b] != 0 && b != zeroes)
      && |pool| + |inUse| + 1 == nextBlock
    }

    /** Some live handle refers to block `b`. */
    predicate Live(b: BlockId)
      reads this
    {
      b in handles && handles[b] != 0
    }

    /** `Rc::strong_count` of a block: one per handle, one for the pool, one for the
        allocator's own reference to the zero block. */
    function StrongCount(b: BlockId): nat
      reads this
      requires b in handles
    {
      handles[b] + (if b in pool then 1 else 0) + (if b == zeroes then 1 else 0)
    }

    /** The samples a handle sees. */
    function SamplesOf(h: ChannelData): Samples
      reads this
      requires h.block in heap
    {
      heap[h.block]
    }

    /** `is_silent`: a pointer comparison with the zero block, not a look at the samples. */
    predicate IsSilent(h: ChannelData)
      reads this
    {
      h.block == zeroes
    }

    /** `pool_size`. */
    function PoolSize(): nat
      reads this
    {
      |pool|
    }

    /** `Alloc::with_capacity(n)`: blocks `0 .. n-1` zeroed in the pool, block `n` the zero
        block, no handle alive. */
    constructor WithCapacity(n: nat)
      ensures Valid()
      ensures PoolSize() == n && nextBlock == n + 1 && zeroes == n
      ensures forall b :: b in handles ==> handles[b] == 0
      ensures forall i :: 0 <= i < n ==> pool[i] == i && i in heap && heap[i] == Zeros()
    {
      zeroes := n;
      var ids := seq(n + 1, i requires 0 <= i <= n => i);
      pool := ids[..n];
      assert ids[n] == n;
      var blocks := map b | b in ids :: Zeros();
      heap := blocks;
      handles := map b | b in blocks :: 0;
      nextBlock := n + 1;
      inUse := {};
    }

    /** `AllocInner::allocate`: pop the most recently pooled block, or create a zeroed one
        when the pool is empty. The caller's new handle owns the block alone. */
    method TakeBlock() returns (b: BlockId)
      requires Valid()
      modifies this`pool, this`heap, this`nextBlock, this`handles, this`inUse
      ensures Valid()
      ensures b != zeroes && !old(Live(b)) && handles == old(handles)[b := 1]
      ensures old(pool) != [] ==>
        && b == old(pool)[|old(pool)| - 1] && pool == old(pool)[..|old(pool)| - 1]
        && heap == old(heap) && nextBlock == old(nextBlock)
      ensures old(pool) == [] ==>
        && b == old(nextBlock) && pool == []
        && heap == old(heap)[b := Zeros()] && nextBlock == old(nextBlock) + 1
    {
      if pool != [] {
        b := pool[|pool| - 1];
        pool := pool[..|pool| - 1];
      } else {
        b := nextBlock;
        heap := heap[b := Zeros()];
        nextBlock := nextBlock + 1;
      }
      handles := handles[b := 1];
      inUse := inUse + {b};
    }

    /** `AllocInner::push`: the only handle to a block gives the block back to the pool. */
    method PushBlock(b: BlockId)
      requires Valid() && b in heap && b != zeroes && handles[b] == 1
      modifies this`pool, this`handles, this`inUse
      ensures Valid()
      ensures pool == old(pool) + [b] && handles == old(handles)[b := 0]
    {
      pool := pool + [b];
      handles := handles[b := 0];
      inUse := inUse - {b};
    }

    /** `Alloc::allocate`: a handle to a block from the pool, or to a fresh zeroed block. */
    method Allocate() returns (h: ChannelData)
      requires Valid()
      modifies this`pool, this`heap, this`nextBlock, this`handles, this`inUse
      ensures Valid() && h.block in heap && !IsSilent(h) && StrongCount(h.block) == 1
      ensures !old(Live(h.block)) && handles == old(handles)[h.block := 1]
      ensures old(pool) != [] ==>
        && h.block == old(pool)[|old(pool)| - 1] && pool == old(pool)[..|old(pool)| - 1]
        && heap == old(heap) && nextBlock == old(nextBlock)
      ensures old(pool) == [] ==>
        && h.block == old(nextBlock) && pool == []
        && heap == old(heap)[h.block := Zeros()] && nextBlock == old(nextBlock) + 1
    {
      var b := TakeBlock();
      h := ChannelData(b);
    }

    /** `Alloc::silence` (and `ChannelData::silence`): another reference to the zero block;
        the pool is not touched. */
    method Silence() returns (h: ChannelData)
      requires Valid()
      modifies this`handles
      ensures Valid() && IsSilent(h)
      ensures handles == old(handles)[zeroes := old(handles[zeroes]) + 1]
    {
      h := ChannelData(zeroes);
      handles := handles[zeroes := handles[zeroes] + 1];
    }

    /** `ChannelData::clone`: one more reference to the same block; the pool is not touched. */
    method Clone(h: ChannelData) returns (c: ChannelData)
      requires Valid() && Live(h.block)
      modifies this`handles
      ensures Valid() && c == h
      ensures handles == old(handles)[h.block := old(handles[h.block]) + 1]
    {
      c := h;
      handles := handles[h.block := handles[h.block] + 1];
    }

    /** Dropping a reference to a block that has other owners. */
    method ReleaseShared(b: BlockId)
      requires Valid() && Live(b) && StrongCount(b) != 1
      modifies this`handles
      ensures Valid()
      ensures handles == old(handles)[b := old(handles[b]) - 1]
    {
      handles := handles[b := handles[b] - 1];
    }

    /** `Drop for ChannelData`: the last reference to a block returns the block to the pool;
        any other reference just goes away. (The source swaps a zero-block reference into
        the dying handle before pushing; that reference dies with the handle, so it leaves
        no trace.) */
    method Drop(h: ChannelData)
      requires Valid() && Live(h.block)
      modifies this`pool, this`handles, this`inUse
      ensures Valid()
      ensures handles == old(handles)[h.block := old(handles[h.block]) - 1]
      ensures old(StrongCount(h.block)) == 1 ==> pool == old(pool) + [h.block]
      ensures old(StrongCount(h.block)) != 1 ==> pool == old(pool)
    {
      if StrongCount(h.block) == 1 {
        PushBlock(h.block);
      } else {
        ReleaseShared(h.block);
      }
    }

    /** `*slot = src.clone()` for a handle `dying` in some slot: the clone is made first,
        then `dying` is dropped. */
    method Replace(dying: ChannelData, src: ChannelData) returns (c: ChannelData)
      requires Valid() && Live(dying.block) && Live(src.block)
      modifies this`pool, this`handles, this`inUse
      ensures Valid() && c == src
      ensures handles == Moved(old(handles), dying.block, src.block)
    {
      ghost var counts := handles;
      c := Clone(src);
      Drop(dying);
      if dying.block != src.block {
        UpdatesCommute(counts, src.block, counts[src.block] + 1, dying.block, counts[dying.block] - 1);
      }
    }

    /** `*slot = self.silence()` for a handle `dying` in some slot: a new handle to the
        zero block is made, then `dying` is dropped. */
    method ReplaceBySilence(dying: ChannelData) returns (c: ChannelData)
      requires Valid() && Live(dying.block)
      modifies this`pool, this`handles, this`inUse
      ensures Valid() && c == ChannelData(zeroes)
      ensures handles == Moved(old(handles), dying.block, zeroes)
    {
      ghost var counts := handles;
      c := Silence();
      Drop(dying);
      if dying.block != zeroes {
        UpdatesCommute(counts, zeroes, counts[zeroes] + 1, dying.block, counts[dying.block] - 1);
      }
    }

    /** Overwrites the samples of a block that is not the zero block with those of `src`. */
    method CopyBlock(dst: BlockId, src: BlockId)
      requires Valid() && dst in heap && dst != zeroes && src in heap
      modifies this`heap
      ensures Valid()
      ensures heap == old(heap)[dst := old(heap[src])]
    {
      heap := heap[dst := heap[src]];
    }

    /** Stores one sample into a block that is not the zero block. */
    method StoreSample(b: BlockId, k: nat, v: real)
      requires Valid() && b in heap && b != zeroes && k < LEN
      modifies this`heap
      ensures Valid()
      ensures heap == old(heap)[b := old(heap[b])[k := v]]
    {
      heap := heap[b := heap[b][k := v]];
    }

    /** The shared path of `make_mut`: a block from the pool (or a fresh one) receives a
        copy of the samples and replaces the handle's block, whose count drops by one. */
    method Unshare(h: ChannelData) returns (m: ChannelData)
      requires Valid() && Live(h.block) && StrongCount(h.block) != 1
      modifies this`pool, this`heap, this`nextBlock, this`handles, this`inUse
      ensures Valid()
      ensures m.block in heap && m.block != zeroes && m.block != h.block && !old(Live(m.block))
      ensures handles == Moved(old(handles), h.block, m.block)
      ensures heap == old(heap)[m.block := old(heap[h.block])]
      ensures old(pool) != [] ==>
        m.block == old(pool)[|old(pool)| - 1] && pool == old(pool)[..|old(pool)| - 1] && nextBlock == old(nextBlock)
      ensures old(pool) == [] ==>
        m.block == old(nextBlock) && pool == [] && nextBlock == old(nextBlock) + 1
    {
      ghost var counts, heap0, pool0 := handles, heap, pool;
      var nb := TakeBlock();
      assert nb != h.block && handles == counts[nb := 1] && heap[h.block] == heap0[h.block];
      if pool0 == [] {
        UpdateTwice(heap0, nb, Zeros(), heap0[h.block]);
      }
      CopyBlock(nb, h.block);
      ReleaseShared(h.block);
      assert handles == counts[nb := 1][h.block := counts[h.block] - 1];
      UpdatesCommute(counts, nb, 1, h.block, counts[h.block] - 1);
      assert (if nb in counts then counts[nb] else 0) + 1 == 1;
      m := ChannelData(nb);
    }

    /** `make_mut`: a handle whose block has other owners is moved to a block of its own
        holding a copy of the samples. Afterwards the handle is its block's only owner and
        sees what it saw before, and every other block is as it was, so every other handle
        sees what it saw. A handle that already owns its block alone keeps it. */
    method MakeMut(h: ChannelData) returns (m: ChannelData)
      requires Valid() && Live(h.block)
      modifies this`pool, this`heap, this`nextBlock, this`handles, this`inUse
      ensures Valid()
      ensures m.block in heap && !IsSilent(m) && handles[m.block] == 1 && StrongCount(m.block) == 1
      ensures handles == Moved(old(handles), h.block, m.block)
      ensures SamplesOf(m) == old(SamplesOf(h))
      ensures heap == old(heap)[m.block := old(heap[h.block])]
      ensures old(StrongCount(h.block)) == 1 ==> m == h && pool == old(pool) && nextBlock == old(nextBlock)
      ensures old(StrongCount(h.block)) != 1 ==> !old(Live(m.block))
      ensures old(StrongCount(h.block)) != 1 && old(pool) != [] ==>
        m.block == old(pool)[|old(pool)| - 1] && pool == old(pool)[..|old(pool)| - 1] && nextBlock == old(nextBlock)
      ensures old(StrongCount(h.block)) != 1 && old(pool) == [] ==>
        m.block == old(nextBlock) && pool == [] && nextBlock == old(nextBlock) + 1
    {
      if StrongCount(h.block) != 1 {
        m := Unshare(h);
      } else {
        m := h;
      }
    }

    /** `f` applied to every sample of a block that is not the zero block. */
    method MapBlock(dst: BlockId, f: real -> real)
      requires Valid() && dst in heap && dst != zeroes
      modifies this`heap
      ensures Valid()
      ensures heap == old(heap)[dst := Mapped(old(heap[dst]), f)]
    {
      ghost var heap0 := heap;
      ghost var a := heap[dst];
      MappedUpToNone(a, f);
      UpdateSame(heap0, dst);
      var i := 0;
      while i < LEN
        modifies this`heap
        invariant 0 <= i <= LEN
        invariant Valid() && dst in heap
        invariant heap == heap0[dst := MappedUpTo(a, f, i)]
      {
        MappedUpToStep(a, f, i);
        UpdateTwice(heap0, dst, MappedUpTo(a, f, i), MappedUpTo(a, f, i + 1));
        StoreSample(dst, i, f(heap[dst][i]));
        i := i + 1;
      }
      MappedUpToAll(a, f);
    }

    /** Every sample of a block that is not the zero block combined with the matching
        sample of another block. */
    method CombineBlock(op: Combine, dst: BlockId, src: BlockId)
      requires Valid() && dst in heap && dst != zeroes && src in heap && dst != src
      modifies this`heap
      ensures Valid()
      ensures heap == old(heap)[dst := Zipped(op, old(heap[dst]), old(heap[src]))]
    {
      ghost var heap0 := heap;
      ghost var a, o := heap[dst], heap[src];
      ZippedUpToNone(op, a, o);
      UpdateSame(heap0, dst);
      var i := 0;
      while i < LEN
        modifies this`heap
        invariant 0 <= i <= LEN
        invariant Valid() && dst in heap
        invariant heap == heap0[dst := ZippedUpTo(op, a, o, i)]
      {
        ZippedUpToStep(op, a, o, i);
        UpdateTwice(heap0, dst, ZippedUpTo(op, a, o, i), ZippedUpTo(op, a, o, i + 1));
        StoreSample(dst, i, Apply(op, heap[dst][i], heap[src][i]));
        i := i + 1;
      }
      ZippedUpToAll(op, a, o);
    }

    /** `iter_mut().for_each(f)` on a handle, a write through `deref_mut`: `make_mut`, then
        `f` is applied to every sample of the handle's own block. */
    method MapSamples(h: ChannelData, f: real -> real) returns (m: ChannelData)
      requires Valid() && Live(h.block)
      modifies this`pool, this`heap, this`nextBlock, this`handles, this`inUse
      ensures Valid()
      ensures m.block in heap && !IsSilent(m) && handles[m.block] == 1 && StrongCount(m.block) == 1
      ensures handles == Moved(old(handles), h.block, m.block)
      ensures heap == old(heap)[m.block := Mapped(old(heap[h.block]), f)]
      ensures old(StrongCount(h.block)) == 1 ==> m == h && pool == old(pool) && nextBlock == old(nextBlock)
      ensures old(StrongCount(h.block)) != 1 ==> !old(Live(m.block))
      ensures old(StrongCount(h.block)) != 1 && old(pool) != [] ==>
        m.block == old(pool)[|old(pool)| - 1] && pool == old(pool)[..|old(pool)| - 1] && nextBlock == old(nextBlock)
      ensures old(StrongCount(h.block)) != 1 && old(pool) == [] ==>
        m.block == old(nextBlock) && pool == [] && nextBlock == old(nextBlock) + 1
    {
      m := MakeMut(h);
      ghost var heap1 := heap;
      MapBlock(m.block, f);
      UpdateTwice(old(heap), m.block, heap1[m.block], heap[m.block]);
    }

    /** `make_mut` on `h`, then a zip loop combining its samples with those of `other`:
        the summing path of `ChannelData::add` and the stereo-to-mono down-mix. `h` and
        `other` are two handles, so when they share a block that block has two of them. */
    method CombineSamples(op: Combine, h: ChannelData, other: ChannelData) returns (m: ChannelData)
      requires Valid() && Live(h.block) && Live(other.block)
      requires h.block == other.block ==> handles[h.block] >= 2
      modifies this`pool, this`heap, this`nextBlock, this`handles, this`inUse
      ensures Valid() && m.block in heap && !IsSilent(m) && handles[m.block] == 1 && StrongCount(m.block) == 1
      ensures m.block != other.block
      ensures handles == Moved(old(handles), h.block, m.block)
      ensures heap == old(heap)[m.block := Zipped(op, old(heap[h.block]), old(heap[other.block]))]
      ensures old(StrongCount(h.block)) == 1 ==> m == h && nextBlock == old(nextBlock)
      ensures old(StrongCount(h.block)) != 1 ==> !old(Live(m.block))
    {
      m := MakeMut(h);
      assert m.block != other.block;
      ghost var heap1 := heap;
      CombineBlock(op, m.block, other.block);
      UpdateTwice(old(heap), m.block, heap1[m.block], heap[m.block]);
    }

    /** `ChannelData::add`: a silent `h` becomes a clone of `other` (and the old `h` is
        dropped); a silent `other` leaves `h` alone; otherwise `h` is made its block's only
        owner and each of its samples grows by the matching sample of `other`. `h` and
        `other` are two handles, so when they share a block that block has two of them. */
    method AddChannel(h: ChannelData, other: ChannelData) returns (r: ChannelData)
      requires Valid() && Live(h.block) && Live(other.block)
      requires h.block == other.block ==> handles[h.block] >= 2
      modifies this`pool, this`heap, this`nextBlock, this`handles, this`inUse
      ensures Valid() && Live(r.block) && r.block in heap
      ensures handles == Moved(old(handles), h.block, r.block)
      ensures heap[r.block] == Zipped(Plus, old(heap[h.block]), old(heap[other.block]))
      ensures old(IsSilent(h)) ==> r == other && heap == old(heap) && pool == old(pool)
      ensures !old(IsSilent(h)) && old(IsSilent(other)) ==> r == h && heap == old(heap) && pool == old(pool)
      ensures !old(IsSilent(h)) && !old(IsSilent(other)) ==>
        && !IsSilent(r) && StrongCount(r.block) == 1
        && heap == old(heap)[r.block := Zipped(Plus, old(heap[h.block]), old(heap[other.block]))]
    {
      if IsSilent(h) {
        ghost var counts := handles;
        r := Clone(other);
        Drop(h);
        if h.block != other.block {
          UpdatesCommute(counts, other.block, counts[other.block] + 1, h.block, counts[h.block] - 1);
        } else {
          assert handles == counts;
        }
        PlusZeros(heap[other.block]);
      } else if !IsSilent(other) {
        r := CombineSamples(Plus, h, other);
      } else {
        r := h;
        PlusZeros(heap[h.block]);
      }
    }
  }

  // ---------------------------------------------------------------------------------
  // Pool accounting

  /** When no handle is alive, every block but the zero block is back in the pool: the
      pool holds the initial capacity plus every block allocated beyond it. */
  lemma PoolHoldsEveryBlockWhenNoHandles(a: Alloc)
    requires a.Valid() && forall b :: b in a.handles ==> a.handles[b] == 0
    ensures a.PoolSize() == a.nextBlock - 1
  {
    assert a.inUse == {};
  }

  /** No handle to any block is alive. */
  ghost predicate NoHandles(alloc: Alloc)
    reads alloc
  {
    forall b :: b in alloc.handles ==> alloc.handles[b] == 0
  }

  /** First scope of the allocator's unit test, first half: take a block from the pool and
      write it; it is not shared, so the pool is not touched again. Returns the pool sizes
      seen and the samples of the block when taken and after the write. */
  method TakeAndWrite(alloc: Alloc) returns (a: ChannelData, sizes: seq<nat>, initial: Samples, written: Samples)
    requires alloc.Valid() && NoHandles(alloc) && alloc.pool == [0, 1] && alloc.zeroes == 2
    requires 0 in alloc.heap && 1 in alloc.heap && alloc.heap[0] == Zeros() && alloc.heap[1] == Zeros()
    modifies alloc
    ensures alloc.Valid() && alloc.pool == [0] && alloc.nextBlock == old(alloc.nextBlock)
    ensures a.block == 1 && alloc.handles == old(alloc.handles)[1 := 1]
    ensures alloc.heap == old(alloc.heap)[1 := Constant(1.0)]
    ensures sizes == [1, 1] && initial == Zeros() && written == Constant(1.0)
  {
    a := alloc.Allocate();
    initial := alloc.SamplesOf(a);
    sizes := [alloc.PoolSize()];
    a := alloc.MapSamples(a, Shift(1.0));
    ZerosAreConstant();
    ShiftedConstant(0.0, 1.0);
    written := alloc.SamplesOf(a);
    sizes := sizes + [alloc.PoolSize()];
  }

  /** First scope, second half: cloning takes nothing from the pool; writing the clone
      copies it into the last pooled block. */
  method CloneAndWrite(alloc: Alloc, a: ChannelData) returns (b: ChannelData, sizes: seq<nat>)
    requires alloc.Valid() && alloc.pool == [0] && alloc.zeroes == 2 && a.block == 1
    requires alloc.handles == map[0 := 0, 1 := 1, 2 := 0]
    requires 1 in alloc.heap && alloc.heap[1] == Constant(1.0)
    modifies alloc
    ensures alloc.Valid() && alloc.pool == [] && alloc.nextBlock == old(alloc.nextBlock)
    ensures b.block == 0 && alloc.handles == map[0 := 1, 1 := 1, 2 := 0]
    ensures alloc.heap == old(alloc.heap)[0 := Constant(2.0)]
    ensures sizes == [1, 0]
  {
    b := alloc.Clone(a);
    sizes := [alloc.PoolSize()];
    b := alloc.MapSamples(b, Shift(1.0));
    ShiftedConstant(1.0, 1.0);
    sizes := sizes + [alloc.PoolSize()];
  }

  /** End of the first scope: `b` is dropped, then `a`; both blocks are reclaimed. */
  method DropBoth(alloc: Alloc, a: ChannelData, b: ChannelData) returns (size: nat)
    requires alloc.Valid() && alloc.pool == [] && a.block == 1 && b.block == 0 && alloc.zeroes == 2
    requires alloc.handles == map[0 := 1, 1 := 1, 2 := 0]
    modifies alloc
    ensures alloc.Valid() && alloc.handles == map[0 := 0, 1 := 0, 2 := 0] && alloc.pool == [0, 1] && size == 2
    ensures alloc.heap == old(alloc.heap) && alloc.nextBlock == old(alloc.nextBlock)
  {
    alloc.Drop(b);
    alloc.Drop(a);
    size := alloc.PoolSize();
  }

  /** Second scope, first part: the two pooled blocks come back dirty. */
  method TakeTwo(alloc: Alloc) returns (a: ChannelData, b: ChannelData, dirtyA: Samples, dirtyB: Samples)
    requires alloc.Valid() && alloc.handles == map[0 := 0, 1 := 0, 2 := 0] && alloc.pool == [0, 1]
    requires alloc.zeroes == 2 && alloc.nextBlock == 3
    requires 0 in alloc.heap && 1 in alloc.heap && alloc.heap[1] == Constant(1.0) && alloc.heap[0] == Constant(2.0)
    modifies alloc
    ensures alloc.Valid() && alloc.pool == [] && a.block == 1 && b.block == 0 && alloc.nextBlock == 3
    ensures alloc.handles == map[0 := 1, 1 := 1, 2 := 0]
    ensures dirtyA == Constant(1.0) && dirtyB == Constant(2.0)
  {
    a := alloc.Allocate();
    b := alloc.Allocate();
    dirtyA := alloc.SamplesOf(a);
    dirtyB := alloc.SamplesOf(b);
  }

  /** Second scope, second part: with the pool empty a block is allocated beyond it, zeroed. */
  method TakeBeyond(alloc: Alloc) returns (c: ChannelData, size: nat, freshC: Samples)
    requires alloc.Valid() && alloc.pool == [] && alloc.zeroes == 2 && alloc.nextBlock == 3
    requires alloc.handles == map[0 := 1, 1 := 1, 2 := 0]
    modifies alloc
    ensures alloc.Valid() && alloc.pool == [] && c.block == 3
    ensures alloc.handles == map[0 := 1, 1 := 1, 2 := 0, 3 := 1]
    ensures size == 0 && freshC == Zeros()
  {
    c := alloc.Allocate();
    size := alloc.PoolSize();
    freshC := alloc.SamplesOf(c);
  }

  /** End of the second scope: `b`, then `a` go back to the pool. */
  method DropTwo(alloc: Alloc, a: ChannelData, b: ChannelData)
    requires alloc.Valid() && alloc.pool == [] && a.block == 1 && b.block == 0
    requires alloc.zeroes == 2 && alloc.handles == map[0 := 1, 1 := 1, 2 := 0, 3 := 1]
    modifies alloc
    ensures alloc.Valid() && alloc.pool == [0, 1] && alloc.handles == map[0 := 0, 1 := 0, 2 := 0, 3 := 1]
  {
    ghost var h0 := alloc.handles;
    assert alloc.StrongCount(0) == 1;
    alloc.Drop(b);
    assert alloc.StrongCount(1) == 1;
    alloc.Drop(a);
    assert alloc.handles == h0[0 := 0][1 := 0];
  }

  /** Dropping `c`, which outlived the scope: the pool has grown beyond its initial capacity. */
  method DropBeyond(alloc: Alloc, c: ChannelData) returns (size: nat)
    requires alloc.Valid() && alloc.pool == [0, 1] && c.block == 3
    requires alloc.zeroes == 2 && alloc.handles == map[0 := 0, 1 := 0, 2 := 0, 3 := 1]
    modifies alloc
    ensures alloc.Valid() && NoHandles(alloc) && alloc.pool == [0, 1, 3] && size == 3
  {
    alloc.Drop(c);
    size := alloc.PoolSize();
  }

  /** The first scope of the allocator's unit test as a whole: both pooled blocks are
      written and reclaimed. */
  method FirstScope(alloc: Alloc) returns (sizes: seq<nat>, initial: Samples, written: Samples)
    requires alloc.Valid() && alloc.handles == map[0 := 0, 1 := 0, 2 := 0] && alloc.pool == [0, 1]
    requires alloc.zeroes == 2 && alloc.nextBlock == 3
    requires 0 in alloc.heap && 1 in alloc.heap && alloc.heap[0] == Zeros() && alloc.heap[1] == Zeros()
    modifies alloc
    ensures alloc.Valid() && alloc.handles == map[0 := 0, 1 := 0, 2 := 0] && alloc.pool == [0, 1]
    ensures alloc.nextBlock == 3 && alloc.heap[1] == Constant(1.0) && alloc.heap[0] == Constant(2.0)
    ensures sizes == [1, 1, 1, 0, 2] && initial == Zeros() && written == Constant(1.0)
  {
    var a, s1;
    a, s1, initial, written := TakeAndWrite(alloc);
    var b, s2 := CloneAndWrite(alloc, a);
    var s3 := DropBoth(alloc, a, b);
    sizes := s1 + s2 + [s3];
  }

  /** The second scope as a whole: the pool grows to three blocks. */
  method SecondScope(alloc: Alloc) returns (sizes: seq<nat>, dirtyA: Samples, dirtyB: Samples, freshC: Samples)
    requires alloc.Valid() && alloc.handles == map[0 := 0, 1 := 0, 2 := 0] && alloc.pool == [0, 1]
    requires alloc.zeroes == 2 && alloc.nextBlock == 3
    requires 0 in alloc.heap && 1 in alloc.heap && alloc.heap[1] == Constant(1.0) && alloc.heap[0] == Constant(2.0)
    modifies alloc
    ensures alloc.Valid() && NoHandles(alloc) && alloc.pool == [0, 1, 3]
    ensures sizes == [0, 3] && dirtyA == Constant(1.0) && dirtyB == Constant(2.0) && freshC == Zeros()
  {
    var a, b, c, s4;
    a, b, dirtyA, dirtyB := TakeTwo(alloc);
    c, s4, freshC := TakeBeyond(alloc);
    DropTwo(alloc, a, b);
    var s5 := DropBeyond(alloc, c);
    sizes := [s4, s5];
  }

  /** Third scope: a silent handle shares the zero block; a mutable access takes a pooled
      block and copies the zeroes into it, after which the handle is no longer silent. */
  method ThirdScope(alloc: Alloc) returns (sizes: seq<nat>, silentBefore: bool, silentAfter: bool, zeroAfter: Samples)
    requires alloc.Valid() && NoHandles(alloc) && |alloc.pool| == 3
    modifies alloc
    ensures sizes == [3, 2] && silentBefore && !silentAfter && zeroAfter == Zeros()
  {
    var s := alloc.Silence();
    silentBefore := alloc.IsSilent(s);
    sizes := [alloc.PoolSize()];
    s := alloc.MakeMut(s);
    zeroAfter := alloc.SamplesOf(s);
    silentAfter := alloc.IsSilent(s);
    sizes := sizes + [alloc.PoolSize()];
  }

  /** The allocator's unit test: pool sizes along the three scopes, the samples seen
      through the handles, and the silence checks. */
  method PoolScenario() returns (sizes: seq<nat>, initial: Samples, written: Samples, dirtyA: Samples,
                                 dirtyB: Samples, freshC: Samples, silentBefore: bool, silentAfter: bool,
                                 zeroAfter: Samples)
    ensures sizes == [2, 1, 1, 1, 0, 2, 0, 3, 3, 2]
    ensures initial == Zeros() && written == Constant(1.0) && dirtyA == Constant(1.0) && dirtyB == Constant(2.0) && freshC == Zeros()
    ensures silentBefore && !silentAfter && zeroAfter == Zeros()
  {
    var alloc := new Alloc.WithCapacity(2);
    var s0 := alloc.PoolSize();
    assert alloc.pool == [0, 1];
    assert alloc.handles == map[0 := 0, 1 := 0, 2 := 0];
    var s1;
    s1, initial, written := FirstScope(alloc);
    var s2;
    s2, dirtyA, dirtyB, freshC := SecondScope(alloc);
    var s3;
    s3, silentBefore, silentAfter, zeroAfter := ThirdScope(alloc);
    sizes := JoinSizes(s0, s1, s2, s3);
  }

  /** The pool sizes of the three scopes, in order, after the initial one. */
  function JoinSizes(s0: nat, s1: seq<nat>, s2: seq<nat>, s3: seq<nat>): (sizes: seq<nat>)
    ensures |sizes| == 1 + |s1| + |s2| + |s3| && sizes[0] == s0
    ensures s1 == [1, 1, 1, 0, 2] && s2 == [0, 3] && s3 == [3, 2] ==> sizes == [s0, 1, 1, 1, 0, 2, 0, 3, 3, 2]
  {
    [s0] + s1 + s2 + s3
  }
}

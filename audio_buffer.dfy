/** `AudioBuffer` of src/buffer2.rs: 32 channel slots, each holding a `ChannelData` handle
    into a shared allocator, of which the first `channel_count` are the buffer's channels.

    Every slot holds a live handle, so the allocator's handle counts include the slots.
    Other handles to the same blocks may live elsewhere (in another buffer, or in a local
    of the operation being run), listed in a ghost sequence `rest`: every operation keeps
    all of them counted (`Held`) and leaves the samples they see as they were
    (`Untouched`), however the blocks were shared. */
module RenderBuffer {
  import opened ChannelPool
  import opened Channels

  /** Number of channel slots (`MAX_CHANNELS`). */
  const MAX_CHANNELS: nat := 32

  // ---------------------------------------------------------------------------------
  // Handle accounting

  /** Number of handles in `s` to block `b`. */
  ghost function Holders(s: seq<ChannelData>, b: BlockId): nat {
    multiset(s)[ChannelData(b)]
  }

  /** Handle `s[i]` is live and counted: its block has at least as many live handles as
      `s` holds. */
  ghost predicate HeldAt(handles: map<BlockId, nat>, s: seq<ChannelData>, i: nat)
    requires i < |s|
  {
    s[i].block in handles && Holders(s, s[i].block) <= handles[s[i].block]
  }

  /** The handles of `s` from index `i` on are live and counted. */
  ghost predicate HeldFrom(handles: map<BlockId, nat>, s: seq<ChannelData>, i: nat)
    decreases |s| - i
  {
    i < |s| ==> HeldAt(handles, s, i) && HeldFrom(handles, s, i + 1)
  }

  /** The handles in `s` are live and counted: each block has at least as many live
      handles as `s` holds. */
  ghost predicate Held(handles: map<BlockId, nat>, s: seq<ChannelData>) {
    HeldFrom(handles, s, 0)
  }

  lemma {:induction false} HeldFromElim(h: map<BlockId, nat>, s: seq<ChannelData>, i: nat)
    requires HeldFrom(h, s, i)
    ensures forall j :: i <= j < |s| ==> HeldAt(h, s, j)
    decreases |s| - i
  {
    if i < |s| {
      HeldFromElim(h, s, i + 1);
    }
  }

  lemma {:induction false} HeldFromIntro(h: map<BlockId, nat>, s: seq<ChannelData>, i: nat)
    requires forall j :: i <= j < |s| ==> HeldAt(h, s, j)
    ensures HeldFrom(h, s, i)
    decreases |s| - i
  {
    if i < |s| {
      HeldFromIntro(h, s, i + 1);
    }
  }

  /** `Held`, handle by handle. */
  lemma HeldElim(h: map<BlockId, nat>, s: seq<ChannelData>)
    requires Held(h, s)
    ensures forall j :: 0 <= j < |s| ==> s[j].block in h && Holders(s, s[j].block) <= h[s[j].block]
  {
    HeldFromElim(h, s, 0);
    forall j | 0 <= j < |s|
      ensures s[j].block in h && Holders(s, s[j].block) <= h[s[j].block]
    {
      assert HeldAt(h, s, j);
    }
  }

  lemma HeldIntro(h: map<BlockId, nat>, s: seq<ChannelData>)
    requires forall j :: 0 <= j < |s| ==> s[j].block in h && Holders(s, s[j].block) <= h[s[j].block]
    ensures Held(h, s)
  {
    forall j | 0 <= j < |s|
      ensures HeldAt(h, s, j)
    {
    }
    HeldFromIntro(h, s, 0);
  }

  /** Handles to each block of `h` that are not in `s`. */
  ghost function Outside(h: map<BlockId, nat>, s: seq<ChannelData>): map<BlockId, int> {
    map b | b in h :: h[b] - Holders(s, b)
  }

  /** No handle outside, for each block of `blocks`. */
  ghost function NoneOutside(blocks: set<BlockId>): map<BlockId, int> {
    map b | b in blocks :: 0
  }

  /** From slots `s0` under handle counts `h0` to slots `s1` under `h1`, the handles not in
      the slots are the same: every change of a count is a change of the slots, and a block
      that is new in `h1` is held by the slots alone. */
  ghost predicate Balanced(h0: map<BlockId, nat>, s0: seq<ChannelData>, h1: map<BlockId, nat>, s1: seq<ChannelData>) {
    h0.Keys <= h1.Keys && Outside(h1, s1) == Outside(h0, s0) + NoneOutside(h1.Keys - h0.Keys)
  }

  /** `Balanced`, block by block. */
  ghost predicate BalancedPointwise(h0: map<BlockId, nat>, s0: seq<ChannelData>, h1: map<BlockId, nat>, s1: seq<ChannelData>) {
    && h0.Keys <= h1.Keys
    && (forall b :: b in h0 ==> h1[b] - Holders(s1, b) == h0[b] - Holders(s0, b))
    && (forall b :: b in h1 && b !in h0 ==> h1[b] == Holders(s1, b))
  }

  lemma BalancedIntro(h0: map<BlockId, nat>, s0: seq<ChannelData>, h1: map<BlockId, nat>, s1: seq<ChannelData>)
    requires BalancedPointwise(h0, s0, h1, s1)
    ensures Balanced(h0, s0, h1, s1)
  {
    var l, r := Outside(h1, s1), Outside(h0, s0) + NoneOutside(h1.Keys - h0.Keys);
    assert l.Keys == r.Keys;
    forall b | b in l
      ensures l[b] == r[b]
    {
      if b in h0 {
        assert r[b] == h0[b] - Holders(s0, b);
      } else {
        assert r[b] == 0;
      }
    }
  }

  lemma BalancedElim(h0: map<BlockId, nat>, s0: seq<ChannelData>, h1: map<BlockId, nat>, s1: seq<ChannelData>)
    requires Balanced(h0, s0, h1, s1)
    ensures BalancedPointwise(h0, s0, h1, s1)
  {
    var l, r := Outside(h1, s1), Outside(h0, s0) + NoneOutside(h1.Keys - h0.Keys);
    forall b | b in h0
      ensures h1[b] - Holders(s1, b) == h0[b] - Holders(s0, b)
    {
      assert l[b] == r[b];
    }
    forall b | b in h1 && b !in h0
      ensures h1[b] == Holders(s1, b)
    {
      assert l[b] == r[b];
    }
  }

  /** The handles counted in `h` include those of any part of `s + t`. */
  lemma {:induction false} HeldParts(h: map<BlockId, nat>, s: seq<ChannelData>, t: seq<ChannelData>)
    requires Held(h, s + t)
    ensures Held(h, s) && Held(h, t)
  {
    HeldElim(h, s + t);
    forall i | 0 <= i < |s|
      ensures s[i].block in h && Holders(s, s[i].block) <= h[s[i].block]
    {
      assert (s + t)[i] == s[i];
      assert multiset(s + t) == multiset(s) + multiset(t);
    }
    forall i | 0 <= i < |t|
      ensures t[i].block in h && Holders(t, t[i].block) <= h[t[i].block]
    {
      assert (s + t)[|s| + i] == t[i];
      assert multiset(s + t) == multiset(s) + multiset(t);
    }
    HeldIntro(h, s);
    HeldIntro(h, t);
  }

  /** A balanced change of the slots keeps every other handle (`rest`) live and counted. */
  lemma {:induction false} BalancedKeepsOthers(h0: map<BlockId, nat>, s0: seq<ChannelData>,
                                               h1: map<BlockId, nat>, s1: seq<ChannelData>,
                                               rest: seq<ChannelData>)
    requires Held(h0, s0 + rest) && Balanced(h0, s0, h1, s1)
    requires forall i :: 0 <= i < |s1| ==> s1[i].block in h1
    ensures Held(h1, s1 + rest)
  {
    HeldElim(h0, s0 + rest);
    BalancedElim(h0, s0, h1, s1);
    forall i | 0 <= i < |s1 + rest|
      ensures (s1 + rest)[i].block in h1 && Holders(s1 + rest, (s1 + rest)[i].block) <= h1[(s1 + rest)[i].block]
    {
      BalancedKeepsSlot(h0, s0, h1, s1, rest, i);
    }
    HeldIntro(h1, s1 + rest);
  }

  /** One handle of `s1 + rest` after a balanced change of the slots is live and counted. */
  lemma BalancedKeepsSlot(h0: map<BlockId, nat>, s0: seq<ChannelData>,
                          h1: map<BlockId, nat>, s1: seq<ChannelData>,
                          rest: seq<ChannelData>, i: nat)
    requires forall j :: 0 <= j < |s0 + rest| ==> (s0 + rest)[j].block in h0 && Holders(s0 + rest, (s0 + rest)[j].block) <= h0[(s0 + rest)[j].block]
    requires BalancedPointwise(h0, s0, h1, s1)
    requires forall j :: 0 <= j < |s1| ==> s1[j].block in h1
    requires i < |s1 + rest|
    ensures (s1 + rest)[i].block in h1 && Holders(s1 + rest, (s1 + rest)[i].block) <= h1[(s1 + rest)[i].block]
  {
    assert multiset(s0 + rest) == multiset(s0) + multiset(rest);
    assert multiset(s1 + rest) == multiset(s1) + multiset(rest);
    var b := (s1 + rest)[i].block;
    assert (s1 + rest)[i] == ChannelData(b);
    assert Holders(s1 + rest, b) == Holders(s1, b) + Holders(rest, b);
    assert Holders(s0 + rest, b) == Holders(s0, b) + Holders(rest, b);
    if i >= |s1| {
      assert rest[i - |s1|] == ChannelData(b);
      assert (s0 + rest)[|s0| + i - |s1|] == ChannelData(b);
    }
    if b in h0 {
      if Holders(s0 + rest, b) != 0 {
        assert ChannelData(b) in multiset(s0 + rest);
        var j :| 0 <= j < |s0 + rest| && (s0 + rest)[j] == ChannelData(b);
        assert Holders(s0 + rest, b) <= h0[b];
      }
    } else {
      assert i < |s1|;
    }
  }

  /** Replacing the handle in slot `i` by another handle to `src.block` is balanced. */
  lemma {:induction false} ReplacedBalanced(h: map<BlockId, nat>, s: seq<ChannelData>, i: nat, src: ChannelData)
    requires Held(h, s) && i < |s| && src.block in h
    ensures s[i].block in h && h[s[i].block] > 0
    ensures Balanced(h, s, Moved(h, s[i].block, src.block), s[i := src])
  {
    HeldElim(h, s);
    var h1, s1 := Moved(h, s[i].block, src.block), s[i := src];
    assert s[i] in multiset(s) && s[i] == ChannelData(s[i].block) && src == ChannelData(src.block);
    assert multiset(s1) == multiset(s) - multiset{s[i]} + multiset{src};
    assert h1.Keys == h.Keys;
    forall b | b in h
      ensures h1[b] - Holders(s1, b) == h[b] - Holders(s, b)
    {
      if s[i].block != src.block {
        if b == s[i].block {
          assert Holders(s1, b) == Holders(s, b) - 1;
        } else if b == src.block {
          assert Holders(s1, b) == Holders(s, b) + 1;
        } else {
          assert Holders(s1, b) == Holders(s, b);
        }
      }
    }
    BalancedIntro(h, s, h1, s1);
  }

  /** Everything the accounting needs about `s[i] = src.clone()` in one place. */
  lemma SlotReplaced(h: map<BlockId, nat>, s: seq<ChannelData>, i: nat, src: ChannelData, rest: seq<ChannelData>)
    requires Held(h, s + rest) && i < |s| && src.block in h
    ensures s[i].block in h && h[s[i].block] > 0
    ensures Balanced(h, s, Moved(h, s[i].block, src.block), s[i := src])
    ensures Held(Moved(h, s[i].block, src.block), s[i := src] + rest)
    ensures Held(Moved(h, s[i].block, src.block), s[i := src])
  {
    HeldParts(h, s, rest);
    HeldElim(h, s);
    ReplacedBalanced(h, s, i, src);
    BalancedKeepsOthers(h, s, Moved(h, s[i].block, src.block), s[i := src], rest);
    HeldParts(Moved(h, s[i].block, src.block), s[i := src], rest);
  }

  /** Balanced changes compose. */
  lemma BalancedTrans(h0: map<BlockId, nat>, s0: seq<ChannelData>, h1: map<BlockId, nat>, s1: seq<ChannelData>,
                      h2: map<BlockId, nat>, s2: seq<ChannelData>)
    requires Balanced(h0, s0, h1, s1) && Balanced(h1, s1, h2, s2)
    ensures Balanced(h0, s0, h2, s2)
  {
    BalancedElim(h0, s0, h1, s1);
    BalancedElim(h1, s1, h2, s2);
    BalancedIntro(h0, s0, h2, s2);
  }

  /** The samples behind handle `h` (a handle to no block of `heap` sees silence). */
  ghost function BlockSamples(heap: map<BlockId, Samples>, h: ChannelData): Samples {
    if h.block in heap then heap[h.block] else Zeros()
  }

  /** The samples behind each handle of `s`. */
  ghost function ContentsOf(heap: map<BlockId, Samples>, s: seq<ChannelData>): (v: seq<Samples>)
    ensures |v| == |s|
    decreases |s|
  {
    if s == [] then [] else ContentsOf(heap, s[..|s| - 1]) + [BlockSamples(heap, s[|s| - 1])]
  }

  /** `ContentsOf`, handle by handle. */
  lemma {:induction false} ContentsOfEach(heap: map<BlockId, Samples>, s: seq<ChannelData>)
    ensures forall k :: 0 <= k < |s| ==> ContentsOf(heap, s)[k] == BlockSamples(heap, s[k])
    decreases |s|
  {
    if s != [] {
      ContentsOfEach(heap, s[..|s| - 1]);
    }
  }

  /** A local handle to block `z` is made next to the slots `s` and the handles `rest`. */
  lemma LocalHandleMade(h: map<BlockId, nat>, s: seq<ChannelData>, z: BlockId, rest: seq<ChannelData>)
    requires Held(h, s + rest) && z in h
    ensures Held(h[z := h[z] + 1], s + ([ChannelData(z)] + rest))
  {
    HeldElim(h, s + rest);
    var x := ChannelData(z);
    HeldParts(h, s, rest);
    assert multiset(s + [x]) == multiset(s) + multiset{x};
    BalancedIntro(h, s, h[z := h[z] + 1], s + [x]);
    forall i | 0 <= i < |s + [x]|
      ensures (s + [x])[i].block in h[z := h[z] + 1]
    {
      if i < |s| {
        assert (s + rest)[i] == s[i] == (s + [x])[i];
      }
    }
    BalancedKeepsOthers(h, s, h[z := h[z] + 1], s + [x], rest);
    assert (s + [x]) + rest == s + ([x] + rest);
  }

  /** A local handle to block `z`, kept next to the slots `s` and the handles `rest`, is
      dropped. */
  lemma LocalHandleGone(h: map<BlockId, nat>, s: seq<ChannelData>, z: BlockId, rest: seq<ChannelData>)
    requires Held(h, s + ([ChannelData(z)] + rest))
    ensures z in h && h[z] > 0
    ensures Held(h[z := h[z] - 1], s + rest)
  {
    HeldElim(h, s + ([ChannelData(z)] + rest));
    var x := ChannelData(z);
    assert (s + [x]) + rest == s + ([x] + rest);
    assert (s + [x] + rest)[|s|] == x;
    assert x in multiset(s + ([x] + rest));
    HeldParts(h, s + [x], rest);
    assert multiset(s + [x]) == multiset(s) + multiset{x};
    BalancedIntro(h, s + [x], h[z := h[z] - 1], s);
    forall i | 0 <= i < |s|
      ensures s[i].block in h
    {
      assert (s + ([x] + rest))[i] == s[i];
    }
    BalancedKeepsOthers(h, s + [x], h[z := h[z] - 1], s, rest);
  }

  /** Slot `i` gets a handle `m` to a block no other handle refers to: either its own
      block, of which it was the sole handle, or a block that was not live. No other
      handle of `s` refers to `m`'s block, and the counts stay right. */
  lemma SlotRewritten(h: map<BlockId, nat>, s: seq<ChannelData>, i: nat, m: ChannelData)
    requires Held(h, s) && i < |s|
    requires m.block !in h || h[m.block] == 0 || (m == s[i] && h[m.block] == 1)
    ensures s[i].block in h && h[s[i].block] > 0
    ensures forall k :: 0 <= k < |s| && k != i ==> s[k].block != m.block
    ensures Held(Moved(h, s[i].block, m.block), s[i := m])
  {
    HeldElim(h, s);
    SlotLive(h, s, i);
    forall k | 0 <= k < |s| && k != i
      ensures s[k].block != m.block
    {
      SlotLive(h, s, k);
      if m == s[i] {
        SoleHandle(h, s, i, k);
      }
    }
    if m != s[i] {
      var h1, s1 := Moved(h, s[i].block, m.block), s[i := m];
      assert multiset(s1) == multiset(s) - multiset{s[i]} + multiset{m};
      assert m !in multiset(s);
      forall j | 0 <= j < |s1|
        ensures s1[j].block in h1 && Holders(s1, s1[j].block) <= h1[s1[j].block]
      {
        if j != i {
          assert s1[j] == s[j] && s[j] == ChannelData(s[j].block);
        }
      }
      HeldIntro(h1, s1);
    } else {
      assert s[i := m] == s;
    }
  }

  /** The samples behind the handles `rest` are the same in `heap1` as in `heap0`. */
  ghost predicate Untouched(heap0: map<BlockId, Samples>, heap1: map<BlockId, Samples>, rest: seq<ChannelData>) {
    ContentsOf(heap1, rest) == ContentsOf(heap0, rest)
  }

  /** The samples behind a concatenation of handles. */
  lemma {:induction false} ContentsOfConcat(heap: map<BlockId, Samples>, s: seq<ChannelData>, t: seq<ChannelData>)
    ensures ContentsOf(heap, s + t) == ContentsOf(heap, s) + ContentsOf(heap, t)
    decreases |t|
  {
    if t == [] {
      assert s + t == s;
    } else {
      assert (s + t)[..|s + t| - 1] == s + t[..|t| - 1];
      ContentsOfConcat(heap, s, t[..|t| - 1]);
    }
  }

  /** The samples behind the handles `s + rest` are unchanged, so are those behind each part. */
  lemma UntouchedParts(heap0: map<BlockId, Samples>, heap1: map<BlockId, Samples>, s: seq<ChannelData>, rest: seq<ChannelData>)
    requires Untouched(heap0, heap1, s + rest)
    ensures Untouched(heap0, heap1, s) && Untouched(heap0, heap1, rest)
  {
    ContentsOfConcat(heap0, s, rest);
    ContentsOfConcat(heap1, s, rest);
    assert ContentsOf(heap1, s) == ContentsOf(heap1, s + rest)[..|s|];
  }

  lemma UntouchedJoin(heap0: map<BlockId, Samples>, heap1: map<BlockId, Samples>, s: seq<ChannelData>, rest: seq<ChannelData>)
    requires Untouched(heap0, heap1, s) && Untouched(heap0, heap1, rest)
    ensures Untouched(heap0, heap1, s + rest)
  {
    ContentsOfConcat(heap0, s, rest);
    ContentsOfConcat(heap1, s, rest);
  }

  lemma UntouchedTail(heap0: map<BlockId, Samples>, heap1: map<BlockId, Samples>, x: ChannelData, rest: seq<ChannelData>)
    requires Untouched(heap0, heap1, [x] + rest)
    ensures Untouched(heap0, heap1, rest)
  {
    UntouchedParts(heap0, heap1, [x], rest);
  }

  /** The samples seen through slot `i`. */
  lemma ContentsAt(heap: map<BlockId, Samples>, s: seq<ChannelData>, i: nat)
    requires i < |s|
    ensures ContentsOf(heap, s)[i] == BlockSamples(heap, s[i])
  {
    ContentsOfEach(heap, s);
  }

  /** The first handle of `rest` is live. */
  lemma FirstOfRestLive(h: map<BlockId, nat>, s: seq<ChannelData>, rest: seq<ChannelData>)
    requires Held(h, s + rest) && rest != []
    ensures rest[0].block in h && h[rest[0].block] > 0
  {
    HeldElim(h, s + rest);
    assert (s + rest)[|s|] == rest[0];
    assert rest[0] in multiset(s + rest);
  }

  /** Replacing a handle replaces the samples seen through it. */
  lemma ContentsReplaced(heap: map<BlockId, Samples>, s: seq<ChannelData>, i: nat, x: ChannelData)
    requires i < |s|
    ensures ContentsOf(heap, s[i := x]) == ContentsOf(heap, s)[i := BlockSamples(heap, x)]
  {
    ContentsOfEach(heap, s);
    ContentsOfEach(heap, s[i := x]);
  }

  /** Samples after the `(1, 4)` arm of `mix`. */
  lemma QuadContents(heap: map<BlockId, Samples>, s: seq<ChannelData>, x: ChannelData)
    requires |s| == MAX_CHANNELS && BlockSamples(heap, x) == Zeros()
    ensures ContentsOf(heap, s[1 := s[0]][2 := x][3 := x])
         == ContentsOf(heap, s)[1 := ContentsOf(heap, s)[0]][2 := Zeros()][3 := Zeros()]
  {
    ContentsOfEach(heap, s);
    ContentsOfEach(heap, s[1 := s[0]][2 := x][3 := x]);
  }

  /** Samples after the `(1, 6)` arm of `mix`. */
  lemma SurroundContents(heap: map<BlockId, Samples>, s: seq<ChannelData>, x: ChannelData)
    requires |s| == MAX_CHANNELS && BlockSamples(heap, x) == Zeros()
    ensures ContentsOf(heap, s[2 := s[0]][0 := x][1 := x][3 := x][4 := x])
         == ContentsOf(heap, s)[2 := ContentsOf(heap, s)[0]][0 := Zeros()][1 := Zeros()][3 := Zeros()][4 := Zeros()]
  {
    ContentsOfEach(heap, s);
    ContentsOfEach(heap, s[2 := s[0]][0 := x][1 := x][3 := x][4 := x]);
  }

  /** Slot `i` now holds `m`, to a block no other handle of `s` or `others` refers to,
      whose samples are now `v`: only slot `i` sees different samples. */
  lemma RewrittenContents(heap: map<BlockId, Samples>, s: seq<ChannelData>, others: seq<ChannelData>,
                          i: nat, m: ChannelData, v: Samples)
    requires i < |s|
    requires forall k :: 0 <= k < |s + others| && k != i ==> (s + others)[k].block != m.block
    ensures ContentsOf(heap[m.block := v], s[i := m]) == ContentsOf(heap, s)[i := v]
    ensures Untouched(heap, heap[m.block := v], others)
  {
    ContentsOfEach(heap, s);
    ContentsOfEach(heap[m.block := v], s[i := m]);
    ContentsOfEach(heap, others);
    ContentsOfEach(heap[m.block := v], others);
    forall k | 0 <= k < |s| && k != i
      ensures s[k].block != m.block
    {
      assert (s + others)[k] == s[k];
    }
    forall k | 0 <= k < |others|
      ensures others[k].block != m.block
    {
      assert (s + others)[|s| + k] == others[k];
    }
  }

  /** Samples after the `(2, 1)` arm of `mix`: slot 0 holds `m`, to a block no other
      handle refers to, whose samples are the mean of the first two channels. */
  lemma DownmixContents(heap: map<BlockId, Samples>, s: seq<ChannelData>, others: seq<ChannelData>,
                        m: ChannelData, v: Samples)
    requires |s| >= 2
    requires forall k :: 0 <= k < |s + others| && k != 0 ==> (s + others)[k].block != m.block
    requires v == Zipped(Mean, BlockSamples(heap, s[0]), BlockSamples(heap, s[1]))
    ensures ContentsOf(heap[m.block := v], s[0 := m])
         == ContentsOf(heap, s)[0 := Zipped(Mean, ContentsOf(heap, s)[0], ContentsOf(heap, s)[1])]
    ensures Untouched(heap, heap[m.block := v], others)
  {
    ContentsAt(heap, s, 0);
    ContentsAt(heap, s, 1);
    RewrittenContents(heap, s, others, 0, m, v);
  }

  /** Samples after the closure of `modify_channels` rewrote slot `i` through `f`: the
      slot holds `m`, to a block no other handle refers to. */
  lemma MappedContents(heap: map<BlockId, Samples>, s: seq<ChannelData>, others: seq<ChannelData>,
                       i: nat, m: ChannelData, v: Samples, f: real -> real)
    requires i < |s|
    requires forall k :: 0 <= k < |s + others| && k != i ==> (s + others)[k].block != m.block
    requires v == Mapped(BlockSamples(heap, s[i]), f)
    ensures ContentsOf(heap[m.block := v], s[i := m]) == ContentsOf(heap, s)[i := Mapped(ContentsOf(heap, s)[i], f)]
    ensures Untouched(heap, heap[m.block := v], others)
  {
    ContentsAt(heap, s, i);
    RewrittenContents(heap, s, others, i, m, v);
  }

  /** Slot `i` after `ChannelData::add` with `others[j]`, from handle counts `h0` and
      samples `heap0`: either the slot became a handle to the block of `others[j]` (it was
      silent), or it kept its handle (`others[j]` was silent), or it holds `r`, the only
      handle to a block that alone was written. In each case the slot sees the sum. */
  lemma SlotSummed(h0: map<BlockId, nat>, heap0: map<BlockId, Samples>, h1: map<BlockId, nat>, heap1: map<BlockId, Samples>,
                   s: seq<ChannelData>, others: seq<ChannelData>, i: nat, j: nat, r: ChannelData)
    requires Held(h0, s + others) && i < |s| && j < |others| && h0.Keys == heap0.Keys
    requires s[i].block in h0 && h0[s[i].block] > 0 && others[j].block in h0
    requires h1 == Moved(h0, s[i].block, r.block)
    requires r.block in heap1 && heap1[r.block] == Zipped(Plus, heap0[s[i].block], heap0[others[j].block])
    requires || (r == others[j] && heap1 == heap0)
             || (r == s[i] && heap1 == heap0)
             || (h1[r.block] == 1 && heap1 == heap0[r.block := heap1[r.block]])
    ensures Held(h1, s[i := r] + others)
    ensures ContentsOf(heap1, s[i := r])
         == ContentsOf(heap0, s)[i := Zipped(Plus, ContentsOf(heap0, s)[i], BlockSamples(heap0, others[j]))]
    ensures Untouched(heap0, heap1, others)
  {
    ContentsAt(heap0, s, i);
    if r == others[j] && heap1 == heap0 {
      SlotReplaced(h0, s, i, r, others);
      ContentsReplaced(heap0, s, i, r);
    } else if r == s[i] && heap1 == heap0 {
      assert s[i := r] == s;
    } else {
      ghost var all := s + others;
      assert all[i] == s[i];
      SlotRewritten(h0, all, i, r);
      RewrittenContents(heap0, s, others, i, r, heap1[r.block]);
      ConcatUpdate(s, others, i, r);
    }
  }

  /** Updating the first part of a concatenation. */
  /** Slot 0 of `s` rewritten with `m`, the block holding the mean of slots 0 and 1. */
  lemma MeanRewritten(h: map<BlockId, nat>, heap: map<BlockId, Samples>, s: seq<ChannelData>,
                      others: seq<ChannelData>, m: ChannelData, v: Samples)
    requires |s| >= 2 && Held(h, s + others)
    requires m.block !in h || h[m.block] == 0 || (m == s[0] && h[m.block] == 1)
    requires v == Zipped(Mean, BlockSamples(heap, s[0]), BlockSamples(heap, s[1]))
    ensures s[0].block in h && h[s[0].block] > 0
    ensures Held(Moved(h, s[0].block, m.block), s[0 := m] + others)
    ensures Held(Moved(h, s[0].block, m.block), s[0 := m])
    ensures ContentsOf(heap[m.block := v], s[0 := m])
         == ContentsOf(heap, s)[0 := Zipped(Mean, ContentsOf(heap, s)[0], ContentsOf(heap, s)[1])]
    ensures Untouched(heap, heap[m.block := v], others)
  {
    assert (s + others)[0] == s[0];
    SlotRewritten(h, s + others, 0, m);
    DownmixContents(heap, s, others, m, v);
    ConcatUpdate(s, others, 0, m);
    HeldParts(Moved(h, s[0].block, m.block), s[0 := m], others);
  }

  lemma ConcatUpdate<T>(s: seq<T>, t: seq<T>, i: nat, x: T)
    requires i < |s|
    ensures (s + t)[i := x] == s[i := x] + t
  {
  }

  /** `n` copies of `x`. */
  lemma {:induction false} RepeatedHolders(x: ChannelData, n: nat)
    ensures Holders(seq(n, _ => x), x.block) == n
  {
    if n > 0 {
      assert seq(n, _ => x) == seq(n - 1, _ => x) + [x];
      RepeatedHolders(x, n - 1);
    }
  }

  /** Two slots holding the same block are two handles to it. */
  lemma {:induction false} TwoHolders(s: seq<ChannelData>, i: nat, j: nat)
    requires i < j < |s| && s[i] == s[j]
    ensures Holders(s, s[i].block) >= 2
  {
    assert s == s[..i] + [s[i]] + s[i + 1..j] + [s[j]] + s[j + 1..];
    assert s[i] == ChannelData(s[i].block);
  }

  /** A block held by two of the counted handles has at least two live handles. */
  lemma SharedHeld(h: map<BlockId, nat>, s: seq<ChannelData>, i: nat, j: nat)
    requires Held(h, s) && i < j < |s| && s[i] == s[j]
    ensures s[i].block in h && h[s[i].block] >= 2
  {
    HeldElim(h, s);
    TwoHolders(s, i, j);
  }

  /** The sole handle to a block: no other handle among those counted refers to it. */
  lemma SoleHandle(h: map<BlockId, nat>, s: seq<ChannelData>, i: nat, j: nat)
    requires Held(h, s) && i < |s| && j < |s| && i != j && s[i].block in h && h[s[i].block] == 1
    ensures s[j] != s[i]
  {
    HeldElim(h, s);
    if s[j] == s[i] {
      if i < j { TwoHolders(s, i, j); } else { TwoHolders(s, j, i); }
    }
  }

  /** Filling the slots with clones of a handle that is then dropped is balanced. */
  lemma FilledBalanced(h0: map<BlockId, nat>, x: ChannelData, h1: map<BlockId, nat>, rest: seq<ChannelData>)
    requires Held(h0, [x] + rest) && x.block in h0
    requires h1 == h0[x.block := h0[x.block] + MAX_CHANNELS - 1]
    ensures Balanced(h0, [x], h1, seq(MAX_CHANNELS, _ => x))
    ensures Held(h1, seq(MAX_CHANNELS, _ => x) + rest) && Held(h1, seq(MAX_CHANNELS, _ => x))
  {
    RepeatedHolders(x, MAX_CHANNELS);
    assert multiset([x]) == multiset{x};
    BalancedIntro(h0, [x], h1, seq(MAX_CHANNELS, _ => x));
    BalancedKeepsOthers(h0, [x], h1, seq(MAX_CHANNELS, _ => x), rest);
    HeldParts(h1, seq(MAX_CHANNELS, _ => x), rest);
  }

  // ---------------------------------------------------------------------------------
  // Up- and down-mixing on the samples of the 32 slots

  /** The channel-count pairs the speaker interpretation handles; any other pair is a
      `todo!()`. */
  predicate SpeakersHandles(from: nat, to: nat) {
    (from == 1 && (to == 2 || to == 4 || to == 6)) || (from == 2 && to == 1)
  }

  /** What `mix` asks of its arguments besides `c < MAX_CHANNELS`. */
  predicate Mixable(count: nat, c: nat, interpretation: ChannelInterpretation) {
    count == c || interpretation == Discrete || SpeakersHandles(count, c)
  }

  /** Channel count after `mix(c, interpretation)` on a buffer of `count` channels. */
  function MixedCount(count: nat, c: nat, interpretation: ChannelInterpretation): nat
    requires Mixable(count, c, interpretation)
  {
    if count != c && interpretation == Speakers && count == 1 && c == 6 then count else c
  }

  /** Samples of the 32 slots after `mix(c, interpretation)` on a buffer of `count`
      channels whose slots hold `v`. */
  function MixedContents(v: seq<Samples>, count: nat, c: nat, interpretation: ChannelInterpretation): (w: seq<Samples>)
    requires |v| == MAX_CHANNELS && Mixable(count, c, interpretation)
    ensures |w| == MAX_CHANNELS
  {
    if count == c then v
    else if interpretation == Discrete then Silenced(v, count, c)
    else if count == 1 && c == 2 then v[1 := v[0]]
    else if count == 1 && c == 4 then v[1 := v[0]][2 := Zeros()][3 := Zeros()]
    else if count == 1 && c == 6 then v[2 := v[0]][0 := Zeros()][1 := Zeros()][3 := Zeros()][4 := Zeros()]
    else v[0 := Zipped(Mean, v[0], v[1])]
  }

  /** Samples `v` with slots `from` up to `to` silenced. */
  function Silenced(v: seq<Samples>, from: nat, to: nat): (w: seq<Samples>)
    requires |v| == MAX_CHANNELS
    ensures |w| == MAX_CHANNELS
  {
    seq(MAX_CHANNELS, k requires 0 <= k < MAX_CHANNELS => SilencedAt(v, from, to, k))
  }

  function SilencedAt(v: seq<Samples>, from: nat, to: nat, k: nat): Samples
    requires k < |v|
  {
    if from <= k < to then Zeros() else v[k]
  }

  /** Samples `v` with each of the first `n` slots mapped sample-wise by `f`: what
      `modify_channels` does with a closure that rewrites every sample through `f`. */
  function MappedChannels(v: seq<Samples>, f: real -> real, n: nat): (w: seq<Samples>)
    requires |v| == MAX_CHANNELS
    ensures |w| == MAX_CHANNELS
  {
    seq(MAX_CHANNELS, k requires 0 <= k < MAX_CHANNELS => if k < n then Mapped(v[k], f) else v[k])
  }

  lemma MappedChannelsNone(v: seq<Samples>, f: real -> real)
    requires |v| == MAX_CHANNELS
    ensures MappedChannels(v, f, 0) == v
  {
  }

  lemma MappedChannelsStep(v: seq<Samples>, f: real -> real, i: nat)
    requires |v| == MAX_CHANNELS && i < MAX_CHANNELS
    ensures MappedChannels(v, f, i)[i := Mapped(MappedChannels(v, f, i)[i], f)] == MappedChannels(v, f, i + 1)
  {
  }

  /** Samples `v` with each of the first `n` slots summed with the matching slot of `w`. */
  function Summed(v: seq<Samples>, w: seq<Samples>, n: nat): (r: seq<Samples>)
    requires |v| == MAX_CHANNELS && |w| == MAX_CHANNELS
    ensures |r| == MAX_CHANNELS
  {
    seq(MAX_CHANNELS, k requires 0 <= k < MAX_CHANNELS => if k < n then Zipped(Plus, v[k], w[k]) else v[k])
  }

  lemma SummedNone(v: seq<Samples>, w: seq<Samples>)
    requires |v| == MAX_CHANNELS && |w| == MAX_CHANNELS
    ensures Summed(v, w, 0) == v
  {
  }

  lemma SummedStep(v: seq<Samples>, w: seq<Samples>, i: nat)
    requires |v| == MAX_CHANNELS && |w| == MAX_CHANNELS && i < MAX_CHANNELS
    ensures Summed(v, w, i)[i := Zipped(Plus, Summed(v, w, i)[i], w[i])] == Summed(v, w, i + 1)
  {
  }

  function Larger(a: nat, b: nat): nat {
    if a < b then b else a
  }

  /** What `add` asks of its arguments: the larger count is a count `mix` accepts. */
  predicate Addable(count: nat, otherCount: nat, interpretation: ChannelInterpretation) {
    Larger(count, otherCount) < MAX_CHANNELS && Mixable(count, Larger(count, otherCount), interpretation)
  }

  /** Samples of the 32 slots of `add(other, interpretation)` on a buffer of `count`
      channels whose slots hold `v`, when `other` has `otherCount` channels. Both summands
      are the buffer itself mixed to the larger count: `other` contributes nothing but its
      channel count. */
  function AddedContents(v: seq<Samples>, count: nat, otherCount: nat, interpretation: ChannelInterpretation): (w: seq<Samples>)
    requires |v| == MAX_CHANNELS && Addable(count, otherCount, interpretation)
    ensures |w| == MAX_CHANNELS
  {
    var mixed := MixedContents(v, count, Larger(count, otherCount), interpretation);
    Summed(mixed, mixed, Larger(count, otherCount))
  }

  /** Mixing to the current count changes nothing. */
  lemma MixSameCountIsIdentity(v: seq<Samples>, c: nat, interpretation: ChannelInterpretation)
    requires |v| == MAX_CHANNELS
    ensures MixedCount(c, c, interpretation) == c && MixedContents(v, c, c, interpretation) == v
  {
  }

  /** The discrete interpretation keeps the channels both counts have, silences the
      channels it adds, and leaves every slot from the larger count on as it was. */
  lemma DiscreteMixKeepsOrSilences(v: seq<Samples>, count: nat, c: nat)
    requires |v| == MAX_CHANNELS
    ensures MixedCount(count, c, Discrete) == c
    ensures forall k :: 0 <= k < MAX_CHANNELS && (k < count || c <= k) ==> MixedContents(v, count, c, Discrete)[k] == v[k]
    ensures forall k :: count <= k < c && k < MAX_CHANNELS ==> MixedContents(v, count, c, Discrete)[k] == Zeros()
  {
  }

  /** Mono to stereo: both channels are the mono channel. */
  lemma UpmixStereoDuplicates(v: seq<Samples>)
    requires |v| == MAX_CHANNELS
    ensures MixedCount(1, 2, Speakers) == 2
    ensures MixedContents(v, 1, 2, Speakers)[0] == v[0] && MixedContents(v, 1, 2, Speakers)[1] == v[0]
  {
  }

  /** Mono to quad: front left and right are the mono channel, the surround pair silent. */
  lemma UpmixQuadDuplicatesAndSilences(v: seq<Samples>)
    requires |v| == MAX_CHANNELS
    ensures MixedCount(1, 4, Speakers) == 4
    ensures MixedContents(v, 1, 4, Speakers)[..4] == [v[0], v[0], Zeros(), Zeros()]
  {
  }

  /** Stereo to mono: the one channel is the mean of left and right, sample by sample. */
  lemma DownmixIsMean(v: seq<Samples>)
    requires |v| == MAX_CHANNELS
    ensures MixedCount(2, 1, Speakers) == 1
    ensures forall j :: 0 <= j < LEN ==> MixedContents(v, 2, 1, Speakers)[0][j] == (v[0][j] + v[1][j]) / 2.0
  {
  }

  /** Mono to 5.1 as written: the count stays 1, so the one visible channel is the
      silence put in slot 0, and the mono channel sits in slot 2 where no reader of the
      count looks. A second identical `mix` runs the arm again: slots 0 to 4 are all
      silence, so the mono channel is lost, and slots 5 onward are as they were. */
  lemma {:induction false} UpmixSurroundAsWritten(v: seq<Samples>)
    requires |v| == MAX_CHANNELS
    ensures MixedCount(1, 6, Speakers) == 1
    ensures MixedContents(v, 1, 6, Speakers)[0] == Zeros() && MixedContents(v, 1, 6, Speakers)[2] == v[0]
    ensures MixedContents(MixedContents(v, 1, 6, Speakers), 1, 6, Speakers)[..5] == seq(5, _ => Zeros())
    ensures MixedContents(MixedContents(v, 1, 6, Speakers), 1, 6, Speakers)[5..] == v[5..]
  {
    var w := MixedContents(v, 1, 6, Speakers);
    assert w[..5] == [Zeros(), Zeros(), v[0], Zeros(), Zeros()];
    assert MixedContents(w, 1, 6, Speakers)[..5] == [Zeros(), Zeros(), Zeros(), Zeros(), Zeros()];
  }

  /** The sum `add` returns: each channel below the larger count is the buffer's own
      mixed channel twice over, sample by sample; the slots beyond it are the mixed
      buffer's. */
  lemma AddDoublesSelf(v: seq<Samples>, count: nat, otherCount: nat, interpretation: ChannelInterpretation)
    requires |v| == MAX_CHANNELS && Addable(count, otherCount, interpretation)
    ensures var mixed := MixedContents(v, count, Larger(count, otherCount), interpretation);
      && (forall k, j :: 0 <= k < Larger(count, otherCount) && 0 <= j < LEN ==>
            AddedContents(v, count, otherCount, interpretation)[k][j] == 2.0 * mixed[k][j])
      && (forall k :: Larger(count, otherCount) <= k < MAX_CHANNELS ==>
            AddedContents(v, count, otherCount, interpretation)[k] == mixed[k])
  {
  }

  /** Adding a buffer with no more channels than this one, with the same count: every
      visible channel of the sum is the buffer's own channel doubled. */
  lemma AddOfSmallerDoubles(v: seq<Samples>, count: nat, otherCount: nat, interpretation: ChannelInterpretation)
    requires |v| == MAX_CHANNELS && count < MAX_CHANNELS && otherCount <= count
    ensures Addable(count, otherCount, interpretation)
    ensures forall k, j :: 0 <= k < count && 0 <= j < LEN ==> AddedContents(v, count, otherCount, interpretation)[k][j] == 2.0 * v[k][j]
  {
    AddDoublesSelf(v, count, otherCount, interpretation);
  }

  /** Running `modify_channels` with `f` and then with `g` is running it once with their
      composition. */
  lemma MappedChannelsCompose(v: seq<Samples>, f: real -> real, g: real -> real, n: nat)
    requires |v| == MAX_CHANNELS
    ensures MappedChannels(MappedChannels(v, f, n), g, n) == MappedChannels(v, x => g(f(x)), n)
  {
    forall k | 0 <= k < MAX_CHANNELS
      ensures MappedChannels(MappedChannels(v, f, n), g, n)[k] == MappedChannels(v, x => g(f(x)), n)[k]
    {
      if k < n {
        assert Mapped(Mapped(v[k], f), g) == Mapped(v[k], x => g(f(x)));
      }
    }
  }

  /** `modify_channels` with the identity changes no samples. */
  lemma MappedChannelsIdentity(v: seq<Samples>, n: nat)
    requires |v| == MAX_CHANNELS
    ensures MappedChannels(v, x => x, n) == v
  {
    forall k | 0 <= k < MAX_CHANNELS && k < n
      ensures Mapped(v[k], x => x) == v[k]
    {
      assert Mapped(v[k], x => x)[..] == v[k][..];
    }
  }

  /** Slots `s` with slots `from` up to `to` holding `x`. */
  ghost function Filled(s: seq<ChannelData>, x: ChannelData, from: nat, to: nat): (r: seq<ChannelData>)
    ensures |r| == |s|
  {
    seq(|s|, k requires 0 <= k < |s| => if from <= k < to then x else s[k])
  }

  lemma FilledNone(s: seq<ChannelData>, x: ChannelData, from: nat)
    ensures Filled(s, x, from, from) == s
  {
  }

  lemma FilledStep(s: seq<ChannelData>, x: ChannelData, from: nat, i: nat)
    requires from <= i < |s|
    ensures Filled(s, x, from, i)[i := x] == Filled(s, x, from, i + 1)
  {
  }

  /** Filling slots with a handle to the zero block silences them. */
  lemma FilledContents(heap: map<BlockId, Samples>, s: seq<ChannelData>, x: ChannelData, from: nat, to: nat)
    requires |s| == MAX_CHANNELS && BlockSamples(heap, x) == Zeros()
    ensures ContentsOf(heap, Filled(s, x, from, to)) == Silenced(ContentsOf(heap, s), from, to)
  {
    ContentsOfEach(heap, s);
    ContentsOfEach(heap, Filled(s, x, from, to));
  }

  /** Handle counts after slots `from` up to `hi` of `s`, one after the other, had their
      handle replaced by a clone of a handle to block `z`. */
  ghost function FilledHandles(h: map<BlockId, nat>, s: seq<ChannelData>, z: BlockId, from: nat, hi: nat): map<BlockId, nat>
    decreases hi
  {
    if hi <= from || hi > |s| then h
    else
      var p := FilledHandles(h, s, z, from, hi - 1);
      if s[hi - 1].block in p && p[s[hi - 1].block] > 0 then Moved(p, s[hi - 1].block, z) else p
  }

  /** A slot's handle is live. */
  lemma SlotLive(h: map<BlockId, nat>, s: seq<ChannelData>, i: nat)
    requires Held(h, s) && i < |s|
    ensures s[i].block in h && h[s[i].block] > 0
  {
    HeldElim(h, s);
    assert s[i] in multiset(s);
  }

  /** Filling slots one by one with clones of `x`, a handle kept in `rest`, is balanced
      and keeps every handle counted. */
  lemma {:induction false} FilledBalancedUpTo(h: map<BlockId, nat>, s: seq<ChannelData>, x: ChannelData,
                                              from: nat, hi: nat, rest: seq<ChannelData>)
    requires Held(h, s + rest) && x.block in h && from <= hi <= |s|
    ensures x.block in FilledHandles(h, s, x.block, from, hi)
    ensures Balanced(h, s, FilledHandles(h, s, x.block, from, hi), Filled(s, x, from, hi))
    ensures Held(FilledHandles(h, s, x.block, from, hi), Filled(s, x, from, hi) + rest)
    decreases hi
  {
    if hi == from {
      FilledNone(s, x, from);
      BalancedIntro(h, s, h, s);
    } else {
      FilledBalancedUpTo(h, s, x, from, hi - 1, rest);
      var p, t := FilledHandles(h, s, x.block, from, hi - 1), Filled(s, x, from, hi - 1);
      assert t[hi - 1] == s[hi - 1];
      SlotReplaced(p, t, hi - 1, x, rest);
      FilledStep(s, x, from, hi - 1);
      BalancedTrans(h, s, p, t, Moved(p, t[hi - 1].block, x.block), t[hi - 1 := x]);
    }
  }

  /** The array literal of `AudioBuffer::new`: `MAX_CHANNELS` clones of `channel`. */
  method CloneSlots(alloc: Alloc, channel: ChannelData) returns (slots: array<ChannelData>)
    requires alloc.Valid() && alloc.Live(channel.block)
    modifies alloc`handles
    ensures alloc.Valid() && fresh(slots) && slots[..] == seq(MAX_CHANNELS, _ => channel)
    ensures alloc.handles == old(alloc.handles)[channel.block := old(alloc.handles[channel.block]) + MAX_CHANNELS]
  {
    slots := new ChannelData[MAX_CHANNELS](_ => channel);
    for i := 0 to MAX_CHANNELS
      invariant alloc.Valid() && channel.block in alloc.handles
      invariant alloc.handles == old(alloc.handles)[channel.block := old(alloc.handles[channel.block]) + i]
      invariant slots[..] == seq(MAX_CHANNELS, _ => channel)
    {
      var c := alloc.Clone(channel);
      slots[i] := c;
    }
  }

  /** The handles of `s` are counted exactly as those of any rearrangement of them. */
  lemma HeldPerm(h: map<BlockId, nat>, s: seq<ChannelData>, t: seq<ChannelData>)
    requires Held(h, s) && multiset(s) == multiset(t)
    ensures Held(h, t)
  {
    HeldElim(h, s);
    forall j | 0 <= j < |t|
      ensures t[j].block in h && Holders(t, t[j].block) <= h[t[j].block]
    {
      assert t[j] in multiset(s);
      var k :| 0 <= k < |s| && s[k] == t[j];
    }
    HeldIntro(h, t);
  }

  /** Cloning the handle of slot `i` after those before it keeps every handle counted. */
  lemma {:induction false} NextCloneHeld(h: map<BlockId, nat>, s: seq<ChannelData>, i: nat, rest: seq<ChannelData>)
    requires i < |s| && Held(h, s[..i] + (s + rest))
    ensures s[i].block in h && h[s[i].block] > 0
    ensures Held(h[s[i].block := h[s[i].block] + 1], s[..i + 1] + (s + rest))
  {
    HeldParts(h, s[..i], s + rest);
    assert (s + rest)[i] == s[i];
    SlotLive(h, s + rest, i);
    LocalHandleMade(h, s[..i], s[i].block, s + rest);
    assert s[..i] + ([ChannelData(s[i].block)] + (s + rest)) == s[..i + 1] + (s + rest);
  }

  /** Dropping the handle of slot `i` after those before it keeps the remaining handles
      counted. */
  lemma {:induction false} NextDropHeld(h: map<BlockId, nat>, s: seq<ChannelData>, i: nat, rest: seq<ChannelData>)
    requires i < |s| && Held(h, s[i..] + rest)
    ensures s[i].block in h && h[s[i].block] > 0
    ensures Held(h[s[i].block := h[s[i].block] - 1], s[i + 1..] + rest)
  {
    assert s[i..] + rest == [ChannelData(s[i].block)] + (s[i + 1..] + rest);
    FrontHandleGone(h, s[i].block, s[i + 1..] + rest);
  }

  /** The handles of `s[..i]` have been dropped from the counts `h0` and the pool `p0`:
      each block has lost one handle per slot holding it, and the pool has grown, at its
      end, by exactly the blocks other than the zero block `z` whose last handle went. */
  ghost predicate DroppedPrefix(h0: map<BlockId, nat>, p0: seq<BlockId>, z: BlockId, s: seq<ChannelData>, i: nat,
                                h: map<BlockId, nat>, p: seq<BlockId>)
    requires i <= |s|
  {
    && h.Keys == h0.Keys
    && (forall b :: b in h0 ==> h[b] == h0[b] - Holders(s[..i], b))
    && |p0| <= |p| && p[..|p0|] == p0
    && (forall b :: b in p[|p0|..] <==> b in h0 && b != z && h0[b] > 0 && h[b] == 0)
  }

  /** Once every slot of `s` has been dropped, each block has lost one handle per slot
      holding it. */
  lemma DroppedWhole(h0: map<BlockId, nat>, p0: seq<BlockId>, z: BlockId, s: seq<ChannelData>,
                     h: map<BlockId, nat>, p: seq<BlockId>)
    requires DroppedPrefix(h0, p0, z, s, |s|, h, p)
    ensures forall b :: b in h0 ==> h[b] == h0[b] - Holders(s, b)
  {
    assert s[..|s|] == s;
  }

  /** The slots of `s[..i + 1]` hold one more handle to `s[i].block` than those of `s[..i]`. */
  lemma HoldersStep(s: seq<ChannelData>, i: nat, b: BlockId)
    requires i < |s|
    ensures Holders(s[..i + 1], b) == Holders(s[..i], b) + (if s[i].block == b then 1 else 0)
  {
    assert s[..i + 1] == s[..i] + [s[i]];
    assert multiset(s[..i + 1]) == multiset(s[..i]) + multiset{s[i]};
    assert s[i] == ChannelData(s[i].block);
  }

  /** Dropping the handle of slot `i` extends the dropped prefix by one slot. */
  lemma DroppedStep(h0: map<BlockId, nat>, p0: seq<BlockId>, z: BlockId, s: seq<ChannelData>, i: nat,
                    h: map<BlockId, nat>, p: seq<BlockId>, h1: map<BlockId, nat>, p1: seq<BlockId>)
    requires i < |s| && DroppedPrefix(h0, p0, z, s, i, h, p)
    requires s[i].block in h && h[s[i].block] > 0 && h1 == h[s[i].block := h[s[i].block] - 1]
    requires p1 == if h[s[i].block] == 1 && s[i].block != z then p + [s[i].block] else p
    ensures DroppedPrefix(h0, p0, z, s, i + 1, h1, p1)
  {
    var x := s[i].block;
    forall b | b in h0
      ensures h1[b] == h0[b] - Holders(s[..i + 1], b)
    {
      HoldersStep(s, i, b);
    }
    assert p1[..|p0|] == p0;
    forall b
      ensures b in p1[|p0|..] <==> b in h0 && b != z && h0[b] > 0 && h1[b] == 0
    {
      HoldersStep(s, i, b);
      if p1 != p {
        assert p1[|p0|..] == p[|p0|..] + [x];
      }
    }
  }

  /** The first of a sequence of counted handles is dropped. */
  lemma FrontHandleGone(h: map<BlockId, nat>, z: BlockId, tail: seq<ChannelData>)
    requires Held(h, [ChannelData(z)] + tail)
    ensures z in h && h[z] > 0
    ensures Held(h[z := h[z] - 1], tail)
  {
    assert [ChannelData(z)] + tail == [] + ([ChannelData(z)] + tail);
    LocalHandleGone(h, [], z, tail);
    assert [] + tail == tail;
  }

  /** Two groups of counted handles swapped. */
  lemma HeldSwap(h: map<BlockId, nat>, a: seq<ChannelData>, b: seq<ChannelData>, rest: seq<ChannelData>)
    requires Held(h, a + (b + rest))
    ensures Held(h, b + (a + rest))
  {
    assert multiset(a + (b + rest)) == multiset(a) + multiset(b) + multiset(rest);
    assert multiset(b + (a + rest)) == multiset(a) + multiset(b) + multiset(rest);
    HeldPerm(h, a + (b + rest), b + (a + rest));
  }

  /** The third of three groups of counted handles moved to the front. */
  lemma HeldRotate(h: map<BlockId, nat>, a: seq<ChannelData>, b: seq<ChannelData>, c: seq<ChannelData>, rest: seq<ChannelData>)
    requires Held(h, a + (b + (c + rest)))
    ensures Held(h, c + (a + (b + rest)))
  {
    assert multiset(a + (b + (c + rest))) == multiset(a) + multiset(b) + multiset(c) + multiset(rest);
    assert multiset(c + (a + (b + rest))) == multiset(a) + multiset(b) + multiset(c) + multiset(rest);
    HeldPerm(h, a + (b + (c + rest)), c + (a + (b + rest)));
  }

  /** Handle counts after the handles `s[..n]` were cloned one after the other. */
  ghost function CopiedHandles(h: map<BlockId, nat>, s: seq<ChannelData>, n: nat): map<BlockId, nat>
    requires n <= |s|
  {
    if n == 0 then h
    else
      var p := CopiedHandles(h, s, n - 1);
      if s[n - 1].block in p then p[s[n - 1].block := p[s[n - 1].block] + 1] else p
  }

  /** Cloning the handles of `s[..n]` adds to each block one handle per slot of `s[..n]`
      holding it, and adds no block. */
  lemma {:induction false} CopiedCounts(h: map<BlockId, nat>, s: seq<ChannelData>, n: nat)
    requires n <= |s| && forall i :: 0 <= i < n ==> s[i].block in h
    ensures CopiedHandles(h, s, n).Keys == h.Keys
    ensures forall b :: b in h ==> CopiedHandles(h, s, n)[b] == h[b] + Holders(s[..n], b)
  {
    if n == 0 {
      assert s[..0] == [];
    } else {
      CopiedCounts(h, s, n - 1);
      forall b | b in h
        ensures CopiedHandles(h, s, n)[b] == h[b] + Holders(s[..n], b)
      {
        HoldersStep(s, n - 1, b);
      }
    }
  }

  /** Cloning every handle of `s`, whose handles are counted in `h`, adds to each block
      one handle per slot holding it. */
  lemma CopiedAll(h: map<BlockId, nat>, s: seq<ChannelData>, rest: seq<ChannelData>)
    requires Held(h, s + rest)
    ensures CopiedHandles(h, s, |s|).Keys == h.Keys
    ensures forall b :: b in h ==> CopiedHandles(h, s, |s|)[b] == h[b] + Holders(s, b)
  {
    HeldElim(h, s + rest);
    assert forall i :: 0 <= i < |s| ==> s[i] == (s + rest)[i];
    CopiedCounts(h, s, |s|);
    assert s[..|s|] == s;
  }

  /** Cloning the handles of `s[..n]` keeps every handle counted, the clones included. */
  lemma {:induction false} CopiedHeld(h: map<BlockId, nat>, s: seq<ChannelData>, n: nat, rest: seq<ChannelData>)
    requires n <= |s| && Held(h, s + rest)
    ensures Held(CopiedHandles(h, s, n), s[..n] + (s + rest))
  {
    if n == 0 {
      assert s[..0] + (s + rest) == s + rest;
    } else {
      CopiedHeld(h, s, n - 1, rest);
      NextCloneHeld(CopiedHandles(h, s, n - 1), s, n - 1, rest);
    }
  }

  /** The handle of slot `i` is still live after those before it were cloned. */
  lemma CopiedLive(h: map<BlockId, nat>, s: seq<ChannelData>, i: nat, rest: seq<ChannelData>)
    requires i < |s| && Held(h, s + rest)
    ensures s[i].block in CopiedHandles(h, s, i) && CopiedHandles(h, s, i)[s[i].block] > 0
  {
    CopiedHeld(h, s, i, rest);
    NextCloneHeld(CopiedHandles(h, s, i), s, i, rest);
  }

  /** The array copy of `#[derive(Clone)]` on `AudioBuffer`: each slot's handle is
      cloned in turn. */
  method CopySlots(alloc: Alloc, src: array<ChannelData>, ghost rest: seq<ChannelData>) returns (slots: array<ChannelData>)
    requires alloc.Valid() && src.Length == MAX_CHANNELS && Held(alloc.handles, src[..] + rest)
    modifies alloc`handles
    ensures alloc.Valid() && fresh(slots) && slots[..] == src[..]
    ensures alloc.handles == CopiedHandles(old(alloc.handles), src[..], MAX_CHANNELS)
  {
    ghost var s, h0 := src[..], alloc.handles;
    slots := new ChannelData[MAX_CHANNELS](_ => ChannelData(alloc.zeroes));
    for i := 0 to MAX_CHANNELS
      invariant alloc.Valid() && forall k :: 0 <= k < i ==> slots[k] == s[k]
      invariant alloc.handles == CopiedHandles(h0, s, i)
    {
      var x := src[i];
      assert x == s[i];
      CopiedLive(h0, s, i, rest);
      var c := alloc.Clone(x);
      slots[i] := c;
    }
  }

  class AudioBuffer {
    /** The allocator every handle of the buffer belongs to. */
    const alloc: Alloc
    /** The channel slots (`[ChannelData; MAX_CHANNELS]`). */
    const channels: array<ChannelData>
    /** `channel_count`: the first `channelCount` slots are the buffer's channels. */
    var channelCount: nat

    /** Every slot holds a live, counted handle. */
    ghost predicate Valid()
      reads this, channels, alloc
    {
      && channels.Length == MAX_CHANNELS && channelCount <= MAX_CHANNELS
      && alloc.Valid() && Held(alloc.handles, channels[..])
    }

    /** The samples of every slot. */
    ghost function Contents(): seq<Samples>
      reads this, channels, alloc
    {
      ContentsOf(alloc.heap, channels[..])
    }

    /** `AudioBuffer::new`: every slot gets a clone of `channel`, which is consumed; the
        buffer has one channel. */
    constructor (alloc: Alloc, channel: ChannelData, ghost rest: seq<ChannelData>)
      requires alloc.Valid() && Held(alloc.handles, [channel] + rest)
      modifies alloc`handles, alloc`pool, alloc`inUse
      ensures Valid() && this.alloc == alloc && fresh(channels) && channelCount == 1
      ensures channels[..] == seq(MAX_CHANNELS, _ => channel)
      ensures alloc.heap == old(alloc.heap) && alloc.pool == old(alloc.pool) && alloc.nextBlock == old(alloc.nextBlock)
      ensures Balanced(old(alloc.handles), [channel], alloc.handles, channels[..])
      ensures Held(alloc.handles, channels[..] + rest)
    {
      ghost var h0 := alloc.handles;
      assert ([channel] + rest)[0] == channel;
      var slots := CloneSlots(alloc, channel);
      alloc.Drop(channel);
      FilledBalanced(h0, channel, alloc.handles, rest);
      this.alloc := alloc;
      channels := slots;
      channelCount := 1;
    }
  
    /** `#[derive(Clone)]`: a buffer with clones of every slot of `other` and the same
        channel count. */
    constructor Copy(other: AudioBuffer, ghost rest: seq<ChannelData>)
      requires other.Valid() && Held(other.alloc.handles, other.channels[..] + rest)
      modifies other.alloc`handles
      ensures Valid() && alloc == other.alloc && fresh(channels)
      ensures channels[..] == other.channels[..] && channelCount == other.channelCount
      ensures alloc.heap == old(other.alloc.heap) && alloc.pool == old(other.alloc.pool)
      ensures alloc.nextBlock == old(other.alloc.nextBlock)
      ensures Held(alloc.handles, channels[..] + (other.channels[..] + rest))
      ensures alloc.handles.Keys == old(other.alloc.handles).Keys
      ensures forall b :: b in old(other.alloc.handles) ==>
        alloc.handles[b] == old(other.alloc.handles[b]) + Holders(other.channels[..], b)
    {
      CopiedAll(other.alloc.handles, other.channels[..], rest);
      var slots := CopySlots(other.alloc, other.channels, rest);
      CopiedHeld(old(other.alloc.handles), other.channels[..], MAX_CHANNELS, rest);
      assert other.channels[..][..MAX_CHANNELS] == other.channels[..];
      HeldParts(other.alloc.handles, slots[..], other.channels[..] + rest);
      alloc := other.alloc;
      channels := slots;
      channelCount := other.channelCount;
    }

    /** `number_of_channels`. */
    function NumberOfChannels(): nat
      reads this
    {
      channelCount
    }

    /** `set_number_of_channels`: only the count changes; slots beyond the old count become
        visible with whatever they hold. */
    method SetNumberOfChannels(n: nat)
      requires Valid() && n <= MAX_CHANNELS
      modifies this`channelCount
      ensures Valid() && NumberOfChannels() == n
    {
      channelCount := n;
    }

    /** `channel_data`: the handle in slot `i`, which need not be below the count. */
    function ChannelAt(i: nat): (h: ChannelData)
      reads this, channels, alloc
      requires Valid() && i < MAX_CHANNELS
      ensures alloc.Live(h.block)
    {
      SlotLive(alloc.handles, channels[..], i);
      channels[i]
    }

    /** Slot `i` is overwritten with `h`, without dropping the handle it held. */
    method Store(i: nat, h: ChannelData)
      requires i < channels.Length
      modifies channels
      ensures channels[..] == old(channels[..])[i := h]
    {
      channels[i] := h;
    }

    /** `self.channels[i] = src.clone()`: the clone is made, then the handle that was in the
        slot is dropped (returning its block to the pool if it was the last one). */
    method PutClone(i: nat, src: ChannelData, ghost rest: seq<ChannelData>)
      requires Valid() && i < MAX_CHANNELS && alloc.Live(src.block)
      requires Held(alloc.handles, channels[..] + rest)
      modifies channels, alloc`pool, alloc`handles, alloc`inUse
      ensures Valid() && channels[..] == old(channels[..])[i := src]
      ensures alloc.heap == old(alloc.heap) && alloc.nextBlock == old(alloc.nextBlock)
      ensures old(channels[i].block) in old(alloc.handles) && old(alloc.handles[channels[i].block]) > 0
      ensures alloc.handles == Moved(old(alloc.handles), old(channels[i].block), src.block)
      ensures Held(alloc.handles, channels[..] + rest)
    {
      SlotReplaced(alloc.handles, channels[..], i, src, rest);
      var c := alloc.Replace(channels[i], src);
      channels[i] := c;
    }

    /** `make_silent`: one channel, a handle to the zero block in slot 0. */
    method MakeSilent(ghost rest: seq<ChannelData>)
      requires Valid() && Held(alloc.handles, channels[..] + rest)
      modifies this`channelCount, channels, alloc`pool, alloc`handles, alloc`inUse
      ensures Valid() && NumberOfChannels() == 1
      ensures channels[..] == old(channels[..])[0 := ChannelData(alloc.zeroes)] && alloc.IsSilent(channels[0])
      ensures Contents() == old(Contents())[0 := Zeros()]
      ensures alloc.heap == old(alloc.heap) && alloc.nextBlock == old(alloc.nextBlock)
      ensures old(channels[0].block) in old(alloc.handles) && old(alloc.handles[channels[0].block]) > 0
      ensures alloc.handles == Moved(old(alloc.handles), old(channels[0].block), alloc.zeroes)
      ensures Held(alloc.handles, channels[..] + rest)
    {
      SlotReplaced(alloc.handles, channels[..], 0, ChannelData(alloc.zeroes), rest);
      ContentsReplaced(alloc.heap, channels[..], 0, ChannelData(alloc.zeroes));
      channelCount := 1;
      var silence := alloc.ReplaceBySilence(channels[0]);
      channels[0] := silence;
    }

    /** The discrete path of `mix`: slots `from` up to `hi` receive clones of `silence`. */
    method FillSilence(from: nat, hi: nat, silence: ChannelData, ghost rest: seq<ChannelData>)
      requires Valid() && from <= hi <= MAX_CHANNELS && silence == ChannelData(alloc.zeroes)
      requires rest != [] && rest[0] == silence && Held(alloc.handles, channels[..] + rest)
      modifies channels, alloc`pool, alloc`handles, alloc`inUse
      ensures Valid() && channels[..] == Filled(old(channels[..]), silence, from, hi)
      ensures alloc.heap == old(alloc.heap) && alloc.nextBlock == old(alloc.nextBlock)
      ensures alloc.handles == FilledHandles(old(alloc.handles), old(channels[..]), alloc.zeroes, from, hi)
      ensures Held(alloc.handles, channels[..] + rest)
    {
      ghost var h0, s0 := alloc.handles, channels[..];
      FilledNone(s0, silence, from);
      for i := from to hi
        invariant Valid() && Held(alloc.handles, channels[..] + rest)
        invariant alloc.heap == old(alloc.heap) && alloc.nextBlock == old(alloc.nextBlock)
        invariant alloc.handles == FilledHandles(h0, s0, silence.block, from, i)
        invariant channels[..] == Filled(s0, silence, from, i)
      {
        FirstOfRestLive(alloc.handles, channels[..], rest);
        assert channels[..][i] == s0[i];
        PutClone(i, silence, rest);
        FilledStep(s0, silence, from, i);
      }
    }

    /** The closure of `modify_channels` on slot `i`: the slot's handle is dereferenced
        mutably (copied first if shared) and every sample is rewritten through `f`. */
    method MapSlot(i: nat, f: real -> real, ghost rest: seq<ChannelData>)
      requires Valid() && i < MAX_CHANNELS && Held(alloc.handles, channels[..] + rest)
      modifies channels, alloc`pool, alloc`heap, alloc`nextBlock, alloc`handles, alloc`inUse
      ensures Valid()
      ensures ContentsOf(alloc.heap, channels[..])
           == ContentsOf(old(alloc.heap), old(channels[..]))[i := Mapped(ContentsOf(old(alloc.heap), old(channels[..]))[i], f)]
      ensures Held(alloc.handles, channels[..] + rest) && Untouched(old(alloc.heap), alloc.heap, rest)
    {
      ghost var s, heap0, h0 := channels[..], alloc.heap, alloc.handles;
      ghost var all := s + rest;
      assert all[i] == s[i] == channels[i];
      SlotLive(h0, all, i);
      var m := alloc.MapSamples(channels[i], f);
      SlotRewritten(h0, all, i, m);
      MappedContents(heap0, s, rest, i, m, alloc.heap[m.block], f);
      ConcatUpdate(s, rest, i, m);
      Store(i, m);
      HeldParts(alloc.handles, channels[..], rest);
    }

    /** `modify_channels`: the closure, here a sample-wise map `f`, is run on each of the
        first `channel_count` slots in turn. Slots beyond the count, and every handle kept
        elsewhere, see the samples they saw, even where they shared a block with a
        rewritten slot. */
    method ModifyChannels(f: real -> real, ghost rest: seq<ChannelData>)
      requires Valid() && Held(alloc.handles, channels[..] + rest)
      modifies channels, alloc`pool, alloc`heap, alloc`nextBlock, alloc`handles, alloc`inUse
      ensures Valid()
      ensures ContentsOf(alloc.heap, channels[..]) == MappedChannels(ContentsOf(old(alloc.heap), old(channels[..])), f, channelCount)
      ensures Held(alloc.handles, channels[..] + rest) && Untouched(old(alloc.heap), alloc.heap, rest)
    {
      ghost var v0 := ContentsOf(alloc.heap, channels[..]);
      MappedChannelsNone(v0, f);
      for i := 0 to channelCount
        invariant Valid() && Held(alloc.handles, channels[..] + rest)
        invariant ContentsOf(alloc.heap, channels[..]) == MappedChannels(v0, f, i)
        invariant Untouched(old(alloc.heap), alloc.heap, rest)
      {
        MapSlot(i, f, rest);
        MappedChannelsStep(v0, f, i);
      }
    }

    /** `s.add(o)` on slot `i` (`ChannelData::add`), where `o` is `others[j]`: the slot's
        samples become the sample-wise sum of its own and those seen through `o`. */
    method AddSlot(i: nat, o: ChannelData, ghost j: nat, ghost others: seq<ChannelData>)
      requires Valid() && i < MAX_CHANNELS && j < |others| && others[j] == o
      requires Held(alloc.handles, channels[..] + others)
      modifies channels, alloc`pool, alloc`heap, alloc`nextBlock, alloc`handles, alloc`inUse
      ensures Valid()
      ensures ContentsOf(alloc.heap, channels[..])
           == ContentsOf(old(alloc.heap), old(channels[..]))
                [i := Zipped(Plus, ContentsOf(old(alloc.heap), old(channels[..]))[i], BlockSamples(old(alloc.heap), o))]
      ensures Held(alloc.handles, channels[..] + others) && Untouched(old(alloc.heap), alloc.heap, others)
    {
      ghost var s, heap0, h0 := channels[..], alloc.heap, alloc.handles;
      ghost var all := s + others;
      assert all[i] == s[i] == channels[i] && all[|s| + j] == o;
      if channels[i].block == o.block {
        SharedHeld(h0, all, i, |s| + j);
      }
      SlotLive(h0, all, i);
      SlotLive(h0, all, |s| + j);
      var r := alloc.AddChannel(channels[i], o);
      SlotSummed(h0, heap0, alloc.handles, alloc.heap, s, others, i, j, r);
      Store(i, r);
      HeldParts(alloc.handles, channels[..], others);
    }

    /** The zip loop of `add`: slot `i` of this buffer, for each `i` below `n`, is summed
        with slot `i` of `o`. */
    method SumSlots(n: nat, o: AudioBuffer, ghost rest: seq<ChannelData>)
      requires Valid() && n <= MAX_CHANNELS && o.channels.Length == MAX_CHANNELS && o.channels != channels
      requires Held(alloc.handles, channels[..] + (o.channels[..] + rest))
      modifies channels, alloc`pool, alloc`heap, alloc`nextBlock, alloc`handles, alloc`inUse
      ensures Valid()
      ensures ContentsOf(alloc.heap, channels[..])
           == Summed(ContentsOf(old(alloc.heap), old(channels[..])), ContentsOf(old(alloc.heap), o.channels[..]), n)
      ensures Held(alloc.handles, channels[..] + (o.channels[..] + rest))
      ensures Untouched(old(alloc.heap), alloc.heap, o.channels[..] + rest)
    {
      ghost var others := o.channels[..] + rest;
      ghost var v, w := ContentsOf(alloc.heap, channels[..]), ContentsOf(alloc.heap, o.channels[..]);
      SummedNone(v, w);
      for i := 0 to n
        invariant Valid() && Held(alloc.handles, channels[..] + others)
        invariant ContentsOf(alloc.heap, channels[..]) == Summed(v, w, i)
        invariant Untouched(old(alloc.heap), alloc.heap, others)
      {
        UntouchedParts(old(alloc.heap), alloc.heap, o.channels[..], rest);
        ContentsAt(alloc.heap, o.channels[..], i);
        assert others[i] == o.channels[i];
        AddSlot(i, o.channels[i], i, others);
        SummedStep(v, w, i);
      }
    }

    /** The `(1, 2)` arm of `mix`: slot 1 gets a clone of slot 0. */
    method UpmixStereo(ghost rest: seq<ChannelData>)
      requires Valid() && channelCount == 1 && Held(alloc.handles, channels[..] + rest)
      modifies this`channelCount, channels, alloc`pool, alloc`handles, alloc`inUse
      ensures Valid() && channelCount == 2
      ensures ContentsOf(alloc.heap, channels[..]) == ContentsOf(old(alloc.heap), old(channels[..]))[1 := ContentsOf(old(alloc.heap), old(channels[..]))[0]]
      ensures alloc.heap == old(alloc.heap) && alloc.nextBlock == old(alloc.nextBlock)
      ensures Held(alloc.handles, channels[..] + rest)
    {
      assert channels[..][0] == channels[0];
      SlotLive(alloc.handles, channels[..], 0);
      ContentsOfEach(alloc.heap, channels[..]);
      ContentsReplaced(alloc.heap, channels[..], 1, channels[0]);
      channelCount := 2;
      PutClone(1, channels[0], rest);
    }

    /** The `(1, 4)` arm of `mix`: slot 1 gets a clone of slot 0, slots 2 and 3 clones of
        `silence`. */
    method UpmixQuad(silence: ChannelData, ghost rest: seq<ChannelData>)
      requires Valid() && channelCount == 1 && silence == ChannelData(alloc.zeroes)
      requires rest != [] && rest[0] == silence && Held(alloc.handles, channels[..] + rest)
      modifies this`channelCount, channels, alloc`pool, alloc`handles, alloc`inUse
      ensures Valid() && channelCount == 4
      ensures ContentsOf(alloc.heap, channels[..])
           == ContentsOf(old(alloc.heap), old(channels[..]))[1 := ContentsOf(old(alloc.heap), old(channels[..]))[0]][2 := Zeros()][3 := Zeros()]
      ensures alloc.heap == old(alloc.heap) && alloc.nextBlock == old(alloc.nextBlock)
      ensures Held(alloc.handles, channels[..] + rest)
    {
      ghost var s := channels[..];
      assert s[0] == channels[0];
      SlotLive(alloc.handles, s, 0);
      FirstOfRestLive(alloc.handles, s, rest);
      channelCount := 4;
      PutClone(1, channels[0], rest);
      FirstOfRestLive(alloc.handles, channels[..], rest);
      PutClone(2, silence, rest);
      FirstOfRestLive(alloc.handles, channels[..], rest);
      PutClone(3, silence, rest);
      assert channels[..] == s[1 := s[0]][2 := silence][3 := silence];
      QuadContents(alloc.heap, s, silence);
    }

    /** The `(1, 6)` arm of `mix`: slot 2 gets a clone of slot 0, slots 0, 1, 3 and 4 clones
        of `silence`; the channel count is left as it was. */
    method UpmixSurround(silence: ChannelData, ghost rest: seq<ChannelData>)
      requires Valid() && channelCount == 1 && silence == ChannelData(alloc.zeroes)
      requires rest != [] && rest[0] == silence && Held(alloc.handles, channels[..] + rest)
      modifies channels, alloc`pool, alloc`handles, alloc`inUse
      ensures Valid() && channelCount == 1
      ensures ContentsOf(alloc.heap, channels[..])
           == ContentsOf(old(alloc.heap), old(channels[..]))[2 := ContentsOf(old(alloc.heap), old(channels[..]))[0]]
                [0 := Zeros()][1 := Zeros()][3 := Zeros()][4 := Zeros()]
      ensures alloc.heap == old(alloc.heap) && alloc.nextBlock == old(alloc.nextBlock)
      ensures Held(alloc.handles, channels[..] + rest)
    {
      ghost var s := channels[..];
      assert s[0] == channels[0];
      SlotLive(alloc.handles, s, 0);
      FirstOfRestLive(alloc.handles, s, rest);
      PutClone(2, channels[0], rest);
      SilenceSurround(silence, rest);
      assert channels[..] == s[2 := s[0]][0 := silence][1 := silence][3 := silence][4 := silence];
      SurroundContents(alloc.heap, s, silence);
    }

    /** Slots 0, 1, 3 and 4 of the `(1, 6)` arm: each gets a clone of `silence`. */
    method SilenceSurround(silence: ChannelData, ghost rest: seq<ChannelData>)
      requires Valid() && rest != [] && rest[0] == silence && Held(alloc.handles, channels[..] + rest)
      modifies channels, alloc`pool, alloc`handles, alloc`inUse
      ensures Valid() && channels[..] == old(channels[..])[0 := silence][1 := silence][3 := silence][4 := silence]
      ensures alloc.heap == old(alloc.heap) && alloc.nextBlock == old(alloc.nextBlock)
      ensures Held(alloc.handles, channels[..] + rest)
    {
      FirstOfRestLive(alloc.handles, channels[..], rest);
      PutClone(0, silence, rest);
      FirstOfRestLive(alloc.handles, channels[..], rest);
      PutClone(1, silence, rest);
      FirstOfRestLive(alloc.handles, channels[..], rest);
      PutClone(3, silence, rest);
      FirstOfRestLive(alloc.handles, channels[..], rest);
      PutClone(4, silence, rest);
    }

    /** The loop of the `(2, 1)` arm of `mix`: slot 0 is written (copied first if shared)
        with the mean of itself and `right`, a handle to the block of slot 1. */
    method MeanIntoFirst(right: ChannelData, ghost others: seq<ChannelData>)
      requires Valid() && others != [] && others[0] == right && right == channels[1]
      requires Held(alloc.handles, channels[..] + others)
      modifies channels, alloc`pool, alloc`heap, alloc`nextBlock, alloc`handles, alloc`inUse
      ensures Valid()
      ensures ContentsOf(alloc.heap, channels[..])
           == ContentsOf(old(alloc.heap), old(channels[..]))
                [0 := Zipped(Mean, ContentsOf(old(alloc.heap), old(channels[..]))[0], ContentsOf(old(alloc.heap), old(channels[..]))[1])]
      ensures Held(alloc.handles, channels[..] + others) && Untouched(old(alloc.heap), alloc.heap, others)
    {
      ghost var s, heap0, h1 := channels[..], alloc.heap, alloc.handles;
      ghost var all := s + others;
      assert all[0] == s[0] == channels[0] && all[|s|] == right == s[1];
      if channels[0].block == right.block {
        TwoHolders(all, 0, |s|);
      }
      SlotLive(h1, all, 0);
      SlotLive(h1, all, |s|);
      var m := alloc.CombineSamples(Mean, channels[0], right);
      MeanRewritten(h1, heap0, s, others, m, alloc.heap[m.block]);
      Store(0, m);
    }

    /** The `(2, 1)` arm of `mix`: `right`, a clone of slot 1, is made, the count becomes 1,
        slot 0 gets the mean of both channels, and `right` is dropped. */
    method DownmixMono(ghost rest: seq<ChannelData>)
      requires Valid() && channelCount == 2 && Held(alloc.handles, channels[..] + rest)
      modifies this`channelCount, channels, alloc`pool, alloc`heap, alloc`nextBlock, alloc`handles, alloc`inUse
      ensures Valid() && channelCount == 1
      ensures ContentsOf(alloc.heap, channels[..])
           == ContentsOf(old(alloc.heap), old(channels[..]))
                [0 := Zipped(Mean, ContentsOf(old(alloc.heap), old(channels[..]))[0], ContentsOf(old(alloc.heap), old(channels[..]))[1])]
      ensures Held(alloc.handles, channels[..] + rest) && Untouched(old(alloc.heap), alloc.heap, rest)
    {
      ghost var heap0 := alloc.heap;
      assert channels[..][1] == channels[1];
      SlotLive(alloc.handles, channels[..], 1);
      LocalHandleMade(alloc.handles, channels[..], channels[1].block, rest);
      var right := alloc.Clone(channels[1]);
      HeldParts(alloc.handles, channels[..], [right] + rest);
      channelCount := 1;
      MeanIntoFirst(right, [right] + rest);
      UntouchedTail(heap0, alloc.heap, right, rest);
      DropLocal(right, rest);
    }

    /** The arms of `mix` for a count that changes, with `silence` held in `rest[0]`. */
    method MixArms(c: nat, interpretation: ChannelInterpretation, silence: ChannelData, ghost rest: seq<ChannelData>)
      requires Valid() && c < MAX_CHANNELS && channelCount != c && Mixable(channelCount, c, interpretation)
      requires silence == ChannelData(alloc.zeroes) && rest != [] && rest[0] == silence
      requires Held(alloc.handles, channels[..] + rest)
      modifies this`channelCount, channels, alloc`pool, alloc`heap, alloc`nextBlock, alloc`handles, alloc`inUse
      ensures Valid() && channelCount == MixedCount(old(channelCount), c, interpretation)
      ensures ContentsOf(alloc.heap, channels[..])
           == MixedContents(ContentsOf(old(alloc.heap), old(channels[..])), old(channelCount), c, interpretation)
      ensures Held(alloc.handles, channels[..] + rest) && Untouched(old(alloc.heap), alloc.heap, rest)
    {
      if interpretation == Discrete {
        if channelCount < c {
          ghost var s := channels[..];
          FillSilence(channelCount, c, silence, rest);
          FilledContents(alloc.heap, s, silence, old(channelCount), c);
        } else {
          assert Silenced(ContentsOf(alloc.heap, channels[..]), channelCount, c) == ContentsOf(alloc.heap, channels[..]);
        }
        channelCount := c;
      } else if channelCount == 1 && c == 2 {
        UpmixStereo(rest);
      } else if channelCount == 1 && c == 4 {
        UpmixQuad(silence, rest);
      } else if channelCount == 1 && c == 6 {
        UpmixSurround(silence, rest);
      } else {
        DownmixMono(rest);
      }
    }

    /** `mix`: up- or down-mix to `c` channels, as the interpretation says. `silence` is a
        local handle to the zero block, held from the start to the end of the call. */
    method Mix(c: nat, interpretation: ChannelInterpretation, ghost rest: seq<ChannelData>)
      requires Valid() && c < MAX_CHANNELS && Mixable(channelCount, c, interpretation)
      requires Held(alloc.handles, channels[..] + rest)
      modifies this`channelCount, channels, alloc`pool, alloc`heap, alloc`nextBlock, alloc`handles, alloc`inUse
      ensures Valid() && channelCount == MixedCount(old(channelCount), c, interpretation)
      ensures Contents() == MixedContents(old(Contents()), old(channelCount), c, interpretation)
      ensures Held(alloc.handles, channels[..] + rest) && Untouched(old(alloc.heap), alloc.heap, rest)
    {
      if channelCount == c {
        return;
      }
      ghost var heap0 := alloc.heap;
      LocalHandleMade(alloc.handles, channels[..], alloc.zeroes, rest);
      var silence := alloc.Silence();
      HeldParts(alloc.handles, channels[..], [silence] + rest);
      MixArms(c, interpretation, silence, [silence] + rest);
      UntouchedTail(heap0, alloc.heap, silence, rest);
      DropLocal(silence, rest);
    }

    /** A local handle `x` of an operation goes out of scope: its block loses one handle,
        and no samples change. */
    method DropLocal(x: ChannelData, ghost rest: seq<ChannelData>)
      requires Valid() && Held(alloc.handles, channels[..] + ([x] + rest))
      modifies alloc`pool, alloc`handles, alloc`inUse
      ensures Valid() && Held(alloc.handles, channels[..] + rest)
      ensures alloc.heap == old(alloc.heap) && alloc.nextBlock == old(alloc.nextBlock)
    {
      LocalHandleGone(alloc.handles, channels[..], x.block, rest);
      HeldParts(alloc.handles[x.block := alloc.handles[x.block] - 1], channels[..], rest);
      alloc.Drop(x);
    }

    /** Dropping the buffer: the handle of each slot, slot 0 first, is dropped, and a
        block whose last handle goes returns to the pool. */
    method Release(ghost rest: seq<ChannelData>)
      requires Valid() && Held(alloc.handles, channels[..] + rest)
      modifies alloc`pool, alloc`handles, alloc`inUse
      ensures alloc.Valid() && Held(alloc.handles, rest)
      ensures alloc.heap == old(alloc.heap) && alloc.nextBlock == old(alloc.nextBlock)
      ensures alloc.handles.Keys == old(alloc.handles).Keys
      ensures forall b :: b in old(alloc.handles) ==>
        alloc.handles[b] == old(alloc.handles[b]) - Holders(old(channels[..]), b)
      ensures |old(alloc.pool)| <= |alloc.pool| && alloc.pool[..|old(alloc.pool)|] == old(alloc.pool)
      ensures forall b :: b in alloc.pool[|old(alloc.pool)|..] <==>
        b in old(alloc.handles) && b != alloc.zeroes && old(alloc.handles[b]) > 0 && alloc.handles[b] == 0
    {
      ghost var s, h0, p0 := channels[..], alloc.handles, alloc.pool;
      assert s[0..] == s;
      assert s[..0] == [] && p0[|p0|..] == [];
      for i := 0 to MAX_CHANNELS
        invariant alloc.Valid() && Held(alloc.handles, s[i..] + rest)
        invariant DroppedPrefix(h0, p0, alloc.zeroes, s, i, alloc.handles, alloc.pool)
      {
        DropSlot(s, i, h0, p0, rest);
      }
      assert s[MAX_CHANNELS..] + rest == rest;
      DroppedWhole(h0, p0, alloc.zeroes, s, alloc.handles, alloc.pool);
    }

    /** One step of `Release`: the handle of slot `i` is dropped. */
    method DropSlot(ghost s: seq<ChannelData>, i: nat, ghost h0: map<BlockId, nat>, ghost p0: seq<BlockId>,
                    ghost rest: seq<ChannelData>)
      requires channels.Length == MAX_CHANNELS && s == channels[..] && i < MAX_CHANNELS
      requires alloc.Valid() && Held(alloc.handles, s[i..] + rest)
      requires DroppedPrefix(h0, p0, alloc.zeroes, s, i, alloc.handles, alloc.pool)
      modifies alloc`pool, alloc`handles, alloc`inUse
      ensures alloc.Valid() && Held(alloc.handles, s[i + 1..] + rest)
      ensures DroppedPrefix(h0, p0, alloc.zeroes, s, i + 1, alloc.handles, alloc.pool)
    {
      ghost var h, p := alloc.handles, alloc.pool;
      NextDropHeld(h, s, i, rest);
      var x := channels[i];
      assert x == s[i];
      assert alloc.StrongCount(x.block) == 1 <==> h[x.block] == 1 && x.block != alloc.zeroes;
      alloc.Drop(x);
      DroppedStep(h0, p0, alloc.zeroes, s, i, h, p, alloc.handles, alloc.pool);
    }

    /** `self.clone()` followed by `mix(n, interpretation)` on the clone. */
    method MixedCopy(n: nat, interpretation: ChannelInterpretation, ghost rest: seq<ChannelData>) returns (b: AudioBuffer)
      requires Valid() && n < MAX_CHANNELS && Mixable(channelCount, n, interpretation)
      requires Held(alloc.handles, channels[..] + rest)
      modifies alloc`pool, alloc`heap, alloc`nextBlock, alloc`handles, alloc`inUse
      ensures fresh(b) && fresh(b.channels) && b.alloc == alloc && b.Valid()
      ensures b.channelCount == MixedCount(channelCount, n, interpretation)
      ensures ContentsOf(alloc.heap, b.channels[..])
           == MixedContents(ContentsOf(old(alloc.heap), channels[..]), channelCount, n, interpretation)
      ensures Held(alloc.handles, b.channels[..] + (channels[..] + rest))
      ensures Untouched(old(alloc.heap), alloc.heap, channels[..] + rest)
    {
      b := new AudioBuffer.Copy(this, rest);
      b.Mix(n, interpretation, channels[..] + rest);
    }

    /** `add`: the buffer is cloned and mixed to the larger of the two channel counts, then
        cloned and mixed again, and the first clone's slots below that count are summed
        with the second's; the second clone is dropped. Neither clone is made from `other`,
        whose channel count is all the sum depends on. The buffer itself, and every handle
        kept elsewhere, see the samples they saw. */
    method Add(other: AudioBuffer, interpretation: ChannelInterpretation, ghost rest: seq<ChannelData>) returns (sum: AudioBuffer)
      requires Valid() && Addable(channelCount, other.channelCount, interpretation)
      requires Held(alloc.handles, channels[..] + rest)
      modifies alloc`pool, alloc`heap, alloc`nextBlock, alloc`handles, alloc`inUse
      ensures fresh(sum) && sum.alloc == alloc && sum.Valid() && Valid()
      ensures sum.channelCount == MixedCount(channelCount, Larger(channelCount, other.channelCount), interpretation)
      ensures ContentsOf(alloc.heap, sum.channels[..])
           == AddedContents(ContentsOf(old(alloc.heap), channels[..]), channelCount, other.channelCount, interpretation)
      ensures Untouched(old(alloc.heap), alloc.heap, channels[..] + rest)
      ensures Held(alloc.handles, sum.channels[..] + (channels[..] + rest))
    {
      var n := Larger(channelCount, other.channelCount);
      var selfMixed, otherMixed := MixTwice(n, interpretation, rest);
      selfMixed.AddMixed(n, otherMixed, channels[..] + rest);
      HeldParts(alloc.handles, selfMixed.channels[..], channels[..] + rest);
      HeldParts(alloc.handles, channels[..], rest);
      sum := selfMixed;
    }

    /** The head of `add`: two clones of the buffer, each mixed to `n` channels (line 296
        clones `self` a second time where `other` is evidently meant). */
    method MixTwice(n: nat, interpretation: ChannelInterpretation, ghost rest: seq<ChannelData>)
      returns (selfMixed: AudioBuffer, otherMixed: AudioBuffer)
      requires Valid() && n < MAX_CHANNELS && Mixable(channelCount, n, interpretation)
      requires Held(alloc.handles, channels[..] + rest)
      modifies alloc`pool, alloc`heap, alloc`nextBlock, alloc`handles, alloc`inUse
      ensures fresh(selfMixed) && fresh(selfMixed.channels) && fresh(otherMixed) && fresh(otherMixed.channels)
      ensures selfMixed.channels != otherMixed.channels
      ensures selfMixed.alloc == alloc && otherMixed.alloc == alloc && selfMixed.Valid() && otherMixed.Valid()
      ensures selfMixed.channelCount == MixedCount(channelCount, n, interpretation)
      ensures ContentsOf(alloc.heap, selfMixed.channels[..])
           == MixedContents(ContentsOf(old(alloc.heap), channels[..]), channelCount, n, interpretation)
      ensures ContentsOf(alloc.heap, otherMixed.channels[..])
           == MixedContents(ContentsOf(old(alloc.heap), channels[..]), channelCount, n, interpretation)
      ensures Untouched(old(alloc.heap), alloc.heap, channels[..] + rest)
      ensures Held(alloc.handles, selfMixed.channels[..] + (otherMixed.channels[..] + (channels[..] + rest)))
    {
      ghost var cs, heap0 := channels[..], alloc.heap;
      selfMixed := MixedCopy(n, interpretation, rest);
      ghost var ss, heap1 := selfMixed.channels[..], alloc.heap;
      HeldSwap(alloc.handles, ss, cs, rest);
      HeldParts(alloc.handles, cs, ss + rest);
      otherMixed := MixedCopy(n, interpretation, ss + rest);
      ghost var os, heap2 := otherMixed.channels[..], alloc.heap;
      UntouchedParts(heap1, heap2, cs, ss + rest);
      UntouchedParts(heap1, heap2, ss, rest);
      UntouchedParts(heap0, heap1, cs, rest);
      UntouchedJoin(heap1, heap2, cs, rest);
      HeldRotate(alloc.handles, os, cs, ss, rest);
      HeldParts(alloc.handles, ss, os + (cs + rest));
    }

    /** The tail of `add`: each of the first `n` slots is summed with the matching slot
        of `o`, then `o` goes out of scope and its handles are dropped. */
    method AddMixed(n: nat, o: AudioBuffer, ghost rest: seq<ChannelData>)
      requires Valid() && n <= MAX_CHANNELS && o.Valid() && o.alloc == alloc && o.channels != channels
      requires Held(alloc.handles, channels[..] + (o.channels[..] + rest))
      modifies channels, alloc`pool, alloc`heap, alloc`nextBlock, alloc`handles, alloc`inUse
      ensures Valid()
      ensures ContentsOf(alloc.heap, channels[..])
           == Summed(ContentsOf(old(alloc.heap), old(channels[..])), ContentsOf(old(alloc.heap), o.channels[..]), n)
      ensures Held(alloc.handles, channels[..] + rest) && Untouched(old(alloc.heap), alloc.heap, rest)
    {
      ghost var os, heap2 := o.channels[..], alloc.heap;
      SumSlots(n, o, rest);
      ghost var ss3, heap3 := channels[..], alloc.heap;
      UntouchedParts(heap2, heap3, os, rest);
      HeldSwap(alloc.handles, ss3, os, rest);
      HeldParts(alloc.handles, os, ss3 + rest);
      o.Release(ss3 + rest);
      HeldParts(alloc.handles, ss3, rest);
    }

    /** `force_mono`: only the count changes. */
    method ForceMono()
      requires Valid()
      modifies this`channelCount
      ensures Valid() && NumberOfChannels() == 1
    {
      channelCount := 1;
    }
  }
}

# web-audio-api-rs: control routing, pooled render buffers, scheduling and node rules

A model of five pieces of the `web-audio-api` crate:

- the control side of an audio context (`ConcreteBaseAudioContext`): node id allocation,
  routing of registration and connection messages to the render thread, the parked
  parameter connections and the parked audio-listener registrations;
- the pooled, copy-on-write render buffers of `src/buffer2.rs`: the block allocator with its
  free list and shared zero block, the reference-counted `ChannelData` handle, and
  `AudioBuffer` with its 32 channel slots, mixing, silencing, per-channel modification and
  summation;
- the `Scheduler` and `Controller` records of shared atomic cells;
- the `OscillatorNode`: its type encoding and type state machine, its default options, and
  the block gating, per-frame silencing and phase unrolling of its renderer;
- the `AudioDestinationNode`: channel-count validation, fixed count mode, and a renderer that
  passes its input through.

Files, one module each: `channels.dfy` (channel configuration and DOM errors),
`concrete_base.dfy`, `channel_pool.dfy` (allocator and handles), `audio_buffer.dfy`
(`AudioBuffer`), `control.dfy`, `oscillator.dfy`, `destination.dfy`.

State that the source mutates in place is a class: the context, the allocator, the buffer,
the atomic cells, the oscillator node and renderer, the destination node. The render
channel is an append-only sequence of messages. A block of samples is a sequence of 128
reals held in a heap map under a block id. The allocator counts the live handles of each
block, and `Rc::strong_count` is derived from that count. Sharing through `Arc` or `Rc` is
two objects holding the same reference. Every buffer operation states the samples each slot
sees afterwards as a function of the samples before. It also keeps every other handle
counted (`Held`) and the samples those handles see unchanged (`Untouched`).

`AudioBuffer::add` is modelled as written: line 296 clones `self`, not `other`, so `other`
contributes only its channel count and the sum is the buffer's own mixed channels doubled
(`RenderBuffer.AddDoublesSelf`). The doc comment at lines 283-285 promises a sum of the two
buffers. The `(1, 6)` arm of `mix` is also modelled as written: it never updates the channel
count (`RenderBuffer.UpmixSurroundAsWritten`).

## Model

| member | source | states |
|---|---|---|
| Channels.ChannelConfig.constructor | src/node/destination.rs:71-76 | a configuration built from options reads back exactly those options |
| Channels.ChannelConfig.SetCount | src/node/destination.rs:61 | only the count changes; mode and interpretation are kept |
| ConcreteBase.ConcreteBaseAudioContext.constructor | src/context/concrete_base.rs:117-189 | a new context is `Suspended`; the destination registration (id 0, 1 in, 1 out, explicit count = max) is the only message sent; the listener and its 9 parameters are parked; the 9 parameter connections wait in the queue; the id counter ends at the end of the listener parameter ids (the debug assertion at 183-186) |
| ConcreteBase.ConcreteBaseAudioContext.AllocateId | src/context/concrete_base.rs:82 | the returned id is the counter's old value and the counter grows by one |
| ConcreteBase.ConcreteBaseAudioContext.Submit | src/context/concrete_base.rs:93-109 | a listener or listener-parameter registration is appended to the listener queue and nothing is sent; any other is sent, followed by exactly the queued connections into that id, in order, which leave the queue |
| ConcreteBase.ConcreteBaseAudioContext.Register | src/context/concrete_base.rs:74-112 | `register` takes one fresh id and routes its registration as `Submit` says |
| ConcreteBase.RegisterTwice | src/context/concrete_base.rs:82-83 | two registrations get consecutive, hence distinct and increasing, ids |
| ConcreteBase.ConcreteBaseAudioContext.MarkNodeDropped | src/context/concrete_base.rs:192-204 | `FreeWhenFinished(id)` is sent if and only if `id` is not the destination, the listener or a listener parameter |
| ConcreteBase.ConcreteBaseAudioContext.SetState | src/context/concrete_base.rs:234-241 | `state()` returns the value last stored |
| ConcreteBase.ConcreteBaseAudioContext.ResolveQueuedControlMsgs | src/context/concrete_base.rs:268-280 | the messages sent are the queued connections into `id` in queue order; the queue keeps the others in their order |
| ConcreteBase.MatchingOnlyConnectsTo | src/context/concrete_base.rs:273-275 | every released message connects into `id` |
| ConcreteBase.RemainingHasNoConnectTo | src/context/concrete_base.rs:272-279 | no connection into `id` is left in the queue |
| ConcreteBase.FilterIsPartition | src/context/concrete_base.rs:272-279 | released and kept messages together are the old queue as a multiset: nothing lost or duplicated |
| ConcreteBase.FilterKeepsOrder | src/context/concrete_base.rs:272-279 | each queued message is either released or kept, according to its target |
| ConcreteBase.ResolveTwiceReleasesNothing | src/context/concrete_base.rs:268-280 | a second resolve of the same id releases nothing and keeps the queue |
| ConcreteBase.MatchingAppend | src/context/concrete_base.rs:272-279 | resolving a queue extended at the end releases the old matches and then the new ones |
| ConcreteBase.ConcreteBaseAudioContext.Connect | src/context/concrete_base.rs:283-297 | exactly one `ConnectNode` with the given ports is sent |
| ConcreteBase.ConcreteBaseAudioContext.QueueAudioParamConnect | src/context/concrete_base.rs:302-310 | one connection from the parameter to the node's hidden port `usize::MAX` is queued and nothing is sent |
| ConcreteBase.ConcreteBaseAudioContext.DisconnectFrom | src/context/concrete_base.rs:313-319 | exactly one `DisconnectNode` is sent |
| ConcreteBase.ConcreteBaseAudioContext.Disconnect | src/context/concrete_base.rs:322-325 | exactly one `DisconnectAll` is sent |
| ConcreteBase.ConcreteBaseAudioContext.ConnectListenerToPanner | src/context/concrete_base.rs:344-354 | nine connections are sent, listener output i to panner input i + 1 |
| ConcreteBase.ConcreteBaseAudioContext.EnsureAudioListenerPresent | src/context/concrete_base.rs:357-380 | the listener queue is emptied and its messages sent last first; if any was sent, the connections into the listener follow, then listener to destination on `usize::MAX`; with an empty queue nothing happens |
| ConcreteBase.ReversedAt | src/context/concrete_base.rs:360-362 | popping a queue empty sends its last element first and its first element last |
| ConcreteBase.EnsureListenerTwice | src/context/concrete_base.rs:357-380 | calling it twice has the effect of calling it once |
| ChannelPool.Zeros | src/buffer2.rs:20-21 | a fresh block holds 128 zeroes |
| ChannelPool.PlusZeros | src/buffer2.rs:95-101 | adding the zero block on either side changes no sample |
| ChannelPool.ZerosAreConstant | src/buffer2.rs:59 | the zero block is the constant block of zero |
| ChannelPool.ShiftedConstant | src/buffer2.rs:329 | `*v += c` on a constant block gives the constant block of the shifted value |
| ChannelPool.Alloc.WithCapacity | src/buffer2.rs:19-31 | `n` zeroed blocks in the pool, one more zero block, no handles |
| ChannelPool.Alloc.TakeBlock | src/buffer2.rs:53-61 | pops the last pooled block when there is one; otherwise a new zeroed block; the block gets its first handle |
| ChannelPool.Alloc.PushBlock | src/buffer2.rs:63-67 | the block is appended to the pool and has no handle left |
| ChannelPool.Alloc.Allocate | src/buffer2.rs:33-38 | a handle to a block no one else owns (strong count 1), from the pool when it is not empty |
| ChannelPool.Alloc.Silence | src/buffer2.rs:40-45 | a silent handle: one more reference to the zero block |
| ChannelPool.Alloc.Clone | src/buffer2.rs:70-74 | the same block, one more handle; the pool is untouched |
| ChannelPool.Alloc.Drop | src/buffer2.rs:127-134 | one handle fewer; the block returns to the pool exactly when its strong count was 1 |
| ChannelPool.Alloc.Replace | src/buffer2.rs:223 | assigning a clone into a slot: one handle moves from the old block to the source's |
| ChannelPool.Alloc.ReplaceBySilence | src/buffer2.rs:264-267 | assigning silence into a slot: one handle moves from the old block to the zero block |
| ChannelPool.Alloc.Unshare | src/buffer2.rs:78-82 | a shared handle moves to a block of its own, taken from the pool or new, holding a copy of the samples |
| ChannelPool.Alloc.MakeMut | src/buffer2.rs:77-85 | the handle ends up the sole owner of a non-zero block with the same samples; unchanged when it already was, otherwise moved to a block from the pool or a new one |
| ChannelPool.Alloc.MapSamples | src/buffer2.rs:121-124 | a write through `deref_mut`: `make_mut`, then every sample mapped |
| ChannelPool.Alloc.CombineSamples | src/buffer2.rs:99 | `make_mut`, then every sample combined with the matching sample of the other handle |
| ChannelPool.Alloc.AddChannel | src/buffer2.rs:95-101 | a silent handle becomes a clone of the other; adding a silent other changes nothing; otherwise the samples are summed in a block the handle owns alone; in every case the result sees the sample-wise sum |
| ChannelPool.PoolHoldsEveryBlockWhenNoHandles | src/buffer2.rs:342-343 | with no live handle every block but the zero block is in the pool |
| ChannelPool.TakeAndWrite | src/buffer2.rs:323-331 | test: a pooled block comes out as a whole block of zeroes and, once written, is a whole block of 1s; the pool size is 1 |
| ChannelPool.CloneAndWrite | src/buffer2.rs:334-339 | test: cloning takes nothing from the pool; writing the clone takes the last pooled block |
| ChannelPool.DropBoth | src/buffer2.rs:340-343 | test: both blocks are reclaimed; the pool size is 2 |
| ChannelPool.TakeTwo | src/buffer2.rs:346-358 | test: blocks come back from the pool dirty, every sample of one 1 and of the other 2 |
| ChannelPool.TakeBeyond | src/buffer2.rs:349-359 | test: with an empty pool a new block is allocated, every sample zero |
| ChannelPool.DropTwo | src/buffer2.rs:361-362 | test: the scope's two handles go back to the pool |
| ChannelPool.DropBeyond | src/buffer2.rs:364-370 | test: dropping the extra handle grows the pool to 3 |
| ChannelPool.FirstScope | src/buffer2.rs:321-343 | test: pool sizes 1, 1, 1, 0, 2 along the first scope; the first block taken is all zeroes, and all 1s once written |
| ChannelPool.SecondScope | src/buffer2.rs:345-370 | test: pool sizes 0 then 3; the two dirty blocks are all 1s and all 2s, the fresh block all zeroes |
| ChannelPool.ThirdScope | src/buffer2.rs:372-388 | test: a silent handle is silent and takes nothing; a mutable access takes a pooled block and zeroes it; the handle is then no longer silent and its whole block is zeroes |
| ChannelPool.PoolScenario | src/buffer2.rs:315-390 | test: the whole pool test: every asserted pool size, every asserted block compared whole, and the silence checks |
| RenderBuffer.AudioBuffer.constructor | src/buffer2.rs:143-183 | all 32 slots share the given channel's block, the count is 1; the given handle is consumed |
| RenderBuffer.AudioBuffer.Copy | src/buffer2.rs:136 | the derived clone: the same handles in a new slot array and the same count; each block's handle count grows by exactly the number of slots holding it, and no block is added; heap and pool are unchanged |
| RenderBuffer.CopySlots | src/buffer2.rs:136-138 | the copied slots equal the source slots and every handle stays counted |
| RenderBuffer.AudioBuffer.SetNumberOfChannels | src/buffer2.rs:194-197 | only the count changes |
| RenderBuffer.AudioBuffer.ChannelAt | src/buffer2.rs:200-202 | the handle of any slot is live, even beyond the count |
| RenderBuffer.AudioBuffer.PutClone | src/buffer2.rs:235 | slot `i` holds the source handle; one handle moved from the old block to the source's |
| RenderBuffer.AudioBuffer.MakeSilent | src/buffer2.rs:263-268 | one channel, slot 0 silent and its samples zero, the other slots unchanged |
| RenderBuffer.AudioBuffer.FillSilence | src/buffer2.rs:222-224 | the discrete upmix fills slots `from..hi` with the zero block |
| RenderBuffer.AudioBuffer.UpmixStereo | src/buffer2.rs:233-236 | slot 1 sees slot 0's samples, the count is 2 |
| RenderBuffer.AudioBuffer.UpmixQuad | src/buffer2.rs:237-242 | slot 1 sees slot 0's samples, slots 2 and 3 are silent, the count is 4 |
| RenderBuffer.AudioBuffer.UpmixSurround | src/buffer2.rs:243-249 | slot 2 sees slot 0's samples, slots 0, 1, 3 and 4 are silent, the count stays 1 |
| RenderBuffer.AudioBuffer.MeanIntoFirst | src/buffer2.rs:253-256 | slot 0 holds the mean of the left and right samples; every other handle sees what it saw |
| RenderBuffer.AudioBuffer.DownmixMono | src/buffer2.rs:250-257 | stereo to mono: the count is 1 and slot 0 is the mean of left and right |
| RenderBuffer.AudioBuffer.MixArms | src/buffer2.rs:217-259 | each arm of `mix` for a changing count yields `MixedCount` and `MixedContents` |
| RenderBuffer.AudioBuffer.Mix | src/buffer2.rs:210-260 | the count becomes `MixedCount` and the slots hold `MixedContents` of the old samples; other handles are kept and unchanged |
| RenderBuffer.MixedContents | src/buffer2.rs:210-260 | the samples of the 32 slots after `mix`, arm by arm |
| RenderBuffer.MixSameCountIsIdentity | src/buffer2.rs:213-215 | mixing to the current count changes nothing |
| RenderBuffer.DiscreteMixKeepsOrSilences | src/buffer2.rs:220-230 | discrete mixing keeps the shared channels, silences the added ones, and sets the count |
| RenderBuffer.UpmixStereoDuplicates | src/buffer2.rs:233-236 | mono to stereo: both channels are the mono channel |
| RenderBuffer.UpmixQuadDuplicatesAndSilences | src/buffer2.rs:237-242 | mono to quad: the front pair is the mono channel, the surround pair silent |
| RenderBuffer.DownmixIsMean | src/buffer2.rs:250-257 | stereo to mono: each sample is (left + right) / 2 |
| RenderBuffer.UpmixSurroundAsWritten | src/buffer2.rs:243-249 | mono to 5.1 keeps count 1 with a silent slot 0 and the mono channel in slot 2; a second identical mix leaves slots 0-4 silent, losing the mono channel, and slots 5 onward unchanged |
| RenderBuffer.AudioBuffer.ForceMono | src/buffer2.rs:271-273 | the count becomes 1 and no slot changes |
| RenderBuffer.AudioBuffer.MapSlot | src/buffer2.rs:277-280 | slot `i` sees its samples mapped by the closure, with copy-on-write; other handles unchanged |
| RenderBuffer.AudioBuffer.ModifyChannels | src/buffer2.rs:276-281 | the first `channel_count` slots are mapped sample-wise and the rest are unchanged |
| RenderBuffer.MappedChannelsCompose | src/buffer2.rs:276-281 | two `modify_channels` calls equal one with the composed closure |
| RenderBuffer.MappedChannelsIdentity | src/buffer2.rs:276-281 | `modify_channels` with the identity changes no samples |
| RenderBuffer.AudioBuffer.AddSlot | src/buffer2.rs:304 | slot `i` sees the sample-wise sum of its samples and the other handle's |
| RenderBuffer.AudioBuffer.SumSlots | src/buffer2.rs:299-304 | the first `n` slots are summed with the other buffer's; the rest are unchanged |
| RenderBuffer.AudioBuffer.Release | src/buffer2.rs:127-134 | dropping a buffer lowers each block's handle count by the number of slots holding it; the pool keeps its blocks and gains exactly the blocks, other than the zero block, whose last handle went; all other handles stay counted and no samples change |
| RenderBuffer.AudioBuffer.MixedCopy | src/buffer2.rs:293-297 | a clone mixed to `n` channels, leaving the original's samples untouched |
| RenderBuffer.AudioBuffer.MixTwice | src/buffer2.rs:293-297 | two mixed clones of the buffer, each holding `MixedContents` of the buffer's samples, the buffer's own samples untouched |
| RenderBuffer.AudioBuffer.AddMixed | src/buffer2.rs:299-306 | the first `n` slots hold the sample-wise sums with the other mixed clone, which is then dropped; other handles are kept and unchanged |
| RenderBuffer.AudioBuffer.Add | src/buffer2.rs:287-307 | the sum has the mixed count and `AddedContents`; the buffer's own samples are unchanged |
| RenderBuffer.AddDoublesSelf | src/buffer2.rs:293-304 | each summed channel is twice the buffer's own mixed channel, because line 296 clones `self` |
| RenderBuffer.AddOfSmallerDoubles | src/buffer2.rs:287-307 | when `other` has no more channels, the sum doubles the buffer's visible channels |
| Control.Scheduler.constructor | src/control.rs:17-22 | start and stop are unscheduled (`f64::MAX`), in two distinct cells |
| Control.Scheduler.Clone | src/control.rs:9-13 | a clone shares both cells |
| Control.Scheduler.StartAt | src/control.rs:30-34 | `get_start_at` returns the stored time; the stop time is kept |
| Control.Scheduler.StopAt | src/control.rs:41-45 | `get_stop_at` returns the stored time; the start time is kept |
| Control.DefaultSettings | src/control.rs:66-75 | no loop, loop start 0; loop end, offset, duration, start and stop all `f64::MAX` |
| Control.Controller.constructor | src/control.rs:66-75 | a new controller reads back the default settings, each in its own cell |
| Control.Controller.Clone | src/control.rs:54-62 | a clone shares the scheduler and every cell |
| Control.Controller.SetLoop | src/control.rs:85-87 | only `loop_` changes |
| Control.Controller.SetLoopStart | src/control.rs:93-95 | only `loop_start` changes |
| Control.Controller.SetLoopEnd | src/control.rs:101-103 | only `loop_end` changes |
| Control.Controller.SetOffset | src/control.rs:109-111 | only `offset` changes |
| Control.Controller.SetDuration | src/control.rs:117-119 | only `duration` changes |
| Control.Controller.StartAt | src/control.rs:30-34 | through the shared scheduler only the start time changes |
| Control.Controller.StopAt | src/control.rs:41-45 | through the shared scheduler only the stop time changes |
| Control.LoopStartSeenThroughClone | src/control.rs:54-62 | a loop start set through a clone is read through the original; everything else keeps its default (the unit test at 133-139 checks those defaults) |
| Control.StartSeenThroughClone | src/control.rs:9-34 | a start time set through a scheduler clone is read through the original; the stop stays unscheduled |
| Oscillator.Encode | src/node/oscillator.rs:52-64 | every type's `u32` code is at most 4 |
| Oscillator.Decode | src/node/oscillator.rs:72-83 | `From<u32>` inverts the encoding on 0..4 |
| Oscillator.DecodeEncode | src/node/oscillator.rs:72-83 | decoding a type's code gives the type back |
| Oscillator.EncodeInjective | src/node/oscillator.rs:52-83 | two types share a code if and only if they are equal |
| Oscillator.DefaultType | src/node/oscillator.rs:66-70 | the default type is `Sine`, code 0 |
| Oscillator.DefaultOptions | src/node/oscillator.rs:39-49 | sine, 440 Hz, detune 0, no periodic wave |
| Oscillator.CustomIsSticky | src/node/oscillator.rs:287-293 | after an accepted `set_type` the type is custom if and only if it was custom before |
| Oscillator.SetTypeIdempotent | src/node/oscillator.rs:281-294 | repeating a `set_type` changes nothing more |
| Oscillator.OscillatorNode.Fields | src/node/oscillator.rs:211-236 | the node stores the type's code in a new shared cell, and the frequency and detune values given |
| Oscillator.OscillatorNode.SetType | src/node/oscillator.rs:281-294 | asking for `Custom` fails with `InvalidStateError` and changes nothing; otherwise the type is kept if custom and replaced if not |
| Oscillator.OscillatorNode.SetPeriodicWave | src/node/oscillator.rs:300-306 | the type becomes custom and the wave is sent to the renderer |
| Oscillator.OscillatorNode.NumberOfInputs | src/node/oscillator.rs:140-143 | a source has no input |
| Oscillator.OscillatorNode.NumberOfOutputs | src/node/oscillator.rs:145-148 | one output |
| Oscillator.NewOscillator | src/node/oscillator.rs:177-264 | node and renderer share the type cell, the scheduler's cells and the channel; phase 0, not started; with a periodic wave the type is custom and the wave is waiting in the channel |
| Oscillator.SetTypeIgnoredWhenCustom | src/node/oscillator.rs:606-625 | test: an oscillator built with a periodic wave stays custom after `set_type(Sine)` |
| Oscillator.EffectiveStart | src/node/oscillator.rs:376-378 | once the oscillator has rendered, the start is the scheduled start; before that it is the later of the scheduled start and the block start |
| Oscillator.LateStartPlaysAtOnce | src/node/oscillator.rs:370-378 | a start in the past makes the block's first frame audible unless already stopped |
| Oscillator.GateMonotone | src/node/oscillator.rs:353-362 | a node pending in a block was pending in every earlier block; a node stopped in a block stays stopped in every later block |
| Oscillator.OscillatorRenderer.ReceiveWave | src/node/oscillator.rs:344-346 | a wave waiting in the channel replaces the renderer's wave and leaves the channel |
| Oscillator.OscillatorRenderer.RenderFrames | src/node/oscillator.rs:380-426 | every frame outside the window from start (inclusive) to stop (exclusive) is 0; the renderer is started if and only if it was already started or some frame is audible; with increments in [0, 1) the phase stays in [0, 1), including after the partial-frame adjustment at the first rendered frame; for a renderer that had already started, each audible frame is the waveform at the phase reached by advancing over the audible frames before it, and the final phase is the one reached after all of them |
| Oscillator.OscillatorRenderer.AudibleFrame | src/node/oscillator.rs:392-421 | an audible frame leaves the renderer started; once started, the sample is the waveform at the current phase and the phase advances by one increment, unrolled; with an increment in [0, 1) the phase stays in [0, 1) |
| Oscillator.OscillatorRenderer.Process | src/node/oscillator.rs:331-429 | start at or after the block end gives silence and keep-alive; stop before the block start gives silence and release; otherwise a mono block silenced outside the window, with the start clamped as above, and for a renderer that had already started, each audible frame is the waveform of the type in the shared cell at the phase reached over the earlier audible frames |
| Oscillator.FirstFrameRatio | src/node/oscillator.rs:393-400 | at the first rendered frame less than one frame has passed since the start, so the ratio is in [0, 1) |
| Oscillator.UnrollPhase | src/node/oscillator.rs:518-525 | one period is subtracted exactly when the phase is at least one period |
| Oscillator.UnrollPhaseInRange | src/node/oscillator.rs:518-525 | a phase in [0, 2) unrolls into [0, 1) |
| Destination.ChannelCountCheckSound | src/node/destination.rs:51-62 | a count is accepted if and only if it is at most the maximum and, offline, equal to it; offline with another count gives NotSupportedError; otherwise above the maximum gives IndexSizeError |
| Destination.AudioDestinationNode.constructor | src/node/destination.rs:69-85 | the given count, `Explicit` mode, `Speakers` interpretation |
| Destination.AudioDestinationNode.SetChannelCount | src/node/destination.rs:51-62 | the verdict is `ChannelCountCheck` (offline check first); only an accepted count is stored |
| Destination.OfflineCountStaysAtMaximum | src/node/destination.rs:52-61 | on an offline context the count can only be set to the maximum |
| Destination.AudioDestinationNode.SetChannelCountMode | src/node/destination.rs:63-65 | always rejected with InvalidStateError |
| Destination.AudioDestinationNode.NumberOfInputs | src/node/destination.rs:44-46 | one input |
| Destination.AudioDestinationNode.NumberOfOutputs | src/node/destination.rs:47-49 | one output |
| Destination.Process | src/node/destination.rs:24-31 | the output equals the input and the renderer stays alive |

## Left out

- Threads, mutexes, atomics and memory orderings: the model is sequential. The crossbeam channels are sequences: an append-only log for the render channel and a queue for the periodic-wave channel, whose bound of 1 is not modelled.
- ConcreteBase.ConcreteBaseAudioContext.AllocateId: the `AtomicU64` counter, whose `fetch_add` wraps around at 2^64, is an unbounded natural number here, so the wrap-around (and the id reuse it would cause) is not modelled.
- `f32` and `f64` arithmetic: samples, times and phases are reals. Rounding, NaN and the accumulated rounding of `current_time += dt` are not modelled; the time of frame `k` is `current_time + k * dt` exactly.
- The node closures passed to `register`, the render graph, `AudioParam` objects and their automation (`pass_audio_param_event`), `sample_rate`, `current_time`, `listener()` and `destination_channel_config`: these reach into code that is not part of this model. A registration carries the port counts and the channel configuration only.
- The message types are declared in src/message.rs, which is not part of this model; only the variants this file sends are modelled.
- `ChannelData::deref`, `channel_data_mut` and `number_of_channels` are accessors; writes through them are modelled only as the whole-block maps and zips the buffer code performs.
- RenderBuffer.AudioBuffer.ModifyChannels: the closure is modelled as a sample-wise map `f`; closures that do anything else to a handle are not modelled.
- RenderBuffer.AudioBuffer.Release: the order in which the freed blocks are appended to the pool is not stated, only which blocks are appended.
- RenderBuffer.AudioBuffer.Mix, RenderBuffer.AudioBuffer.Add: they state the new samples, that other handles stay counted (`Held`, a lower bound per block) and the samples those see (`Untouched`). They do not state that no pooled block is lost, which is stated only for construction, `PutClone` and `FillSilence`.
- RenderBuffer.AudioBuffer.Add: the sum of `self` and `other` promised by the doc comment at src/buffer2.rs:283-285 is not what line 296 computes; the model follows the code.
- The `todo!()` of `mix` for an unlisted pair of counts, the `assert!`s on channel counts, and `unreachable!()` in `From<u32>` are preconditions.
- The waveform kernels of the oscillator (`generate_sine`, `generate_sawtooth`, `generate_square`, `generate_triangle`, `generate_custom`, the PolyBLEP corrections and the wavetables), `PeriodicWave` construction, and the computed frequency `frequency * 2^(detune / 1200)`: `Process` takes each frame's phase increment and the waveform as parameters. The `wave` parameter sees only the type, the phase and the increment: the renderer's periodic wave, which `generate_custom` reads (src/node/oscillator.rs:479-481), is received and stored but no sample is stated to depend on it.
- Oscillator.OscillatorRenderer.RenderFrames: the phase stays in [0, 1) only for increments in [0, 1). A negative frequency (down to minus Nyquist) leaves the phase negative, because `unroll_phase` only handles phases of one period or more.
- The channel configuration options of the oscillator (declared in src/node/mod.rs, which is not part of this model).
- `set_type(Custom)` and the destination setters panic in the source; here they return a `Fail` outcome carrying the named DOM error and leave the state as it was.
- Destination: the context is reduced to its `offline` flag and maximum channel count, fixed at construction. A render quantum is a sequence of channel sample sequences, and the copy of `input.clone()` is a value copy.

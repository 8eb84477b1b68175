/** `OscillatorNode` of src/node/oscillator.rs: the waveform type and its `u32` encoding,
    the default options, the type state machine of the control side, and the block gating,
    per-frame silencing, start-time clamping and phase unrolling of the renderer.

    The node and its renderer share the type cell (an `Arc<AtomicU32>`), the scheduler's
    cells, and a channel carrying periodic waves from the node to the renderer. The
    waveform kernels are not part of this model: the value of a rendered frame comes from
    a function given to `Process`. Times and phases are reals. */
module Oscillator {
  import opened Control
  import opened Channels

  /** `OscillatorType`. */
  datatype OscillatorType = Sine | Square | Sawtooth | Triangle | Custom

  /** `type_ as u32`. */
  function Encode(t: OscillatorType): (i: nat)
    ensures i <= 4
  {
    match t
    case Sine => 0
    case Square => 1
    case Sawtooth => 2
    case Triangle => 3
    case Custom => 4
  }

  /** `From<u32>`: any value above 4 is `unreachable!()`. */
  function Decode(i: nat): (t: OscillatorType)
    requires i <= 4
    ensures Encode(t) == i
  {
    if i == 0 then Sine
    else if i == 1 then Square
    else if i == 2 then Sawtooth
    else if i == 3 then Triangle
    else Custom
  }

  /** Decoding the encoding of a type gives the type back. */
  lemma DecodeEncode(t: OscillatorType)
    ensures Decode(Encode(t)) == t
  {
  }

  /** No two types share a code. */
  lemma EncodeInjective(t: OscillatorType, u: OscillatorType)
    ensures Encode(t) == Encode(u) <==> t == u
  {
    DecodeEncode(t);
    DecodeEncode(u);
  }

  /** The type of a new oscillator when none is given (`Default`). */
  function DefaultType(): (t: OscillatorType)
    ensures Encode(t) == 0
  {
    Sine
  }

  /** A custom waveform. Its coefficients and wavetable are not part of this model. */
  datatype PeriodicWave = PeriodicWave(table: seq<real>)

  datatype Option<T> = None | Some(value: T)

  /** `OscillatorOptions`; the channel configuration, whose default is declared in
      src/node/mod.rs, is not part of this model. */
  datatype OscillatorOptions = OscillatorOptions(
    oscillatorType: OscillatorType,
    frequency: real,
    detune: real,
    periodicWave: Option<PeriodicWave>)

  /** `OscillatorOptions::default`. */
  function DefaultOptions(): (o: OscillatorOptions)
    ensures o.oscillatorType == Sine && o.frequency == 440.0 && o.detune == 0.0 && o.periodicWave == None
  {
    OscillatorOptions(DefaultType(), 440.0, 0.0, None)
  }

  // ---------------------------------------------------------------------------------
  // The type state machine

  /** The type after `set_type(requested)` from `current`, when the call is not
      rejected: a custom type is kept, any other is replaced. */
  function TypeAfterSet(current: OscillatorType, requested: OscillatorType): OscillatorType {
    if current == Custom then current else requested
  }

  /** Once custom, the type stays custom through any accepted `set_type`; and an accepted
      `set_type` (one not asking for `Custom`) never makes a type custom. */
  lemma CustomIsSticky(current: OscillatorType, requested: OscillatorType)
    requires requested != Custom
    ensures TypeAfterSet(current, requested) == Custom <==> current == Custom
  {
  }

  /** Repeating a `set_type` changes nothing more. */
  lemma SetTypeIdempotent(current: OscillatorType, requested: OscillatorType)
    ensures TypeAfterSet(TypeAfterSet(current, requested), requested) == TypeAfterSet(current, requested)
  {
  }

  /** `AtomicU32`: a cell holding one `u32`. */
  class U32Cell {
    var value: nat

    constructor (v: nat)
      ensures value == v
    {
      value := v;
    }
  }

  /** The bounded channel carrying periodic waves from the node to its renderer. */
  class WaveChannel {
    var queue: seq<PeriodicWave>

    constructor ()
      ensures queue == []
    {
      queue := [];
    }
  }

  /** The control side of an oscillator. */
  class OscillatorNode {
    /** The type, as its code, shared with the renderer. */
    const typeCell: U32Cell
    const scheduler: Scheduler
    const sender: WaveChannel
    /** The values given to the frequency and detune parameters at construction. */
    const frequency: real
    const detune: real

    /** The type cell holds a type's code. */
    ghost predicate Valid()
      reads typeCell
    {
      typeCell.value <= 4 && scheduler.Valid()
    }

    /** `type_`. */
    function Type(): OscillatorType
      reads typeCell
      requires Valid()
    {
      Decode(typeCell.value)
    }

    /** The node's fields, each cell new; the type stored as given. */
    constructor Fields(options: OscillatorOptions, scheduler: Scheduler, sender: WaveChannel)
      requires scheduler.Valid()
      ensures Valid() && fresh(typeCell) && Type() == options.oscillatorType
      ensures this.scheduler == scheduler && this.sender == sender
      ensures frequency == options.frequency && detune == options.detune
    {
      typeCell := new U32Cell(Encode(options.oscillatorType));
      this.scheduler := scheduler;
      this.sender := sender;
      frequency := options.frequency;
      detune := options.detune;
    }

    /** `set_type`: asking for `Custom` panics with an `InvalidStateError`, which leaves
        the type as it was; a custom type ignores the call; any other type is stored. */
    method SetType(requested: OscillatorType) returns (outcome: Outcome)
      requires Valid()
      modifies typeCell
      ensures Valid()
      ensures requested == Custom <==> outcome == Fail(InvalidStateError)
      ensures requested != Custom ==> outcome == Pass
      ensures Type() == (if requested == Custom then old(Type()) else TypeAfterSet(old(Type()), requested))
    {
      if requested == Custom {
        return Fail(InvalidStateError);
      }
      outcome := Pass;
      if typeCell.value == Encode(Custom) {
        return;
      }
      typeCell.value := Encode(requested);
    }

    /** `set_periodic_wave`: the type becomes custom and the wave is sent to the
        renderer. */
    method SetPeriodicWave(wave: PeriodicWave)
      requires Valid()
      modifies typeCell, sender
      ensures Valid() && Type() == Custom
      ensures sender.queue == old(sender.queue) + [wave]
    {
      typeCell.value := Encode(Custom);
      sender.queue := sender.queue + [wave];
    }

    /** An oscillator is a source: it has no input. */
    function NumberOfInputs(): (n: nat)
      ensures n == 0
    {
      0
    }

    /** An oscillator is a mono source: one output. */
    function NumberOfOutputs(): (n: nat)
      ensures n == 1
    {
      1
    }
  }

  // ---------------------------------------------------------------------------------
  // Rendering

  /** `RENDER_QUANTUM_SIZE`: frames per block. */
  const RENDER_QUANTUM_SIZE: nat := 128

  /** What `process` does with a block, as decided from the schedule alone. */
  datatype Gating =
    | Pending   // the start time lies beyond this block: silence, keep the node
    | Stopped   // the stop time lies before this block: silence, release the node
    | Running   // frames are rendered or silenced one by one

  /** The block decision of `process` for a block starting at `currentTime` and ending
      before `nextBlockTime`. */
  function Gate(startAt: real, stopAt: real, currentTime: real, nextBlockTime: real): Gating {
    if startAt >= nextBlockTime then Pending
    else if stopAt < currentTime then Stopped
    else Running
  }

  /** The start time the frames are compared with: a start in the past, before the
      oscillator has rendered anything, is moved to the block's start. */
  function EffectiveStart(started: bool, startAt: real, currentTime: real): (s: real)
    ensures s >= startAt
    ensures s == startAt || s == currentTime
    ensures !started ==> s >= currentTime
    ensures started ==> s == startAt
  {
    if !started && startAt < currentTime then currentTime else startAt
  }

  /** The time of frame `k` of a block starting at `currentTime`. */
  function FrameTime(currentTime: real, dt: real, k: nat): real {
    currentTime + (k as real) * dt
  }

  /** The phase before frame `k` of a block whose first frame is at `currentTime`, for an
      oscillator that has already started with phase `p0`: each audible frame before `k`
      advances it by its increment, and silenced frames leave it alone. */
  function PhaseBefore(p0: real, currentTime: real, dt: real, start: real, stopAt: real,
                       increments: seq<real>, k: nat): real
    requires k <= |increments|
  {
    if k == 0 then p0
    else
      var p := PhaseBefore(p0, currentTime, dt, start, stopAt, increments, k - 1);
      if Audible(FrameTime(currentTime, dt, k - 1), start, stopAt) then UnrollPhase(p + increments[k - 1]) else p
  }

  /** A frame at time `t` is rendered rather than silenced. */
  predicate Audible(t: real, start: real, stopAt: real) {
    start <= t < stopAt
  }

  /** Pending and stopped are decided on the schedule alone: a node pending in a block is
      pending in every earlier one, and a node stopped in a block is stopped in every
      later one, as long as the start and stop times are not moved. */
  lemma GateMonotone(startAt: real, stopAt: real, t0: real, n0: real, t1: real, n1: real)
    requires t0 <= t1 && n0 <= n1
    ensures Gate(startAt, stopAt, t1, n1) == Pending ==> Gate(startAt, stopAt, t0, n0) == Pending
    ensures Gate(startAt, stopAt, t0, n0) == Stopped ==> Gate(startAt, stopAt, t1, n1) == Stopped
  {
  }

  /** A start in the past makes the first frame of the first rendered block audible,
      unless the stop time has already come. */
  lemma LateStartPlaysAtOnce(startAt: real, stopAt: real, currentTime: real, dt: real)
    requires startAt < currentTime < stopAt
    ensures Audible(FrameTime(currentTime, dt, 0), EffectiveStart(false, startAt, currentTime), stopAt)
  {
  }

  /** `unroll_phase`: one period is taken off a phase of one period or more. */
  function UnrollPhase(phase: real): (r: real)
    ensures phase >= 1.0 ==> r == phase - 1.0
    ensures phase < 1.0 ==> r == phase
  {
    if phase >= 1.0 then phase - 1.0 else phase
  }

  /** A phase below two periods unrolls into one period. */
  lemma UnrollPhaseInRange(phase: real)
    requires 0.0 <= phase < 2.0
    ensures 0.0 <= UnrollPhase(phase) < 1.0
  {
  }

  /** A block of output: silent (`make_silent`), or one channel of samples. */
  datatype Block = Silent | Mono(samples: seq<real>)

  /** The render side of an oscillator. */
  class OscillatorRenderer {
    const typeCell: U32Cell
    const scheduler: Scheduler
    const receiver: WaveChannel
    /** Current phase, in periods. */
    var phase: real
    /** Whether a frame has been rendered yet. */
    var started: bool
    var periodicWave: Option<PeriodicWave>

    ghost predicate Valid()
      reads typeCell
    {
      typeCell.value <= 4 && scheduler.Valid()
    }

    constructor (typeCell: U32Cell, scheduler: Scheduler, receiver: WaveChannel)
      ensures this.typeCell == typeCell && this.scheduler == scheduler && this.receiver == receiver
      ensures phase == 0.0 && !started && periodicWave == None
    {
      this.typeCell := typeCell;
      this.scheduler := scheduler;
      this.receiver := receiver;
      phase := 0.0;
      started := false;
      periodicWave := None;
    }

    /** The `try_recv` at the top of `process`: a wave sent by the node replaces the
        renderer's. */
    method ReceiveWave()
      modifies this`periodicWave, receiver
      ensures old(receiver.queue) == [] ==> periodicWave == old(periodicWave) && receiver.queue == []
      ensures old(receiver.queue) != [] ==>
        periodicWave == Some(old(receiver.queue)[0]) && receiver.queue == old(receiver.queue)[1..]
    {
      if receiver.queue != [] {
        periodicWave := Some(receiver.queue[0]);
        receiver.queue := receiver.queue[1..];
      }
    }

    /** The frame loop of `process` from frame 0, with the first frames silenced until
        `start` and every frame from `stopAt` on. At the first rendered frame, if it
        falls after `start`, the phase is advanced by the part of a frame since `start`.
        `increments[k]` is the phase increment of frame `k` (the computed frequency over
        the sample rate) and `wave` the sample a waveform gives for a type, a phase and an
        increment. For an oscillator that had already started, each audible frame is the
        waveform at the phase `PhaseBefore` gives; the first block's frames after the
        late-start adjustment are stated only through `AudibleFrame`. */
    method RenderFrames(currentTime: real, dt: real, start: real, stopAt: real, oscillatorType: OscillatorType,
                        increments: seq<real>, wave: (OscillatorType, real, real) -> real)
      returns (samples: seq<real>)
      requires dt > 0.0 && |increments| == RENDER_QUANTUM_SIZE
      requires !started ==> start >= currentTime
      modifies this`phase, this`started
      ensures |samples| == RENDER_QUANTUM_SIZE
      ensures forall k :: 0 <= k < RENDER_QUANTUM_SIZE && !Audible(FrameTime(currentTime, dt, k), start, stopAt) ==>
        samples[k] == 0.0
      ensures started <==> old(started) || exists k :: 0 <= k < RENDER_QUANTUM_SIZE && Audible(FrameTime(currentTime, dt, k), start, stopAt)
      ensures (forall k :: 0 <= k < RENDER_QUANTUM_SIZE ==> 0.0 <= increments[k] < 1.0) && 0.0 <= old(phase) < 1.0 ==>
        0.0 <= phase < 1.0
      ensures old(started) ==>
        && phase == PhaseBefore(old(phase), currentTime, dt, start, stopAt, increments, RENDER_QUANTUM_SIZE)
        && forall k :: 0 <= k < RENDER_QUANTUM_SIZE && Audible(FrameTime(currentTime, dt, k), start, stopAt) ==>
             samples[k] == wave(oscillatorType, PhaseBefore(old(phase), currentTime, dt, start, stopAt, increments, k), increments[k])
    {
      ghost var inRange := (forall k :: 0 <= k < RENDER_QUANTUM_SIZE ==> 0.0 <= increments[k] < 1.0) && 0.0 <= phase < 1.0;
      var t := currentTime;
      samples := [];
      for k := 0 to RENDER_QUANTUM_SIZE
        invariant |samples| == k && t == FrameTime(currentTime, dt, k)
        invariant forall j :: 0 <= j < k && !Audible(FrameTime(currentTime, dt, j), start, stopAt) ==> samples[j] == 0.0
        invariant started <==> old(started) || exists j :: 0 <= j < k && Audible(FrameTime(currentTime, dt, j), start, stopAt)
        invariant !started && k > 0 ==> FrameTime(currentTime, dt, k - 1) < start || FrameTime(currentTime, dt, k - 1) >= stopAt
        invariant inRange ==> 0.0 <= phase < 1.0
        invariant old(started) ==> phase == PhaseBefore(old(phase), currentTime, dt, start, stopAt, increments, k)
        invariant old(started) ==> forall j :: 0 <= j < k && Audible(FrameTime(currentTime, dt, j), start, stopAt) ==>
          samples[j] == wave(oscillatorType, PhaseBefore(old(phase), currentTime, dt, start, stopAt, increments, j), increments[j])
      {
        if t < start || t >= stopAt {
          samples := samples + [0.0];
          FrameTimeNext(currentTime, dt, k);
          t := t + dt;
          continue;
        }
        var sample := AudibleFrame(currentTime, dt, start, stopAt, k, t, oscillatorType, increments[k], wave, inRange);
        samples := samples + [sample];
        FrameTimeNext(currentTime, dt, k);
        t := t + dt;
      }
    }

    /** One frame inside the playing window: the late-start adjustment on the first one,
        the sample at the current phase, then the phase advanced by `increment`. */
    method AudibleFrame(currentTime: real, dt: real, start: real, stopAt: real, k: nat, t: real,
                        oscillatorType: OscillatorType, increment: real,
                        wave: (OscillatorType, real, real) -> real, ghost inRange: bool)
      returns (sample: real)
      requires dt > 0.0 && t == FrameTime(currentTime, dt, k) && Audible(t, start, stopAt)
      requires !started ==> start >= currentTime
      requires !started && k > 0 ==> FrameTime(currentTime, dt, k - 1) < start || FrameTime(currentTime, dt, k - 1) >= stopAt
      requires inRange ==> 0.0 <= increment < 1.0 && 0.0 <= phase < 1.0
      modifies this`phase, this`started
      ensures started
      ensures old(started) ==> sample == wave(oscillatorType, old(phase), increment) && phase == UnrollPhase(old(phase) + increment)
      ensures inRange ==> 0.0 <= phase < 1.0
    {
      if !started {
        if t > start {
          FirstFrameRatio(currentTime, dt, k, start, stopAt);
          var ratio := (t - start) / dt;
          PartialIncrement(increment, ratio);
          if inRange {
            UnrollPhaseInRange(increment * ratio);
          }
          phase := UnrollPhase(increment * ratio);
        }
        started := true;
      }
      sample := wave(oscillatorType, phase, increment);
      if inRange {
        UnrollPhaseInRange(phase + increment);
      }
      phase := UnrollPhase(phase + increment);
    }

    /** `process` on a block starting at `currentTime`, at `sampleRate` frames per
        second: the waveform type is read from the shared cell, the start and stop times
        from the shared scheduler. Returns the output block and whether the node is to be
        kept alive. `wave` does not see the received periodic wave, so for the custom type
        the samples' dependence on that wave is not stated. */
    method Process(currentTime: real, sampleRate: real, increments: seq<real>, wave: (OscillatorType, real, real) -> real)
      returns (output: Block, alive: bool)
      requires Valid() && sampleRate > 0.0 && |increments| == RENDER_QUANTUM_SIZE
      modifies this`phase, this`started, this`periodicWave, receiver
      ensures old(receiver.queue) == [] ==> periodicWave == old(periodicWave) && receiver.queue == []
      ensures old(receiver.queue) != [] ==>
        periodicWave == Some(old(receiver.queue)[0]) && receiver.queue == old(receiver.queue)[1..]
      ensures var dt := 1.0 / sampleRate;
        var gating := Gate(scheduler.GetStartAt(), scheduler.GetStopAt(), currentTime,
                           currentTime + dt * (RENDER_QUANTUM_SIZE as real));
        && (gating == Pending ==> output == Silent && alive && phase == old(phase) && started == old(started))
        && (gating == Stopped ==> output == Silent && !alive && phase == old(phase) && started == old(started))
        && (gating == Running ==>
              var start := EffectiveStart(old(started), scheduler.GetStartAt(), currentTime);
              && alive && output.Mono? && |output.samples| == RENDER_QUANTUM_SIZE
              && (forall k :: 0 <= k < RENDER_QUANTUM_SIZE && !Audible(FrameTime(currentTime, dt, k), start, scheduler.GetStopAt()) ==>
                    output.samples[k] == 0.0)
              && (started <==> old(started) || exists k :: 0 <= k < RENDER_QUANTUM_SIZE && Audible(FrameTime(currentTime, dt, k), start, scheduler.GetStopAt()))
              && (old(started) ==>
                    var oscillatorType := Decode(typeCell.value);
                    && phase == PhaseBefore(old(phase), currentTime, dt, start, scheduler.GetStopAt(), increments, RENDER_QUANTUM_SIZE)
                    && forall k :: 0 <= k < RENDER_QUANTUM_SIZE && Audible(FrameTime(currentTime, dt, k), start, scheduler.GetStopAt()) ==>
                         output.samples[k] == wave(oscillatorType, PhaseBefore(old(phase), currentTime, dt, start, scheduler.GetStopAt(), increments, k), increments[k])))
    {
      ReceiveWave();
      var dt := 1.0 / sampleRate;
      var nextBlockTime := currentTime + dt * (RENDER_QUANTUM_SIZE as real);
      var startAt := scheduler.GetStartAt();
      var stopAt := scheduler.GetStopAt();
      if startAt >= nextBlockTime {
        return Silent, true;
      } else if stopAt < currentTime {
        return Silent, false;
      }
      var oscillatorType := Decode(typeCell.value);
      var start := startAt;
      if !started && startAt < currentTime {
        start := currentTime;
      }
      var samples := RenderFrames(currentTime, dt, start, stopAt, oscillatorType, increments, wave);
      return Mono(samples), true;
    }
  }

  /** At the first audible frame `k > 0` of an oscillator that has not started, the
      frame before was silenced because it came before `start`, so less than a frame has
      passed since `start`. */
  lemma FirstFrameRatio(currentTime: real, dt: real, k: nat, start: real, stopAt: real)
    requires dt > 0.0 && k > 0
    requires FrameTime(currentTime, dt, k - 1) < start || FrameTime(currentTime, dt, k - 1) >= stopAt
    requires Audible(FrameTime(currentTime, dt, k), start, stopAt)
    ensures 0.0 <= (FrameTime(currentTime, dt, k) - start) / dt < 1.0
  {
    FrameTimeNext(currentTime, dt, k - 1);
    FractionBelowOne(FrameTime(currentTime, dt, k) - start, dt);
  }

  /** Consecutive frames are one frame apart. */
  lemma FrameTimeNext(currentTime: real, dt: real, k: nat)
    ensures FrameTime(currentTime, dt, k + 1) == FrameTime(currentTime, dt, k) + dt
  {
    assert ((k + 1) as real) * dt == (k as real) * dt + dt;
  }

  /** Less than a frame, in frames. */
  lemma FractionBelowOne(x: real, dt: real)
    requires 0.0 <= x < dt
    ensures 0.0 <= x / dt < 1.0
  {
  }

  /** Part of a frame's increment is below one period. */
  lemma PartialIncrement(increment: real, ratio: real)
    ensures 0.0 <= increment < 1.0 && 0.0 <= ratio < 1.0 ==> 0.0 <= increment * ratio < 1.0
  {
    if 0.0 <= increment < 1.0 && 0.0 <= ratio < 1.0 {
      assert increment * ratio <= increment * 1.0;
    }
  }

  /** `OscillatorNode::new`: the node and its renderer over one type cell, one
      scheduler's cells and one channel; with a periodic wave in the options the type is
      custom and the wave is waiting in the channel. */
  method NewOscillator(options: OscillatorOptions) returns (node: OscillatorNode, renderer: OscillatorRenderer)
    ensures node.Valid() && renderer.Valid()
    ensures fresh(node) && fresh(node.typeCell) && fresh(node.sender) && fresh(renderer)
    ensures renderer.typeCell == node.typeCell && renderer.receiver == node.sender
    ensures renderer.scheduler.start == node.scheduler.start && renderer.scheduler.stop == node.scheduler.stop
    ensures node.scheduler.GetStartAt() == F64_MAX && node.scheduler.GetStopAt() == F64_MAX
    ensures renderer.phase == 0.0 && !renderer.started && renderer.periodicWave == None
    ensures node.frequency == options.frequency && node.detune == options.detune
    ensures node.Type() == (if options.periodicWave.Some? then Custom else options.oscillatorType)
    ensures node.sender.queue == (if options.periodicWave.Some? then [options.periodicWave.value] else [])
  {
    var scheduler := new Scheduler();
    var channel := new WaveChannel();
    node := new OscillatorNode.Fields(options, scheduler, channel);
    var shared := scheduler.Clone();
    renderer := new OscillatorRenderer(node.typeCell, shared, channel);
    if options.periodicWave.Some? {
      node.SetPeriodicWave(options.periodicWave.value);
    }
  }

  /** An oscillator built with a periodic wave is custom, and a later `set_type(Sine)` is
      accepted but ignored. */
  method SetTypeIgnoredWhenCustom(wave: PeriodicWave) returns (outcome: Outcome, t: OscillatorType)
    ensures outcome == Pass && t == Custom
  {
    var node, renderer := NewOscillator(DefaultOptions().(periodicWave := Some(wave)));
    outcome := node.SetType(Sine);
    t := node.Type();
  }
}

/** `AudioDestinationNode` of src/node/destination.rs: the node that feeds the hardware
    (or the offline render target). Its channel count is validated against the context's
    maximum, its channel-count mode cannot be changed, and its renderer passes its input
    through. The context is reduced to the two facts the node asks of it: whether it is
    offline and its maximum channel count. */
module Destination {
  import opened Channels

  /** A render quantum as the destination sees it: the samples of each channel. */
  datatype Quantum = Quantum(channels: seq<seq<real>>)

  /** The verdict of `set_channel_count(v)`: an offline context only accepts its own
      maximum, and no context accepts more than its maximum. */
  function ChannelCountCheck(offline: bool, maxChannelCount: nat, v: nat): Outcome {
    if offline && v != maxChannelCount then Fail(NotSupportedError)
    else if v > maxChannelCount then Fail(IndexSizeError)
    else Pass
  }

  /** An accepted count is never above the maximum, and on an offline context it is the
      maximum itself; every other count is rejected, with the error the source names. */
  lemma ChannelCountCheckSound(offline: bool, maxChannelCount: nat, v: nat)
    ensures ChannelCountCheck(offline, maxChannelCount, v) == Pass <==> v <= maxChannelCount && (offline ==> v == maxChannelCount)
    ensures ChannelCountCheck(offline, maxChannelCount, v) == Fail(NotSupportedError) <==> offline && v != maxChannelCount
    ensures ChannelCountCheck(offline, maxChannelCount, v) == Fail(IndexSizeError) <==> !offline && v > maxChannelCount
  {
  }

  /** The destination node's control side. */
  class AudioDestinationNode {
    const config: ChannelConfig
    /** Whether the owning context is an `OfflineAudioContext`. */
    const offline: bool
    /** `max_channels_count`: the context's maximum channel count. */
    const maxChannelCount: nat

    /** `AudioDestinationNode::new`: the given count, explicit mode, speakers
        interpretation. */
    constructor (channelCount: nat, offline: bool, maxChannelCount: nat)
      ensures fresh(config)
      ensures config.Options() == ChannelConfigOptions(channelCount, Explicit, Speakers)
      ensures this.offline == offline && this.maxChannelCount == maxChannelCount
    {
      config := new ChannelConfig(ChannelConfigOptions(channelCount, Explicit, Speakers));
      this.offline := offline;
      this.maxChannelCount := maxChannelCount;
    }

    /** `set_channel_count`: the offline check comes first, then the bound; only an
        accepted count is stored. */
    method SetChannelCount(v: nat) returns (outcome: Outcome)
      modifies config`count
      ensures outcome == ChannelCountCheck(offline, maxChannelCount, v)
      ensures config.Options() == (if outcome == Pass then old(config.Options()).(count := v) else old(config.Options()))
    {
      if offline && v != maxChannelCount {
        return Fail(NotSupportedError);
      }
      if v > maxChannelCount {
        return Fail(IndexSizeError);
      }
      config.SetCount(v);
      return Pass;
    }

    /** `set_channel_count_mode`: always rejected, the configuration kept. */
    method SetChannelCountMode(mode: ChannelCountMode) returns (outcome: Outcome)
      ensures outcome == Fail(InvalidStateError)
    {
      return Fail(InvalidStateError);
    }

    /** The destination takes one input. */
    function NumberOfInputs(): (n: nat)
      ensures n == 1
    {
      1
    }

    /** The destination has one output. */
    function NumberOfOutputs(): (n: nat)
      ensures n == 1
    {
      1
    }
  }

  /** `DestinationRenderer::process`: the output is a copy of the single input, and the
      renderer always asks to be kept alive. */
  method Process(input: Quantum) returns (output: Quantum, alive: bool)
    ensures output == input && alive
  {
    output := input;
    alive := true;
  }

  /** Once a count has been accepted on an offline context, the configuration holds the
      context's maximum; a rejected call leaves whatever count was there. */
  method OfflineCountStaysAtMaximum(channelCount: nat, maxChannelCount: nat, v: nat) returns (count: nat)
    ensures count == (if v == maxChannelCount then maxChannelCount else channelCount)
  {
    var node := new AudioDestinationNode(channelCount, true, maxChannelCount);
    var _ := node.SetChannelCount(v);
    count := node.config.count;
  }
}

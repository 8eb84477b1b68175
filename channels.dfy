/** Channel configuration of a node and the DOM errors that node setters report.

    `ChannelCountMode`, `ChannelInterpretation` and `ChannelConfig` are declared in
    src/buffer.rs and src/node/mod.rs, which are not part of this model: only the shape
    the modelled files use is given here. */
module Channels {

  /** How a node computes the channel count of its inputs. */
  datatype ChannelCountMode = Max | ClampedMax | Explicit

  /** How channels are mapped when up- or down-mixing. */
  datatype ChannelInterpretation = Speakers | Discrete

  /** The plain-value form of a channel configuration (`ChannelConfigOptions`). */
  datatype ChannelConfigOptions = ChannelConfigOptions(
    count: nat,
    mode: ChannelCountMode,
    interpretation: ChannelInterpretation)

  /** A node's channel configuration. The source shares it between the node handle and
      the context, and its setters take `&self`, so it is an object here. */
  class ChannelConfig {
    var count: nat
    var mode: ChannelCountMode
    var interpretation: ChannelInterpretation

    constructor (options: ChannelConfigOptions)
      ensures Options() == options
    {
      count := options.count;
      mode := options.mode;
      interpretation := options.interpretation;
    }

    /** The current configuration as a value. */
    function Options(): ChannelConfigOptions
      reads this
    {
      ChannelConfigOptions(count, mode, interpretation)
    }

    /** Store a new channel count; mode and interpretation are kept. */
    method SetCount(v: nat)
      modifies this`count
      ensures Options() == old(Options()).(count := v)
    {
      count := v;
    }
  }

  /** The DOM exceptions that the modelled setters raise (as a panic with that name). */
  datatype DomError = NotSupportedError | IndexSizeError | InvalidStateError

  /** Outcome of a setter: it either takes effect or is rejected with a DOM error. */
  datatype Outcome = Pass | Fail(error: DomError)
}

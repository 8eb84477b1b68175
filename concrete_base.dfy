/** The control side of an audio context (`ConcreteBaseAudioContext`): it hands out node
    ids, routes registration and connection messages to the render thread, parks the
    messages that must wait (parameter connections whose node is not registered yet, and
    everything belonging to the audio listener), and records the context state.

    The crossbeam channel to the render thread is the append-only sequence `renderChannel`;
    the mutex-protected queues are sequence fields; the model is sequential, so the locks
    and atomics are plain fields. */
module ConcreteBase {
  import opened Channels

  type NodeId = nat

  /** `usize::MAX` on a 64-bit target: the hidden input port that parameters connect to. */
  const USIZE_MAX: nat := 0xFFFF_FFFF_FFFF_FFFF

  /** The hard-coded ids of the "magic" nodes created with every context. They are declared
      in src/context/mod.rs, which is not part of this model; the constructor below proves
      the debug assertion that ties them to the id counter. */
  const DESTINATION_NODE_ID: NodeId := 0
  const LISTENER_NODE_ID: NodeId := 1
  const LISTENER_PARAM_IDS_START: NodeId := 2
  const LISTENER_PARAM_IDS_END: NodeId := 11

  /** Number of audio parameters of the listener (position, forward and up vectors). */
  const LISTENER_PARAM_COUNT: nat := 9

  predicate InListenerParamIds(id: NodeId) {
    LISTENER_PARAM_IDS_START <= id < LISTENER_PARAM_IDS_END
  }

  /** Ids whose registration is parked until the first panner asks for the listener. */
  predicate IsListenerId(id: NodeId) {
    id == LISTENER_NODE_ID || InListenerParamIds(id)
  }

  /** Ids whose nodes are never freed. */
  predicate IsMagic(id: NodeId) {
    id == DESTINATION_NODE_ID || IsListenerId(id)
  }

  /** `AudioContextState`. */
  datatype AudioContextState = Suspended | Running | Closed

  /** What the node-building closure passed to `register` reports about the new node. The
      boxed renderer itself is opaque and is not carried. */
  datatype NodeSpec = NodeSpec(inputs: nat, outputs: nat, channelConfig: ChannelConfigOptions)

  /** The control messages this file sends (`ControlMessage`, declared in src/message.rs,
      which is not part of this model). */
  datatype ControlMessage =
    | RegisterNode(id: NodeId, inputs: nat, outputs: nat, channelConfig: ChannelConfigOptions)
    | ConnectNode(from: NodeId, to: NodeId, output: nat, input: nat)
    | DisconnectNode(from: NodeId, to: NodeId)
    | DisconnectAll(from: NodeId)
    | FreeWhenFinished(id: NodeId)

  function RegisterMessage(id: NodeId, spec: NodeSpec): ControlMessage {
    RegisterNode(id, spec.inputs, spec.outputs, spec.channelConfig)
  }

  /** The channel configuration the destination node is created with. */
  function DestinationConfig(maxChannelCount: nat): ChannelConfigOptions {
    ChannelConfigOptions(maxChannelCount, Explicit, Speakers)
  }

  /** The message shape that `resolve_queued_control_msgs(id)` releases. */
  predicate ConnectsTo(m: ControlMessage, id: NodeId) {
    m.ConnectNode? && m.to == id
  }

  /** The messages of `q` that connect into node `id`, in their order in `q`. */
  function Matching(q: seq<ControlMessage>, id: NodeId): seq<ControlMessage> {
    if q == [] then []
    else (if ConnectsTo(q[0], id) then [q[0]] else []) + Matching(q[1..], id)
  }

  /** The messages of `q` that do not connect into node `id`, in their order in `q`. */
  function Remaining(q: seq<ControlMessage>, id: NodeId): seq<ControlMessage> {
    if q == [] then []
    else (if ConnectsTo(q[0], id) then [] else [q[0]]) + Remaining(q[1..], id)
  }

  /** `s` read back to front: the order in which repeated `pop`s return the elements. */
  function Reversed<T>(s: seq<T>): seq<T> {
    if s == [] then [] else Reversed(s[1..]) + [s[0]]
  }

  /** The nine connections from the listener's outputs to a panner's inputs 1..9. */
  function ListenerPannerConnects(panner: NodeId): seq<ControlMessage> {
    seq(LISTENER_PARAM_COUNT, i requires 0 <= i => ConnectNode(LISTENER_NODE_ID, panner, i, i + 1))
  }

  /** The registrations of the listener's parameters, ids 2..10, in creation order. */
  function ListenerParamRegistrations(n: nat, spec: NodeSpec): seq<ControlMessage> {
    seq(n, i requires 0 <= i => RegisterMessage(LISTENER_PARAM_IDS_START + i, spec))
  }

  /** The queued connections of the listener's parameters to the listener, in creation order. */
  function ListenerParamConnects(n: nat): seq<ControlMessage> {
    seq(n, i requires 0 <= i => ConnectNode(LISTENER_PARAM_IDS_START + i, LISTENER_NODE_ID, 0, USIZE_MAX))
  }

  // ---------------------------------------------------------------------------------
  // Lemmas about the queue filter

  /** Filtering distributes over concatenation. */
  lemma MatchingAppend(a: seq<ControlMessage>, b: seq<ControlMessage>, id: NodeId)
    ensures Matching(a + b, id) == Matching(a, id) + Matching(b, id)
    ensures Remaining(a + b, id) == Remaining(a, id) + Remaining(b, id)
  {
    MatchingOfAppend(a, b, id);
    RemainingOfAppend(a, b, id);
  }

  lemma {:induction false} MatchingOfAppend(a: seq<ControlMessage>, b: seq<ControlMessage>, id: NodeId)
    ensures Matching(a + b, id) == Matching(a, id) + Matching(b, id)
  {
    if a == [] {
      assert a + b == b;
    } else {
      var head := if ConnectsTo(a[0], id) then [a[0]] else [];
      assert (a + b)[0] == a[0] && (a + b)[1..] == a[1..] + b;
      MatchingOfAppend(a[1..], b, id);
      assert Matching(a + b, id) == head + (Matching(a[1..], id) + Matching(b, id));
      assert head + (Matching(a[1..], id) + Matching(b, id)) == (head + Matching(a[1..], id)) + Matching(b, id);
    }
  }

  lemma {:induction false} RemainingOfAppend(a: seq<ControlMessage>, b: seq<ControlMessage>, id: NodeId)
    ensures Remaining(a + b, id) == Remaining(a, id) + Remaining(b, id)
  {
    if a == [] {
      assert a + b == b;
    } else {
      var head := if ConnectsTo(a[0], id) then [] else [a[0]];
      assert (a + b)[0] == a[0] && (a + b)[1..] == a[1..] + b;
      RemainingOfAppend(a[1..], b, id);
      assert Remaining(a + b, id) == head + (Remaining(a[1..], id) + Remaining(b, id));
      assert head + (Remaining(a[1..], id) + Remaining(b, id)) == (head + Remaining(a[1..], id)) + Remaining(b, id);
    }
  }

  /** Walking the queue one message further. */
  lemma MatchingStep(q: seq<ControlMessage>, k: nat, id: NodeId)
    requires k < |q|
    ensures Matching(q[..k + 1], id) == Matching(q[..k], id) + (if ConnectsTo(q[k], id) then [q[k]] else [])
    ensures Remaining(q[..k + 1], id) == Remaining(q[..k], id) + (if ConnectsTo(q[k], id) then [] else [q[k]])
  {
    assert q[..k + 1] == q[..k] + [q[k]];
    MatchingAppend(q[..k], [q[k]], id);
    assert Matching([q[k]], id) == (if ConnectsTo(q[k], id) then [q[k]] else []);
    assert Remaining([q[k]], id) == (if ConnectsTo(q[k], id) then [] else [q[k]]);
  }

  /** One step of the walk over the queue: `q` is the queue after the first `k` messages
      of `q0` were walked, `i` the position of message `k` in it. */
  lemma ResolveStep(q0: seq<ControlMessage>, k: nat, id: NodeId, q: seq<ControlMessage>, i: nat)
    requires k <= |q0| && q == Remaining(q0[..k], id) + q0[k..] && i == |Remaining(q0[..k], id)| && i < |q|
    ensures k < |q0| && q[i] == q0[k]
    ensures ConnectsTo(q0[k], id) ==>
      && q[..i] + q[i + 1..] == Remaining(q0[..k + 1], id) + q0[k + 1..]
      && i == |Remaining(q0[..k + 1], id)|
      && Matching(q0[..k + 1], id) == Matching(q0[..k], id) + [q0[k]]
    ensures !ConnectsTo(q0[k], id) ==>
      && q == Remaining(q0[..k + 1], id) + q0[k + 1..]
      && i + 1 == |Remaining(q0[..k + 1], id)|
      && Matching(q0[..k + 1], id) == Matching(q0[..k], id)
  {
    var r := Remaining(q0[..k], id);
    assert q0[k..] == [q0[k]] + q0[k + 1..];
    assert q == r + [q0[k]] + q0[k + 1..];
    MatchingStep(q0, k, id);
    if ConnectsTo(q0[k], id) {
      assert Remaining(q0[..k + 1], id) == r + [];
      assert q[..i] == r;
      assert q[i + 1..] == q0[k + 1..];
    } else {
      assert Remaining(q0[..k + 1], id) == r + [q0[k]];
    }
  }

  /** Every released message connects into `id`. */
  lemma {:induction false} MatchingOnlyConnectsTo(q: seq<ControlMessage>, id: NodeId)
    ensures forall m :: m in Matching(q, id) ==> ConnectsTo(m, id)
  {
    if q != [] {
      MatchingOnlyConnectsTo(q[1..], id);
    }
  }

  /** No message connecting into `id` is left behind. */
  lemma {:induction false} RemainingHasNoConnectTo(q: seq<ControlMessage>, id: NodeId)
    ensures forall m :: m in Remaining(q, id) ==> !ConnectsTo(m, id)
  {
    if q != [] {
      RemainingHasNoConnectTo(q[1..], id);
    }
  }

  /** Releasing and keeping split the queue: nothing is lost or duplicated. */
  lemma {:induction false} FilterIsPartition(q: seq<ControlMessage>, id: NodeId)
    ensures multiset(Matching(q, id)) + multiset(Remaining(q, id)) == multiset(q)
    ensures |Matching(q, id)| + |Remaining(q, id)| == |q|
  {
    if q != [] {
      FilterIsPartition(q[1..], id);
      assert q == [q[0]] + q[1..];
    }
  }

  /** Messages that connect into other nodes are released by neither filter of `id`;
      filtering the kept messages again releases nothing, so resolving twice is a no-op. */
  lemma {:induction false} ResolveTwiceReleasesNothing(q: seq<ControlMessage>, id: NodeId)
    ensures Matching(Remaining(q, id), id) == []
    ensures Remaining(Remaining(q, id), id) == Remaining(q, id)
  {
    if q != [] {
      ResolveTwiceReleasesNothing(q[1..], id);
      var head := if ConnectsTo(q[0], id) then [] else [q[0]];
      MatchingAppend(head, Remaining(q[1..], id), id);
    }
  }

  /** A message sitting at position `k` of the queue is released or kept, never both. */
  lemma {:induction false} FilterKeepsOrder(q: seq<ControlMessage>, k: nat, id: NodeId)
    requires k < |q|
    ensures ConnectsTo(q[k], id) ==>
      Matching(q, id) == Matching(q[..k], id) + [q[k]] + Matching(q[k + 1..], id)
    ensures !ConnectsTo(q[k], id) ==>
      Remaining(q, id) == Remaining(q[..k], id) + [q[k]] + Remaining(q[k + 1..], id)
  {
    assert q == q[..k] + ([q[k]] + q[k + 1..]);
    MatchingAppend(q[..k], [q[k]] + q[k + 1..], id);
    assert ([q[k]] + q[k + 1..])[1..] == q[k + 1..];
  }

  lemma {:induction false} ReversedLength<T>(s: seq<T>)
    ensures |Reversed(s)| == |s|
  {
    if s != [] {
      ReversedLength(s[1..]);
    }
  }

  /** Popping `s` empty yields its last element first and its first element last. */
  lemma {:induction false} ReversedAt<T>(s: seq<T>, k: nat)
    requires k < |s|
    ensures |Reversed(s)| == |s| && Reversed(s)[k] == s[|s| - 1 - k]
  {
    ReversedLength(s);
    if k < |s| - 1 {
      ReversedAt(s[1..], k);
    }
  }

  // ---------------------------------------------------------------------------------

  class ConcreteBaseAudioContext {
    /** Maximum number of output channels of the hardware. */
    const maxChannelCount: nat
    /** Whether this is an `OfflineAudioContext`. */
    const offline: bool

    /** The next node id to hand out. */
    var nodeIdInc: nat
    /** Every message sent to the render thread so far, oldest first. */
    var renderChannel: seq<ControlMessage>
    /** Parameter connections waiting for their node to be registered. */
    var queuedMessages: seq<ControlMessage>
    /** Listener registrations waiting for the first panner. */
    var queuedListenerMsgs: seq<ControlMessage>
    /** The destination node's channel configuration. */
    var destinationChannelConfig: ChannelConfigOptions
    var state: AudioContextState

    /** `new`: an empty context in state `Suspended`, then the destination (id 0), the
        listener (id 1) and the listener's nine parameters (ids 2..10) are registered. The
        listener's id is taken before its parameters are created, and its own registration
        is submitted after them, as `register` runs the node-building closure between the
        two. Each parameter is registered and then queued for connection to the listener. */
    constructor (maxChannelCount: nat, offline: bool, listenerSpec: NodeSpec, paramSpec: NodeSpec)
      ensures this.maxChannelCount == maxChannelCount && this.offline == offline
      ensures state == Suspended
      ensures nodeIdInc == LISTENER_PARAM_IDS_END
      ensures renderChannel == [RegisterNode(DESTINATION_NODE_ID, 1, 1, DestinationConfig(maxChannelCount))]
      ensures queuedListenerMsgs ==
        ListenerParamRegistrations(LISTENER_PARAM_COUNT, paramSpec) + [RegisterMessage(LISTENER_NODE_ID, listenerSpec)]
      ensures queuedMessages == ListenerParamConnects(LISTENER_PARAM_COUNT)
      ensures destinationChannelConfig == DestinationConfig(maxChannelCount)
    {
      this.maxChannelCount := maxChannelCount;
      this.offline := offline;
      nodeIdInc := 0;
      renderChannel := [];
      queuedMessages := [];
      queuedListenerMsgs := [];
      destinationChannelConfig := ChannelConfigOptions(2, Max, Speakers);
      state := Suspended;
      new;
      var dest := Register(NodeSpec(1, 1, DestinationConfig(maxChannelCount)));
      assert Matching([], dest) == [];
      destinationChannelConfig := DestinationConfig(maxChannelCount);
      var listener := AllocateId();
      var i := 0;
      while i < LISTENER_PARAM_COUNT
        invariant 0 <= i <= LISTENER_PARAM_COUNT
        invariant nodeIdInc == LISTENER_PARAM_IDS_START + i
        invariant renderChannel == [RegisterNode(DESTINATION_NODE_ID, 1, 1, DestinationConfig(maxChannelCount))]
        invariant queuedListenerMsgs == ListenerParamRegistrations(i, paramSpec)
        invariant queuedMessages == ListenerParamConnects(i)
        invariant state == Suspended && destinationChannelConfig == DestinationConfig(maxChannelCount)
      {
        var p := Register(paramSpec);
        QueueAudioParamConnect(p, listener);
        assert queuedListenerMsgs == ListenerParamRegistrations(i + 1, paramSpec);
        assert queuedMessages == ListenerParamConnects(i + 1);
        i := i + 1;
      }
      Submit(listener, listenerSpec);
    }

    /** The id-taking half of `register`: `fetch_add(1)` returns the old counter. */
    method AllocateId() returns (id: NodeId)
      modifies this`nodeIdInc
      ensures id == old(nodeIdInc) && nodeIdInc == id + 1
    {
      id := nodeIdInc;
      nodeIdInc := nodeIdInc + 1;
    }

    /** The sending half of `register`: the registration of a listener id is parked in the
        listener queue; any other registration goes to the render thread, followed by the
        queued connections into that node. */
    method Submit(id: NodeId, spec: NodeSpec)
      modifies this`renderChannel, this`queuedMessages, this`queuedListenerMsgs
      ensures IsListenerId(id) ==>
        && queuedListenerMsgs == old(queuedListenerMsgs) + [RegisterMessage(id, spec)]
        && renderChannel == old(renderChannel)
        && queuedMessages == old(queuedMessages)
      ensures !IsListenerId(id) ==>
        && renderChannel == old(renderChannel) + [RegisterMessage(id, spec)] + Matching(old(queuedMessages), id)
        && queuedMessages == Remaining(old(queuedMessages), id)
        && queuedListenerMsgs == old(queuedListenerMsgs)
    {
      var message := RegisterMessage(id, spec);
      if IsListenerId(id) {
        queuedListenerMsgs := queuedListenerMsgs + [message];
      } else {
        renderChannel := renderChannel + [message];
        ResolveQueuedControlMsgs(id);
      }
    }

    /** `register`: a fresh id (the counter's old value), then the routing of `Submit`. */
    method Register(spec: NodeSpec) returns (id: NodeId)
      modifies this`nodeIdInc, this`renderChannel, this`queuedMessages, this`queuedListenerMsgs
      ensures id == old(nodeIdInc) && nodeIdInc == old(nodeIdInc) + 1
      ensures IsListenerId(id) ==>
        && queuedListenerMsgs == old(queuedListenerMsgs) + [RegisterMessage(id, spec)]
        && renderChannel == old(renderChannel)
        && queuedMessages == old(queuedMessages)
      ensures !IsListenerId(id) ==>
        && renderChannel == old(renderChannel) + [RegisterMessage(id, spec)] + Matching(old(queuedMessages), id)
        && queuedMessages == Remaining(old(queuedMessages), id)
        && queuedListenerMsgs == old(queuedListenerMsgs)
    {
      id := AllocateId();
      Submit(id, spec);
    }

    /** `mark_node_dropped`: ask the render thread to free the node, unless it is magic. */
    method MarkNodeDropped(id: NodeId)
      modifies this`renderChannel
      ensures !IsMagic(id) ==> renderChannel == old(renderChannel) + [FreeWhenFinished(id)]
      ensures IsMagic(id) ==> renderChannel == old(renderChannel)
    {
      var magic := id == DESTINATION_NODE_ID || id == LISTENER_NODE_ID || InListenerParamIds(id);
      if !magic {
        renderChannel := renderChannel + [FreeWhenFinished(id)];
      }
    }

    /** `destination_channel_config`. */
    function DestinationChannelConfig(): ChannelConfigOptions
      reads this
    {
      destinationChannelConfig
    }

    /** `state`. */
    function State(): AudioContextState
      reads this
    {
      state
    }

    /** `set_state`: the next `State()` returns the stored value. */
    method SetState(s: AudioContextState)
      modifies this`state
      ensures State() == s
    {
      state := s;
    }

    /** `resolve_queued_control_msgs`: walk the queue, removing every connection into `id`
        and sending it; the other messages stay, in order. */
    method ResolveQueuedControlMsgs(id: NodeId)
      modifies this`renderChannel, this`queuedMessages
      ensures renderChannel == old(renderChannel) + Matching(old(queuedMessages), id)
      ensures queuedMessages == Remaining(old(queuedMessages), id)
    {
      ghost var q0 := queuedMessages;
      ghost var k := 0;
      var i := 0;
      while i < |queuedMessages|
        invariant 0 <= k <= |q0|
        invariant queuedMessages == Remaining(q0[..k], id) + q0[k..]
        invariant i == |Remaining(q0[..k], id)|
        invariant renderChannel == old(renderChannel) + Matching(q0[..k], id)
        decreases |queuedMessages| - i
      {
        ResolveStep(q0, k, id, queuedMessages, i);
        var m := queuedMessages[i];
        if m.ConnectNode? && m.to == id {
          queuedMessages := queuedMessages[..i] + queuedMessages[i + 1..];
          renderChannel := renderChannel + [m];
        } else {
          i := i + 1;
        }
        k := k + 1;
      }
      assert q0[..k] == q0;
    }

    /** `connect`: send a connection from output `output` of `from` to input `input` of `to`. */
    method Connect(from: NodeId, to: NodeId, output: nat, input: nat)
      modifies this`renderChannel
      ensures renderChannel == old(renderChannel) + [ConnectNode(from, to, output, input)]
    {
      renderChannel := renderChannel + [ConnectNode(from, to, output, input)];
    }

    /** `queue_audio_param_connect`: park the connection of parameter `param` to the hidden
        input of its node; nothing is sent. */
    method QueueAudioParamConnect(param: NodeId, node: NodeId)
      modifies this`queuedMessages
      ensures queuedMessages == old(queuedMessages) + [ConnectNode(param, node, 0, USIZE_MAX)]
    {
      queuedMessages := queuedMessages + [ConnectNode(param, node, 0, USIZE_MAX)];
    }

    /** `disconnect_from`. */
    method DisconnectFrom(from: NodeId, to: NodeId)
      modifies this`renderChannel
      ensures renderChannel == old(renderChannel) + [DisconnectNode(from, to)]
    {
      renderChannel := renderChannel + [DisconnectNode(from, to)];
    }

    /** `disconnect`. */
    method Disconnect(from: NodeId)
      modifies this`renderChannel
      ensures renderChannel == old(renderChannel) + [DisconnectAll(from)]
    {
      renderChannel := renderChannel + [DisconnectAll(from)];
    }

    /** `connect_listener_to_panner`: listener output i feeds panner input i + 1, i = 0..8. */
    method ConnectListenerToPanner(panner: NodeId)
      modifies this`renderChannel
      ensures renderChannel == old(renderChannel) + ListenerPannerConnects(panner)
    {
      Connect(LISTENER_NODE_ID, panner, 0, 1);
      Connect(LISTENER_NODE_ID, panner, 1, 2);
      Connect(LISTENER_NODE_ID, panner, 2, 3);
      Connect(LISTENER_NODE_ID, panner, 3, 4);
      Connect(LISTENER_NODE_ID, panner, 4, 5);
      Connect(LISTENER_NODE_ID, panner, 5, 6);
      Connect(LISTENER_NODE_ID, panner, 6, 7);
      Connect(LISTENER_NODE_ID, panner, 7, 8);
      Connect(LISTENER_NODE_ID, panner, 8, 9);
    }

    /** `ensure_audio_listener_present`: send the parked listener registrations (popped, so
        last first); if any was sent, release the connections into the listener and connect
        the listener to the destination's hidden port. The queue is then empty, so a second
        call sends nothing. */
    method EnsureAudioListenerPresent()
      modifies this`renderChannel, this`queuedMessages, this`queuedListenerMsgs
      ensures queuedListenerMsgs == []
      ensures old(queuedListenerMsgs) == [] ==>
        renderChannel == old(renderChannel) && queuedMessages == old(queuedMessages)
      ensures old(queuedListenerMsgs) != [] ==>
        && renderChannel == old(renderChannel) + Reversed(old(queuedListenerMsgs))
             + Matching(old(queuedMessages), LISTENER_NODE_ID)
             + [ConnectNode(LISTENER_NODE_ID, DESTINATION_NODE_ID, 0, USIZE_MAX)]
        && queuedMessages == Remaining(old(queuedMessages), LISTENER_NODE_ID)
    {
      ghost var l0 := queuedListenerMsgs;
      var released := false;
      while queuedListenerMsgs != []
        invariant queuedListenerMsgs == l0[..|queuedListenerMsgs|]
        invariant renderChannel == old(renderChannel) + Reversed(l0[|queuedListenerMsgs|..])
        invariant queuedMessages == old(queuedMessages)
        invariant released <==> |queuedListenerMsgs| < |l0|
        decreases |queuedListenerMsgs|
      {
        var n := |queuedListenerMsgs|;
        var message := queuedListenerMsgs[n - 1];
        queuedListenerMsgs := queuedListenerMsgs[..n - 1];
        assert l0[n - 1..][1..] == l0[n..];
        renderChannel := renderChannel + [message];
        released := true;
      }
      assert l0[0..] == l0;
      if released {
        ResolveQueuedControlMsgs(LISTENER_NODE_ID);
        Connect(LISTENER_NODE_ID, DESTINATION_NODE_ID, 0, USIZE_MAX);
      }
    }
  }

  /** Two registrations in a row receive consecutive, hence distinct and increasing, ids. */
  method RegisterTwice(ctx: ConcreteBaseAudioContext, a: NodeSpec, b: NodeSpec)
    returns (first: NodeId, second: NodeId)
    modifies ctx
    ensures second == first + 1 && ctx.nodeIdInc == old(ctx.nodeIdInc) + 2
  {
    first := ctx.Register(a);
    second := ctx.Register(b);
  }

  /** Calling `ensure_audio_listener_present` twice has the effect of calling it once. */
  method EnsureListenerTwice(ctx: ConcreteBaseAudioContext)
    modifies ctx
    ensures ctx.queuedListenerMsgs == []
    ensures old(ctx.queuedListenerMsgs) == [] ==>
      ctx.renderChannel == old(ctx.renderChannel) && ctx.queuedMessages == old(ctx.queuedMessages)
    ensures old(ctx.queuedListenerMsgs) != [] ==>
      && ctx.renderChannel == old(ctx.renderChannel) + Reversed(old(ctx.queuedListenerMsgs))
           + Matching(old(ctx.queuedMessages), LISTENER_NODE_ID)
           + [ConnectNode(LISTENER_NODE_ID, DESTINATION_NODE_ID, 0, USIZE_MAX)]
      && ctx.queuedMessages == Remaining(old(ctx.queuedMessages), LISTENER_NODE_ID)
  {
    ctx.EnsureAudioListenerPresent();
    ctx.EnsureAudioListenerPresent();
  }
}

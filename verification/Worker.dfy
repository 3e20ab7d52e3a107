/** The node worker drives the two transitions of its node and decides when to acknowledge upstream. */
module Worker {
  import opened TokenStates
  import opened Rounds
  import opened Inboxes
  import opened OutputSide
  import opened InputSide
  import Network

  class NodeWorker {
    const input: InputTransition
    const output: OutputTransition
    /** The connections of its events. */
    var signals: seq<Connection>
    var processing: bool
    /** How the execution that was started last is acknowledged. */
    var mode: Option<Network.Mode>

    constructor (input: InputTransition, output: OutputTransition)
      ensures this.input == input && this.output == output && signals == [] && !processing && mode == None
    {
      this.input, this.output, signals, processing, mode := input, output, [], false, None;
    }

    /** The node is not connected to itself. */
    ghost predicate Apart(up: Upstream)
      reads output
    {
      && output !in up.transitions
      && (forall o | o in output.outputs :: o !in up.outputs)
      && forall c | c in output.connections :: c !in up.connections
    }

    /** `up` are those that send to the node. */
    ghost predicate Valid(up: Upstream)
      reads this, input, up.transitions, up.outputs, up.connections, output, output.outputs, output.connections
    {
      input.Supplied(up) && output.Wired() && Apart(up)
    }

    /** Every input that is not optional is connected. */
    ghost predicate Complete()
      reads input, input.inputs
    {
      forall i | i in input.inputs :: i.optional || i.connections != []
    }

    /** By default, a node without ports is not processed. */
    predicate HasPorts()
      reads input, output
    {
      input.inputs != [] || output.outputs != []
    }

    ghost predicate Executable()
      reads this, input, input.inputs, input.connections, output, signals
    {
      && HasPorts() && Complete()
      && (input.inputs == [] || input.View().Enabled())
      && output.round.AllAre(Done) && (forall c | c in signals :: c.state == Done)
      && !processing
    }

    method CanReceive() returns (r: bool)
      ensures r == Complete()
    {
      for k := 0 to |input.inputs|
        invariant forall i | i in input.inputs[..k] :: i.optional || i.connections != []
      {
        if !input.inputs[k].optional && input.inputs[k].connections == [] {
          return false;
        }
      }
      return true;
    }

    method CanSend() returns (r: bool)
      requires output.Wired()
      ensures r <==> output.round.AllAre(Done) && forall c | c in signals :: c.state == Done
    {
      r := output.CanStartSendingMessages();
      if !r {
        return;
      }
      for k := 0 to |signals|
        invariant forall c | c in signals[..k] :: c.state == Done
      {
        if signals[k].state != Done {
          return false;
        }
      }
    }

    /** Of a node that is connected to itself this is never true. */
    method CanExecute() returns (r: bool)
      requires output.Wired()
      ensures r == Executable()
      ensures r && input.inputs != [] ==> forall c | c in input.connections :: c !in output.connections
    {
      output.DoneIsDone();
      var enabled := input.IsEnabled();
      var receiving := CanReceive();
      var sending := CanSend();
      r := enabled && !processing && HasPorts() && receiving && sending;
      assert forall c | c in input.connections :: c.state in input.View().states;
    }

    /** The sending side is in order if nothing there has changed. */
    twostate lemma StillWired()
      requires old(output.Wired()) && unchanged(output) && unchanged(output.outputs)
      requires forall d | d in output.connections :: d.state == old(d.state)
      ensures output.Wired()
    {
      forall k | 0 <= k < |output.outputs| ensures output.LinkedOutput(k) && output.Settled(k) {
        assert old(output.LinkedOutput(k) && output.Settled(k));
      }
      forall d | d in output.connections ensures output.LinkedConnection(d) {
        assert old(output.LinkedConnection(d));
      }
    }

    lemma ReadyToForward()
      requires output.Wired() && Executable() && (input.inputs == [] ==> input.connections == [])
      ensures input.View().AllAre(Unread) && forall c | c in input.connections :: c !in output.connections
    {
      output.DoneIsDone();
      assert forall i | 0 <= i < |input.connections| :: input.View().states[i] == input.connections[i].state;
    }

    method StartProcessingMessages(mode: Network.Mode, ghost up: Upstream)
      requires Valid(up) && Executable()
      requires input.Plugged() && forall c | c in input.connections :: c.message.Some?
      requires input.inputs == [] ==> input.connections == []
      modifies this`processing, this`mode, input`forwarded, input`processed, input.inputs`message, input.inputs`count
      modifies input.connections`state, up.transitions`round
      ensures Valid(up) && processing && this.mode == Some(mode)
      ensures input.View() == Forward(old(input.View()))
    {
      ReadyToForward();
      input.ForwardMessages(up);
      StillWired();
      processing := true;
      this.mode := Some(mode);
    }

    method ForwardMessages(ghost up: Upstream)
      requires Valid(up) && processing && output.round.AllAre(Done) && output.InStep() && -1 <= output.sequenceNumber
      modifies output`sequenceNumber, output`round, output`notifyQueued, output.outputs, output.connections
      ensures Valid(up) && output.InStep() && output.connections == old(output.connections)
      ensures output.round == Send(old(output.round))
      ensures forall c | c in output.connections :: c.Received(old(c.seqNo), old(c.sent), old(c.source.Next()))
      ensures input.View() == old(input.View())
    {
      assert forall c | c in input.connections :: c !in output.connections;
      output.SendMessages();
      assert forall c | c in input.connections :: c.state == old(c.state);
      assert input.View().states == old(input.View()).states;
    }

    /** The messages are sent.  A sink, and a node that is pipelining, acknowledges its own messages at once. */
    method FinishProcessing(ghost up: Upstream)
      requires Valid(up) && processing && output.round.AllAre(Done) && output.InStep() && -1 <= output.sequenceNumber
      modifies this`processing, output`sequenceNumber, output`round, output`notifyQueued, output.outputs, output.connections
      modifies input`forwarded, input`processed, input.connections`state
      modifies up.outputs`processing, up.outputs`active, up.transitions
      ensures Valid(up) && !processing && output.InStep()
      ensures output.round == Send(old(output.round))
      ensures forall c | c in output.connections :: c.Received(old(c.seqNo), old(c.sent), old(c.source.Next()))
      ensures input.View() ==
              if output.connections == [] || mode == Some(Network.Pipelining) then Acknowledge(old(input.View())) else old(input.View())
      ensures forall t | t in up.transitions :: input.Told(t)
    {
      ForwardMessages(up);
      SignalMessagesProcessed(false, up);
    }

    /** A pruned execution has sent nothing, so the node acknowledges like a sink. */
    method PruneExecution(ghost up: Upstream)
      requires Valid(up)
      modifies this`processing, input`forwarded, input`processed, input.connections`state
      modifies up.outputs`processing, up.outputs`active, up.transitions
      ensures Valid(up) && !processing && input.View() == Acknowledge(old(input.View()))
      ensures forall t | t in up.transitions :: input.Told(t)
    {
      SignalMessagesProcessed(true, up);
    }

    method SignalMessagesProcessed(pruned: bool, ghost up: Upstream)
      requires Valid(up)
      modifies this`processing, input`forwarded, input`processed, input.connections`state
      modifies up.outputs`processing, up.outputs`active, up.transitions
      ensures Valid(up) && !processing
      ensures input.View() ==
              if pruned || output.connections == [] || mode == Some(Network.Pipelining) then Acknowledge(old(input.View())) else old(input.View())
      ensures forall t | t in up.transitions :: input.Told(t)
    {
      assert forall c | c in input.connections :: c !in output.connections;
      processing := false;
      if pruned || output.connections == [] || mode == Some(Network.Pipelining) {
        label before:
        input.NotifyMessageProcessed(up);
        StillWired@before();
      }
    }

    /** The task that was scheduled by the signal of the output transition. */
    method NotifyMessagesProcessedDownstream(ghost up: Upstream)
      requires Valid(up) && output.notifyQueued
      modifies output`notifyQueued, input`forwarded, input`processed, input.connections`state
      modifies up.outputs`processing, up.outputs`active, up.transitions
      ensures Valid(up) && !output.notifyQueued
      ensures input.View() == if mode == Some(Network.Sequential) then Acknowledge(old(input.View())) else old(input.View())
      ensures forall t | t in up.transitions :: input.Told(t)
    {
      assert forall c | c in input.connections :: c !in output.connections;
      output.notifyQueued := false;
      if mode == Some(Network.Sequential) {
        label before:
        input.NotifyMessageProcessed(up);
        StillWired@before();
      }
    }
  }

  /** An output belongs to one transition. */
  lemma OwnOutput(t: OutputTransition, o: Output)
    requires t.Linked() && o in t.outputs
    ensures o.transition == t
  {
    var k :| 0 <= k < |t.outputs| && t.outputs[k] == o;
    assert t.LinkedOutput(k);
  }

  lemma OwnMembers(t: OutputTransition)
    requires t.Linked()
    ensures forall o | o in t.outputs :: o.transition == t
    ensures forall c | c in t.connections :: c.source.transition == t
  {
    forall o | o in t.outputs ensures o.transition == t {
      OwnOutput(t, o);
    }
    forall c | c in t.connections ensures c.source.transition == t {
      t.OwnConnection(c);
    }
  }

  /** `up`, and the sender t. */
  ghost function Extended(up: Upstream, t: OutputTransition): Upstream
    reads t
  {
    Upstream(up.transitions + {t}, up.outputs + (set o | o in t.outputs), up.connections + (set c | c in t.connections))
  }

  /** The sending side of a new connection: the other senders are not concerned. */
  method AddConnection(t: OutputTransition, o: Output, ghost before: Upstream) returns (c: Connection, ghost up: Upstream)
    requires before.InOrder() && t.Wired() && o in t.outputs
    modifies o`connections, t`connections, t`round
    ensures fresh(c) && c.source == o && c.state == Done && o.connections == old(o.connections) + [c]
    ensures t.Wired() && t.outputs == old(t.outputs) && t.connections == old(t.connections) + [c]
    ensures up == Extended(before, t) && up.InOrder()
  {
    forall u | u in before.transitions && u != t ensures o !in u.outputs {
      if o in u.outputs {
        OwnOutput(u, o);
        OwnOutput(t, o);
      }
    }
    c := t.AddConnection(o);
    up := Extended(before, t);
  }

  /** A node without ports, to which nobody sends. */
  method NewNode() returns (n: NodeWorker)
    ensures fresh(n) && fresh(n.input) && fresh(n.output) && n.Valid(Upstream({}, {}, {})) && !n.processing
    ensures n.input.Plugged() && n.input.inputs == [] && n.output.outputs == [] && n.output.InStep()
  {
    var input := new InputTransition();
    var output := new OutputTransition();
    n := new NodeWorker(input, output);
  }

  /** A connection from one node to another.  The nodes stay in order if and only if the new connection has got no token,
      or its output has tokens under way anyway. */
  method Connect(from: NodeWorker, o: Output, to: NodeWorker, i: Input, ghost before: Upstream)
      returns (c: Connection, ghost up: Upstream)
    requires to.Valid(before) && from.output.Wired() && from.output != to.output
    requires o in from.output.outputs && to.input.Plugged() && i in to.input.inputs && i.connections == []
    modifies o`connections, from.output`connections, from.output`round, to.input`connections, i`connections
    ensures fresh(c) && c.source == o && i.connections == [c] && o.connections == old(o.connections) + [c]
    ensures to.input.connections == old(to.input.connections) + [c] && to.input.Plugged()
    ensures up == Extended(before, from.output) && from.output.Linked()
    ensures to.Valid(up) <==> c.state == Done || o.processing
  {
    OwnMembers(to.output);
    OwnMembers(from.output);
    c, up := AddConnection(from.output, o, before);
    assert to.Apart(up) && to.output.Wired() && c !in to.output.connections;
    to.input.Attach(i, c, up);
  }
}

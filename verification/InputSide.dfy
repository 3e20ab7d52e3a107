/** The receiving side of the handshake: the inputs of a node and the input transition that reads all of them
    together and acknowledges them together. */
module InputSide {
  import opened TokenStates
  import opened Rounds
  import opened Inboxes
  import opened OutputSide

  /** The objects on the sending side of an input transition. */
  datatype Upstream = Upstream(transitions: set<OutputTransition>, outputs: set<Output>, connections: set<Connection>) {
    ghost predicate Owns(t: OutputTransition)
      reads t
    {
      (forall o | o in t.outputs :: o in outputs) && forall c | c in t.connections :: c in connections
    }

    ghost predicate InOrder()
      reads transitions, outputs, connections
    {
      forall t | t in transitions :: Owns(t) && t.Wired()
    }
  }

  class Input {
    const optional: bool
    /** At most one. */
    var connections: seq<Connection>
    var message: Option<Token>
    /** How many tokens it has received. */
    var count: nat

    constructor (optional: bool)
      ensures this.optional == optional && connections == [] && message == None && count == 0
    {
      this.optional := optional;
      connections, message, count := [], None, 0;
    }

    method SetToken(token: Token)
      modifies this`message, this`count
      ensures message == Some(token) && count == old(count) + 1
    {
      message := Some(token);
      count := count + 1;
    }
  }

  class InputTransition {
    var inputs: seq<Input>
    var connections: seq<Connection>
    var forwarded: bool
    var processed: bool

    constructor ()
      ensures inputs == [] && connections == [] && !forwarded && !processed && Plugged()
      ensures forall up: Upstream | up.transitions == {} :: Supplied(up)
    {
      inputs, connections, forwarded, processed := [], [], false, false;
    }

    method AddInput(optional: bool) returns (i: Input)
      requires Plugged()
      modifies this`inputs
      ensures Plugged() && fresh(i) && inputs == old(inputs) + [i] && i.connections == [] && i.optional == optional
    {
      i := new Input(optional);
      inputs := inputs + [i];
    }

    ghost function View(): (x: Inbox)
      reads this, connections
      ensures |x.states| == |connections| && forall i | 0 <= i < |connections| :: x.states[i] == connections[i].state
      ensures x.forwarded == forwarded && x.processed == processed
    {
      Inbox(seq(|connections|, i requires 0 <= i < |connections| reads this, connections => connections[i].state), forwarded, processed)
    }

    /** An input has at most one connection, and the transition has all of them. */
    ghost predicate Plugged()
      reads this, inputs
    {
      && (forall k, l | 0 <= k < l < |inputs| :: inputs[k] != inputs[l])
      && forall k | 0 <= k < |inputs| ::
           |inputs[k].connections| <= 1 && forall c | c in inputs[k].connections :: c in connections
    }

    /** The transitions that send to this one are in order. */
    ghost predicate Supplied(up: Upstream)
      reads this, up.transitions, up.outputs, up.connections
    {
      && (forall c | c in connections ::
            c in up.connections && c.source in up.outputs && c.source.transition in up.transitions && c in c.source.transition.connections)
      && up.InOrder()
    }

    /** The sender t is the same as before, but it has signalled the end of its round if it has come since. */
    twostate predicate Told(t: OutputTransition)
      reads t
    {
      && t.Same(old(t.outputs), old(t.connections), old(t.sequenceNumber))
      && Settles(old(t.round), t.round)
      && t.notifyQueued == (old(t.notifyQueued) || t.round.completions > old(t.round).completions)
    }

    method AreAllConnections(s: State, t: State) returns (r: bool)
      ensures r <==> forall c | c in connections :: c.state in {s, t}
    {
      for i := 0 to |connections|
        invariant forall j | 0 <= j < i :: connections[j].state in {s, t}
      {
        if connections[i].state != s && connections[i].state != t {
          return false;
        }
      }
      return true;
    }

    method IsOneConnection(s: State) returns (r: bool)
      ensures r <==> exists c | c in connections :: c.state == s
    {
      for i := 0 to |connections|
        invariant forall j | 0 <= j < i :: connections[j].state != s
      {
        if connections[i].state == s {
          return true;
        }
      }
      return false;
    }

    method IsEnabled() returns (r: bool)
      ensures r <==> inputs == [] || View().Enabled()
    {
      var x := View();
      assert forall c | c in connections :: exists i | 0 <= i < |connections| :: x.states[i] == c.state;
      if inputs == [] {
        return true;
      }
      if forwarded {
        return false;
      }
      var arrived := AreAllConnections(Unread, Read);
      if !arrived {
        return false;
      }
      var missing := IsOneConnection(Done);
      if missing {
        return false;
      }
      r := AreAllConnections(Unread, Unread);
    }

    /** Every input receives the token of its connection, or an empty one, and all connections become read. */
    method ForwardMessages(ghost up: Upstream)
      requires Plugged() && Supplied(up) && (forwarded || View().AllAre(Unread))
      requires forall c | c in connections :: c.message.Some?
      modifies this`forwarded, this`processed, inputs`message, inputs`count, connections`state, up.transitions`round
      ensures Supplied(up) && forall t | t in up.transitions :: t.round.completions == old(t.round).completions
      ensures View() == Forward(old(View()))
      ensures !old(forwarded) && connections != [] ==>
                forall k | 0 <= k < |inputs| ::
                  inputs[k].message == Some(if inputs[k].connections == [] then NoMessage else inputs[k].connections[0].message.value)
    {
      processed := false;
      if forwarded {
        return;
      }
      if connections != [] {
        TakeAll(up);
      }
      forwarded := true;
    }

    method TakeAll(ghost up: Upstream)
      requires Plugged() && Supplied(up) && forall i | 0 <= i < |connections| :: connections[i].state == Unread
      requires forall c | c in connections :: c.message.Some?
      modifies inputs`message, inputs`count, connections`state, up.transitions`round
      ensures Supplied(up) && forall t | t in up.transitions :: t.round.completions == old(t.round).completions
      ensures forall i | 0 <= i < |connections| :: connections[i].state == Read
      ensures forall k | 0 <= k < |inputs| ::
                inputs[k].message == Some(if inputs[k].connections == [] then NoMessage else inputs[k].connections[0].message.value)
    {
      TakeTokens();
      MarkRead(up);
    }

    method TakeTokens()
      requires Plugged()
      requires forall c | c in connections :: c.message.Some?
      modifies inputs`message, inputs`count
      ensures forall k | 0 <= k < |inputs| ::
                inputs[k].message == Some(if inputs[k].connections == [] then NoMessage else inputs[k].connections[0].message.value)
    {
      for i := 0 to |inputs|
        invariant Plugged()
        invariant forall k | 0 <= k < i ::
                    inputs[k].message == Some(if inputs[k].connections == [] then NoMessage else inputs[k].connections[0].message.value)
      {
        if inputs[i].connections != [] {
          inputs[i].SetToken(inputs[i].connections[0].message.value);
        } else {
          inputs[i].SetToken(NoMessage);
        }
      }
    }

    method MarkRead(ghost up: Upstream)
      requires Supplied(up)
      requires forall i | 0 <= i < |connections| :: connections[i].state == Unread
      modifies connections`state, up.transitions`round
      ensures Supplied(up) && forall t | t in up.transitions :: t.round.completions == old(t.round).completions
      ensures forall i | 0 <= i < |connections| :: connections[i].state == Read
    {
      for i := 0 to |connections|
        invariant Supplied(up) && forall t | t in up.transitions :: t.round.completions == old(t.round).completions
        invariant forall j | 0 <= j < |connections| :: connections[j].state == Read || (i <= j && connections[j].state == Unread)
      {
        MarkOneRead(connections[i], up);
      }
    }

    method MarkOneRead(c: Connection, ghost up: Upstream)
      requires Supplied(up) && c in connections && c.state in {Unread, Read}
      modifies c`state, c.source.transition`round
      ensures Supplied(up) && c.state == Read && c.source.transition.round.completions == old(c.source.transition.round).completions
    {
      NotOthers(c, up);
      c.BecomeRead();
    }

    /** The connection belongs to no other of the senders. */
    lemma NotOthers(c: Connection, up: Upstream)
      requires up.InOrder()
      ensures forall t | t in up.transitions && t != c.source.transition :: c !in t.connections
    {
      forall t | t in up.transitions && t != c.source.transition ensures c !in t.connections {
        if c in t.connections {
          t.OwnConnection(c);
        }
      }
    }

    /** Acknowledges one token. */
    method Process(c: Connection, ghost up: Upstream)
      requires Supplied(up) && c in connections && c.state in {Read, Done}
      modifies c`state, c.source`processing, c.source`active, c.source.transition
      ensures Supplied(up) && c.state == Done && Told(c.source.transition)
    {
      var t := c.source.transition;
      ghost var others := up.transitions - {t};
      assert t.Wired() && t.LinkedConnection(c) && t.LinkedOutput(c.source.index);
      ProcessedSettles(t.round, c.source.index, c.index);
      c.SetTokenProcessed();
      forall u, k | u in others && 0 <= k < |u.outputs| ensures u.LinkedOutput(k) && u.Settled(k) {
        assert old(u.LinkedOutput(k) && u.Settled(k));
        assert forall d | d in u.connections :: old(u.LinkedConnection(d));
      }
      forall u, d | u in others && d in u.connections ensures u.LinkedConnection(d) {
        assert old(u.LinkedConnection(d));
      }
    }

    method ProcessAll(ghost up: Upstream)
      requires Supplied(up) && forall c | c in connections :: c.state in {Read, Done}
      modifies connections`state, up.outputs`processing, up.outputs`active, up.transitions
      ensures Supplied(up) && forall c | c in connections :: c.state == Done
      ensures forall t | t in up.transitions :: Told(t)
    {
      for i := 0 to |connections|
        invariant Supplied(up)
        invariant forall j | 0 <= j < i :: connections[j].state == Done
        invariant forall j | 0 <= j < |connections| :: connections[j].state in {Read, Done}
        invariant forall t | t in up.transitions :: Told(t)
      {
        Process(connections[i], up);
      }
    }

    /** Acknowledges all tokens of the round together, and only once. */
    method NotifyMessageProcessed(ghost up: Upstream)
      requires Supplied(up)
      modifies this`forwarded, this`processed, connections`state, up.outputs`processing, up.outputs`active, up.transitions
      ensures View() == Acknowledge(old(View()))
      ensures Supplied(up)
      ensures forall t | t in up.transitions :: Told(t)
    {
      if processed {
        return;
      }
      var ready := AreAllConnections(Read, Done);
      if ready {
        forwarded := false;
        processed := true;
        ProcessAll(up);
      }
    }

    /** While the others hold tokens, the new connection gets an empty one.  Its sender stays in order if and only if nothing
        has been set, or the output has tokens under way anyway; an output that has not will ignore the acknowledgement. */
    method ConnectionAdded(c: Connection, ghost up: Upstream)
      requires c !in connections && Supplied(up) && Sends(c, up)
      modifies this`connections, c, c.source.transition`round
      ensures connections == old(connections) + [c] && View() == Add(old(View()), old(c.state))
      ensures c.message == if c.state == old(c.state) then old(c.message) else Some(NoMessage)
      ensures c.source.transition.Linked()
      ensures Supplied(up) <==> c.state == old(c.state) || c.source.processing
    {
      ghost var before := View();
      Join(c, up);
      assert forall i | 0 <= i < |connections| :: connections[i].state == before.states[i];
      connections := connections + [c];
      assert View().states == before.states + [c.state];
    }

    /** The only connection of an input. */
    method Attach(i: Input, c: Connection, ghost up: Upstream)
      requires Plugged() && i in inputs && i.connections == []
      requires c !in connections && Supplied(up) && Sends(c, up)
      modifies this`connections, i`connections, c, c.source.transition`round
      ensures Plugged() && i.connections == [c] && connections == old(connections) + [c]
      ensures View() == Add(old(View()), old(c.state)) && c.source.transition.Linked()
      ensures Supplied(up) <==> c.state == old(c.state) || c.source.processing
    {
      ConnectionAdded(c, up);
      i.connections := [c];
    }

    method Join(c: Connection, ghost up: Upstream)
      requires c !in connections && up.InOrder() && Sends(c, up)
      modifies c, c.source.transition`round
      ensures c.state == Joined(old(View()), old(c.state)) && c.source.transition.Linked()
      ensures c.message == if c.state == old(c.state) then old(c.message) else Some(NoMessage)
      ensures up.InOrder() <==> c.state == old(c.state) || c.source.processing
    {
      var read := IsOneConnection(Read);
      var unread := IsOneConnection(Unread);
      Found(Read);
      Found(Unread);
      if (unread || read) && c.state == Done {
        SetEmpty(c, if unread then Unread else Read, up);
      }
    }

    lemma Found(s: State)
      ensures View().OneIs(s) <==> exists c | c in connections :: c.state == s
    {
      if c :| c in connections && c.state == s {
        var i :| 0 <= i < |connections| && connections[i] == c;
        assert View().states[i] == s;
      }
    }

    ghost predicate Sends(c: Connection, up: Upstream)
      reads up.transitions
    {
      c in up.connections && c.source in up.outputs && c.source.transition in up.transitions && c in c.source.transition.connections
    }

    /** An empty token that the sender has not sent. */
    method SetEmpty(c: Connection, s: State, ghost up: Upstream)
      requires c.state == Done && Sends(c, up) && up.InOrder()
      requires s in {Unread, Read}
      modifies c, c.source.transition`round
      ensures c.state == s && c.message == Some(NoMessage) && c.source.transition.Linked()
      ensures up.InOrder() <==> c.source.processing
    {
      NotOthers(c, up);
      c.SetEmpty(s);
    }
  }
}

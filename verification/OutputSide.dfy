/**
 The sending side of the handshake: connections, the outputs that put tokens on them and the output
 transition that commits and publishes all outputs of a node together.
 */
module OutputSide {
  import opened TokenStates
  import opened Rounds

  class Connection {
    const source: Output
    /** Its place among the connections of the source. */
    ghost const index: nat
    var state: State
    var message: Option<Token>
    var seqNo: nat
    /** Every token the connection has ever held. */
    ghost var sent: seq<Token>

    constructor (source: Output, ghost index: nat)
      ensures this.source == source && this.index == index && state == Done && message == None && seqNo == 0 && sent == []
    {
      this.source := source;
      this.index := index;
      state, message, seqNo, sent := Done, None, 0, [];
    }

    /** Exactly one token has been set. */
    ghost predicate Received(seqNo: nat, sent: seq<Token>, token: Token)
      reads this
    {
      state == Unread && message == Some(token) && this.seqNo == seqNo + 1 && this.sent == sent + [token]
    }

    predicate CanBecome(s: State)
      reads this
    {
      match s
      case Unread => state == Done
      case Read => state == Unread || state == Read
      case Done => state == Done || state == Read
    }

    method SetState(s: State)
      requires CanBecome(s)
      modifies this`state
      ensures state == s
    {
      state := s;
    }

    method SetToken(token: Token)
      requires state == Done
      modifies this
      ensures state == Unread && message == Some(token)
      ensures seqNo == old(seqNo) + 1 && sent == old(sent) + [token]
    {
      message := Some(token);
      seqNo := seqNo + 1;
      sent := sent + [token];
      SetState(Unread);
    }

    method ReadToken() returns (token: Option<Token>)
      requires CanBecome(Read)
      modifies this`state
      ensures state == Read && token == message
    {
      SetState(Read);
      token := message;
    }

    /** The consumer reads the token. */
    method BecomeRead()
      requires source.transition.Wired() && this in source.transition.connections && state in {Unread, Read}
      modifies this`state, source.transition`round
      ensures state == Read && source.transition.Wired()
      ensures source.transition.round.completions == old(source.transition.round).completions
    {
      var t := source.transition;
      assert t.LinkedConnection(this) && t.LinkedOutput(source.index);
      SetState(Read);
      forall k | 0 <= k < |t.outputs| && k != source.index ensures t.LinkedOutput(k) {
        assert old(t.LinkedOutput(k));
      }
      t.Reflect(this);
      forall k | 0 <= k < |t.outputs| ensures t.Settled(k) {
        assert old(t.LinkedOutput(k) && t.Settled(k));
        t.StillOpen(old(t.round).states[k], t.round.states[k]);
      }
    }

    /** The consumer sets an empty token, which the output has not sent. */
    method SetEmpty(s: State)
      requires source.transition.Wired() && this in source.transition.connections && state == Done && s in {Unread, Read}
      modifies this, source.transition`round
      ensures state == s && message == Some(NoMessage) && source.transition.Linked()
      ensures source.transition.Wired() <==> source.processing
    {
      var t := source.transition;
      assert t.LinkedConnection(this) && t.LinkedOutput(source.index) && t.Settled(source.index);
      SetToken(NoMessage);
      if s == Read {
        SetState(Read);
      }
      forall k | 0 <= k < |t.outputs| && k != source.index ensures t.LinkedOutput(k) {
        assert old(t.LinkedOutput(k));
      }
      t.Reflect(this);
      assert t.round.states[source.index][index] != Done;
      forall k | 0 <= k < |t.outputs| && k != source.index ensures t.Settled(k) {
        assert old(t.LinkedOutput(k) && t.Settled(k));
      }
      assert t.Settled(source.index) <==> source.processing;
    }

    /** The consumer is finished with the token; the first call of a round is reported upstream.  An output that is not
        processing ignores the report. */
    method SetTokenProcessed()
      requires CanBecome(Done)
      requires source.transition.Linked() && this in source.transition.connections
      modifies this`state, source`processing, source`active, source.transition
      ensures state == Done && source.transition.Linked()
      ensures source.transition.Same(old(source.transition.outputs), old(source.transition.connections), old(source.transition.sequenceNumber))
      ensures old(source.transition.round).At(source.index, index)
      ensures source.transition.round ==
              if old(source.processing) then Processed(old(source.transition.round), source.index, index)
              else old(source.transition.round).Set(source.index, index, Done)
      ensures source.transition.notifyQueued == (old(source.transition.notifyQueued) || source.transition.round.completions > old(source.transition.round.completions))
      ensures old(state) == Done ==> unchanged(source)
      ensures old(source.transition.Wired()) ==>
                source.transition.Wired() && source.transition.round == Processed(old(source.transition.round), source.index, index)
    {
      var t := source.transition;
      assert t.LinkedConnection(this) && t.LinkedOutput(source.index);
      assert t.Wired() ==> t.Settled(source.index);
      if state == Done {
        ghost var row := t.round.states[source.index];
        assert row[index] == Done && row[index := Done] == row;
        return;
      }
      SetState(Done);
      forall k | 0 <= k < |t.outputs| && k != source.index ensures t.LinkedOutput(k) {
        assert old(t.LinkedOutput(k));
      }
      t.Reflect(this);
      source.NotifyMessageProcessedBy();
      if old(t.Wired()) {
        forall k | 0 <= k < |t.outputs| && k != source.index ensures t.Settled(k) {
          assert old(t.LinkedOutput(k) && t.Settled(k));
        }
      }
    }
  }

  class Output {
    const transition: OutputTransition
    /** Its place in the order in which the transition visits its outputs. */
    ghost const index: nat
    var connections: seq<Connection>
    var processing: bool
    var active: bool
    var toSend: Option<Token>
    var committed: Token
    var seqNo: int

    constructor (transition: OutputTransition, ghost index: nat)
      ensures this.transition == transition && this.index == index && connections == [] && !processing && !active
      ensures toSend == None && committed == NoMessage && seqNo == -1
    {
      this.transition := transition;
      this.index := index;
      connections, processing, active, toSend, committed, seqNo := [], false, false, None, NoMessage, -1;
    }

    ghost predicate Placed()
      reads transition, transition.outputs`connections, transition.connections`state
    {
      transition.Linked() && index < |transition.outputs| && transition.outputs[index] == this
    }

    /** What the next commit will send. */
    function Next(): Token
      reads this
    {
      if toSend.Some? then toSend.value else NoMessage
    }

    method AddMessage(token: Token)
      modifies this`toSend
      ensures toSend == Some(token)
    {
      toSend := Some(token);
    }

    method CommitMessages()
      modifies this`active, this`toSend, this`committed, this`seqNo
      ensures active && toSend == None && committed == old(Next()) && seqNo == old(seqNo) + 1
    {
      active := true;
      if toSend.Some? {
        committed := toSend.value;
        toSend := None;
      } else {
        committed := NoMessage;
      }
      seqNo := seqNo + 1;
    }

    /** One of the connections reports that its token is processed. */
    method NotifyMessageProcessedBy()
      requires Placed()
      modifies this`processing, this`active, transition`round, transition`notifyQueued
      ensures transition.Linked() && (old(processing && active) ==> transition.Settled(index))
      ensures transition.Signalled(old(transition.round), old(transition.notifyQueued), old(processing) && transition.round.AllAre(Done))
    {
      for j := 0 to |connections|
        invariant forall k | 0 <= k < j :: connections[k].state == Done
      {
        if connections[j].state != Done {
          assert transition.LinkedOutput(index) && transition.round.states[index][j] != Done;
          return;
        }
      }
      assert transition.LinkedOutput(index);
      NotifyMessageProcessed();
      assert !Open(transition.round.states[index]);
    }

    method NotifyMessageProcessed()
      requires Placed()
      modifies this`processing, this`active, transition`round, transition`notifyQueued
      ensures transition.Linked() && !processing && (if old(processing) then !active else active == old(active))
      ensures transition.Signalled(old(transition.round), old(transition.notifyQueued), old(processing) && transition.round.AllAre(Done))
    {
      if processing {
        processing := false;
        active := false;
        transition.TokenProcessed();
      }
    }

    /** Puts the committed token on every connection; without connections the round is over at once. */
    method Publish()
      requires Placed() && !processing
      requires forall j | 0 <= j < |connections| :: connections[j].state == Done
      modifies this`processing, this`active, connections, transition`round, transition`notifyQueued
      ensures transition.Linked()
      ensures transition.round == Published(old(transition.round), index)
      ensures transition.notifyQueued == (old(transition.notifyQueued) || transition.round.completions > old(transition.round.completions))
      ensures forall j | 0 <= j < |connections| :: connections[j].Received(old(connections[j].seqNo), old(connections[j].sent), committed)
      ensures processing == (connections != []) && active == (connections != [] && old(active))
    {
      var t := transition;
      assert t.LinkedOutput(index);
      processing := true;
      var sent := SetTokens();
      if sent {
        forall k | 0 <= k < |t.outputs| && k != index ensures t.LinkedOutput(k) {
          assert old(t.LinkedOutput(k));
        }
        t.Republish(index);
      } else {
        NotifyMessageProcessed();
      }
    }

    method SetTokens() returns (sent: bool)
      requires Placed() && forall j | 0 <= j < |connections| :: connections[j].state == Done
      modifies connections
      ensures sent == (connections != [])
      ensures forall j | 0 <= j < |connections| :: connections[j].Received(old(connections[j].seqNo), old(connections[j].sent), committed)
    {
      assert transition.LinkedOutput(index);
      assert forall k | 0 <= k < |connections| :: connections[k].index == k;
      sent := false;
      for j := 0 to |connections|
        invariant sent == (j > 0)
        invariant forall k | 0 <= k < j :: connections[k].Received(old(connections[k].seqNo), old(connections[k].sent), committed)
        invariant forall k | j <= k < |connections| :: unchanged(connections[k])
      {
        connections[j].SetToken(committed);
        sent := true;
      }
    }
  }

  class OutputTransition {
    var outputs: seq<Output>
    var connections: seq<Connection>
    var sequenceNumber: int
    /** The signal `messages_processed` schedules one task, which tells the node that its messages are processed. */
    var notifyQueued: bool
    /** The states of all connections and how often the signal has been given. */
    ghost var round: Round

    constructor ()
      ensures outputs == [] && connections == [] && sequenceNumber == -1 && !notifyQueued && round == Round([], 0)
      ensures Wired() && InStep() && Idle()
    {
      outputs, connections, sequenceNumber, notifyQueued, round := [], [], -1, false, Round([], 0);
    }

    /** A new output, which takes over the sequence number. */
    method AddOutput() returns (o: Output)
      requires Wired()
      modifies this`outputs, this`round
      ensures Wired() && fresh(o) && outputs == old(outputs) + [o] && o.connections == []
      ensures round == old(round).(states := old(round).states + [[]])
      ensures old(InStep()) ==> InStep()
      ensures old(Idle()) ==> Idle()
    {
      o := new Output(this, |outputs|);
      o.seqNo := sequenceNumber;
      outputs := outputs + [o];
      round := round.(states := round.states + [[]]);
      forall i | 0 <= i < |outputs| ensures LinkedOutput(i) && Settled(i) {
        assert i < |outputs| - 1 ==> old(LinkedOutput(i) && Settled(i));
      }
      forall c | c in connections ensures LinkedConnection(c) {
        assert old(LinkedConnection(c));
      }
    }

    /** A new connection of the output o has no token. */
    method AddConnection(o: Output) returns (c: Connection)
      requires Wired() && o in outputs
      modifies o`connections, this`connections, this`round
      ensures Wired() && fresh(c) && c.source == o && c.state == Done && c.message == None
      ensures connections == old(connections) + [c] && o.connections == old(o.connections) + [c]
      ensures o.index < |old(round).states|
      ensures round == old(round).(states := old(round).states[o.index := old(round).states[o.index] + [Done]])
    {
      var i :| 0 <= i < |outputs| && outputs[i] == o;
      assert LinkedOutput(i) && Settled(i);
      c := new Connection(o, |o.connections|);
      o.connections := o.connections + [c];
      connections := connections + [c];
      round := round.(states := round.states[o.index := round.states[o.index] + [Done]]);
      OpenMore(old(round).states[o.index]);
      forall k | 0 <= k < |outputs| ensures LinkedOutput(k) && Settled(k) {
        assert old(LinkedOutput(k) && Settled(k));
      }
      forall d | d in connections ensures LinkedConnection(d) {
        assert d != c ==> old(LinkedConnection(d));
      }
    }

    lemma StillOpen(states: seq<State>, states': seq<State>)
      requires |states| == |states'|
      requires forall j | 0 <= j < |states| :: states[j] == Done <==> states'[j] == Done
      ensures Open(states) == Open(states')
    {
      if j :| 0 <= j < |states| && states[j] != Done {
        assert states'[j] != Done;
      }
    }

    /** A connection belongs to one transition. */
    lemma OwnConnection(c: Connection)
      requires Linked() && c in connections
      ensures c.source.transition == this
    {
      assert LinkedConnection(c) && LinkedOutput(c.source.index);
    }

    lemma OpenMore(states: seq<State>)
      ensures Open(states + [Done]) == Open(states)
    {
      if Open(states) {
        var j :| 0 <= j < |states| && states[j] != Done;
        assert (states + [Done])[j] != Done;
      }
    }

    /** Who belongs to whom, and what the round is. */
    ghost predicate Linked()
      reads this`outputs, this`connections, this`round, outputs`connections, connections`state
    {
      && |round.states| == |outputs|
      && (forall i | 0 <= i < |outputs| :: LinkedOutput(i))
      && forall c | c in connections :: LinkedConnection(c)
    }

    ghost predicate LinkedOutput(i: nat)
      requires i < |outputs|
      reads this`outputs, this`connections, this`round, outputs`connections, connections`state
    {
      var o := outputs[i];
      && o.transition == this && o.index == i
      && i < |round.states| && |round.states[i]| == |o.connections|
      && forall j | 0 <= j < |o.connections| ::
           var c := o.connections[j];
           c in connections && c.source == o && c.index == j && c.state == round.states[i][j]
    }

    ghost predicate LinkedConnection(c: Connection)
      reads this`outputs, outputs`connections
    {
      && c.source.index < |outputs| && outputs[c.source.index] == c.source
      && c.index < |c.source.connections| && c.source.connections[c.index] == c
    }

    /** Between two rounds of calls the flags of an output say whether one of its tokens is not processed. */
    ghost predicate Settled(i: nat)
      requires i < |outputs| && i < |round.states|
      reads this`outputs, this`round, outputs`processing, outputs`active
    {
      outputs[i].processing == outputs[i].active == Open(round.states[i])
    }

    ghost predicate Wired()
      reads this`outputs, this`connections, this`round, outputs`connections, outputs`processing, outputs`active, connections`state
    {
      Linked() && forall i | 0 <= i < |outputs| :: Settled(i)
    }

    ghost predicate Same(outputs: seq<Output>, connections: seq<Connection>, sequenceNumber: int)
      reads this
    {
      this.outputs == outputs && this.connections == connections && this.sequenceNumber == sequenceNumber
    }

    /** The completion is signalled exactly if `now` holds. */
    ghost predicate Signalled(round: Round, queued: bool, now: bool)
      reads this
    {
      && this.round == round.(completions := round.completions + if now then 1 else 0)
      && notifyQueued == (queued || now)
    }

    lemma DoneIsDone()
      requires Linked()
      ensures round.AllAre(Done) <==> forall c | c in connections :: c.state == Done
    {
      forall c | c in connections
        ensures LinkedConnection(c) && round.At(c.source.index, c.index) && c.state == round.states[c.source.index][c.index]
      {
        assert LinkedOutput(c.source.index);
      }
      forall i, j | 0 <= i < |round.states| && 0 <= j < |round.states[i]|
        ensures j < |outputs[i].connections| && outputs[i].connections[j] in connections
        ensures outputs[i].connections[j].state == round.states[i][j]
      {
        assert LinkedOutput(i);
      }
    }

    /** Brings `round` up to date after output i has set its tokens. */
    ghost method Republish(i: nat)
      requires |round.states| == |outputs| && i < |outputs|
      requires forall k | 0 <= k < |outputs| && k != i :: LinkedOutput(k)
      requires forall c | c in connections :: LinkedConnection(c)
      requires LinkedButUnread(i)
      modifies this`round
      ensures Linked() && round == old(round).(states := old(round).states[i := Fresh(old(round).states[i])])
    {
      round := round.(states := round.states[i := Fresh(round.states[i])]);
      forall k | 0 <= k < |outputs| ensures LinkedOutput(k) {
        assert k != i ==> old(LinkedOutput(k));
      }
    }

    /** Brings `round` up to date after the state of c has changed. */
    ghost method Reflect(c: Connection)
      requires |round.states| == |outputs| && c in connections
      requires forall k | 0 <= k < |outputs| && k != c.source.index :: LinkedOutput(k)
      requires forall d | d in connections :: LinkedConnection(d)
      requires LinkedConnection(c) && LinkedExcept(c.source.index, c.index)
      modifies this`round
      ensures Linked() && round == old(round).Set(c.source.index, c.index, c.state)
    {
      round := round.Set(c.source.index, c.index, c.state);
      forall k | 0 <= k < |outputs| ensures LinkedOutput(k) {
        assert k != c.source.index ==> old(LinkedOutput(k));
      }
    }

    ghost predicate LinkedExcept(i: nat, l: nat)
      requires i < |outputs|
      reads this`outputs, this`connections, this`round, outputs`connections, connections`state
    {
      var o := outputs[i];
      && o.transition == this && o.index == i
      && i < |round.states| && |round.states[i]| == |o.connections|
      && l < |o.connections|
      && forall j | 0 <= j < |o.connections| ::
           var c := o.connections[j];
           c in connections && c.source == o && c.index == j && (j == l || c.state == round.states[i][j])
    }

    ghost predicate LinkedButUnread(i: nat)
      requires i < |outputs|
      reads this`outputs, this`connections, this`round, outputs`connections, connections`state
    {
      var o := outputs[i];
      && o.transition == this && o.index == i
      && i < |round.states| && |round.states[i]| == |o.connections|
      && forall j | 0 <= j < |o.connections| ::
           var c := o.connections[j];
           c in connections && c.source == o && c.index == j && c.state == Unread
    }

    method AreAllConnections(s: State) returns (r: bool)
      ensures r == forall c | c in connections :: c.state == s
    {
      for i := 0 to |connections|
        invariant forall j | 0 <= j < i :: connections[j].state == s
      {
        if connections[i].state != s {
          return false;
        }
      }
      return true;
    }

    method TokenProcessed()
      requires Linked()
      modifies this`round, this`notifyQueued
      ensures Linked() && Signalled(old(round), old(notifyQueued), old(round).AllAre(Done))
    {
      var done := AreAllConnections(Done);
      DoneIsDone();
      if done {
        round := round.(completions := round.completions + 1);
        notifyQueued := true;
        forall k | 0 <= k < |outputs| ensures LinkedOutput(k) {
          assert old(LinkedOutput(k));
        }
      }
    }

    /** No output has anything under way. */
    ghost predicate Idle()
      reads this`outputs, outputs`processing, outputs`active
    {
      forall i | 0 <= i < |outputs| :: !outputs[i].processing && !outputs[i].active
    }

    /** All outputs carry the sequence number of the transition. */
    ghost predicate InStep()
      reads this`outputs, this`sequenceNumber, outputs`seqNo
    {
      forall i | 0 <= i < |outputs| :: outputs[i].seqNo == sequenceNumber
    }

    method CanStartSendingMessages() returns (r: bool)
      requires Wired()
      ensures r == round.AllAre(Done)
    {
      DoneIsDone();
      for i := 0 to |outputs|
        invariant forall k | 0 <= k < i :: outputs[k].connections != [] ==> !outputs[k].active
      {
        assert LinkedOutput(i) && Settled(i);
        if outputs[i].connections != [] && outputs[i].active {
          return false;
        }
      }
      r := AreAllConnections(Done);
    }

    method CommitOutputs()
      requires InStep() && (forall i | 0 <= i < |outputs| :: outputs[i].index == i)
      requires -1 <= sequenceNumber
      modifies this`sequenceNumber, outputs`active, outputs`toSend, outputs`committed, outputs`seqNo
      ensures InStep() && sequenceNumber == if outputs == [] then -1 else old(sequenceNumber) + 1
      ensures forall i | 0 <= i < |outputs| :: outputs[i].active && outputs[i].toSend == None
      ensures forall i | 0 <= i < |outputs| :: outputs[i].committed == old(outputs[i].Next())
    {
      CommitEach();
      var seqNo := -1;
      for i := 0 to |outputs|
        invariant seqNo == if i == 0 then -1 else old(sequenceNumber) + 1
      {
        if seqNo == -1 {
          seqNo := outputs[i].seqNo;
        }
      }
      SetSequenceNumber(seqNo);
    }

    method CommitEach()
      requires InStep() && (forall i | 0 <= i < |outputs| :: outputs[i].index == i)
      modifies outputs`active, outputs`toSend, outputs`committed, outputs`seqNo
      ensures forall i | 0 <= i < |outputs| ::
                && outputs[i].active && outputs[i].toSend == None && outputs[i].committed == old(outputs[i].Next())
                && outputs[i].seqNo == sequenceNumber + 1
    {
      for i := 0 to |outputs|
        invariant forall k | 0 <= k < i ::
                    && outputs[k].active && outputs[k].toSend == None && outputs[k].committed == old(outputs[k].Next())
                    && outputs[k].seqNo == sequenceNumber + 1
        invariant forall k | i <= k < |outputs| :: unchanged(outputs[k])
      {
        outputs[i].CommitMessages();
      }
    }

    method SetSequenceNumber(seqNo: int)
      requires forall i | 0 <= i < |outputs| :: outputs[i].index == i
      modifies this`sequenceNumber, outputs`seqNo
      ensures sequenceNumber == seqNo && InStep()
    {
      sequenceNumber := seqNo;
      for i := 0 to |outputs|
        invariant sequenceNumber == seqNo
        invariant forall k | 0 <= k < i :: outputs[k].seqNo == seqNo
      {
        outputs[i].seqNo := sequenceNumber;
      }
    }

    /** Publishes the outputs one after the other. */
    method FillConnections()
      requires Linked() && round.AllAre(Done)
      requires forall i | 0 <= i < |outputs| :: !outputs[i].processing && outputs[i].active
      modifies outputs`processing, outputs`active, connections, this`round, this`notifyQueued
      ensures Wired() && round == Send(old(round))
      ensures notifyQueued == (old(notifyQueued) || round.completions > old(round).completions)
      ensures forall c | c in connections :: c.Received(old(c.seqNo), old(c.sent), c.source.committed)
    {
      DoneIsDone();
      forall k | 0 <= k < |outputs| ensures outputs[k].index == k {
        assert LinkedOutput(k);
      }
      assert Send(round).states == [] ==> Send(round) == round;
      for i := 0 to |outputs|
        invariant Linked() && round == Sent(old(round), i)
        invariant notifyQueued == (old(notifyQueued) || round.completions > old(round).completions)
        invariant forall k | 0 <= k < i :: Settled(k)
        invariant forall k | i <= k < |outputs| :: !outputs[k].processing && outputs[k].active
        invariant forall c | c in connections && c.source.index < i :: c.Received(old(c.seqNo), old(c.sent), c.source.committed)
        invariant forall c | c in connections && c.source.index >= i :: unchanged(c)
      {
        assert LinkedOutput(i);
        PublishNext(outputs[i]);
        SentStep(old(round), i);
      }
    }

    method PublishNext(o: Output)
      requires o.transition == this && o.Placed() && !o.processing && o.active
      requires forall c | c in connections && c.source.index >= o.index :: c.state == Done
      requires forall k | 0 <= k < o.index :: Settled(k)
      modifies o`processing, o`active, o.connections, this`round, this`notifyQueued
      ensures Linked() && round == Published(old(round), o.index)
      ensures notifyQueued == (old(notifyQueued) || round.completions > old(round).completions)
      ensures forall k | 0 <= k <= o.index :: Settled(k)
      ensures forall c | c in connections && c.source.index == o.index :: c.Received(old(c.seqNo), old(c.sent), c.source.committed)
      ensures forall c | c in connections && c.source.index != o.index :: unchanged(c)
    {
      forall k | 0 <= k < |outputs| ensures outputs[k].index == k {
        assert LinkedOutput(k);
      }
      assert LinkedOutput(o.index);
      assert forall c | c in connections && c.source.index == o.index :: LinkedConnection(c) && c == o.connections[c.index];
      o.Publish();
      assert o.connections != [] ==> round.states[o.index][0] == Unread;
      assert Settled(o.index);
      forall k | 0 <= k < o.index ensures Settled(k) {
        assert old(Settled(k)) && round.states[k] == old(round).states[k];
      }
    }

    method SetOutputsIdle()
      requires Wired() && round.AllAre(Done)
      modifies outputs`active
      ensures Wired()
    {
      forall k | 0 <= k < |outputs| ensures Settled(k) && !outputs[k].active {
        assert LinkedOutput(k) && Settled(k);
      }
      for i := 0 to |outputs|
        invariant Linked() && forall k | 0 <= k < |outputs| :: Settled(k) && !outputs[k].active
      {
        outputs[i].active := false;
      }
    }

    /** Commits all outputs, gives them the next sequence number and publishes them. */
    method SendMessages()
      requires Wired() && round.AllAre(Done) && InStep() && -1 <= sequenceNumber
      modifies this`sequenceNumber, this`round, this`notifyQueued, outputs, connections
      ensures Wired() && round == Send(old(round))
      ensures outputs == old(outputs) && connections == old(connections)
      ensures notifyQueued == (old(notifyQueued) || round.completions > old(round).completions)
      ensures InStep() && sequenceNumber == if outputs == [] then -1 else old(sequenceNumber) + 1
      ensures forall c | c in connections :: c.Received(old(c.seqNo), old(c.sent), old(c.source.Next()))
    {
      forall k | 0 <= k < |outputs| ensures outputs[k].index == k && !outputs[k].processing {
        assert LinkedOutput(k) && Settled(k);
      }
      forall c | c in connections ensures c.source.index < |outputs| && outputs[c.source.index] == c.source {
        assert LinkedConnection(c);
      }
      CommitOutputs();
      FillConnections();
      if connections == [] {
        DoneIsDone();
        SetOutputsIdle();
      }
    }
  }
}

/**
 The token handshake of a whole dataflow graph, as a state machine over values.

 A node is executed in two steps, `Start` (its input transition forwards the tokens) and `Finish` (its
 output transition sends and the node decides about acknowledging); `Notify` is the queued task that tells
 a node that everything it sent has been processed.  The scheduler may pick any enabled step.
 */
module Network {
  import opened TokenStates

  datatype Mode = Sequential | Pipelining

  /** A connection from output port `out` of node `src` to its own input port of node `dst`. */
  datatype Edge = Edge(src: nat, out: nat, dst: nat)

  /** `inPorts[n]` is the number of message inputs of node n, `outPorts[n]` are its outputs in the order in
      which its output transition visits them, and `complete[n]` tells whether every input of it that is not
      optional is connected. */
  datatype Topology = Topology(edges: seq<Edge>, inPorts: seq<nat>, outPorts: seq<seq<nat>>, complete: seq<bool>) {
    ghost predicate Valid() {
      && |inPorts| == |outPorts| == |complete|
      && forall c | 0 <= c < |edges| ::
           && edges[c].src < |inPorts|
           && edges[c].dst < |inPorts|
           && inPorts[edges[c].dst] > 0
           && edges[c].out in outPorts[edges[c].src]
    }

    /** Node::canProcess and NodeWorker::canReceive: a node without ports is not processed, nor one that lacks a
        connection. */
    predicate Able(n: nat)
      requires n < |inPorts| && n < |outPorts| && n < |complete|
    {
      complete[n] && (inPorts[n] > 0 || outPorts[n] != [])
    }

    function In(n: nat): set<nat> {
      set c: nat | c < |edges| && edges[c].dst == n
    }

    function Out(n: nat): set<nat> {
      set c: nat | c < |edges| && edges[c].src == n
    }

    predicate IsSink(n: nat) {
      Out(n) == {}
    }

    /** The first output that is visited has no connection: publishing it reports the round complete
        while the others have not been published yet. */
    predicate CompletesEarly(n: nat)
      requires n < |outPorts|
    {
      outPorts[n] != [] && forall c | c in Out(n) :: c < |edges| ==> edges[c].out != outPorts[n][0]
    }
  }

  /** What a node computes: the token on output `out` in the execution that consumed the last element of the
      history.  Any deterministic node, with or without a memory, is such a function. */
  type Behaviour = (nat, seq<map<nat, Token>>, nat) -> Token

  /** `sent` are all tokens ever set on the connection; the one it holds now is the last. */
  datatype Conn = Conn(state: State, sent: seq<Token>)

  /** `pending`: the notify task of the node is scheduled (scheduling it twice has no effect).
      `consumed`: the token of every input connection, execution by execution. */
  datatype Node = Node(forwarded: bool, processed: bool, processing: bool, mode: Mode, pending: bool,
                       consumed: seq<map<nat, Token>>)

  datatype Net = Net(conns: seq<Conn>, nodes: seq<Node>)

  datatype Step = Start(n: nat, mode: Mode) | Finish(n: nat) | Notify(n: nat)

  ghost predicate Shape(t: Topology, s: Net) {
    t.Valid() && |s.conns| == |t.edges| && |s.nodes| == |t.inPorts|
  }

  ghost predicate Initial(t: Topology, s: Net) {
    && Shape(t, s)
    && (forall c | 0 <= c < |s.conns| :: s.conns[c] == Conn(Done, []))
    && forall n | 0 <= n < |s.nodes| ::
         var x := s.nodes[n];
         !x.forwarded && !x.processed && !x.processing && !x.pending && x.consumed == []
  }

  // ---------------------------------------------------------------- the steps

  predicate AllIn(t: Topology, s: Net, cs: set<nat>, states: set<State>)
    requires |s.conns| == |t.edges|
  {
    forall c | c in cs :: c < |s.conns| ==> s.conns[c].state in states
  }

  /** The node is able to execute, InputTransition::isEnabled, OutputTransition::canStartSendingMessages and
      !isProcessing. */
  predicate CanExecute(t: Topology, s: Net, n: nat)
    requires |s.conns| == |t.edges| && n < |s.nodes| && n < |t.inPorts| && n < |t.outPorts| && n < |t.complete|
  {
    && t.Able(n)
    && (t.inPorts[n] == 0 || (!s.nodes[n].forwarded && AllIn(t, s, t.In(n), {Unread})))
    && AllIn(t, s, t.Out(n), {Done})
    && !s.nodes[n].processing
  }

  /** InputTransition::notifyMessageProcessed acts, it is not the second call of a round. */
  predicate CanAcknowledge(t: Topology, s: Net, n: nat)
    requires |s.conns| == |t.edges| && n < |s.nodes|
  {
    !s.nodes[n].processed && AllIn(t, s, t.In(n), {Read, Done})
  }

  /** Processing the input connections of n completes the round of node m. */
  predicate Completes(t: Topology, s: Net, n: nat, m: nat)
    requires |s.conns| == |t.edges|
  {
    && (exists c | c in t.In(n) * t.Out(m) :: c < |s.conns| && s.conns[c].state == Read)
    && forall c | c in t.Out(m) :: c < |s.conns| ==> s.conns[c].state == Done || (c in t.In(n) && s.conns[c].state == Read)
  }

  function Acknowledge(t: Topology, s: Net, n: nat): (r: Net)
    requires Shape(t, s) && n < |s.nodes|
    ensures Shape(t, r)
  {
    if !CanAcknowledge(t, s, n) then s
    else Net(
        seq(|s.conns|, c requires 0 <= c < |s.conns| =>
          if c in t.In(n) then s.conns[c].(state := Done) else s.conns[c]),
        seq(|s.nodes|, m requires 0 <= m < |s.nodes| =>
          var x := if Completes(t, s, n, m) then s.nodes[m].(pending := true) else s.nodes[m];
          if m == n then x.(forwarded := false, processed := true) else x))
  }

  function Inputs(t: Topology, s: Net, n: nat): map<nat, Token>
    requires Shape(t, s)
    requires forall c | c in t.In(n) :: s.conns[c].sent != []
  {
    map c | c in t.In(n) :: s.conns[c].sent[|s.conns[c].sent| - 1]
  }

  ghost predicate Enabled(t: Topology, s: Net, e: Step) {
    && Shape(t, s)
    && e.n < |s.nodes|
    && match e
       case Start(n, _) => CanExecute(t, s, n)
       case Finish(n) => s.nodes[n].processing
       case Notify(n) => s.nodes[n].pending
  }

  function DoStart(t: Topology, s: Net, n: nat, mode: Mode): (r: Net)
    requires Shape(t, s) && n < |s.nodes|
    requires forall c | c in t.In(n) :: s.conns[c].sent != []
    ensures Shape(t, r)
  {
    Net(
      seq(|s.conns|, c requires 0 <= c < |s.conns| =>
        if c in t.In(n) then s.conns[c].(state := Read) else s.conns[c]),
      s.nodes[n := s.nodes[n].(forwarded := true, processed := false, processing := true, mode := mode,
                               consumed := s.nodes[n].consumed + [Inputs(t, s, n)])])
  }

  /** Every output publishes in every execution, so every outgoing connection receives a token. */
  function Send(t: Topology, f: Behaviour, s: Net, n: nat): (r: Net)
    requires Shape(t, s) && n < |s.nodes|
    ensures Shape(t, r)
  {
    Net(
      seq(|s.conns|, c requires 0 <= c < |s.conns| =>
        if c in t.Out(n) then Conn(Unread, s.conns[c].sent + [f(n, s.nodes[n].consumed, t.edges[c].out)])
        else s.conns[c]),
      s.nodes[n := s.nodes[n].(processing := false, pending := s.nodes[n].pending || t.CompletesEarly(n))])
  }

  function DoFinish(t: Topology, f: Behaviour, s: Net, n: nat): (r: Net)
    requires Shape(t, s) && n < |s.nodes|
    ensures Shape(t, r)
  {
    var r := Send(t, f, s, n);
    if t.IsSink(n) || s.nodes[n].mode == Pipelining then Acknowledge(t, r, n) else r
  }

  function DoNotify(t: Topology, s: Net, n: nat): (r: Net)
    requires Shape(t, s) && n < |s.nodes|
    ensures Shape(t, r)
  {
    var r := s.(nodes := s.nodes[n := s.nodes[n].(pending := false)]);
    if s.nodes[n].mode == Sequential then Acknowledge(t, r, n) else r
  }

  /** The step is enabled in s and leads to s'. */
  ghost predicate Next(t: Topology, f: Behaviour, s: Net, e: Step, s': Net) {
    && Enabled(t, s, e)
    && match e
       case Start(n, mode) =>
         && (forall c | c in t.In(n) :: s.conns[c].sent != [])
         && s' == DoStart(t, s, n, mode)
       case Finish(n) => s' == DoFinish(t, f, s, n)
       case Notify(n) => s' == DoNotify(t, s, n)
  }

  /** `ss` are the states of a run, `es` the steps between them. */
  ghost predicate Run(t: Topology, f: Behaviour, ss: seq<Net>, es: seq<Step>) {
    && |ss| == |es| + 1
    && Initial(t, ss[0])
    && forall i | 0 <= i < |es| :: Next(t, f, ss[i], es[i], ss[i + 1])
  }

  // ---------------------------------------------------------------- the invariant

  function Executions(x: Node): nat { |x.consumed| }

  function Produced(x: Node): int { |x.consumed| - if x.processing then 1 else 0 }

  /** A connection is a one-place buffer between the execution counts of its ends, and it carries the tokens
      that the equation of its source gives. */
  ghost predicate ConnInv(t: Topology, f: Behaviour, s: Net, c: nat)
    requires Shape(t, s) && c < |t.edges|
  {
    var e, k := t.edges[c], s.conns[c];
    var src, dst := s.nodes[e.src], s.nodes[e.dst];
    && |k.sent| == Produced(src)
    && |k.sent| == Executions(dst) + (if k.state == Unread then 1 else 0)
    && MeetsEquation(f, e, src.consumed, k.sent)
    && Delivered(c, k.sent, dst.consumed)
    && (k.state == Read <==> dst.forwarded)
    && (src.processing ==> k.state == Done)
  }

  ghost predicate MeetsEquation(f: Behaviour, e: Edge, h: seq<map<nat, Token>>, sent: seq<Token>) {
    |sent| <= |h| && forall i | 0 <= i < |sent| :: sent[i] == f(e.src, UpTo(h, i), e.out)
  }

  ghost predicate Delivered(c: nat, sent: seq<Token>, h: seq<map<nat, Token>>) {
    |h| <= |sent| && forall i | 0 <= i < |h| :: c in h[i] && h[i][c] == sent[i]
  }

  ghost predicate NodeInv(t: Topology, s: Net, n: nat)
    requires Shape(t, s) && n < |s.nodes|
  {
    var x := s.nodes[n];
    && (forall i | 0 <= i < |x.consumed| :: x.consumed[i].Keys == t.In(n))
    && (x.processing || x.forwarded ==> x.consumed != [])
    && (!t.Able(n) ==> x.consumed == [])
    && (t.inPorts[n] > 0 && x.forwarded ==> !x.processed)
  }

  /** A node that keeps its inputs waits for its outputs, or has already been told that they are done. */
  ghost predicate Waits(t: Topology, s: Net, n: nat)
    requires Shape(t, s) && n < |s.nodes|
  {
    var x := s.nodes[n];
    t.inPorts[n] > 0 && x.forwarded && !x.processing ==> x.mode == Sequential && (x.pending || Busy(t, s, n))
  }

  /** A connection that leaves n still holds a token that is not processed. */
  ghost predicate Busy(t: Topology, s: Net, n: nat)
    requires Shape(t, s)
  {
    exists c | c in t.Out(n) :: s.conns[c].state != Done
  }

  ghost predicate Safe(t: Topology, f: Behaviour, s: Net) {
    && Shape(t, s)
    && (forall c: nat | c < |t.edges| :: ConnInv(t, f, s, c))
    && forall n: nat | n < |s.nodes| :: NodeInv(t, s, n)
  }

  ghost predicate Inv(t: Topology, f: Behaviour, s: Net) {
    && Safe(t, f, s)
    && forall n: nat | n < |s.nodes| :: Waits(t, s, n)
  }

  /** The executions 0..i. */
  function UpTo<T>(h: seq<T>, i: nat): seq<T>
    requires i < |h|
  {
    h[..i + 1]
  }

  lemma InitialInv(t: Topology, f: Behaviour, s: Net)
    requires Initial(t, s)
    ensures Inv(t, f, s)
  {
  }

  lemma TokensArrived(t: Topology, f: Behaviour, s: Net, n: nat)
    requires Safe(t, f, s) && n < |s.nodes| && CanExecute(t, s, n)
    ensures forall c | c in t.In(n) :: s.conns[c].state == Unread && s.conns[c].sent != []
  {
    forall c | c in t.In(n) ensures s.conns[c].state == Unread && s.conns[c].sent != [] {
      assert ConnInv(t, f, s, c);
    }
  }

  lemma EquationOfPrefix(f: Behaviour, e: Edge, h: seq<map<nat, Token>>, x: map<nat, Token>, sent: seq<Token>)
    requires MeetsEquation(f, e, h, sent)
    ensures MeetsEquation(f, e, h + [x], sent)
  {
    forall i | 0 <= i < |sent| ensures UpTo(h + [x], i) == UpTo(h, i) {
    }
  }

  lemma StartConn(t: Topology, f: Behaviour, s: Net, n: nat, mode: Mode, c: nat)
    requires Shape(t, s) && n < |s.nodes| && CanExecute(t, s, n)
    requires forall c | c in t.In(n) :: s.conns[c].state == Unread && s.conns[c].sent != []
    requires c < |t.edges| && ConnInv(t, f, s, c)
    ensures ConnInv(t, f, DoStart(t, s, n, mode), c)
  {
    var r := DoStart(t, s, n, mode);
    var e := t.edges[c];
    assert (e.src == n <==> c in t.Out(n)) && (e.dst == n <==> c in t.In(n));
    EquationOfPrefix(f, e, s.nodes[e.src].consumed, Inputs(t, s, n), s.conns[c].sent);
    if e.dst == n {
      assert Delivered(c, r.conns[c].sent, r.nodes[n].consumed);
    }
  }

  lemma StartNode(t: Topology, f: Behaviour, s: Net, n: nat, mode: Mode, m: nat)
    requires Inv(t, f, s) && n < |s.nodes| && CanExecute(t, s, n)
    requires forall c | c in t.In(n) :: s.conns[c].state == Unread && s.conns[c].sent != []
    requires m < |s.nodes|
    ensures NodeInv(t, DoStart(t, s, n, mode), m) && Waits(t, DoStart(t, s, n, mode), m)
  {
    assert NodeInv(t, s, m) && Waits(t, s, m);
    if m != n && Busy(t, s, m) {
      var c :| c in t.Out(m) && s.conns[c].state != Done;
      assert DoStart(t, s, n, mode).conns[c].state != Done;
    }
  }

  lemma StartInv(t: Topology, f: Behaviour, s: Net, n: nat, mode: Mode)
    requires Inv(t, f, s) && Enabled(t, s, Start(n, mode))
    ensures forall c | c in t.In(n) :: s.conns[c].sent != []
    ensures Inv(t, f, DoStart(t, s, n, mode))
  {
    TokensArrived(t, f, s, n);
    forall c: nat | c < |t.edges| ensures ConnInv(t, f, DoStart(t, s, n, mode), c) {
      assert ConnInv(t, f, s, c);
      StartConn(t, f, s, n, mode, c);
    }
    var r := DoStart(t, s, n, mode);
    forall m: nat | m < |r.nodes| ensures NodeInv(t, r, m) && Waits(t, r, m) {
      StartNode(t, f, s, n, mode, m);
    }
  }

  /** Acknowledging restores the part of the invariant that may be broken at n itself. */
  lemma AcknowledgeInv(t: Topology, f: Behaviour, s: Net, n: nat)
    requires Safe(t, f, s) && n < |s.nodes|
    requires forall m: nat | m < |s.nodes| && m != n :: Waits(t, s, m)
    ensures Inv(t, f, Acknowledge(t, s, n))
  {
    var r := Acknowledge(t, s, n);
    assert NodeInv(t, s, n);
    forall c: nat | c < |t.edges| ensures ConnInv(t, f, r, c) {
      AcknowledgeConn(t, f, s, n, c);
    }
    forall m: nat | m < |r.nodes| ensures NodeInv(t, r, m) && Waits(t, r, m) {
      AcknowledgeNode(t, f, s, n, m);
    }
  }

  lemma AcknowledgeConn(t: Topology, f: Behaviour, s: Net, n: nat, c: nat)
    requires Safe(t, f, s) && n < |s.nodes| && c < |t.edges|
    ensures ConnInv(t, f, Acknowledge(t, s, n), c)
  {
    assert ConnInv(t, f, s, c);
    assert t.edges[c].dst == n <==> c in t.In(n);
    var r := Acknowledge(t, s, n);
    var e := t.edges[c];
    assert r.nodes[e.src].consumed == s.nodes[e.src].consumed && r.nodes[e.src].processing == s.nodes[e.src].processing;
    assert r.nodes[e.dst].consumed == s.nodes[e.dst].consumed;
  }

  lemma AcknowledgeNode(t: Topology, f: Behaviour, s: Net, n: nat, m: nat)
    requires Safe(t, f, s) && n < |s.nodes| && m < |s.nodes|
    requires m != n ==> Waits(t, s, m)
    ensures NodeInv(t, Acknowledge(t, s, n), m) && Waits(t, Acknowledge(t, s, n), m)
  {
    var r := Acknowledge(t, s, n);
    assert NodeInv(t, s, m);
    if !CanAcknowledge(t, s, n) {
      if m == n && !s.nodes[n].processed {
        var c :| c in t.In(n) && s.conns[c].state !in {Read, Done};
        assert ConnInv(t, f, s, c);
      }
    } else if m != n && Busy(t, s, m) && !Busy(t, r, m) {
      var c :| c in t.Out(m) && s.conns[c].state != Done;
      assert r.conns[c].state == Done;
      assert c in t.In(n) * t.Out(m) && s.conns[c].state == Read;
      forall d | d in t.Out(m) ensures s.conns[d].state == Done || (d in t.In(n) && s.conns[d].state == Read) {
        assert r.conns[d].state == Done;
      }
      assert Completes(t, s, n, m);
    }
  }

  lemma SendConn(t: Topology, f: Behaviour, s: Net, n: nat, c: nat)
    requires Safe(t, f, s) && n < |s.nodes| && s.nodes[n].processing && c < |t.edges|
    ensures ConnInv(t, f, Send(t, f, s, n), c)
  {
    assert ConnInv(t, f, s, c) && NodeInv(t, s, n);
    var e := t.edges[c];
    var r := Send(t, f, s, n);
    assert e.src == n <==> c in t.Out(n);
    assert r.nodes[e.src].consumed == s.nodes[e.src].consumed;
    assert r.nodes[e.dst].consumed == s.nodes[e.dst].consumed;
    if e.src == n {
      var h := s.nodes[n].consumed;
      assert UpTo(h, |h| - 1) == h;
    }
  }

  lemma SendInv(t: Topology, f: Behaviour, s: Net, n: nat)
    requires Inv(t, f, s) && n < |s.nodes| && s.nodes[n].processing
    ensures Safe(t, f, Send(t, f, s, n))
    ensures forall m: nat | m < |s.nodes| && m != n :: Waits(t, Send(t, f, s, n), m)
    ensures t.IsSink(n) || s.nodes[n].mode == Pipelining || Waits(t, Send(t, f, s, n), n)
  {
    var r := Send(t, f, s, n);
    forall c: nat | c < |t.edges| ensures ConnInv(t, f, r, c) {
      SendConn(t, f, s, n, c);
    }
    forall m: nat | m < |r.nodes| ensures NodeInv(t, r, m) {
      assert NodeInv(t, s, m);
    }
    forall m: nat | m < |r.nodes| && m != n ensures Waits(t, r, m) {
      assert Waits(t, s, m);
      if Busy(t, s, m) {
        var c :| c in t.Out(m) && s.conns[c].state != Done;
        assert r.conns[c].state != Done;
      }
    }
    if !t.IsSink(n) {
      var c :| c in t.Out(n);
      assert r.conns[c].state != Done;
    }
  }

  lemma NextInv(t: Topology, f: Behaviour, s: Net, e: Step, s': Net)
    requires Inv(t, f, s) && Next(t, f, s, e, s')
    ensures Inv(t, f, s')
  {
    match e
    case Start(n, mode) => StartInv(t, f, s, n, mode);
    case Finish(n) =>
      SendInv(t, f, s, n);
      if t.IsSink(n) || s.nodes[n].mode == Pipelining {
        AcknowledgeInv(t, f, Send(t, f, s, n), n);
      }
    case Notify(n) =>
      var r := s.(nodes := s.nodes[n := s.nodes[n].(pending := false)]);
      forall c: nat | c < |t.edges| ensures ConnInv(t, f, r, c) {
        assert ConnInv(t, f, s, c);
      }
      forall m: nat | m < |r.nodes| ensures NodeInv(t, r, m) && (m != n ==> Waits(t, r, m)) {
        assert NodeInv(t, s, m) && Waits(t, s, m);
        assert m != n && Busy(t, s, m) ==> Busy(t, r, m);
      }
      assert Waits(t, s, n);
      if s.nodes[n].mode == Sequential {
        AcknowledgeInv(t, f, r, n);
      }
  }

  lemma {:induction false} RunInv(t: Topology, f: Behaviour, ss: seq<Net>, es: seq<Step>)
    requires Run(t, f, ss, es)
    ensures forall i | 0 <= i < |ss| :: Inv(t, f, ss[i])
  {
    InitialInv(t, f, ss[0]);
    for i := 0 to |es|
      invariant forall j | 0 <= j <= i :: Inv(t, f, ss[j])
    {
      NextInv(t, f, ss[i], es[i], ss[i + 1]);
    }
  }
}

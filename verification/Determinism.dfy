/** The data a network computes does not depend on the schedule, nor on the execution modes. */
module Determinism {
  import opened TokenStates
  import opened Network

  ghost predicate AgreesOn<T>(a: seq<T>, b: seq<T>) {
    forall k | 0 <= k < |a| && k < |b| :: a[k] == b[k]
  }

  ghost predicate SameTokens(t: Topology, s1: Net, s2: Net)
    requires Shape(t, s1) && Shape(t, s2)
  {
    forall c: nat | c < |t.edges| :: AgreesOn(s1.conns[c].sent, s2.conns[c].sent)
  }

  /** Wherever both states have a k-th token of a connection, or a k-th execution of a node, they agree on it. */
  ghost predicate SameHistories(t: Topology, s1: Net, s2: Net)
    requires Shape(t, s1) && Shape(t, s2)
  {
    && SameTokens(t, s1, s2)
    && forall n: nat | n < |t.inPorts| :: AgreesOn(s1.nodes[n].consumed, s2.nodes[n].consumed)
  }

  lemma SameInputs(t: Topology, f: Behaviour, s1: Net, s2: Net, n: nat)
    requires Inv(t, f, s1) && Inv(t, f, s2) && n < |t.inPorts|
    requires SameTokens(t, s1, s2)
    ensures AgreesOn(s1.nodes[n].consumed, s2.nodes[n].consumed)
  {
    var h1, h2 := s1.nodes[n].consumed, s2.nodes[n].consumed;
    forall k: nat | k < |h1| && k < |h2| ensures h1[k] == h2[k] {
      assert NodeInv(t, s1, n) && NodeInv(t, s2, n);
      forall c | c in t.In(n) ensures h1[k][c] == h2[k][c] {
        assert ConnInv(t, f, s1, c) && ConnInv(t, f, s2, c);
        assert AgreesOn(s1.conns[c].sent, s2.conns[c].sent);
      }
    }
  }

  /** A step of one run keeps the agreement with any state of any other run. */
  lemma StepAgrees(t: Topology, f: Behaviour, s: Net, e: Step, s': Net, s2: Net)
    requires Inv(t, f, s) && Next(t, f, s, e, s') && Inv(t, f, s2)
    requires SameTokens(t, s, s2)
    ensures SameTokens(t, s', s2)
  {
    NextInv(t, f, s, e, s');
    forall c: nat | c < |t.edges| ensures AgreesOn(s'.conns[c].sent, s2.conns[c].sent) {
      assert AgreesOn(s.conns[c].sent, s2.conns[c].sent);
      if e.Finish? && c in t.Out(e.n) {
        SentAgrees(t, f, s, e.n, s2, c);
      }
    }
  }

  lemma SentAgrees(t: Topology, f: Behaviour, s: Net, n: nat, s2: Net, c: nat)
    requires Inv(t, f, s) && n < |s.nodes| && s.nodes[n].processing && Inv(t, f, s2)
    requires SameTokens(t, s, s2) && c in t.Out(n)
    ensures AgreesOn(DoFinish(t, f, s, n).conns[c].sent, s2.conns[c].sent)
  {
    var before, now, other := s.conns[c].sent, DoFinish(t, f, s, n).conns[c].sent, s2.conns[c].sent;
    var h, h2 := s.nodes[n].consumed, s2.nodes[n].consumed;
    assert now == before + [f(n, h, t.edges[c].out)];
    assert AgreesOn(before, other);
    assert ConnInv(t, f, s, c) && ConnInv(t, f, s2, c);
    if |before| < |other| {
      SameInputs(t, f, s, s2, n);
      assert UpTo(h2, |before|) == h;
    }
  }

  /** For all interleavings, and all choices of the modes, of two runs of one graph: the k-th execution of
      a node consumes the same token of every input connection, and the k-th token of a connection is the same. */
  lemma {:induction false} ScheduleIndependence(t: Topology, f: Behaviour, ss1: seq<Net>, es1: seq<Step>, ss2: seq<Net>, es2: seq<Step>, i: nat, j: nat)
    requires Run(t, f, ss1, es1) && Run(t, f, ss2, es2) && i < |ss1| && j < |ss2|
    ensures Shape(t, ss1[i]) && Shape(t, ss2[j]) && SameHistories(t, ss1[i], ss2[j])
  {
    RunInv(t, f, ss1, es1);
    RunInv(t, f, ss2, es2);
    assert SameTokens(t, ss1[0], ss2[j]);
    for k := 0 to i
      invariant SameTokens(t, ss1[k], ss2[j])
    {
      StepAgrees(t, f, ss1[k], es1[k], ss1[k + 1], ss2[j]);
    }
    forall n: nat | n < |t.inPorts| ensures AgreesOn(ss1[i].nodes[n].consumed, ss2[j].nodes[n].consumed) {
      SameInputs(t, f, ss1[i], ss2[j], n);
    }
  }

  // ---------------------------------------------------------------- the dataflow equations

  /** `rank` orders the nodes along the connections. */
  ghost predicate Acyclic(t: Topology, rank: seq<nat>) {
    && t.Valid()
    && |rank| == |t.inPorts|
    && forall c | 0 <= c < |t.edges| :: rank[t.edges[c].src] < rank[t.edges[c].dst]
  }

  /** The k-th token on output `out` of node n, by the equations alone. */
  ghost function TokenOf(t: Topology, f: Behaviour, rank: seq<nat>, n: nat, k: nat, out: nat): Token
    requires Acyclic(t, rank) && n < |rank|
    decreases rank[n], 2
  {
    f(n, History(t, f, rank, n, k + 1), out)
  }

  /** What node n consumes in its execution k. */
  ghost function Arguments(t: Topology, f: Behaviour, rank: seq<nat>, n: nat, k: nat): map<nat, Token>
    requires Acyclic(t, rank) && n < |rank|
    decreases rank[n], 0
  {
    map c | c in t.In(n) :: TokenOf(t, f, rank, t.edges[c].src, k, t.edges[c].out)
  }

  ghost function History(t: Topology, f: Behaviour, rank: seq<nat>, n: nat, k: nat): (h: seq<map<nat, Token>>)
    requires Acyclic(t, rank) && n < |rank|
    ensures |h| == k
    decreases rank[n], 1
  {
    seq(k, i requires 0 <= i < k => Arguments(t, f, rank, n, i))
  }

  lemma {:induction false} NodeMeetsEquations(t: Topology, f: Behaviour, rank: seq<nat>, s: Net, n: nat)
    requires Acyclic(t, rank) && Inv(t, f, s) && n < |rank|
    ensures s.nodes[n].consumed == History(t, f, rank, n, |s.nodes[n].consumed|)
    decreases rank[n], 0
  {
    var h := s.nodes[n].consumed;
    forall k: nat | k < |h| ensures h[k] == Arguments(t, f, rank, n, k) {
      assert NodeInv(t, s, n);
      forall c | c in t.In(n) ensures h[k][c] == Arguments(t, f, rank, n, k)[c] {
        assert ConnInv(t, f, s, c);
        ConnMeetsEquations(t, f, rank, s, c, k);
      }
    }
  }

  lemma {:induction false} ConnMeetsEquations(t: Topology, f: Behaviour, rank: seq<nat>, s: Net, c: nat, k: nat)
    requires Acyclic(t, rank) && Inv(t, f, s) && c < |t.edges| && k < |s.conns[c].sent|
    ensures s.conns[c].sent[k] == TokenOf(t, f, rank, t.edges[c].src, k, t.edges[c].out)
    decreases rank[t.edges[c].src], 1
  {
    var n := t.edges[c].src;
    var h := s.nodes[n].consumed;
    assert ConnInv(t, f, s, c);
    NodeMeetsEquations(t, f, rank, s, n);
    assert UpTo(h, k) == History(t, f, rank, n, k + 1);
  }

  /** In every state of every run the tokens are those of the equations. */
  lemma RunMeetsEquations(t: Topology, f: Behaviour, rank: seq<nat>, ss: seq<Net>, es: seq<Step>, i: nat)
    requires Acyclic(t, rank) && Run(t, f, ss, es) && i < |ss|
    ensures Shape(t, ss[i])
    ensures forall n: nat | n < |rank| :: ss[i].nodes[n].consumed == History(t, f, rank, n, |ss[i].nodes[n].consumed|)
    ensures forall c: nat, k: nat | c < |t.edges| && k < |ss[i].conns[c].sent| ::
              ss[i].conns[c].sent[k] == TokenOf(t, f, rank, t.edges[c].src, k, t.edges[c].out)
  {
    RunInv(t, f, ss, es);
    forall n: nat | n < |rank| ensures ss[i].nodes[n].consumed == History(t, f, rank, n, |ss[i].nodes[n].consumed|) {
      NodeMeetsEquations(t, f, rank, ss[i], n);
    }
    forall c: nat, k: nat | c < |t.edges| && k < |ss[i].conns[c].sent|
      ensures ss[i].conns[c].sent[k] == TokenOf(t, f, rank, t.edges[c].src, k, t.edges[c].out)
    {
      ConnMeetsEquations(t, f, rank, ss[i], c, k);
    }
  }
}

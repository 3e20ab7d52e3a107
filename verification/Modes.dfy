/** When a node acknowledges what it has consumed: at the end of its execution or later, by the mode in which the execution has
    been started. */
module Modes {
  import opened TokenStates
  import opened Network

  /** The step that acknowledges the inputs of an execution of n that has been started in the mode m. */
  predicate Releases(t: Topology, n: nat, m: Mode, e: Step) {
    || (e == Finish(n) && (m == Pipelining || t.IsSink(n)))
    || (e == Notify(n) && m == Sequential)
  }

  ghost predicate StartedAt(es: seq<Step>, i: nat, n: nat, m: Mode) {
    i < |es| && es[i] == Start(n, m)
  }

  /** None of the steps from i + 1 up to k acknowledges the inputs of the execution. */
  ghost predicate Unreleased(t: Topology, es: seq<Step>, n: nat, m: Mode, i: nat, k: nat)
    requires k <= |es|
  {
    forall j | i < j < k :: !Releases(t, n, m, es[j])
  }

  ghost predicate AllRead(t: Topology, s: Net, n: nat)
    requires Shape(t, s)
  {
    forall c | c in t.In(n) :: s.conns[c].state == Read
  }

  ghost predicate AllDone(t: Topology, s: Net, cs: set<nat>)
    requires Shape(t, s)
  {
    forall c | c in cs :: c < |s.conns| ==> s.conns[c].state == Done
  }

  /** A step ends the round of node x: the last of its tokens becomes done. */
  ghost predicate EndsRound(t: Topology, s: Net, s': Net, x: nat)
    requires Shape(t, s) && Shape(t, s')
  {
    !AllDone(t, s, t.Out(x)) && AllDone(t, s', t.Out(x))
  }

  /** The node keeps its inputs, and has not forgotten the mode. */
  ghost predicate Keeps(t: Topology, s: Net, n: nat, m: Mode)
    requires Shape(t, s)
  {
    AllRead(t, s, n) && n < |s.nodes| && s.nodes[n].forwarded && !s.nodes[n].processed && s.nodes[n].mode == m
  }

  lemma StartKeeps(t: Topology, f: Behaviour, s: Net, n: nat, m: Mode, s': Net)
    requires Inv(t, f, s) && Next(t, f, s, Start(n, m), s')
    ensures Keeps(t, s', n, m)
  {
  }

  /** The steps of other nodes leave the inputs of n alone, and so do its own that do not acknowledge them. */
  lemma OtherKeeps(t: Topology, f: Behaviour, s: Net, n: nat, m: Mode, e: Step, s': Net)
    requires Inv(t, f, s) && Keeps(t, s, n, m) && t.In(n) != {} && Next(t, f, s, e, s') && !Releases(t, n, m, e)
    ensures Keeps(t, s', n, m)
  {
    var d :| d in t.In(n);
    assert t.inPorts[n] > 0;
    forall c | c in t.In(n) ensures s'.conns[c].state == Read {
      assert ConnInv(t, f, s, c);
    }
  }

  lemma AcknowledgeReleases(t: Topology, s: Net, n: nat)
    requires Shape(t, s) && n < |s.nodes| && CanAcknowledge(t, s, n)
    ensures AllDone(t, Acknowledge(t, s, n), t.In(n))
    ensures forall x: nat | x < |s.nodes| ::
              Acknowledge(t, s, n).nodes[x].pending <==> s.nodes[x].pending || EndsRound(t, s, Acknowledge(t, s, n), x)
  {
    var r := Acknowledge(t, s, n);
    forall x: nat | x < |s.nodes| ensures r.nodes[x].pending <==> s.nodes[x].pending || EndsRound(t, s, r, x) {
      RoundEnds(t, s, n, x);
    }
  }

  lemma RoundEnds(t: Topology, s: Net, n: nat, x: nat)
    requires Shape(t, s) && n < |s.nodes| && x < |s.nodes| && CanAcknowledge(t, s, n)
    ensures Completes(t, s, n, x) <==> EndsRound(t, s, Acknowledge(t, s, n), x)
  {
    var r := Acknowledge(t, s, n);
    forall c | c in t.Out(x) ensures r.conns[c].state == if c in t.In(n) then Done else s.conns[c].state {
    }
    if EndsRound(t, s, r, x) {
      var c :| c in t.Out(x) && s.conns[c].state != Done;
      assert r.conns[c].state == Done;
      assert c in t.In(n) * t.Out(x);
    }
  }

  lemma NotifyReleases(t: Topology, f: Behaviour, s: Net, n: nat, s': Net)
    requires Inv(t, f, s) && Keeps(t, s, n, Sequential) && Next(t, f, s, Notify(n), s')
    ensures AllDone(t, s', t.In(n))
    ensures forall x: nat | x < |s.nodes| && x != n :: s'.nodes[x].pending <==> s.nodes[x].pending || EndsRound(t, s, s', x)
  {
    var r := s.(nodes := s.nodes[n := s.nodes[n].(pending := false)]);
    AcknowledgeReleases(t, r, n);
    forall x: nat | x < |s.nodes| && x != n ensures EndsRound(t, r, s', x) == EndsRound(t, s, s', x) {
    }
  }

  lemma FinishReleases(t: Topology, f: Behaviour, s: Net, n: nat, m: Mode, s': Net)
    requires Inv(t, f, s) && Keeps(t, s, n, m) && Next(t, f, s, Finish(n), s') && (m == Pipelining || t.IsSink(n))
    ensures AllDone(t, s', t.In(n))
    ensures forall x: nat | x < |s.nodes| && x != n :: s'.nodes[x].pending <==> s.nodes[x].pending || EndsRound(t, s, s', x)
  {
    var r := Send(t, f, s, n);
    forall c | c in t.In(n) ensures r.conns[c].state == Read {
      assert ConnInv(t, f, s, c) && s.conns[c].state == Read;
      assert c !in t.Out(n);
    }
    AcknowledgeReleases(t, r, n);
    forall x: nat | x < |s.nodes| && x != n ensures EndsRound(t, r, s', x) == EndsRound(t, s, s', x) {
      forall c | c in t.Out(x) ensures r.conns[c] == s.conns[c] {
      }
    }
  }

  /** In every run, whatever the modes of the executions: the inputs that an execution has consumed stay read up to the step
      that acknowledges them. */
  lemma {:induction false} KeptUntilReleased(t: Topology, f: Behaviour, ss: seq<Net>, es: seq<Step>, i: nat, n: nat, m: Mode, k: nat)
    requires Run(t, f, ss, es) && StartedAt(es, i, n, m) && i < k <= |es| && Unreleased(t, es, n, m, i, k) && t.In(n) != {}
    ensures Shape(t, ss[k]) && AllRead(t, ss[k], n) && Keeps(t, ss[k], n, m)
    decreases k
  {
    RunInv(t, f, ss, es);
    assert Inv(t, f, ss[k - 1]) && Next(t, f, ss[k - 1], es[k - 1], ss[k]);
    if k == i + 1 {
      StartKeeps(t, f, ss[i], n, m, ss[k]);
    } else {
      KeptUntilReleased(t, f, ss, es, i, n, m, k - 1);
      OtherKeeps(t, f, ss[k - 1], n, m, es[k - 1], ss[k]);
    }
  }

  /** That step is the end of the execution of a sink, and of one that has been started as pipelining, and otherwise the
      notification that its own tokens are done: it acknowledges all inputs together, and tells exactly those senders whose
      rounds end with that. */
  lemma ReleasedTogether(t: Topology, f: Behaviour, ss: seq<Net>, es: seq<Step>, i: nat, n: nat, m: Mode, k: nat)
    requires Run(t, f, ss, es) && StartedAt(es, i, n, m) && i < k < |es| && Unreleased(t, es, n, m, i, k) && t.In(n) != {}
    requires Releases(t, n, m, es[k])
    ensures Shape(t, ss[k]) && Shape(t, ss[k + 1]) && AllRead(t, ss[k], n) && AllDone(t, ss[k + 1], t.In(n))
    ensures forall x: nat | x < |ss[k].nodes| && x != n ::
              ss[k + 1].nodes[x].pending <==> ss[k].nodes[x].pending || EndsRound(t, ss[k], ss[k + 1], x)
  {
    RunInv(t, f, ss, es);
    KeptUntilReleased(t, f, ss, es, i, n, m, k);
    assert Inv(t, f, ss[k]) && Next(t, f, ss[k], es[k], ss[k + 1]);
    if es[k] == Notify(n) && m == Sequential {
      NotifyReleases(t, f, ss[k], n, ss[k + 1]);
    } else {
      FinishReleases(t, f, ss[k], n, m, ss[k + 1]);
    }
  }

  /** The mode is the one of the last start. */
  lemma {:induction false} ModeKept(t: Topology, f: Behaviour, ss: seq<Net>, es: seq<Step>, i: nat, n: nat, m: Mode, k: nat)
    requires Run(t, f, ss, es) && StartedAt(es, i, n, m) && i < k <= |es| && forall j, m' | i < j < k :: es[j] != Start(n, m')
    ensures n < |ss[k].nodes| && ss[k].nodes[n].mode == m
    decreases k
  {
    assert Next(t, f, ss[k - 1], es[k - 1], ss[k]);
    if k > i + 1 {
      ModeKept(t, f, ss, es, i, n, m, k - 1);
      assert forall m' :: es[k - 1] != Start(n, m');
    }
  }

  // ---------------------------------------------------------------- the end of an execution

  ghost predicate NextFinish(es: seq<Step>, n: nat, i: nat, j: nat) {
    i < j < |es| && es[j] == Finish(n) && forall k | i < k < j :: es[k] != Finish(n)
  }

  ghost predicate NotNotified(es: seq<Step>, n: nat, i: nat, j: nat)
    requires j <= |es|
  {
    forall k | i < k < j :: es[k] != Notify(n)
  }

  /** At the end of the execution, the inputs of a pipelining execution are acknowledged, and those of a sequential one of a sink
      unless it has been notified meanwhile; other sequential executions keep theirs up to the notification. */
  lemma FinishAcknowledges(t: Topology, f: Behaviour, ss: seq<Net>, es: seq<Step>, i: nat, n: nat, m: Mode, j: nat)
    requires Run(t, f, ss, es) && StartedAt(es, i, n, m) && NextFinish(es, n, i, j) && t.In(n) != {}
    ensures Shape(t, ss[j]) && Shape(t, ss[j + 1])
    ensures m == Pipelining || (t.IsSink(n) && NotNotified(es, n, i, j)) ==>
              && AllRead(t, ss[j], n) && AllDone(t, ss[j + 1], t.In(n))
              && forall x: nat | x < |ss[j].nodes| && x != n ::
                   ss[j + 1].nodes[x].pending <==> ss[j].nodes[x].pending || EndsRound(t, ss[j], ss[j + 1], x)
    ensures m == Sequential && !t.IsSink(n) ==>
              forall k | j < k <= |es| && NotNotified(es, n, i, k) :: Shape(t, ss[k]) && AllRead(t, ss[k], n)
  {
    RunInv(t, f, ss, es);
    assert Inv(t, f, ss[j]) && Inv(t, f, ss[j + 1]);
    if m == Pipelining || (t.IsSink(n) && NotNotified(es, n, i, j)) {
      ReleasedTogether(t, f, ss, es, i, n, m, j);
    }
    if m == Sequential && !t.IsSink(n) {
      forall k | j < k <= |es| && NotNotified(es, n, i, k) ensures Shape(t, ss[k]) && AllRead(t, ss[k], n) {
        KeptUntilReleased(t, f, ss, es, i, n, m, k);
      }
    }
  }

  // ---------------------------------------------------------------- a sink that is notified

  /** A source and a sink, which has an output without a connection. */
  const PAIR: Topology := Topology([Edge(0, 0, 1)], [0, 1], [[0], [0]], [true, true])

  function Silent(): Behaviour {
    (n, h, o) => NoMessage
  }

  lemma PairIs()
    ensures PAIR.Valid() && PAIR.In(0) == {} && PAIR.In(1) == {0} && PAIR.Out(0) == {0} && PAIR.Out(1) == {}
    ensures PAIR.IsSink(1) && PAIR.CompletesEarly(1) && !PAIR.CompletesEarly(0)
  {
    assert 0 in PAIR.Out(0);
  }

  /** The source sends a token. */
  lemma SourceRuns(s: Net) returns (s1: Net, s2: Net)
    requires Shape(PAIR, s) && s.conns[0].state == Done && !s.nodes[0].processing
    ensures Next(PAIR, Silent(), s, Start(0, Sequential), s1) && Next(PAIR, Silent(), s1, Finish(0), s2)
    ensures Shape(PAIR, s2) && s2.conns[0].state == Unread && s2.conns[0].sent != [] && !s2.nodes[0].processing && s2.nodes[1] == s.nodes[1]
  {
    PairIs();
    s1 := DoStart(PAIR, s, 0, Sequential);
    s2 := DoFinish(PAIR, Silent(), s1, 0);
  }

  lemma SinkStarts(s: Net) returns (s1: Net)
    requires Shape(PAIR, s) && s.conns[0].state == Unread && s.conns[0].sent != [] && !s.nodes[1].processing && !s.nodes[1].forwarded
    ensures Next(PAIR, Silent(), s, Start(1, Sequential), s1)
    ensures Shape(PAIR, s1) && s1.conns[0].state == Read && s1.nodes[0] == s.nodes[0]
    ensures s1.nodes[1].processing && !s1.nodes[1].processed && s1.nodes[1].pending == s.nodes[1].pending && s1.nodes[1].mode == Sequential
  {
    PairIs();
    s1 := DoStart(PAIR, s, 1, Sequential);
  }

  lemma SinkFinishes(s: Net) returns (s1: Net)
    requires Shape(PAIR, s) && s.conns[0].state == Read && s.nodes[1].processing && !s.nodes[1].processed && !s.nodes[0].processing
    ensures Next(PAIR, Silent(), s, Finish(1), s1)
    ensures Shape(PAIR, s1) && s1.conns[0].state == Done && !s1.nodes[0].processing
    ensures !s1.nodes[1].processing && !s1.nodes[1].forwarded && s1.nodes[1].pending
  {
    PairIs();
    s1 := DoFinish(PAIR, Silent(), s, 1);
  }

  lemma SinkIsNotified(s: Net) returns (s1: Net)
    requires Shape(PAIR, s) && s.conns[0].state == Read && s.nodes[1].pending && !s.nodes[1].processed && s.nodes[1].mode == Sequential
    requires s.nodes[1].processing && !s.nodes[0].processing
    ensures Next(PAIR, Silent(), s, Notify(1), s1)
    ensures Shape(PAIR, s1) && s1.conns[0].state == Done && !s1.nodes[0].processing && s1.nodes[1].processing && s1.nodes[1].processed
  {
    PairIs();
    s1 := DoNotify(PAIR, s, 1);
  }

  lemma SinkFinishesLate(s: Net) returns (s1: Net)
    requires Shape(PAIR, s) && s.conns[0].state == Unread && s.nodes[1].processing && s.nodes[1].processed
    ensures Next(PAIR, Silent(), s, Finish(1), s1) && Shape(PAIR, s1) && s1.conns[0].state == Unread
  {
    PairIs();
    s1 := DoFinish(PAIR, Silent(), s, 1);
  }

  lemma More(ss: seq<Net>, es: seq<Step>, e: Step, s: Net) returns (ss': seq<Net>, es': seq<Step>)
    requires Run(PAIR, Silent(), ss, es) && Next(PAIR, Silent(), ss[|es|], e, s)
    ensures ss' == ss + [s] && es' == es + [e] && Run(PAIR, Silent(), ss', es') && ss'[|es'|] == s
  {
    ss', es' := ss + [s], es + [e];
  }

  /** The second execution of the sink has been started before it is notified of the first. */
  lemma SecondStart() returns (ss: seq<Net>, es: seq<Step>)
    ensures Run(PAIR, Silent(), ss, es) && |es| == 7 && es[6] == Start(1, Sequential) && Shape(PAIR, ss[7])
    ensures ss[7].conns[0].state == Read && !ss[7].nodes[0].processing && ss[7].nodes[1].pending
    ensures ss[7].nodes[1].processing && !ss[7].nodes[1].processed && ss[7].nodes[1].mode == Sequential
  {
    PairIs();
    var idle := Node(false, false, false, Sequential, false, []);
    var s0 := Net([Conn(Done, [])], [idle, idle]);
    assert Run(PAIR, Silent(), [s0], []);
    var s1, s2 := SourceRuns(s0);
    ss, es := More([s0], [], Start(0, Sequential), s1);
    ss, es := More(ss, es, Finish(0), s2);
    var s3 := SinkStarts(s2);
    ss, es := More(ss, es, Start(1, Sequential), s3);
    var s4 := SinkFinishes(s3);
    ss, es := More(ss, es, Finish(1), s4);
    var s5, s6 := SourceRuns(s4);
    ss, es := More(ss, es, Start(0, Sequential), s5);
    ss, es := More(ss, es, Finish(0), s6);
    var s7 := SinkStarts(s6);
    ss, es := More(ss, es, Start(1, Sequential), s7);
  }

  /** A sink with an unconnected output may be notified of its previous round while it executes: then its input has been
      acknowledged before the end of the execution and may hold the next token already. */
  lemma NotifiedSink()
    ensures exists ss, es, i, j ::
              && Run(PAIR, Silent(), ss, es) && StartedAt(es, i, 1, Sequential) && NextFinish(es, 1, i, j)
              && PAIR.IsSink(1) && Shape(PAIR, ss[j + 1]) && !AllDone(PAIR, ss[j + 1], PAIR.In(1))
  {
    PairIs();
    var ss, es := SecondStart();
    var s8 := SinkIsNotified(ss[7]);
    ss, es := More(ss, es, Notify(1), s8);
    var s9, s10 := SourceRuns(s8);
    ss, es := More(ss, es, Start(0, Sequential), s9);
    ss, es := More(ss, es, Finish(0), s10);
    var s11 := SinkFinishesLate(s10);
    ss, es := More(ss, es, Finish(1), s11);
    assert StartedAt(es, 6, 1, Sequential) && NextFinish(es, 1, 6, 10);
    assert ss[11] == s11 && s11.conns[0].state == Unread && 0 in PAIR.In(1);
  }
}

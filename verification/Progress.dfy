/** Back-pressure of sequential networks, and freedom from livelock of all. */
module Progress {
  import opened TokenStates
  import opened Network
  import opened Determinism

  // ---------------------------------------------------------------- back-pressure

  ghost predicate AllSequential(es: seq<Step>) {
    forall i | 0 <= i < |es| :: es[i].Start? ==> es[i].mode == Sequential
  }

  /** A node with connected inputs has tokens under way only while it keeps all its inputs. */
  ghost predicate BackPressure(t: Topology, s: Net)
    requires Shape(t, s)
  {
    forall n: nat | n < |t.inPorts| && t.In(n) != {} && Busy(t, s, n) :: AllIn(t, s, t.In(n), {Read})
  }

  /** At most k connections before n there is a node that is not able to execute. */
  ghost predicate Starves(t: Topology, n: nat, k: nat)
    requires t.Valid() && n < |t.inPorts|
    decreases k
  {
    !t.Able(n) || (k > 0 && exists c | c in t.In(n) :: Starves(t, t.edges[c].src, k - 1))
  }

  /** Some node before n, or n itself, is not able to execute. */
  ghost predicate NeverRuns(t: Topology, n: nat)
    requires t.Valid() && n < |t.inPorts|
  {
    exists k: nat :: Starves(t, n, k)
  }

  /** No inner node that can run at all reports its round complete while it publishes. */
  ghost predicate NoEarlyCompletion(t: Topology)
    requires t.Valid()
  {
    forall n: nat | n < |t.inPorts| && t.In(n) != {} && !t.IsSink(n) && !NeverRuns(t, n) :: !t.CompletesEarly(n)
  }

  /** A node that starves never executes. */
  lemma {:induction false} StarvesIdle(t: Topology, f: Behaviour, s: Net, n: nat, k: nat)
    requires Inv(t, f, s) && n < |t.inPorts| && Starves(t, n, k)
    ensures s.nodes[n].consumed == []
    decreases k
  {
    assert NodeInv(t, s, n);
    if t.Able(n) {
      var c :| c in t.In(n) && Starves(t, t.edges[c].src, k - 1);
      StarvesIdle(t, f, s, t.edges[c].src, k - 1);
      assert ConnInv(t, f, s, c);
    }
  }

  lemma IdleIsDone(t: Topology, f: Behaviour, s: Net, n: nat)
    requires Inv(t, f, s) && n < |t.inPorts| && NeverRuns(t, n)
    ensures s.nodes[n].consumed == [] && !s.nodes[n].processing && !s.nodes[n].forwarded && !Busy(t, s, n)
  {
    var k: nat :| Starves(t, n, k);
    StarvesIdle(t, f, s, n, k);
    assert NodeInv(t, s, n);
    forall c | c in t.Out(n) ensures s.conns[c].state == Done {
      assert ConnInv(t, f, s, c) && NodeInv(t, s, t.edges[c].dst);
    }
  }

  lemma RunsBefore(t: Topology, n: nat)
    requires t.Valid() && n < |t.inPorts| && !NeverRuns(t, n)
    ensures t.Able(n) && forall c | c in t.In(n) :: !NeverRuns(t, t.edges[c].src)
  {
    assert !Starves(t, n, 0);
    forall c | c in t.In(n) ensures !NeverRuns(t, t.edges[c].src) {
      if k: nat :| Starves(t, t.edges[c].src, k) {
        assert Starves(t, n, k + 1);
      }
    }
  }

  ghost predicate Holds(t: Topology, s: Net, n: nat)
    requires Shape(t, s) && n < |t.inPorts|
  {
    var x := s.nodes[n];
    t.In(n) != {} && !t.IsSink(n) ==>
      && (Busy(t, s, n) ==> x.forwarded)
      && (x.pending ==> x.forwarded && !Busy(t, s, n))
      && (x.processing ==> x.forwarded && !x.pending && x.mode == Sequential)
  }

  lemma ForwardedIsRead(t: Topology, f: Behaviour, s: Net, n: nat)
    requires Inv(t, f, s) && n < |t.inPorts|
    ensures s.nodes[n].forwarded ==> AllIn(t, s, t.In(n), {Read})
    ensures t.In(n) != {} && !s.nodes[n].forwarded ==> !AllIn(t, s, t.In(n), {Read})
  {
    forall c | c in t.In(n) ensures s.conns[c].state == Read <==> s.nodes[n].forwarded {
      assert ConnInv(t, f, s, c);
    }
  }

  lemma AcknowledgeHolds(t: Topology, f: Behaviour, s: Net, n: nat, m: nat)
    requires Safe(t, f, s) && n < |s.nodes| && m < |s.nodes|
    requires Holds(t, s, m)
    requires m == n ==> !Busy(t, s, n) && !s.nodes[n].pending && !s.nodes[n].processing
    ensures Holds(t, Acknowledge(t, s, n), m)
  {
    var r := Acknowledge(t, s, n);
    if Busy(t, r, m) {
      var c :| c in t.Out(m) && r.conns[c].state != Done;
      assert s.conns[c].state != Done;
    }
    if CanAcknowledge(t, s, n) && Completes(t, s, n, m) {
      var c :| c in t.In(n) * t.Out(m) && s.conns[c].state == Read;
      assert Busy(t, s, m);
      assert ConnInv(t, f, s, c);
    }
  }

  lemma IdleHolds(t: Topology, f: Behaviour, s: Net, e: Step, s': Net, m: nat)
    requires Inv(t, f, s) && Next(t, f, s, e, s') && m < |t.inPorts| && NeverRuns(t, m) && Holds(t, s, m)
    ensures Holds(t, s', m)
  {
    NextInv(t, f, s, e, s');
    IdleIsDone(t, f, s, m);
    IdleIsDone(t, f, s', m);
    if e.Finish? {
      SendBusy(t, f, s, e.n, m);
    }
  }

  lemma NextHolds(t: Topology, f: Behaviour, s: Net, e: Step, s': Net, m: nat)
    requires Inv(t, f, s) && Next(t, f, s, e, s') && NoEarlyCompletion(t)
    requires e.Start? ==> e.mode == Sequential
    requires m < |t.inPorts| && Holds(t, s, m) && Holds(t, s, e.n)
    ensures Holds(t, s', m)
  {
    if NeverRuns(t, m) {
      IdleHolds(t, f, s, e, s', m);
    } else {
      RunningHolds(t, f, s, e, s', m);
    }
  }

  lemma RunningHolds(t: Topology, f: Behaviour, s: Net, e: Step, s': Net, m: nat)
    requires Inv(t, f, s) && Next(t, f, s, e, s') && NoEarlyCompletion(t)
    requires e.Start? ==> e.mode == Sequential
    requires m < |t.inPorts| && Holds(t, s, m) && Holds(t, s, e.n) && !NeverRuns(t, m)
    ensures Holds(t, s', m)
  {
    match e
    case Start(n, mode) =>
      TokensArrived(t, f, s, n);
      if m == n && t.In(n) != {} {
        var c :| c in t.In(n);
        assert ConnInv(t, f, s, c);
      }
      StartBusy(t, s, n, mode, m);
    case Finish(n) =>
      SendInv(t, f, s, n);
      var r := Send(t, f, s, n);
      if Busy(t, r, m) && m != n {
        var c :| c in t.Out(m) && r.conns[c].state != Done;
        assert s.conns[c].state != Done;
      }
      SendBusy(t, f, s, n, m);
      if t.IsSink(n) || s.nodes[n].mode == Pipelining {
        if m != n || t.In(n) == {} || t.IsSink(n) {
          AcknowledgeHoldsAfterSend(t, f, s, n, m);
        }
      }
    case Notify(n) =>
      var r := s.(nodes := s.nodes[n := s.nodes[n].(pending := false)]);
      assert Busy(t, r, m) == Busy(t, s, m);
      NotifySafe(t, f, s, n);
      if s.nodes[n].mode == Sequential && !(m == n && (t.In(n) == {} || t.IsSink(n))) {
        AcknowledgeHolds(t, f, r, n, m);
      }
  }

  lemma StartBusy(t: Topology, s: Net, n: nat, mode: Mode, m: nat)
    requires Shape(t, s) && n < |s.nodes| && m < |s.nodes|
    requires forall c | c in t.In(n) :: s.conns[c].state == Unread && s.conns[c].sent != []
    ensures Busy(t, DoStart(t, s, n, mode), m) == Busy(t, s, m)
  {
    var r := DoStart(t, s, n, mode);
    if Busy(t, s, m) {
      var c :| c in t.Out(m) && s.conns[c].state != Done;
      assert r.conns[c].state != Done;
    }
  }

  lemma SendBusy(t: Topology, f: Behaviour, s: Net, n: nat, m: nat)
    requires Shape(t, s) && n < |s.nodes| && m < |s.nodes|
    ensures m != n ==> Busy(t, Send(t, f, s, n), m) == Busy(t, s, m)
  {
    var r := Send(t, f, s, n);
    forall c | m != n && c in t.Out(m) ensures r.conns[c] == s.conns[c] {
      assert c !in t.Out(n);
    }
  }

  lemma AcknowledgeHoldsAfterSend(t: Topology, f: Behaviour, s: Net, n: nat, m: nat)
    requires Inv(t, f, s) && n < |s.nodes| && s.nodes[n].processing && m < |s.nodes|
    requires Holds(t, s, m) && (m == n ==> t.In(n) == {} || t.IsSink(n))
    ensures Holds(t, Acknowledge(t, Send(t, f, s, n), n), m)
  {
    SendInv(t, f, s, n);
    SendBusy(t, f, s, n, m);
    if m != n {
      AcknowledgeHolds(t, f, Send(t, f, s, n), n, m);
    }
  }

  lemma NotifySafe(t: Topology, f: Behaviour, s: Net, n: nat)
    requires Inv(t, f, s) && n < |s.nodes|
    ensures Safe(t, f, s.(nodes := s.nodes[n := s.nodes[n].(pending := false)]))
  {
    var r := s.(nodes := s.nodes[n := s.nodes[n].(pending := false)]);
    forall c: nat | c < |t.edges| ensures ConnInv(t, f, r, c) {
      assert ConnInv(t, f, s, c);
    }
    forall m: nat | m < |r.nodes| ensures NodeInv(t, r, m) {
      assert NodeInv(t, s, m);
    }
  }

  /** If no inner node completes early, sequential execution keeps the back-pressure in every run. */
  lemma {:induction false} BackPressureHolds(t: Topology, f: Behaviour, ss: seq<Net>, es: seq<Step>, i: nat)
    requires Run(t, f, ss, es) && AllSequential(es) && t.Valid() && NoEarlyCompletion(t) && i < |ss|
    ensures Shape(t, ss[i]) && BackPressure(t, ss[i])
  {
    RunInv(t, f, ss, es);
    for k := 0 to i
      invariant forall n: nat | n < |t.inPorts| :: Holds(t, ss[k], n)
    {
      var s' := ss[k + 1];
      forall n: nat | n < |t.inPorts| ensures Holds(t, s', n) {
        NextHolds(t, f, ss[k], es[k], s', n);
      }
    }
    forall n: nat | n < |t.inPorts| && t.In(n) != {} && Busy(t, ss[i], n)
      ensures AllIn(t, ss[i], t.In(n), {Read})
    {
      assert Holds(t, ss[i], n);
      ForwardedIsRead(t, f, ss[i], n);
    }
  }

  /** Connections that follow each other. */
  ghost predicate Path(t: Topology, p: seq<nat>) {
    && (forall i | 0 <= i < |p| :: p[i] < |t.edges|)
    && forall i | 0 < i < |p| :: t.edges[p[i - 1]].dst == t.edges[p[i]].src
  }

  /** Under back-pressure, everything behind a processed connection is processed. */
  lemma {:induction false} ProcessedDownstream(t: Topology, s: Net, p: seq<nat>)
    requires Shape(t, s) && BackPressure(t, s) && Path(t, p)
    requires p != [] && s.conns[p[0]].state == Done
    ensures forall i | 0 <= i < |p| :: s.conns[p[i]].state == Done
  {
    if |p| > 1 {
      var n := t.edges[p[0]].dst;
      assert p[0] in t.In(n) && p[1] in t.Out(n);
      assert s.conns[p[1]].state == Done;
      assert Path(t, p[1..]);
      ProcessedDownstream(t, s, p[1..]);
      assert forall i | 1 <= i < |p| :: p[i] == p[1..][i - 1];
    }
  }

  // ---------------------------------------------------------------- livelock

  /** The steps other than starts that a state still owes. */
  ghost function Debt(t: Topology, s: Net, n: nat): nat
    requires Shape(t, s) && n < |s.nodes|
  {
    (if s.nodes[n].processing then 3 else 0) + (if s.nodes[n].pending then 1 else 0) + (if Busy(t, s, n) then 1 else 0)
  }

  ghost function TotalDebt(t: Topology, s: Net, k: nat): nat
    requires Shape(t, s) && k <= |s.nodes|
  {
    if k == 0 then 0 else TotalDebt(t, s, k - 1) + Debt(t, s, k - 1)
  }

  lemma {:induction false} TotalDebtChange(t: Topology, s: Net, s': Net, n: nat, d: int, k: nat)
    requires Shape(t, s) && Shape(t, s') && n < |s.nodes| && k <= |s.nodes|
    requires forall m: nat | m < k && m != n :: Debt(t, s', m) <= Debt(t, s, m)
    requires n < k ==> Debt(t, s', n) <= Debt(t, s, n) + d
    ensures TotalDebt(t, s', k) <= TotalDebt(t, s, k) + if n < k then d else 0
  {
    if k > 0 {
      TotalDebtChange(t, s, s', n, d, k - 1);
    }
  }

  lemma AcknowledgeDebt(t: Topology, s: Net, n: nat, m: nat)
    requires Shape(t, s) && n < |s.nodes| && m < |s.nodes|
    ensures Debt(t, Acknowledge(t, s, n), m) <= Debt(t, s, m)
  {
    var r := Acknowledge(t, s, n);
    if Busy(t, r, m) {
      var c :| c in t.Out(m) && r.conns[c].state != Done;
      assert s.conns[c].state != Done;
      assert c !in t.In(n) || !CanAcknowledge(t, s, n);
      assert CanAcknowledge(t, s, n) ==> !Completes(t, s, n, m);
    } else if CanAcknowledge(t, s, n) && Completes(t, s, n, m) {
      assert Busy(t, s, m);
    }
  }

  lemma NextDebt(t: Topology, f: Behaviour, s: Net, e: Step, s': Net)
    requires Inv(t, f, s) && Next(t, f, s, e, s')
    ensures TotalDebt(t, s', |s.nodes|) <= TotalDebt(t, s, |s.nodes|) + if e.Start? then 3 else -1
  {
    var n := e.n;
    var d := if e.Start? then 3 else -1;
    forall m: nat | m < |s.nodes| ensures Debt(t, s', m) <= Debt(t, s, m) + if m == n then d else 0 {
      match e
      case Start(_, mode) =>
        TokensArrived(t, f, s, n);
        StartBusy(t, s, n, mode, m);
      case Finish(_) =>
        SendBusy(t, f, s, n, m);
        AcknowledgeDebt(t, Send(t, f, s, n), n, m);
      case Notify(_) =>
        var r := s.(nodes := s.nodes[n := s.nodes[n].(pending := false)]);
        assert Busy(t, r, m) == Busy(t, s, m);
        AcknowledgeDebt(t, r, n, m);
    }
    TotalDebtChange(t, s, s', n, d, |s.nodes|);
  }

  ghost function Starts(es: seq<Step>): nat {
    if es == [] then 0 else Starts(es[..|es| - 1]) + if es[|es| - 1].Start? then 1 else 0
  }

  /** No livelock: at least every fourth step of a run starts an execution. */
  lemma {:induction false} NoLivelock(t: Topology, f: Behaviour, ss: seq<Net>, es: seq<Step>)
    requires Run(t, f, ss, es)
    ensures |es| <= 4 * Starts(es)
  {
    RunInv(t, f, ss, es);
    InitialDebt(t, ss[0], |ss[0].nodes|);
    for i := 0 to |es|
      invariant Shape(t, ss[i])
      invariant TotalDebt(t, ss[i], |ss[i].nodes|) + i <= 4 * Starts(es[..i])
    {
      NextDebt(t, f, ss[i], es[i], ss[i + 1]);
      assert es[..i + 1][..i] == es[..i];
    }
    assert es[..|es|] == es;
  }

  lemma {:induction false} InitialDebt(t: Topology, s: Net, k: nat)
    requires Initial(t, s) && k <= |s.nodes|
    ensures TotalDebt(t, s, k) == 0
  {
    if k > 0 {
      InitialDebt(t, s, k - 1);
    }
  }

  // ---------------------------------------------------------------- early completion breaks back-pressure

  /** The nodes of `done` have executed once and no other node has executed. */
  ghost predicate ExecutedOnce(t: Topology, s: Net, done: set<nat>)
    requires Shape(t, s)
  {
    && (forall m | m in done :: m < |s.nodes| && forall c | c in t.In(m) :: t.edges[c].src in done)
    && forall m: nat | m < |s.nodes| ::
         !s.nodes[m].processing && Executions(s.nodes[m]) == if m in done then 1 else 0
  }

  ghost predicate SequentialRun(t: Topology, f: Behaviour, ss: seq<Net>, es: seq<Step>) {
    Run(t, f, ss, es) && AllSequential(es)
  }

  lemma Extend(t: Topology, f: Behaviour, ss: seq<Net>, es: seq<Step>, e: Step, s': Net)
    requires SequentialRun(t, f, ss, es) && Next(t, f, ss[|es|], e, s')
    requires e.Start? ==> e.mode == Sequential
    ensures SequentialRun(t, f, ss + [s'], es + [e])
  {
  }

  lemma OnceCanExecute(t: Topology, f: Behaviour, rank: seq<nat>, s: Net, done: set<nat>, n: nat)
    requires Acyclic(t, rank) && Inv(t, f, s) && ExecutedOnce(t, s, done)
    requires n < |s.nodes| && t.Able(n) && n !in done && forall c | c in t.In(n) :: t.edges[c].src in done
    ensures CanExecute(t, s, n)
  {
    assert NodeInv(t, s, n);
    forall c | c in t.In(n) ensures s.conns[c].state == Unread {
      assert ConnInv(t, f, s, c);
    }
    forall c | c in t.Out(n) ensures s.conns[c].state == Done {
      assert ConnInv(t, f, s, c);
      var d := t.edges[c].dst;
      assert NodeInv(t, s, d);
      assert c in t.In(d);
    }
  }

  /** One whole execution, without interference. */
  lemma StartAndFinish(t: Topology, f: Behaviour, s: Net, done: set<nat>, n: nat) returns (s1: Net, s2: Net)
    requires Inv(t, f, s) && ExecutedOnce(t, s, done)
    requires n < |s.nodes| && CanExecute(t, s, n)
    requires n !in done && forall c | c in t.In(n) :: t.edges[c].src in done
    ensures Next(t, f, s, Start(n, Sequential), s1) && Next(t, f, s1, Finish(n), s2)
    ensures Shape(t, s2) && ExecutedOnce(t, s2, done + {n})
    ensures !t.IsSink(n) ==> s2.nodes[n].forwarded && s2.nodes[n].mode == Sequential && Busy(t, s2, n)
    ensures !t.IsSink(n) && t.CompletesEarly(n) ==> s2.nodes[n].pending
  {
    TokensArrived(t, f, s, n);
    s1 := DoStart(t, s, n, Sequential);
    s2 := DoFinish(t, f, s1, n);
    if !t.IsSink(n) {
      var c :| c in t.Out(n);
      assert s2.conns[c].state == Unread;
    }
  }

  lemma ExecuteOnce(t: Topology, f: Behaviour, rank: seq<nat>, ss: seq<Net>, es: seq<Step>, done: set<nat>, n: nat)
      returns (ss': seq<Net>, es': seq<Step>)
    requires Acyclic(t, rank) && SequentialRun(t, f, ss, es) && Shape(t, ss[|es|]) && ExecutedOnce(t, ss[|es|], done)
    requires n < |rank| && t.Able(n) && n !in done && forall c | c in t.In(n) :: t.edges[c].src in done
    ensures SequentialRun(t, f, ss', es') && Shape(t, ss'[|es'|]) && ExecutedOnce(t, ss'[|es'|], done + {n})
    ensures !t.IsSink(n) ==> ss'[|es'|].nodes[n].forwarded && ss'[|es'|].nodes[n].mode == Sequential && Busy(t, ss'[|es'|], n)
    ensures !t.IsSink(n) && t.CompletesEarly(n) ==> ss'[|es'|].nodes[n].pending
  {
    RunInv(t, f, ss, es);
    OnceCanExecute(t, f, rank, ss[|es|], done, n);
    var s1, s2 := StartAndFinish(t, f, ss[|es|], done, n);
    ss', es' := ss + [s1], es + [Start(n, Sequential)];
    Extend(t, f, ss, es, Start(n, Sequential), s1);
    Extend(t, f, ss', es', Finish(n), s2);
    ss', es' := ss' + [s2], es' + [Finish(n)];
  }

  lemma {:induction false} ExecuteSources(t: Topology, f: Behaviour, rank: seq<nat>, ss: seq<Net>, es: seq<Step>, done: set<nat>, n: nat)
      returns (ss': seq<Net>, es': seq<Step>, done': set<nat>)
    requires Acyclic(t, rank) && SequentialRun(t, f, ss, es) && Shape(t, ss[|es|]) && ExecutedOnce(t, ss[|es|], done)
    requires n < |rank| && n !in done && !NeverRuns(t, n)
    ensures SequentialRun(t, f, ss', es') && Shape(t, ss'[|es'|]) && ExecutedOnce(t, ss'[|es'|], done')
    ensures done <= done' && (forall m | m in done' - done :: m < |rank| && rank[m] < rank[n])
    ensures forall c | c in t.In(n) :: t.edges[c].src in done'
    decreases rank[n]
  {
    ss', es', done' := ss, es, done;
    var todo := t.In(n);
    while todo != {}
      invariant SequentialRun(t, f, ss', es') && Shape(t, ss'[|es'|]) && ExecutedOnce(t, ss'[|es'|], done')
      invariant done <= done' && (forall m | m in done' - done :: m < |rank| && rank[m] < rank[n])
      invariant todo <= t.In(n) && forall c | c in t.In(n) - todo :: t.edges[c].src in done'
      decreases todo
    {
      var c :| c in todo;
      var m := t.edges[c].src;
      RunsBefore(t, n);
      if m !in done' {
        RunsBefore(t, m);
        ss', es', done' := ExecuteSources(t, f, rank, ss', es', done', m);
        ss', es' := ExecuteOnce(t, f, rank, ss', es', done', m);
        done' := done' + {m};
      }
      todo := todo - {c};
    }
  }

  /** An inner node that completes early acknowledges its inputs while its own tokens are still unread. */
  lemma EarlyCompletionBreaks(t: Topology, f: Behaviour, rank: seq<nat>, s0: Net, n: nat)
      returns (ss: seq<Net>, es: seq<Step>)
    requires Acyclic(t, rank) && Initial(t, s0)
    requires n < |rank| && t.In(n) != {} && !t.IsSink(n) && t.CompletesEarly(n) && !NeverRuns(t, n)
    ensures SequentialRun(t, f, ss, es) && Shape(t, ss[|es|]) && !BackPressure(t, ss[|es|])
  {
    var done: set<nat>;
    assert SequentialRun(t, f, [s0], []) && ExecutedOnce(t, [s0][0], {});
    ss, es, done := ExecuteSources(t, f, rank, [s0], [], {}, n);
    RunsBefore(t, n);
    ss, es := ExecuteOnce(t, f, rank, ss, es, done, n);
    RunInv(t, f, ss, es);
    var s := ss[|es|];
    var s' := DoNotify(t, s, n);
    Extend(t, f, ss, es, Notify(n), s');
    ss, es := ss + [s'], es + [Notify(n)];
    NotifyBreaks(t, f, rank, s, n);
  }

  lemma NotifyBreaks(t: Topology, f: Behaviour, rank: seq<nat>, s: Net, n: nat)
    requires Acyclic(t, rank) && Inv(t, f, s) && n < |rank| && t.In(n) != {}
    requires s.nodes[n].forwarded && s.nodes[n].mode == Sequential && Busy(t, s, n)
    ensures !BackPressure(t, DoNotify(t, s, n))
  {
    var r := s.(nodes := s.nodes[n := s.nodes[n].(pending := false)]);
    var s' := DoNotify(t, s, n);
    ForwardedIsRead(t, f, s, n);
    var i :| i in t.In(n);
    assert t.inPorts[n] > 0 && NodeInv(t, s, n);
    assert CanAcknowledge(t, r, n);
    assert s'.conns[i].state == Done;
    var c :| c in t.Out(n) && s.conns[c].state != Done;
    assert s'.conns[c].state != Done;
    assert Busy(t, s', n);
  }

  /** Sequential execution of an acyclic graph keeps the back-pressure in every run if and only if no inner
      node completes early, those apart that never execute because a node before them lacks a connection. */
  lemma BackPressureExactly(t: Topology, f: Behaviour, rank: seq<nat>, s0: Net)
    requires Acyclic(t, rank) && Initial(t, s0)
    ensures NoEarlyCompletion(t) <==>
            forall ss: seq<Net>, es: seq<Step> | SequentialRun(t, f, ss, es) ::
              Shape(t, ss[|es|]) && BackPressure(t, ss[|es|])
  {
    if NoEarlyCompletion(t) {
      forall ss: seq<Net>, es: seq<Step> | SequentialRun(t, f, ss, es)
        ensures Shape(t, ss[|es|]) && BackPressure(t, ss[|es|])
      {
        BackPressureHolds(t, f, ss, es, |es|);
      }
    } else {
      var n: nat :| n < |t.inPorts| && t.In(n) != {} && !t.IsSink(n) && !NeverRuns(t, n) && t.CompletesEarly(n);
      var ss, es := EarlyCompletionBreaks(t, f, rank, s0, n);
    }
  }
}

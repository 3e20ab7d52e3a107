/** Which graphs can come to a standstill: a node that lacks a connection stops all that are connected with it, and nothing
    else stops an acyclic graph. */
module Deadlock {
  import opened TokenStates
  import opened Network
  import opened Determinism
  import opened Progress

  /** No step is possible any more. */
  ghost predicate Stopped(t: Topology, s: Net) {
    forall e: Step :: !Enabled(t, s, e)
  }

  ghost predicate CanStop(t: Topology, f: Behaviour, s0: Net) {
    exists ss: seq<Net>, es: seq<Step> :: Run(t, f, ss, es) && ss[0] == s0 && Stopped(t, ss[|es|])
  }

  /** A node that is not able to execute is at most k connections away, whatever their directions. */
  ghost predicate Linked(t: Topology, n: nat, k: nat)
    requires t.Valid() && n < |t.inPorts|
    decreases k
  {
    || !t.Able(n)
    || (k > 0 && exists c: nat | c < |t.edges| ::
          || (t.edges[c].src == n && Linked(t, t.edges[c].dst, k - 1))
          || (t.edges[c].dst == n && Linked(t, t.edges[c].src, k - 1)))
  }

  /** The weakly connected component of n has a node that is not able to execute. */
  ghost predicate Hampered(t: Topology, n: nat)
    requires t.Valid() && n < |t.inPorts|
  {
    exists k: nat :: Linked(t, n, k)
  }

  // ---------------------------------------------------------------- a standstill is reached

  /** The executions of neighbours differ by at most one. */
  lemma Neighbours(t: Topology, f: Behaviour, s: Net, c: nat)
    requires Inv(t, f, s) && c < |t.edges|
    ensures Executions(s.nodes[t.edges[c].dst]) <= Executions(s.nodes[t.edges[c].src]) <= Executions(s.nodes[t.edges[c].dst]) + 1
  {
    assert ConnInv(t, f, s, c);
  }

  /** So the distance to a node that does not execute bounds the executions. */
  lemma {:induction false} LinkedBounds(t: Topology, f: Behaviour, s: Net, n: nat, k: nat)
    requires Inv(t, f, s) && n < |t.inPorts| && Linked(t, n, k)
    ensures Executions(s.nodes[n]) <= k
    decreases k
  {
    assert NodeInv(t, s, n);
    if t.Able(n) {
      var c: nat :| c < |t.edges| && ((t.edges[c].src == n && Linked(t, t.edges[c].dst, k - 1))
                                      || (t.edges[c].dst == n && Linked(t, t.edges[c].src, k - 1)));
      Neighbours(t, f, s, c);
      if t.edges[c].src == n && Linked(t, t.edges[c].dst, k - 1) {
        LinkedBounds(t, f, s, t.edges[c].dst, k - 1);
      } else {
        LinkedBounds(t, f, s, t.edges[c].src, k - 1);
      }
    }
  }

  lemma {:induction false} LinkedFarther(t: Topology, n: nat, k: nat)
    requires t.Valid() && n < |t.inPorts| && Linked(t, n, k)
    ensures Linked(t, n, k + 1)
    decreases k
  {
    if t.Able(n) {
      var c: nat :| c < |t.edges| && ((t.edges[c].src == n && Linked(t, t.edges[c].dst, k - 1))
                                      || (t.edges[c].dst == n && Linked(t, t.edges[c].src, k - 1)));
      if t.edges[c].src == n && Linked(t, t.edges[c].dst, k - 1) {
        LinkedFarther(t, t.edges[c].dst, k - 1);
      } else {
        LinkedFarther(t, t.edges[c].src, k - 1);
      }
    }
  }

  lemma LinkedUpTo(t: Topology, n: nat, k: nat, bound: nat)
    requires t.Valid() && n < |t.inPorts| && Linked(t, n, k) && k <= bound
    ensures Linked(t, n, bound)
  {
    for i := k to bound
      invariant Linked(t, n, i)
    {
      LinkedFarther(t, n, i);
    }
  }

  /** One distance that is enough for all of the first n nodes. */
  lemma {:induction false} CommonBound(t: Topology, n: nat) returns (bound: nat)
    requires t.Valid() && n <= |t.inPorts| && forall m: nat | m < n :: Hampered(t, m)
    ensures forall m: nat | m < n :: Linked(t, m, bound)
  {
    bound := 0;
    if n > 0 {
      var before := CommonBound(t, n - 1);
      assert Hampered(t, n - 1);
      var k: nat :| Linked(t, n - 1, k);
      bound := before + k;
      forall m: nat | m < n ensures Linked(t, m, bound) {
        LinkedUpTo(t, m, if m < n - 1 then before else k, bound);
      }
    }
  }

  /** How many executions the first k nodes have left. */
  ghost function Slack(s: Net, bound: nat, k: nat): int
    requires k <= |s.nodes|
  {
    if k == 0 then 0 else Slack(s, bound, k - 1) + bound - Executions(s.nodes[k - 1])
  }

  lemma {:induction false} SlackBounds(s: Net, bound: nat, k: nat)
    requires k <= |s.nodes| && forall m: nat | m < k :: Executions(s.nodes[m]) <= bound
    ensures 0 <= Slack(s, bound, k) <= k * bound
  {
    if k > 0 {
      SlackBounds(s, bound, k - 1);
    }
  }

  lemma NextExecutions(t: Topology, f: Behaviour, s: Net, e: Step, s': Net, m: nat)
    requires Next(t, f, s, e, s') && m < |s.nodes|
    ensures |s'.nodes| == |s.nodes|
    ensures Executions(s'.nodes[m]) == Executions(s.nodes[m]) + if e.Start? && m == e.n then 1 else 0
  {
  }

  lemma {:induction false} NextSlack(t: Topology, f: Behaviour, s: Net, e: Step, s': Net, bound: nat, k: nat)
    requires Next(t, f, s, e, s') && k <= |s.nodes|
    ensures |s'.nodes| == |s.nodes|
    ensures Slack(s', bound, k) == Slack(s, bound, k) - if e.Start? && e.n < k then 1 else 0
  {
    NextExecutions(t, f, s, e, s', e.n);
    if k > 0 {
      NextSlack(t, f, s, e, s', bound, k - 1);
      NextExecutions(t, f, s, e, s', k - 1);
    }
  }

  /** What is left to do. */
  ghost function Left(t: Topology, s: Net, bound: nat): int
    requires Shape(t, s)
  {
    4 * Slack(s, bound, |s.nodes|) + TotalDebt(t, s, |s.nodes|)
  }

  ghost predicate AllLinked(t: Topology, bound: nat) {
    t.Valid() && forall m: nat | m < |t.inPorts| :: Linked(t, m, bound)
  }

  lemma LeftIsNat(t: Topology, f: Behaviour, s: Net, bound: nat)
    requires Inv(t, f, s) && AllLinked(t, bound)
    ensures 0 <= Left(t, s, bound)
  {
    forall m: nat | m < |s.nodes| ensures Executions(s.nodes[m]) <= bound {
      LinkedBounds(t, f, s, m, bound);
    }
    SlackBounds(s, bound, |s.nodes|);
  }

  lemma NextLeft(t: Topology, f: Behaviour, s: Net, e: Step, s': Net, bound: nat)
    requires Inv(t, f, s) && Next(t, f, s, e, s') && Shape(t, s')
    ensures Left(t, s', bound) < Left(t, s, bound)
  {
    NextDebt(t, f, s, e, s');
    NextSlack(t, f, s, e, s', bound, |s.nodes|);
  }

  lemma EnabledNext(t: Topology, f: Behaviour, s: Net, e: Step) returns (s': Net)
    requires Inv(t, f, s) && Enabled(t, s, e)
    ensures Next(t, f, s, e, s')
  {
    match e
    case Start(n, mode) =>
      TokensArrived(t, f, s, n);
      s' := DoStart(t, s, n, mode);
    case Finish(n) => s' := DoFinish(t, f, s, n);
    case Notify(n) => s' := DoNotify(t, s, n);
  }

  lemma Longer(t: Topology, f: Behaviour, ss: seq<Net>, es: seq<Step>, e: Step, s': Net)
    requires Run(t, f, ss, es) && Next(t, f, ss[|es|], e, s')
    ensures Run(t, f, ss + [s'], es + [e])
  {
  }

  lemma StepLeft(t: Topology, f: Behaviour, s: Net, e: Step, s': Net, bound: nat)
    requires Inv(t, f, s) && Next(t, f, s, e, s') && AllLinked(t, bound)
    ensures Inv(t, f, s') && 0 <= Left(t, s', bound) < Left(t, s, bound)
  {
    NextInv(t, f, s, e, s');
    NextLeft(t, f, s, e, s', bound);
    LeftIsNat(t, f, s', bound);
  }

  /** Whatever has been done before, the run comes to its end. */
  lemma {:induction false} RunEnds(t: Topology, f: Behaviour, bound: nat, ss: seq<Net>, es: seq<Step>)
      returns (ss': seq<Net>, es': seq<Step>)
    requires Run(t, f, ss, es) && AllLinked(t, bound) && Inv(t, f, ss[|es|])
    ensures es <= es' && Run(t, f, ss', es') && ss'[0] == ss[0] && Stopped(t, ss'[|es'|])
    decreases Left(t, ss[|es|], bound)
  {
    var s := ss[|es|];
    ss', es' := ss, es;
    if e: Step :| Enabled(t, s, e) {
      var s' := EnabledNext(t, f, s, e);
      StepLeft(t, f, s, e, s', bound);
      Longer(t, f, ss, es, e, s');
      ss', es' := RunEnds(t, f, bound, ss + [s'], es + [e]);
    }
  }

  /** If every component has a node that is not able to execute, no run is longer than a bound. */
  lemma {:induction false} RunsAreBounded(t: Topology, f: Behaviour, bound: nat, ss: seq<Net>, es: seq<Step>)
    requires Run(t, f, ss, es) && AllLinked(t, bound)
    ensures |es| <= 4 * (|t.inPorts| * bound)
  {
    RunInv(t, f, ss, es);
    InitialDebt(t, ss[0], |ss[0].nodes|);
    SlackBounds(ss[0], bound, |ss[0].nodes|);
    for i := 0 to |es|
      invariant Shape(t, ss[i]) && Left(t, ss[i], bound) + i <= 4 * (|t.inPorts| * bound)
    {
      NextLeft(t, f, ss[i], es[i], ss[i + 1], bound);
    }
    LeftIsNat(t, f, ss[|es|], bound);
  }

  // ---------------------------------------------------------------- no standstill

  /** Nothing is executing and no notify task is queued. */
  ghost predicate Quiet(s: Net) {
    forall n | 0 <= n < |s.nodes| :: !s.nodes[n].processing && !s.nodes[n].pending
  }

  /** Some nodes that are connected among themselves only, and all of them able to execute. */
  ghost predicate Independent(t: Topology, part: set<nat>) {
    && t.Valid() && part != {}
    && (forall n | n in part :: n < |t.inPorts| && t.Able(n))
    && forall c: nat | c < |t.edges| :: t.edges[c].src in part <==> t.edges[c].dst in part
  }

  /** In a quiet state, tokens that a least advanced node has sent cannot be kept for ever downstream. */
  lemma {:induction false} NothingKept(t: Topology, f: Behaviour, rank: seq<nat>, s: Net, part: set<nat>, n: nat, k: nat, top: nat)
    requires Acyclic(t, rank) && Inv(t, f, s) && Quiet(s) && Independent(t, part) && n in part
    requires forall m | m in part :: k <= Executions(s.nodes[m])
    requires forall m | 0 <= m < |rank| :: rank[m] <= top
    requires Executions(s.nodes[n]) == k
    ensures !Busy(t, s, n)
    decreases top - rank[n]
  {
    if Busy(t, s, n) {
      var c :| c in t.Out(n) && s.conns[c].state != Done;
      var d := t.edges[c].dst;
      assert ConnInv(t, f, s, c);
      assert d in part;
      assert s.conns[c].state == Read && Executions(s.nodes[d]) == k;
      assert Waits(t, s, d);
      NothingKept(t, f, rank, s, part, d, k, top);
    }
  }

  /** A least advanced node, and among those one of least rank. */
  lemma {:induction false} LeastOf(s: Net, rank: seq<nat>, part: set<nat>) returns (n: nat)
    requires part != {} && |s.nodes| == |rank| && forall m | m in part :: m < |rank|
    ensures n in part
    ensures forall m | m in part :: Executions(s.nodes[n]) <= Executions(s.nodes[m])
    ensures forall m | m in part :: Executions(s.nodes[m]) == Executions(s.nodes[n]) ==> rank[n] <= rank[m]
  {
    var x :| x in part;
    n := x;
    if part != {x} {
      var y := LeastOf(s, rank, part - {x});
      var i, j := Executions(s.nodes[x]), Executions(s.nodes[y]);
      n := if j < i || (j == i && rank[y] < rank[x]) then y else x;
    }
  }

  lemma {:induction false} Top(rank: seq<nat>) returns (top: nat)
    ensures forall m | 0 <= m < |rank| :: rank[m] <= top
  {
    top := 0;
    for i := 0 to |rank|
      invariant forall m | 0 <= m < i :: rank[m] <= top
    {
      if top < rank[i] {
        top := rank[i];
      }
    }
  }

  lemma QuietCanExecute(t: Topology, f: Behaviour, rank: seq<nat>, s: Net, part: set<nat>) returns (n: nat)
    requires Acyclic(t, rank) && Inv(t, f, s) && Quiet(s) && Independent(t, part)
    ensures n in part && CanExecute(t, s, n)
  {
    n := LeastOf(s, rank, part);
    var top := Top(rank);
    NothingKept(t, f, rank, s, part, n, Executions(s.nodes[n]), top);
    forall c | c in t.In(n) ensures s.conns[c].state == Unread {
      assert ConnInv(t, f, s, c);
      assert t.edges[c].src in part;
    }
    assert Waits(t, s, n);
    if t.In(n) != {} {
      var c :| c in t.In(n);
      assert ConnInv(t, f, s, c);
    }
  }

  /** Nodes of an acyclic graph that are connected among themselves only, and lack nothing, never stop: in every state of
      every run some step is enabled. */
  lemma DeadlockFree(t: Topology, f: Behaviour, rank: seq<nat>, part: set<nat>, ss: seq<Net>, es: seq<Step>, i: nat)
    requires Acyclic(t, rank) && Independent(t, part) && Run(t, f, ss, es) && i < |ss|
    ensures !Stopped(t, ss[i])
  {
    RunInv(t, f, ss, es);
    var s := ss[i];
    if n :| 0 <= n < |s.nodes| && s.nodes[n].processing {
      assert Enabled(t, s, Finish(n));
    } else if n :| 0 <= n < |s.nodes| && s.nodes[n].pending {
      assert Enabled(t, s, Notify(n));
    } else {
      var n := QuietCanExecute(t, f, rank, s, part);
      assert Enabled(t, s, Start(n, Sequential));
    }
  }

  /** The nodes that are not hampered are connected among themselves only. */
  lemma UnhamperedApart(t: Topology, n: nat) returns (part: set<nat>)
    requires t.Valid() && n < |t.inPorts| && !Hampered(t, n)
    ensures Independent(t, part)
  {
    part := set m: nat | m < |t.inPorts| && !Hampered(t, m);
    assert n in part;
    forall m | m in part ensures t.Able(m) {
      assert !Linked(t, m, 0);
    }
    forall c: nat | c < |t.edges| ensures t.edges[c].src in part <==> t.edges[c].dst in part {
      if k: nat :| Linked(t, t.edges[c].src, k) {
        assert Linked(t, t.edges[c].dst, k + 1);
      }
      if k: nat :| Linked(t, t.edges[c].dst, k) {
        assert Linked(t, t.edges[c].src, k + 1);
      }
    }
  }

  /** An acyclic graph can come to a standstill if and only if every weakly connected component has a node that is not able
      to execute. */
  lemma DeadlockExactly(t: Topology, f: Behaviour, rank: seq<nat>, s0: Net)
    requires Acyclic(t, rank) && Initial(t, s0)
    ensures CanStop(t, f, s0) <==> forall n: nat | n < |t.inPorts| :: Hampered(t, n)
  {
    if forall n: nat | n < |t.inPorts| :: Hampered(t, n) {
      var bound := CommonBound(t, |t.inPorts|);
      InitialInv(t, f, s0);
      var ss, es := RunEnds(t, f, bound, [s0], []);
    } else {
      var n: nat :| n < |t.inPorts| && !Hampered(t, n);
      var part := UnhamperedApart(t, n);
      forall ss: seq<Net>, es: seq<Step> | Run(t, f, ss, es) && ss[0] == s0 ensures !Stopped(t, ss[|es|]) {
        DeadlockFree(t, f, rank, part, ss, es, |es|);
      }
    }
  }

  ghost predicate EndsWithin(t: Topology, f: Behaviour, steps: nat) {
    forall ss: seq<Net>, es: seq<Step> | Run(t, f, ss, es) :: |es| <= steps
  }

  /** And then every run does, within a bound. */
  lemma StandstillInevitable(t: Topology, f: Behaviour)
    requires t.Valid() && forall n: nat | n < |t.inPorts| :: Hampered(t, n)
    ensures exists steps: nat :: EndsWithin(t, f, steps)
  {
    var bound := CommonBound(t, |t.inPorts|);
    var steps: nat := 4 * (|t.inPorts| * bound);
    forall ss: seq<Net>, es: seq<Step> | Run(t, f, ss, es) ensures |es| <= steps {
      RunsAreBounded(t, f, bound, ss, es);
    }
    assert EndsWithin(t, f, steps);
  }
}

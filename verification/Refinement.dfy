/** The steps of the network are what the objects of a node do: the input transition of `Inboxes`, the output
    transition of `Rounds`. */
module Refinement {
  import opened TokenStates
  import Network
  import Rounds
  import Inboxes

  /** `cs` are the connections in `s`, in the order in which a transition keeps them. */
  ghost predicate Lists(cs: seq<nat>, s: set<nat>) {
    forall c: nat :: c in cs <==> c in s
  }

  function StateOf(s: Network.Net, c: nat): State {
    if c < |s.conns| then s.conns[c].state else Done
  }

  function StatesOf(s: Network.Net, cs: seq<nat>): seq<State> {
    seq(|cs|, i requires 0 <= i < |cs| => StateOf(s, cs[i]))
  }

  function InboxOf(s: Network.Net, n: nat, cs: seq<nat>): Inboxes.Inbox
    requires n < |s.nodes|
  {
    Inboxes.Inbox(StatesOf(s, cs), s.nodes[n].forwarded, s.nodes[n].processed)
  }

  /** `cs[i]` are the connections of the i-th output that the transition of node n visits. */
  ghost predicate ListsOutputs(t: Network.Topology, n: nat, cs: seq<seq<nat>>)
    requires n < |t.outPorts|
  {
    && |cs| == |t.outPorts[n]|
    && (forall c: nat | c in t.Out(n) :: exists i | 0 <= i < |cs| :: c in cs[i])
    && forall i | 0 <= i < |cs| :: Lists(cs[i], OutOf(t, n, t.outPorts[n][i]))
  }

  function OutOf(t: Network.Topology, n: nat, out: nat): set<nat> {
    set c: nat | c < |t.edges| && t.edges[c].src == n && t.edges[c].out == out
  }

  function RoundOf(s: Network.Net, cs: seq<seq<nat>>, completions: nat): Rounds.Round {
    Rounds.Round(seq(|cs|, i requires 0 <= i < |cs| => StatesOf(s, cs[i])), completions)
  }

  lemma DoneOut(t: Network.Topology, s: Network.Net, n: nat, cs: seq<seq<nat>>, completions: nat)
    requires Network.Shape(t, s) && n < |s.nodes| && ListsOutputs(t, n, cs)
    ensures RoundOf(s, cs, completions).AllAre(Done) <==> Network.AllIn(t, s, t.Out(n), {Done})
  {
    var r := RoundOf(s, cs, completions);
    if r.AllAre(Done) {
      forall c | c in t.Out(n) ensures s.conns[c].state == Done {
        var i :| 0 <= i < |cs| && c in cs[i];
        var j :| 0 <= j < |cs[i]| && cs[i][j] == c;
        assert r.states[i][j] == Done;
      }
    }
    if Network.AllIn(t, s, t.Out(n), {Done}) {
      forall i, j | 0 <= i < |r.states| && 0 <= j < |r.states[i]| ensures r.states[i][j] == Done {
        assert cs[i][j] in cs[i] && cs[i][j] in t.Out(n);
      }
    }
  }

  /** A node can be executed exactly if its two transitions allow it. */
  lemma ExecutesAlike(t: Network.Topology, s: Network.Net, n: nat, ins: seq<nat>, outs: seq<seq<nat>>, completions: nat)
    requires Network.Shape(t, s) && n < |s.nodes| && Lists(ins, t.In(n)) && ListsOutputs(t, n, outs)
    ensures Network.CanExecute(t, s, n) <==>
            && t.complete[n] && (t.inPorts[n] > 0 || t.outPorts[n] != [])
            && (t.inPorts[n] == 0 || InboxOf(s, n, ins).Enabled())
            && RoundOf(s, outs, completions).AllAre(Done)
            && !s.nodes[n].processing
  {
    DoneOut(t, s, n, outs, completions);
    forall i | 0 <= i < |ins| ensures ins[i] in t.In(n) {
      assert ins[i] in ins;
    }
    if InboxOf(s, n, ins).AllAre(Unread) {
      forall c | c in t.In(n) ensures s.conns[c].state == Unread {
        var i :| 0 <= i < |ins| && ins[i] == c;
        assert InboxOf(s, n, ins).states[i] == Unread;
      }
    }
  }

  lemma StartsAlike(t: Network.Topology, s: Network.Net, n: nat, mode: Network.Mode, ins: seq<nat>)
    requires Network.Shape(t, s) && n < |s.nodes| && Lists(ins, t.In(n))
    requires forall c | c in t.In(n) :: s.conns[c].sent != []
    requires s.nodes[n].forwarded ==> t.In(n) == {}
    ensures var r := Network.DoStart(t, s, n, mode);
            && InboxOf(r, n, ins) == Inboxes.Forward(InboxOf(s, n, ins))
            && r.nodes[n].mode == mode && r.nodes[n].processing
  {
    forall i | 0 <= i < |ins| ensures ins[i] in t.In(n) {
      assert ins[i] in ins;
    }
  }

  lemma AcknowledgesAlike(t: Network.Topology, s: Network.Net, n: nat, ins: seq<nat>)
    requires Network.Shape(t, s) && n < |s.nodes| && Lists(ins, t.In(n))
    ensures InboxOf(Network.Acknowledge(t, s, n), n, ins) == Inboxes.Acknowledge(InboxOf(s, n, ins))
  {
    var x := InboxOf(s, n, ins);
    forall i | 0 <= i < |ins| ensures ins[i] in t.In(n) {
      assert ins[i] in ins;
    }
    if !x.OneIs(Unread) {
      forall c | c in t.In(n) ensures s.conns[c].state != Unread {
        var i :| 0 <= i < |ins| && ins[i] == c;
        assert x.states[i] == s.conns[c].state;
      }
    }
    assert x.Acknowledges() == Network.CanAcknowledge(t, s, n);
  }

  /** The network completes the round of m exactly if the last of its tokens becomes done. */
  lemma CompletionOfAcknowledge(t: Network.Topology, s: Network.Net, n: nat, m: nat)
    requires Network.Shape(t, s) && n < |s.nodes| && Network.CanAcknowledge(t, s, n)
    ensures Network.Completes(t, s, n, m) <==>
            !Network.AllIn(t, s, t.Out(m), {Done}) && Network.AllIn(t, Network.Acknowledge(t, s, n), t.Out(m), {Done})
  {
    var s' := Network.Acknowledge(t, s, n);
    forall c | c in t.Out(m) ensures s'.conns[c].state == if c in t.In(n) then Done else s.conns[c].state {
    }
    if !Network.AllIn(t, s, t.Out(m), {Done}) && Network.AllIn(t, s', t.Out(m), {Done}) {
      var c :| c in t.Out(m) && s.conns[c].state != Done;
      assert s'.conns[c].state == Done;
      assert c in t.In(n) * t.Out(m);
    }
  }

  /** The notify task of node m is scheduled exactly if the acknowledgements of n have settled its round. */
  lemma SettlesAlike(t: Network.Topology, s: Network.Net, n: nat, m: nat, outs: seq<seq<nat>>, completions: nat)
      returns (completions': nat)
    requires Network.Shape(t, s) && n < |s.nodes| && m < |s.nodes| && ListsOutputs(t, m, outs)
    ensures Rounds.Settles(RoundOf(s, outs, completions), RoundOf(Network.Acknowledge(t, s, n), outs, completions'))
    ensures Network.Acknowledge(t, s, n).nodes[m].pending == (s.nodes[m].pending || completions' > completions)
  {
    var s' := Network.Acknowledge(t, s, n);
    var done, done' := Network.AllIn(t, s, t.Out(m), {Done}), Network.AllIn(t, s', t.Out(m), {Done});
    completions' := completions + if done' && !done then 1 else 0;
    DoneOut(t, s, m, outs, completions);
    DoneOut(t, s', m, outs, completions');
    if Network.CanAcknowledge(t, s, n) {
      CompletionOfAcknowledge(t, s, n, m);
    }
  }

  lemma SendsAlike(t: Network.Topology, f: Network.Behaviour, s: Network.Net, n: nat, outs: seq<seq<nat>>, completions: nat)
      returns (completions': nat)
    requires Network.Shape(t, s) && n < |s.nodes| && ListsOutputs(t, n, outs)
    ensures RoundOf(Network.Send(t, f, s, n), outs, completions') == Rounds.Send(RoundOf(s, outs, completions))
    ensures Network.Send(t, f, s, n).nodes[n].pending == (s.nodes[n].pending || completions' > completions)
  {
    var s' := Network.Send(t, f, s, n);
    var r := RoundOf(s, outs, completions);
    completions' := Rounds.Send(r).completions;
    assert r.states[..|r.states|] == r.states;
    Rounds.LeadingBounds(r.states);
    var r' := RoundOf(s', outs, completions');
    forall i | 0 <= i < |outs| ensures r'.states[i] == Rounds.Fresh(r.states[i]) {
      forall j | 0 <= j < |outs[i]| ensures StateOf(s', outs[i][j]) == Unread {
        assert outs[i][j] in outs[i];
        assert outs[i][j] in t.Out(n);
      }
    }
    if outs != [] {
      FirstOutput(t, n, outs);
    }
  }

  /** The end of an execution acknowledges for a sink and for a node that is pipelining. */
  lemma FinishesAlike(t: Network.Topology, f: Network.Behaviour, s: Network.Net, n: nat, ins: seq<nat>)
    requires Network.Shape(t, s) && n < |s.nodes| && Lists(ins, t.In(n)) && t.In(n) !! t.Out(n)
    ensures var r := Network.DoFinish(t, f, s, n);
            && !r.nodes[n].processing
            && InboxOf(r, n, ins) ==
               if t.Out(n) == {} || s.nodes[n].mode == Network.Pipelining then Inboxes.Acknowledge(InboxOf(s, n, ins)) else InboxOf(s, n, ins)
  {
    var sent := Network.Send(t, f, s, n);
    forall i | 0 <= i < |ins| ensures StateOf(sent, ins[i]) == StateOf(s, ins[i]) {
      assert ins[i] in ins;
    }
    assert InboxOf(sent, n, ins) == InboxOf(s, n, ins);
    AcknowledgesAlike(t, sent, n, ins);
  }

  /** The notify task acknowledges for a sequential node. */
  lemma NotifiesAlike(t: Network.Topology, s: Network.Net, n: nat, ins: seq<nat>)
    requires Network.Shape(t, s) && n < |s.nodes| && Lists(ins, t.In(n)) && t.In(n) !! t.Out(n)
    ensures var r := Network.DoNotify(t, s, n);
            && !r.nodes[n].pending
            && InboxOf(r, n, ins) ==
               if s.nodes[n].mode == Network.Sequential then Inboxes.Acknowledge(InboxOf(s, n, ins)) else InboxOf(s, n, ins)
  {
    var cleared := s.(nodes := s.nodes[n := s.nodes[n].(pending := false)]);
    assert InboxOf(cleared, n, ins) == InboxOf(s, n, ins);
    AcknowledgesAlike(t, cleared, n, ins);
  }

  lemma FirstOutput(t: Network.Topology, n: nat, outs: seq<seq<nat>>)
    requires n < |t.outPorts| && ListsOutputs(t, n, outs) && outs != []
    ensures t.CompletesEarly(n) <==> outs[0] == []
  {
    assert Lists(outs[0], OutOf(t, n, t.outPorts[n][0]));
    if outs[0] == [] {
      forall c | c in t.Out(n) ensures t.edges[c].out != t.outPorts[n][0] {
        assert c !in outs[0];
      }
    } else {
      assert outs[0][0] in outs[0];
      assert outs[0][0] in OutOf(t, n, t.outPorts[n][0]);
      assert outs[0][0] in t.Out(n);
    }
  }
}

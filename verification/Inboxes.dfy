/**
 The receiving side of the handshake over values: what an input transition makes of the states of its
 connections, for every order in which tokens arrive, the node runs and connections are added.
 */
module Inboxes {
  import opened TokenStates

  datatype Inbox = Inbox(states: seq<State>, forwarded: bool, processed: bool) {
    predicate AllAre(s: State) {
      forall i | 0 <= i < |states| :: states[i] == s
    }

    predicate OneIs(s: State) {
      exists i | 0 <= i < |states| :: states[i] == s
    }

    /** For a transition that has inputs. */
    predicate Enabled() {
      !forwarded && AllAre(Unread)
    }

    /** Telling the transition that its messages are processed has an effect. */
    predicate Acknowledges() {
      !processed && !OneIs(Unread)
    }

    /** The transition waits for an acknowledgement which is refused because of a token that it has not read. */
    predicate Stuck() {
      forwarded && OneIs(Unread)
    }
  }

  function AllOf(n: nat, s: State): (states: seq<State>)
    ensures |states| == n && forall i | 0 <= i < n :: states[i] == s
  {
    seq(n, _ => s)
  }

  function Initial(n: nat): Inbox {
    Inbox(AllOf(n, Done), false, false)
  }

  function Forward(x: Inbox): Inbox {
    if x.forwarded then x.(processed := false) else Inbox(AllOf(|x.states|, Read), true, false)
  }

  function Acknowledge(x: Inbox): Inbox {
    if x.Acknowledges() then Inbox(AllOf(|x.states|, Done), false, true) else x
  }

  /** A connection that is added during a round joins it with an empty token. */
  function Joined(x: Inbox, s: State): State {
    if s != Done then s
    else if x.OneIs(Unread) then Unread
    else if x.OneIs(Read) then Read
    else Done
  }

  function Add(x: Inbox, s: State): Inbox {
    x.(states := x.states + [Joined(x, s)])
  }

  datatype Event = Arrives(i: nat) | Forwards | Acknowledged | Adds

  ghost predicate Possible(x: Inbox, e: Event) {
    match e
    case Arrives(i) => i < |x.states| && x.states[i] == Done
    case Forwards => x.Enabled()
    case Acknowledged => true
    case Adds => true
  }

  ghost function After(x: Inbox, e: Event): Inbox
    requires Possible(x, e)
  {
    match e
    case Arrives(i) => x.(states := x.states[i := Unread])
    case Forwards => Forward(x)
    case Acknowledged => Acknowledge(x)
    case Adds => Add(x, Done)
  }

  /** `es` is a run from x to x'. */
  ghost predicate Leads(x: Inbox, es: seq<Event>, x': Inbox)
    decreases |es|
  {
    if es == [] then x' == x
    else Possible(x, es[0]) && Leads(After(x, es[0]), es[1..], x')
  }

  ghost predicate Inv(x: Inbox) {
    && (x.OneIs(Read) ==> x.forwarded && x.AllAre(Read))
    && (x.forwarded ==> !x.processed)
  }

  /** In every reachable state all connections are read, by a transition that has forwarded, or none is. */
  lemma {:induction false} ReadAllOrNone(x: Inbox, es: seq<Event>, x': Inbox)
    requires Inv(x) && Leads(x, es, x')
    ensures Inv(x')
    decreases |es|
  {
    if es != [] {
      var y := After(x, es[0]);
      assert es[0].Arrives? ==> x.states[es[0].i] == Done;
      assert y.OneIs(Read) ==> x.OneIs(Read) || es[0].Forwards?;
      ReadAllOrNone(y, es[1..], x');
    }
  }

  function OpenForwards(x: Inbox): nat {
    if x.forwarded then 1 else 0
  }

  /** The forwards of a run. */
  function ForwardsIn(es: seq<Event>): nat {
    if es == [] then 0 else ForwardsIn(es[1..]) + if es[0].Forwards? then 1 else 0
  }

  /** The acknowledgements of a run that processed what had been forwarded. */
  ghost function BatchesIn(x: Inbox, es: seq<Event>, x': Inbox): nat
    requires Leads(x, es, x')
    decreases |es|
  {
    if es == [] then 0
    else
      BatchesIn(After(x, es[0]), es[1..], x') + if es[0].Acknowledged? && x.forwarded && x.Acknowledges() then 1 else 0
  }

  function ArrivalsIn(es: seq<Event>, i: nat): nat {
    if es == [] then 0 else ArrivalsIn(es[1..], i) + if es[0] == Arrives(i) then 1 else 0
  }

  /** However often the transition is notified, every forward but an open last one is followed by exactly one
      batch of acknowledgements before the next one, and an acknowledgement outside of a round processes nothing. */
  lemma {:induction false} OneBatchPerForward(x: Inbox, es: seq<Event>, x': Inbox)
    requires Inv(x) && Leads(x, es, x')
    ensures ForwardsIn(es) + OpenForwards(x) == BatchesIn(x, es, x') + OpenForwards(x')
    decreases |es|
  {
    if es != [] {
      ReadAllOrNone(x, [es[0]], After(x, es[0]));
      OneBatchPerForward(After(x, es[0]), es[1..], x');
    }
  }

  /** Every forward consumes one token of every connection that has been there from the start. */
  lemma {:induction false} OneTokenPerForward(x: Inbox, es: seq<Event>, x': Inbox, i: nat)
    requires Inv(x) && Leads(x, es, x') && i < |x.states|
    ensures i < |x'.states|
    ensures ArrivalsIn(es, i) + (if x.states[i] == Unread then 1 else 0) ==
            ForwardsIn(es) + (if x'.states[i] == Unread then 1 else 0)
    decreases |es|
  {
    if es != [] {
      ReadAllOrNone(x, [es[0]], After(x, es[0]));
      OneTokenPerForward(After(x, es[0]), es[1..], x', i);
    }
  }

  /** A token that arrives at a transition that has forwarded without a connection is never read. */
  lemma {:induction false} StuckForEver(x: Inbox, es: seq<Event>, x': Inbox)
    requires x.Stuck() && Leads(x, es, x')
    ensures x'.Stuck() && !x'.Enabled() && ForwardsIn(es) == 0
    decreases |es|
  {
    if es != [] {
      var y := After(x, es[0]);
      var j :| 0 <= j < |x.states| && x.states[j] == Unread;
      assert y.states[j] == Unread;
      StuckForEver(y, es[1..], x');
    }
  }

  /** The part of the invariant that keeps a transition with connections from getting stuck. */
  ghost predicate Connected(x: Inbox) {
    Inv(x) && x.states != [] && (x.forwarded ==> x.AllAre(Read))
  }

  lemma {:induction false} ConnectedNeverStuck(x: Inbox, es: seq<Event>, x': Inbox)
    requires Connected(x) && Leads(x, es, x')
    ensures Connected(x') && !x'.Stuck()
    decreases |es|
  {
    if es != [] {
      ReadAllOrNone(x, [es[0]], After(x, es[0]));
      assert x.forwarded ==> x.states[0] == Read;
      ConnectedNeverStuck(After(x, es[0]), es[1..], x');
    }
  }

  ghost predicate CanGetStuck(n: nat) {
    exists es, x' :: Leads(Initial(n), es, x') && x'.Stuck()
  }

  /** A transition can get stuck if and only if it starts without any connection. */
  lemma StuckExactly(n: nat)
    ensures CanGetStuck(n) <==> n == 0
  {
    if n > 0 {
      forall es, x' | Leads(Initial(n), es, x') ensures !x'.Stuck() {
        ConnectedNeverStuck(Initial(n), es, x');
      }
    } else {
      var es := [Forwards, Adds, Arrives(0)];
      var x1 := After(Initial(0), Forwards);
      var x2 := After(x1, Adds);
      var x3 := After(x2, Arrives(0));
      assert es[1..] == [Adds, Arrives(0)] && es[1..][1..] == [Arrives(0)] && es[1..][1..][1..] == [];
      assert Leads(x3, es[1..][1..][1..], x3);
      assert Leads(x2, es[1..][1..], x3);
      assert Leads(x1, es[1..], x3);
      assert Leads(Initial(0), es, x3);
      assert x3.states[0] == Unread;
    }
  }

  /** A connection that is added keeps pace: where all others are in one state so is the new one, and it never brings a token
      to a transition without one. */
  lemma AddedKeepsPace(x: Inbox, s: State)
    requires x.states != [] && x.AllAre(s)
    ensures Add(x, Done).AllAre(s) && |Add(x, Done).states| == |x.states| + 1
    ensures x.Enabled() <==> Add(x, Done).Enabled()
    ensures x.Acknowledges() <==> Add(x, Done).Acknowledges()
  {
    assert x.states[0] == s;
    var r := Add(x, Done);
    assert r.states[|x.states|] == Joined(x, Done);
    assert r.states[0] == s;
    forall i | 0 <= i < |r.states| ensures r.states[i] == s {
      if i < |x.states| {
        assert r.states[i] == x.states[i];
      }
    }
  }
}

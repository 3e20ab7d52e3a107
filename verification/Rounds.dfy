/**
 One round of an output transition over values: all outputs publish, then the tokens are read and processed
 in any order.  `completions` counts how often the transition signals that its messages are processed.
 */
module Rounds {
  import opened TokenStates

  /** The connection states, output by output in the order in which the outputs are visited. */
  datatype Round = Round(states: seq<seq<State>>, completions: nat) {
    ghost predicate AllAre(s: State) {
      forall i, j | 0 <= i < |states| && 0 <= j < |states[i]| :: states[i][j] == s
    }

    ghost predicate HasConnection() {
      exists i | 0 <= i < |states| :: states[i] != []
    }

    predicate At(i: nat, j: nat) {
      i < |states| && j < |states[i]|
    }

    function Set(i: nat, j: nat, s: State): Round
      requires At(i, j)
    {
      this.(states := states[i := states[i][j := s]])
    }
  }

  /** A token on one of the connections of an output is not processed. */
  ghost predicate Open(states: seq<State>) {
    exists j | 0 <= j < |states| :: states[j] != Done
  }

  /** How many outputs are visited before the first one that has a connection. */
  function Leading(states: seq<seq<State>>): nat {
    if states == [] || states[0] != [] then 0 else 1 + Leading(states[1..])
  }

  function Fresh(states: seq<State>): seq<State> {
    seq(|states|, _ => Unread)
  }

  /** The first n outputs have been published; one without connections completes the round as long as
      nothing has been sent. */
  function Sent(r: Round, n: nat): Round
    requires n <= |r.states|
  {
    Round(seq(|r.states|, i requires 0 <= i < |r.states| => if i < n then Fresh(r.states[i]) else r.states[i]),
          r.completions + Leading(r.states[..n]))
  }

  function Send(r: Round): Round {
    Sent(r, |r.states|)
  }

  /** Publishing output n. */
  ghost function Published(r: Round, n: nat): Round
    requires n < |r.states|
  {
    if r.states[n] != [] then r.(states := r.states[n := Fresh(r.states[n])])
    else if r.AllAre(Done) then r.(completions := r.completions + 1)
    else r
  }

  lemma SentStep(r: Round, n: nat)
    requires r.AllAre(Done) && n < |r.states|
    ensures Published(Sent(r, n), n) == Sent(r, n + 1)
  {
    var before, after := Sent(r, n), Sent(r, n + 1);
    LeadingStep(r.states, n);
    LeadingBounds(r.states[..n]);
    if k :| 0 <= k < n && r.states[k] != [] {
      assert before.states[k][0] == Unread;
      assert r.states[..n][k] != [];
    }
    assert Published(before, n).states == after.states;
  }

  lemma {:induction false} LeadingStep(states: seq<seq<State>>, n: nat)
    requires n < |states|
    ensures Leading(states[..n + 1]) ==
            Leading(states[..n]) + if Leading(states[..n]) == n && states[n] == [] then 1 else 0
  {
    if n > 0 && states[0] == [] {
      LeadingStep(states[1..], n - 1);
      assert states[..n + 1][1..] == states[1..][..n] && states[..n][1..] == states[1..][..n - 1];
    }
  }

  /** The token at place (i, j) is processed; what is done stays done. */
  ghost function Processed(r: Round, i: nat, j: nat): Round {
    if !r.At(i, j) || r.states[i][j] == Done then r
    else
      var next := r.Set(i, j, Done);
      if next.AllAre(Done) then next.(completions := r.completions + 1) else next
  }

  /** Since `before` at most tokens have been processed, and if the last open one was then the completion has
      been signalled, once. */
  ghost predicate Settles(before: Round, r: Round) {
    && (before.AllAre(Done) ==> r.AllAre(Done))
    && r.completions == before.completions + if r.AllAre(Done) && !before.AllAre(Done) then 1 else 0
  }

  lemma ProcessedSettles(r: Round, i: nat, j: nat)
    requires r.At(i, j)
    ensures Settles(r, Processed(r, i, j))
  {
    if r.states[i][j] != Done {
      assert !r.AllAre(Done);
      assert Processed(r, i, j).AllAre(Done) == r.Set(i, j, Done).AllAre(Done);
    }
  }

  datatype Event = IsRead(i: nat, j: nat) | IsProcessed(i: nat, j: nat)

  ghost predicate Possible(r: Round, e: Event) {
    r.At(e.i, e.j) && match e
      case IsRead(i, j) => r.states[i][j] == Unread
      case IsProcessed(i, j) => r.states[i][j] != Unread
  }

  ghost function After(r: Round, e: Event): Round
    requires Possible(r, e)
  {
    match e
    case IsRead(i, j) => r.Set(i, j, Read)
    case IsProcessed(i, j) => Processed(r, i, j)
  }

  ghost predicate Leads(r: Round, es: seq<Event>, r': Round)
    decreases |es|
  {
    if es == [] then r' == r
    else Possible(r, es[0]) && Leads(After(r, es[0]), es[1..], r')
  }

  /** The completions that are still to come. */
  ghost function Owed(r: Round): nat {
    if r.AllAre(Done) then 0 else 1
  }

  lemma {:induction false} LeadsOwes(r: Round, es: seq<Event>, r': Round)
    requires Leads(r, es, r')
    ensures r'.completions + Owed(r') == r.completions + Owed(r)
    decreases |es|
  {
    if es != [] {
      var next := After(r, es[0]);
      var i, j := es[0].i, es[0].j;
      assert next.AllAre(Done) ==> next.states[i][j] == Done;
      assert r.AllAre(Done) ==> next == r;
      LeadsOwes(next, es[1..], r');
    }
  }

  /** After publishing, in whatever order the tokens are read and processed, the last acknowledgement and
      no other signals the completion; unconnected outputs that come first have signalled it before. */
  lemma {:induction false} CompletionsOfRound(r0: Round, es: seq<Event>, r: Round)
    requires r0.AllAre(Done) && Leads(Send(r0), es, r)
    ensures r.completions == r0.completions + Leading(r0.states) + if r0.HasConnection() && r.AllAre(Done) then 1 else 0
  {
    LeadsOwes(Send(r0), es, r);
    var sent := Send(r0);
    assert r0.states[..|r0.states|] == r0.states;
    if i :| 0 <= i < |r0.states| && r0.states[i] != [] {
      assert sent.states[i][0] == Unread;
    }
    if !r0.HasConnection() {
      LeadsKeepsPlaces(sent, es, r);
    }
  }

  lemma {:induction false} LeadsKeepsPlaces(r: Round, es: seq<Event>, r': Round)
    requires Leads(r, es, r')
    ensures |r'.states| == |r.states| && forall i | 0 <= i < |r.states| :: |r'.states[i]| == |r.states[i]|
    decreases |es|
  {
    if es != [] {
      LeadsKeepsPlaces(After(r, es[0]), es[1..], r');
    }
  }

  lemma {:induction false} LeadingBounds(states: seq<seq<State>>)
    ensures Leading(states) <= |states|
    ensures Leading(states) == |states| <==> forall i | 0 <= i < |states| :: states[i] == []
    ensures Leading(states) > 0 <==> states != [] && states[0] == []
  {
    if states != [] && states[0] == [] {
      LeadingBounds(states[1..]);
      assert forall i | 1 <= i < |states| :: states[i] == states[1..][i - 1];
    }
  }

  /** A finished round has signalled exactly one completion if and only if the output visited first is
      connected, or it is the only output. */
  lemma OneCompletionPerRound(r0: Round, es: seq<Event>, r: Round)
    requires r0.AllAre(Done) && Leads(Send(r0), es, r) && r.AllAre(Done)
    ensures r.completions == r0.completions + 1 <==>
            r0.states != [] && if r0.states[0] != [] then true else |r0.states| == 1
  {
    CompletionsOfRound(r0, es, r);
    LeadingBounds(r0.states);
    if r0.states != [] && r0.states[0] == [] && |r0.states| > 1 {
      LeadingBounds(r0.states[1..]);
      if i :| 0 <= i < |r0.states| && r0.states[i] != [] {
        assert r0.HasConnection();
      } else {
        assert Leading(r0.states) == |r0.states|;
      }
    }
  }
}

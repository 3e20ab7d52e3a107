/**
 A subgraph that iterates over a container: it sends the elements into the inner graph one after the other and
 collects what the inner graph answers.  The inner graph may answer and acknowledge in any order.
 */
module Iteration {
  import opened TokenStates
  import opened Inboxes

  datatype Message = NoMessage | Plain(data: Data) | Container(values: seq<Message>)

  /** The answer of the inner graph on one of the relays to everything that has been sent into it. */
  type Inner = (seq<seq<Message>>, nat) -> Message

  datatype Subgraph = Subgraph(
    iterating: bool,
    sentCurrent: bool,
    finished: bool,
    index: nat,
    count: nat,
    /** The continuation is set, and how often one has been called. */
    waiting: bool,
    calls: nat,
    /** The input transition behind which the answers arrive, the answers, and how many have arrived. */
    relayIn: Inbox,
    tokens: seq<Message>,
    arrived: seq<nat>,
    /** Everything that has been sent into the graph, and whether the last of it has been processed. */
    sent: seq<seq<Message>>,
    outDone: bool,
    /** What the inputs of the subgraph hold, and what has been added to its outputs. */
    inputs: seq<Message>,
    added: seq<Option<Message>>)

  /** What is sent for an input in iteration k. */
  function Part(m: Message, iterated: bool, k: nat): Message {
    if !m.Container? || !iterated then m else if k < |m.values| then m.values[k] else Message.NoMessage
  }

  function Parts(inputs: seq<Message>, iterated: Option<nat>, k: nat): seq<Message> {
    seq(|inputs|, j requires 0 <= j < |inputs| => Part(inputs[j], iterated == Some(j), k))
  }

  predicate Iterates(inputs: seq<Message>, iterated: Option<nat>) {
    iterated.Some? && iterated.value < |inputs| && inputs[iterated.value].Container?
  }

  /** The message of an output after the next answer has been added. */
  function Collected(iterating: bool, added: Option<Message>, answer: Message): Message {
    if !iterating then answer
    else Container((if added.Some? && added.value.Container? then added.value.values else []) + [answer])
  }

  function Finish(s: Subgraph): Subgraph {
    if s.finished || !s.relayIn.forwarded then s
    else s.(finished := true, sentCurrent := false, waiting := false, calls := s.calls + if s.waiting then 1 else 0)
  }

  function SendInto(s: Subgraph, values: seq<Message>): Subgraph {
    s.(sent := s.sent + [values], outDone := false)
  }

  function StartNext(s: Subgraph, iterated: Option<nat>): Subgraph {
    SendInto(s, Parts(s.inputs, iterated, s.index)).(index := s.index + 1,
      sentCurrent := s.sentCurrent && !Iterates(s.inputs, iterated))
  }

  function TryFinish(s: Subgraph, iterated: Option<nat>): Subgraph {
    if !s.sentCurrent then s
    else if !s.iterating || s.index >= s.count then Finish(s)
    else if s.outDone then StartNext(s, iterated)
    else s
  }

  function Begin(s: Subgraph, iterated: Option<nat>, inputs: seq<Message>): Subgraph {
    var it := Iterates(inputs, iterated);
    s.(waiting := true, iterating := it, sentCurrent := false, finished := false, inputs := inputs,
       index := if it then 1 else s.index,
       count := if it then |inputs[iterated.value].values| else s.count)
  }

  function Process(s: Subgraph, iterated: Option<nat>, inputs: seq<Message>): Subgraph {
    Finish(SendInto(Begin(s, iterated, inputs), Parts(inputs, iterated, 0)))
  }

  /** All answers of an iteration have arrived. */
  function SendCurrent(s: Subgraph): Subgraph
    requires |s.added| == |s.tokens|
  {
    var inbox := Forward(s.relayIn);
    s.(added := seq(|s.added|, r requires 0 <= r < |s.added| => Some(Collected(s.iterating, s.added[r], s.tokens[r]))),
       sentCurrent := true,
       relayIn := if s.iterating && s.index < s.count then Acknowledge(inbox) else inbox)
  }

  function Produced(s: Subgraph, iterated: Option<nat>): Subgraph
    requires |s.added| == |s.tokens|
  {
    if s.relayIn.Enabled() then TryFinish(SendCurrent(s), iterated) else s
  }

  // ---------------------------------------------------------------- runs

  datatype Event = Answered(r: nat) | OutProcessed | Signalled

  ghost predicate Sized(s: Subgraph) {
    |s.relayIn.states| == |s.tokens| == |s.arrived| == |s.added| && s.tokens != []
  }

  /** The inner graph answers everything that is sent into it once on every relay. */
  ghost predicate Possible(s: Subgraph, e: Event) {
    Sized(s) && match e
      case Answered(r) => r < |s.tokens| && s.relayIn.states[r] == Done && s.arrived[r] < |s.sent|
      case OutProcessed => !s.outDone
      case Signalled => true
  }

  /** The next answer on relay r. */
  function Arrived(s: Subgraph, inner: Inner, r: nat): Subgraph
    requires |s.relayIn.states| == |s.tokens| == |s.arrived| && r < |s.tokens| && s.arrived[r] < |s.sent|
  {
    s.(relayIn := s.relayIn.(states := s.relayIn.states[r := Unread]),
       tokens := s.tokens[r := inner(s.sent[..s.arrived[r] + 1], r)],
       arrived := s.arrived[r := s.arrived[r] + 1])
  }

  ghost function After(s: Subgraph, iterated: Option<nat>, inner: Inner, e: Event): Subgraph
    requires Possible(s, e)
  {
    match e
    case Answered(r) => Produced(Arrived(s, inner, r), iterated)
    case OutProcessed => TryFinish(s.(outDone := true), iterated)
    case Signalled => TryFinish(s, iterated)
  }

  ghost predicate Leads(s: Subgraph, iterated: Option<nat>, inner: Inner, es: seq<Event>, s': Subgraph)
    decreases |es|
  {
    if es == [] then s' == s
    else Possible(s, es[0]) && Leads(After(s, iterated, inner, es[0]), iterated, inner, es[1..], s')
  }

  /** Before an execution: everything that was sent is answered and processed, and the outputs are empty. */
  ghost predicate Ready(s: Subgraph) {
    && Sized(s)
    && s.outDone && s.relayIn.AllAre(Done) && !s.relayIn.forwarded
    && (forall r | 0 <= r < |s.arrived| :: s.arrived[r] == |s.sent| && s.added[r] == None)
  }

  /** How many iterations there are. */
  function Rounds(s: Subgraph): nat {
    if s.iterating && s.count > 0 then s.count else 1
  }

  /** How many answers have been collected. */
  function Collections(s: Subgraph): nat {
    if s.sentCurrent || s.finished then Sendings(s) else Sendings(s) - 1
  }

  function Sendings(s: Subgraph): (n: nat)
    ensures n >= 1
  {
    if s.iterating && s.index > 0 then s.index else 1
  }

  /** The first k values after `history`. */
  function SentAfter(history: seq<seq<Message>>, inputs: seq<Message>, iterated: Option<nat>, k: nat): seq<seq<Message>> {
    history + seq(k, i requires 0 <= i < k => Parts(inputs, iterated, i))
  }

  function Answers(history: seq<seq<Message>>, inputs: seq<Message>, iterated: Option<nat>, inner: Inner, r: nat, k: nat): seq<Message> {
    seq(k, i requires 0 <= i < k => inner(SentAfter(history, inputs, iterated, i + 1), r))
  }

  /** What relay r makes of the first k iterations. */
  function Result(s: Subgraph, history: seq<seq<Message>>, iterated: Option<nat>, inner: Inner, r: nat, k: nat): Option<Message> {
    if k == 0 then None
    else
      var answers := Answers(history, s.inputs, iterated, inner, r, k);
      Some(if s.iterating then Container(answers) else answers[k - 1])
  }

  ghost predicate Inv(s: Subgraph, history: seq<seq<Message>>, calls: nat, iterated: Option<nat>, inner: Inner) {
    var p := Collections(s);
    && Sized(s)
    && s.iterating == Iterates(s.inputs, iterated)
    && (s.iterating ==> s.count == |s.inputs[iterated.value].values| && s.index >= 1)
    && Sendings(s) <= Rounds(s)
    && s.sent == SentAfter(history, s.inputs, iterated, Sendings(s))
    && (s.finished <==> p == Rounds(s)) && s.waiting == !s.finished
    && s.calls == calls + (if s.finished then 1 else 0)
    && (s.sentCurrent ==> !s.finished && !s.outDone)
    && s.relayIn.forwarded == s.finished && (s.finished ==> !s.relayIn.processed)
    && (forall r | 0 <= r < |s.tokens| ::
          && s.relayIn.states[r] in (if s.finished then {Read} else if s.sentCurrent then {Done} else {Done, Unread})
          && s.arrived[r] == |history| + p + (if s.relayIn.states[r] == Unread then 1 else 0)
          && (s.relayIn.states[r] == Unread ==> s.tokens[r] == inner(s.sent[..s.arrived[r]], r))
          && s.added[r] == Result(s, history, iterated, inner, r, p))
    && (!s.finished ==> !s.relayIn.AllAre(Unread))
  }

  lemma SentAfterStep(history: seq<seq<Message>>, inputs: seq<Message>, iterated: Option<nat>, k: nat)
    ensures SentAfter(history, inputs, iterated, k + 1) == SentAfter(history, inputs, iterated, k) + [Parts(inputs, iterated, k)]
    ensures |SentAfter(history, inputs, iterated, k)| == |history| + k
  {
  }

  lemma AnswersStep(history: seq<seq<Message>>, inputs: seq<Message>, iterated: Option<nat>, inner: Inner, r: nat, k: nat)
    ensures Answers(history, inputs, iterated, inner, r, k + 1) ==
            Answers(history, inputs, iterated, inner, r, k) + [inner(SentAfter(history, inputs, iterated, k + 1), r)]
  {
  }

  lemma ProcessInv(s0: Subgraph, iterated: Option<nat>, inner: Inner, inputs: seq<Message>)
    requires Ready(s0)
    ensures Inv(Process(s0, iterated, inputs), s0.sent, s0.calls, iterated, inner)
  {
    SentAfterStep(s0.sent, inputs, iterated, 0);
    assert SentAfter(s0.sent, inputs, iterated, 0) == s0.sent;
    var s := Process(s0, iterated, inputs);
    assert s.relayIn.states[0] == Done;
  }

  /** Trying to go on keeps the invariant, whenever it happens. */
  lemma TryFinishInv(s: Subgraph, history: seq<seq<Message>>, calls: nat, iterated: Option<nat>, inner: Inner)
    requires Inv(s.(outDone := s.outDone && !s.sentCurrent), history, calls, iterated, inner)
    requires s.sentCurrent ==> s.outDone && s.iterating
    ensures Inv(TryFinish(s, iterated), history, calls, iterated, inner)
  {
    SentAfterStep(history, s.inputs, iterated, Sendings(s));
    var s' := TryFinish(s, iterated);
    if s.sentCurrent {
      assert s'.relayIn.states[0] == Done;
    }
  }

  /** When the last answer of an iteration arrives, all of them are added to the outputs. */
  lemma CollectedAnswers(s: Subgraph, history: seq<seq<Message>>, calls: nat, iterated: Option<nat>, inner: Inner, r: nat, q: nat)
    requires Inv(s, history, calls, iterated, inner) && Possible(s, Answered(r)) && q < |s.tokens|
    requires Arrived(s, inner, r).relayIn.Enabled()
    ensures !s.finished && !s.sentCurrent
    ensures SendCurrent(Arrived(s, inner, r)).added[q] == Result(s, history, iterated, inner, q, Sendings(s))
  {
    var y := Arrived(s, inner, r);
    var k := Sendings(s) - 1;
    assert y.relayIn.states[r] == Unread && s.relayIn.states[r] == Done && s.arrived[r] < |s.sent|;
    SentAfterStep(history, s.inputs, iterated, k);
    AnswersStep(history, s.inputs, iterated, inner, q, k);
    assert y.relayIn.states[q] == Unread;
    assert y.arrived[q] == |s.sent|;
    assert s.sent[..|s.sent|] == s.sent;
    assert y.tokens[q] == inner(s.sent, q);
    assert s.added[q] == Result(s, history, iterated, inner, q, k);
    assert s.sent == SentAfter(history, s.inputs, iterated, k + 1);
    var before, answers := Answers(history, s.inputs, iterated, inner, q, k), Answers(history, s.inputs, iterated, inner, q, k + 1);
    assert answers == before + [inner(s.sent, q)];
    assert answers[k] == inner(s.sent, q);
    assert before == [] ==> before + [inner(s.sent, q)] == [inner(s.sent, q)];
  }

  lemma AllCollected(s: Subgraph, history: seq<seq<Message>>, calls: nat, iterated: Option<nat>, inner: Inner, r: nat)
    requires Inv(s, history, calls, iterated, inner) && Possible(s, Answered(r))
    requires Arrived(s, inner, r).relayIn.Enabled()
    ensures forall q | 0 <= q < |s.tokens| ::
              && SendCurrent(Arrived(s, inner, r)).added[q] == Result(s, history, iterated, inner, q, Sendings(s))
              && Arrived(s, inner, r).arrived[q] == |history| + Sendings(s)
  {
    var y := Arrived(s, inner, r);
    SentAfterStep(history, s.inputs, iterated, Sendings(s));
    forall q | 0 <= q < |s.tokens|
      ensures SendCurrent(y).added[q] == Result(s, history, iterated, inner, q, Sendings(s))
      ensures y.arrived[q] == |history| + Sendings(s)
    {
      CollectedAnswers(s, history, calls, iterated, inner, r, q);
      assert y.relayIn.states[q] == Unread;
    }
  }

  /** After the answers have been added, the relay is ready for the next iteration. */
  lemma SendCurrentInv(s: Subgraph, history: seq<seq<Message>>, calls: nat, iterated: Option<nat>, inner: Inner, r: nat)
    requires Inv(s, history, calls, iterated, inner) && Possible(s, Answered(r))
    requires Arrived(s, inner, r).relayIn.Enabled() && Sendings(s) < Rounds(s)
    ensures Inv(SendCurrent(Arrived(s, inner, r)).(outDone := false), history, calls, iterated, inner)
  {
    CollectedAnswers(s, history, calls, iterated, inner, r, r);
    AllCollected(s, history, calls, iterated, inner, r);
  }

  lemma SendLastInv(s: Subgraph, history: seq<seq<Message>>, calls: nat, iterated: Option<nat>, inner: Inner, r: nat)
    requires Inv(s, history, calls, iterated, inner) && Possible(s, Answered(r))
    requires Arrived(s, inner, r).relayIn.Enabled() && Sendings(s) == Rounds(s)
    ensures Inv(Finish(SendCurrent(Arrived(s, inner, r))), history, calls, iterated, inner)
  {
    CollectedAnswers(s, history, calls, iterated, inner, r, r);
    AllCollected(s, history, calls, iterated, inner, r);
  }

  lemma ArrivedInv(s: Subgraph, history: seq<seq<Message>>, calls: nat, iterated: Option<nat>, inner: Inner, r: nat)
    requires Inv(s, history, calls, iterated, inner) && Possible(s, Answered(r))
    requires !Arrived(s, inner, r).relayIn.Enabled()
    ensures Inv(Arrived(s, inner, r), history, calls, iterated, inner)
  {
    var y := Arrived(s, inner, r);
    assert !y.relayIn.AllAre(Unread);
  }

  lemma ProducedInv(s: Subgraph, history: seq<seq<Message>>, calls: nat, iterated: Option<nat>, inner: Inner, r: nat)
    requires Inv(s, history, calls, iterated, inner) && Possible(s, Answered(r))
    requires Arrived(s, inner, r).relayIn.Enabled()
    ensures Inv(TryFinish(SendCurrent(Arrived(s, inner, r)), iterated), history, calls, iterated, inner)
  {
    CollectedAnswers(s, history, calls, iterated, inner, r, r);
    var z := SendCurrent(Arrived(s, inner, r));
    if Sendings(s) < Rounds(s) {
      SendCurrentInv(s, history, calls, iterated, inner, r);
      if z.outDone {
        TryFinishInv(z, history, calls, iterated, inner);
      } else {
        assert z == z.(outDone := false);
      }
    } else {
      SendLastInv(s, history, calls, iterated, inner, r);
      assert TryFinish(z, iterated) == Finish(z);
    }
  }

  lemma OutProcessedInv(s: Subgraph, history: seq<seq<Message>>, calls: nat, iterated: Option<nat>, inner: Inner)
    requires Inv(s, history, calls, iterated, inner) && !s.outDone
    ensures Inv(TryFinish(s.(outDone := true), iterated), history, calls, iterated, inner)
  {
    if s.sentCurrent {
      assert s.(outDone := true).(outDone := false) == s;
      assert s.iterating;
      TryFinishInv(s.(outDone := true), history, calls, iterated, inner);
    }
  }

  lemma SignalledInv(s: Subgraph, history: seq<seq<Message>>, calls: nat, iterated: Option<nat>, inner: Inner)
    requires Inv(s, history, calls, iterated, inner)
    ensures TryFinish(s, iterated) == s
  {
  }

  lemma AfterInv(s: Subgraph, history: seq<seq<Message>>, calls: nat, iterated: Option<nat>, inner: Inner, e: Event)
    requires Inv(s, history, calls, iterated, inner) && Possible(s, e)
    ensures Inv(After(s, iterated, inner, e), history, calls, iterated, inner)
  {
    match e
    case Answered(r) =>
      if Arrived(s, inner, r).relayIn.Enabled() {
        ProducedInv(s, history, calls, iterated, inner, r);
      } else {
        ArrivedInv(s, history, calls, iterated, inner, r);
      }
    case OutProcessed => OutProcessedInv(s, history, calls, iterated, inner);
    case Signalled => SignalledInv(s, history, calls, iterated, inner);
  }

  // ---------------------------------------------------------------- how long it takes

  function Missing(states: seq<State>): (n: nat)
    ensures n > 0 <==> Done in states
    ensures (forall r | 0 <= r < |states| :: states[r] == Done) ==> n == |states|
  {
    if states == [] then 0 else Missing(states[1..]) + if states[0] == Done then 1 else 0
  }

  lemma {:induction false} OneLessMissing(states: seq<State>, r: nat)
    requires r < |states| && states[r] == Done
    ensures Missing(states[r := Unread]) == Missing(states) - 1
  {
    if r == 0 {
      assert states[r := Unread][1..] == states[1..];
    } else {
      assert states[r := Unread][1..] == states[1..][r - 1 := Unread];
      OneLessMissing(states[1..], r - 1);
    }
  }

  /** Each round needs one answer on every relay and one acknowledgement. */
  function Due(rounds: int, width: nat): (due: nat)
    ensures due > 0 <==> rounds > 0
  {
    if rounds <= 0 then 0 else Due(rounds - 1, width) + width + 1
  }

  lemma {:induction false} DueIsProduct(rounds: nat, width: nat)
    ensures Due(rounds, width) == rounds * (width + 1)
  {
    if rounds > 0 {
      DueIsProduct(rounds - 1, width);
    }
  }

  /** The answers and acknowledgements that the execution still needs. */
  function Left(s: Subgraph): int {
    Due(Rounds(s) - Sendings(s), |s.tokens|)
    + (if s.sentCurrent || s.finished then 0 else Missing(s.relayIn.states)) + (if s.outDone then 0 else 1)
  }

  /** Going on needs nothing from the inner graph. */
  lemma TryFinishLeft(s: Subgraph, iterated: Option<nat>)
    requires Sized(s) && s.iterating == Iterates(s.inputs, iterated) && (s.iterating ==> s.index >= 1)
    requires s.sentCurrent && s.iterating && s.index < s.count ==> s.relayIn.AllAre(Done)
    requires s.sentCurrent ==> !s.finished
    ensures Left(TryFinish(s, iterated)) == Left(s)
  {
  }

  lemma ArrivedLeft(s: Subgraph, inner: Inner, r: nat)
    requires Possible(s, Answered(r)) && !s.sentCurrent && !s.finished
    ensures Left(Arrived(s, inner, r)) == Left(s) - 1
    ensures Arrived(s, inner, r).relayIn.Enabled() ==> Left(SendCurrent(Arrived(s, inner, r))) == Left(Arrived(s, inner, r))
  {
    OneLessMissing(s.relayIn.states, r);
    var y := Arrived(s, inner, r);
    assert y.relayIn.Enabled() ==> Done !in y.relayIn.states;
  }

  lemma AnsweredLeft(s: Subgraph, history: seq<seq<Message>>, calls: nat, iterated: Option<nat>, inner: Inner, r: nat)
    requires Inv(s, history, calls, iterated, inner) && Possible(s, Answered(r))
    ensures Left(Produced(Arrived(s, inner, r), iterated)) == Left(s) - 1
  {
    AnsweredWhileWaiting(s, history, calls, iterated, inner, r);
    ArrivedLeft(s, inner, r);
    var y := Arrived(s, inner, r);
    if y.relayIn.Enabled() {
      TryFinishLeft(SendCurrent(y), iterated);
    }
  }

  lemma OutProcessedLeft(s: Subgraph, history: seq<seq<Message>>, calls: nat, iterated: Option<nat>, inner: Inner)
    requires Inv(s, history, calls, iterated, inner) && !s.outDone
    ensures Left(TryFinish(s.(outDone := true), iterated)) == Left(s) - 1
  {
    TryFinishLeft(s.(outDone := true), iterated);
  }

  /** An answer and an acknowledgement bring the execution one step closer to its end. */
  lemma AfterLeft(s: Subgraph, history: seq<seq<Message>>, calls: nat, iterated: Option<nat>, inner: Inner, e: Event)
    requires Inv(s, history, calls, iterated, inner) && Possible(s, e)
    ensures Left(After(s, iterated, inner, e)) == Left(s) - if e.Signalled? then 0 else 1
  {
    match e
    case Answered(r) => AnsweredLeft(s, history, calls, iterated, inner, r);
    case OutProcessed => OutProcessedLeft(s, history, calls, iterated, inner);
    case Signalled => SignalledInv(s, history, calls, iterated, inner);
  }

  lemma AnsweredWhileWaiting(s: Subgraph, history: seq<seq<Message>>, calls: nat, iterated: Option<nat>, inner: Inner, r: nat)
    requires Inv(s, history, calls, iterated, inner) && Possible(s, Answered(r))
    ensures !s.sentCurrent && !s.finished
  {
    SentAfterStep(history, s.inputs, iterated, Sendings(s));
  }

  function Needed(es: seq<Event>): nat {
    if es == [] then 0 else Needed(es[1..]) + if es[0].Signalled? then 0 else 1
  }

  lemma {:induction false} LeadsInv(s: Subgraph, history: seq<seq<Message>>, calls: nat, iterated: Option<nat>, inner: Inner, es: seq<Event>, s': Subgraph)
    requires Inv(s, history, calls, iterated, inner) && Leads(s, iterated, inner, es, s')
    ensures Inv(s', history, calls, iterated, inner) && s'.inputs == s.inputs
    ensures Left(s') + Needed(es) == Left(s)
    decreases |es|
  {
    if es != [] {
      AfterInv(s, history, calls, iterated, inner, es[0]);
      AfterLeft(s, history, calls, iterated, inner, es[0]);
      LeadsInv(After(s, iterated, inner, es[0]), history, calls, iterated, inner, es[1..], s');
    }
  }

  lemma NothingLeft(s: Subgraph, history: seq<seq<Message>>, calls: nat, iterated: Option<nat>, inner: Inner)
    requires Inv(s, history, calls, iterated, inner)
    ensures Left(s) >= 0 && (Left(s) == 0 <==> s.finished && s.outDone)
  {
    if !s.finished && !s.sentCurrent {
      var r :| 0 <= r < |s.tokens| && s.relayIn.states[r] != Unread;
      assert s.relayIn.states[r] == Done;
    }
    assert s.sentCurrent ==> Rounds(s) > Sendings(s);
  }

  lemma AllLeft(s0: Subgraph, iterated: Option<nat>, inputs: seq<Message>)
    requires Ready(s0)
    ensures var s := Process(s0, iterated, inputs);
            Left(s) == Rounds(s) * (|s0.tokens| + 1) && |s.tokens| == |s0.tokens|
  {
    var s := Process(s0, iterated, inputs);
    assert Missing(s.relayIn.states) == |s.tokens|;
    DueIsProduct(Rounds(s), |s.tokens|);
  }

  /** As long as something is left to do, the inner graph owes an answer or an acknowledgement. */
  lemma NeverWaitsForNothing(s: Subgraph, history: seq<seq<Message>>, calls: nat, iterated: Option<nat>, inner: Inner)
    requires Inv(s, history, calls, iterated, inner)
    ensures (exists e :: Possible(s, e) && !e.Signalled?) <==> !(s.finished && s.outDone)
  {
    SentAfterStep(history, s.inputs, iterated, Sendings(s));
    if !s.outDone {
      assert Possible(s, OutProcessed);
    } else if !s.finished {
      var r :| 0 <= r < |s.tokens| && s.relayIn.states[r] != Unread;
      assert Possible(s, Answered(r));
    }
  }

  /** What goes into the graph is what the inputs hold, but element i of the container instead of the container of input j. */
  ghost predicate Element(values: seq<Message>, inputs: seq<Message>, j: nat, i: nat)
    requires j < |inputs| && inputs[j].Container?
  {
    var elements := inputs[j].values;
    && |values| == |inputs|
    && (elements == [] ==> values[j] == Message.NoMessage) && (i < |elements| ==> values[j] == elements[i])
    && forall k | 0 <= k < |inputs| && k != j :: values[k] == inputs[k]
  }

  /** What is sent in iteration i is element i of the container, with the other inputs as they are; without an iterated
      container it is what the inputs hold. */
  lemma PartsAre(inputs: seq<Message>, iterated: Option<nat>, i: nat)
    ensures Iterates(inputs, iterated) ==> Element(Parts(inputs, iterated, i), inputs, iterated.value, i)
    ensures !Iterates(inputs, iterated) ==> Parts(inputs, iterated, i) == inputs
  {
    if !Iterates(inputs, iterated) {
      forall j | 0 <= j < |inputs| ensures Parts(inputs, iterated, i)[j] == inputs[j] {
        assert iterated == Some(j) ==> !inputs[j].Container?;
      }
    }
  }

  /** The elements of the container go into the graph in order, at most `rounds` of them, and when the continuation
      is called, every output holds the container of the answers to all of them, in order. */
  ghost predicate Mapped(s0: Subgraph, iterated: Option<nat>, inner: Inner, inputs: seq<Message>, s: Subgraph, rounds: nat)
    requires Iterates(inputs, iterated)
  {
    var b := |s0.sent|;
    && s0.sent <= s.sent && b < |s.sent| <= b + rounds
    && (forall k | b <= k < |s.sent| :: Element(s.sent[k], inputs, iterated.value, k - b))
    && s0.calls <= s.calls <= s0.calls + 1
    && (s.calls > s0.calls ==>
          && |s.sent| == b + rounds
          && forall r | 0 <= r < |s.added| ::
               s.added[r] == Some(Container(seq(rounds, i requires 0 <= i < rounds => inner(s.sent[..b + i + 1], r)))))
  }

  /** However the answers and acknowledgements are interleaved: every element of the container is sent once, in
      order; the continuation is called once, when the answers to all of them are on the outputs; and one answer
      per relay and one acknowledgement for each element are exactly what is needed to get there.
      An empty container is treated like a container of one element that is missing. */
  lemma IterationIsMap(s0: Subgraph, iterated: Option<nat>, inner: Inner, inputs: seq<Message>, es: seq<Event>, s: Subgraph)
    requires Ready(s0) && Iterates(inputs, iterated)
    requires Leads(Process(s0, iterated, inputs), iterated, inner, es, s)
    ensures var n := |inputs[iterated.value].values|;
            var rounds := if n == 0 then 1 else n;
            && Mapped(s0, iterated, inner, inputs, s, rounds)
            && Needed(es) <= rounds * (|s0.tokens| + 1)
            && (Needed(es) == rounds * (|s0.tokens| + 1) <==> s.calls > s0.calls && s.outDone)
  {
    ProcessInv(s0, iterated, inner, inputs);
    LeadsInv(Process(s0, iterated, inputs), s0.sent, s0.calls, iterated, inner, es, s);
    NothingLeft(s, s0.sent, s0.calls, iterated, inner);
    AllLeft(s0, iterated, inputs);
    MappedByInv(s0, iterated, inner, inputs, s);
  }

  lemma ElementsSent(history: seq<seq<Message>>, inputs: seq<Message>, iterated: Option<nat>, n: nat)
    requires Iterates(inputs, iterated)
    ensures var sent, b := SentAfter(history, inputs, iterated, n), |history|;
            |sent| == b + n && forall k | b <= k < |sent| :: Element(sent[k], inputs, iterated.value, k - b)
  {
    var sent, b := SentAfter(history, inputs, iterated, n), |history|;
    forall k | b <= k < |sent| ensures Element(sent[k], inputs, iterated.value, k - b) {
      PartsAre(inputs, iterated, k - b);
    }
  }

  lemma MappedByInv(s0: Subgraph, iterated: Option<nat>, inner: Inner, inputs: seq<Message>, s: Subgraph)
    requires Inv(s, s0.sent, s0.calls, iterated, inner) && s.inputs == inputs && s.iterating
    ensures Iterates(inputs, iterated) && Mapped(s0, iterated, inner, inputs, s, Rounds(s))
  {
    SentAfterStep(s0.sent, inputs, iterated, Sendings(s));
    ElementsSent(s0.sent, inputs, iterated, Sendings(s));
    if s.finished {
      forall r | 0 <= r < |s.added|
        ensures Answers(s0.sent, inputs, iterated, inner, r, Rounds(s)) ==
                seq(Rounds(s), i requires 0 <= i < Rounds(s) => inner(s.sent[..|s0.sent| + i + 1], r))
      {
        forall k: nat | k <= Rounds(s) ensures s.sent[..|s0.sent| + k] == SentAfter(s0.sent, inputs, iterated, k) {
        }
      }
    }
  }

  lemma SentOnce(history: seq<seq<Message>>, inputs: seq<Message>, iterated: Option<nat>)
    requires !Iterates(inputs, iterated)
    ensures SentAfter(history, inputs, iterated, 1) == history + [inputs]
  {
    SentAfterStep(history, inputs, iterated, 0);
    PartsAre(inputs, iterated, 0);
  }

  /** Without an iterated container the inputs are sent once, and the answers are passed on as they are. */
  lemma SingleExecution(s0: Subgraph, iterated: Option<nat>, inner: Inner, inputs: seq<Message>, es: seq<Event>, s: Subgraph)
    requires Ready(s0) && !Iterates(inputs, iterated)
    requires Leads(Process(s0, iterated, inputs), iterated, inner, es, s)
    ensures s.sent == s0.sent + [inputs]
    ensures s0.calls <= s.calls <= s0.calls + 1
    ensures s.calls > s0.calls ==> forall r | 0 <= r < |s.added| :: s.added[r] == Some(inner(s.sent, r))
    ensures Needed(es) == |s0.tokens| + 1 <==> s.calls > s0.calls && s.outDone
  {
    ProcessInv(s0, iterated, inner, inputs);
    LeadsInv(Process(s0, iterated, inputs), s0.sent, s0.calls, iterated, inner, es, s);
    NothingLeft(s, s0.sent, s0.calls, iterated, inner);
    AllLeft(s0, iterated, inputs);
    SentOnce(s0.sent, inputs, iterated);
  }

  // ---------------------------------------------------------------- several executions

  /** The node worker passes the collected messages on, and then it is told that they have been processed. */
  function Committed(s: Subgraph): Subgraph {
    s.(added := seq(|s.added|, _ => None))
  }

  function NotifyMessagesProcessed(s: Subgraph): Subgraph {
    s.(relayIn := Acknowledge(s.relayIn))
  }

  /** A finished execution whose end the relay has not been told of yet. */
  ghost predicate Stale(s: Subgraph) {
    && Sized(s)
    && s.outDone && s.relayIn.AllAre(Read) && s.relayIn.forwarded && !s.relayIn.processed
    && (forall r | 0 <= r < |s.arrived| :: s.arrived[r] == |s.sent| && s.added[r] == None)
  }

  /** After it has been told, a subgraph is ready for the next execution, however the last one went. */
  lemma ReadyAgain(s0: Subgraph, iterated: Option<nat>, inner: Inner, inputs: seq<Message>, es: seq<Event>, s: Subgraph)
    requires Ready(s0) && Leads(Process(s0, iterated, inputs), iterated, inner, es, s)
    requires s.calls > s0.calls && s.outDone
    ensures Stale(Committed(s)) && Ready(NotifyMessagesProcessed(Committed(s)))
  {
    ProcessInv(s0, iterated, inner, inputs);
    LeadsInv(Process(s0, iterated, inputs), s0.sent, s0.calls, iterated, inner, es, s);
    SentAfterStep(s0.sent, s.inputs, iterated, Sendings(s));
  }

  /** The continuation is never called before the answers are on the outputs. */
  ghost predicate WaitsForAnswers(s0: Subgraph, iterated: Option<nat>, inner: Inner, inputs: seq<Message>) {
    forall es, s | Leads(Process(s0, iterated, inputs), iterated, inner, es, s) && s.calls > s0.calls ::
      forall r | 0 <= r < |s.added| :: s.added[r].Some?
  }

  /** A pipelining subgraph may be executed again before it has been told that its last messages are processed.
      Then, and only then, the continuation is called too early. */
  lemma WaitsExactly(s0: Subgraph, iterated: Option<nat>, inner: Inner, inputs: seq<Message>)
    requires Ready(s0) || Stale(s0)
    ensures WaitsForAnswers(s0, iterated, inner, inputs) <==> !s0.relayIn.forwarded
  {
    var s1 := Process(s0, iterated, inputs);
    if Stale(s0) {
      assert Leads(s1, iterated, inner, [], s1) && s1.calls > s0.calls && s1.added[0] == None;
    } else {
      forall es, s | Leads(s1, iterated, inner, es, s) && s.calls > s0.calls
        ensures forall r | 0 <= r < |s.added| :: s.added[r].Some?
      {
        ProcessInv(s0, iterated, inner, inputs);
        LeadsInv(s1, s0.sent, s0.calls, iterated, inner, es, s);
      }
    }
  }
}

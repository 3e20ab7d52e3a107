/**
 Slots receive events over any number of connections and handle them one after another.  The object keeps the queue of
 connections that hold an event; each event that is taken triggers one task, which handles what is held when it runs.
 */
module Slots {
  import opened TokenStates

  datatype Arrival = Arrival(connection: nat, token: Token)

  /** The slot, the states and tokens of its connections, the tasks that have been triggered, and a record of what has
      arrived, been acknowledged and been passed to the callback. */
  datatype Slot = Slot(
    enabled: bool, active: bool, blocking: bool, message: Option<Token>, queue: seq<nat>,
    states: seq<State>, tokens: seq<Token>, pending: nat,
    arrived: seq<Arrival>, finished: seq<Arrival>, called: seq<Token>)
  {
    predicate On() {
      enabled || active
    }

    ghost predicate Wired() {
      |tokens| == |states| && forall k | 0 <= k < |queue| :: queue[k] < |states|
    }

    /** A connection can be acknowledged unless it is unread. */
    ghost predicate FrontRead() {
      queue != [] && queue[0] < |states| ==> states[queue[0]] != Unread
    }
  }

  // ---------------------------------------------------------------- operations

  predicate Alike(s: Slot, r: Slot) {
    && |r.tokens| == |r.states| == |s.states| && (forall k | 0 <= k < |r.queue| :: r.queue[k] < |r.states|)
    && r.enabled == s.enabled && r.active == s.active && r.blocking == s.blocking
  }

  function Acknowledged(s: Slot, c: nat): (r: Slot)
    requires s.Wired() && c < |s.states|
    ensures Alike(s, r)
  {
    if s.states[c] == Done then s
    else s.(states := s.states[c := Done], finished := s.finished + [Arrival(c, s.tokens[c])])
  }

  /** Everything that waits is read and acknowledged without being handled. */
  function Flushed(s: Slot): (r: Slot)
    requires s.Wired()
    ensures Alike(s, r)
    decreases |s.queue|
  {
    if s.queue == [] then s
    else Flushed(Acknowledged(s.(states := s.states[s.queue[0] := Read], queue := s.queue[1..]), s.queue[0]))
  }

  function Tried(s: Slot): (r: Slot)
    requires s.Wired()
    ensures Alike(s, r)
  {
    if !s.On() then Flushed(s)
    else if s.message.None? && s.queue != [] then
      s.(states := s.states[s.queue[0] := Read], message := Some(s.tokens[s.queue[0]]), pending := s.pending + 1)
    else s
  }

  function Put(s: Slot, c: nat, t: Token): (r: Slot)
    requires s.Wired() && c < |s.states|
    ensures Alike(s, r)
  {
    s.(states := s.states[c := Unread], tokens := s.tokens[c := t], queue := s.queue + [c], arrived := s.arrived + [Arrival(c, t)])
  }

  function Arrived(s: Slot, c: nat, t: Token): (r: Slot)
    requires s.Wired() && c < |s.states|
    ensures Alike(s, r)
  {
    Tried(Put(s, c, t))
  }

  function Popped(s: Slot): (r: Slot)
    requires s.Wired()
    ensures Alike(s, r)
  {
    if s.queue == [] then s else Acknowledged(s.(queue := s.queue[1..]), s.queue[0])
  }

  function Processed(s: Slot): (r: Slot)
    requires s.Wired()
    ensures Alike(s, r)
  {
    Tried(Popped(s))
  }

  function EventHandled(s: Slot): (r: Slot)
    requires s.Wired()
    ensures Alike(s, r)
  {
    Processed(s.(message := None))
  }

  function Handled(s: Slot): (r: Slot)
    requires s.Wired() && s.message.Some?
    ensures Alike(s, r)
  {
    if s.On() then
      if s.message.value == NoMessage then EventHandled(s)
      else if s.blocking then EventHandled(s.(called := s.called + [s.message.value]))
      else s.(called := s.called + [s.message.value])
    else if s.blocking then EventHandled(s)
    else s
  }

  function TaskRun(s: Slot): (r: Slot)
    requires s.Wired() && s.pending > 0
    ensures Alike(s, r)
  {
    var r := s.(pending := s.pending - 1);
    if s.message.Some? then Handled(r) else r
  }

  function Enabled(s: Slot): Slot
    requires s.Wired()
  {
    Tried(s.(enabled := true))
  }

  function Disabled(s: Slot): Slot
    requires s.Wired()
  {
    Processed(s.(enabled := false))
  }

  class SlotObject {
    var enabled: bool
    const active: bool
    const blocking: bool
    var message: Option<Token>
    var queue: seq<nat>
    var states: seq<State>
    var tokens: seq<Token>
    var pending: nat
    ghost var arrived: seq<Arrival>
    ghost var finished: seq<Arrival>
    ghost var called: seq<Token>

    constructor (active: bool, blocking: bool, connections: nat)
      ensures View() == Slot(true, active, blocking, None, [], seq(connections, _ => Done), seq(connections, _ => NoMessage), 0, [], [], [])
    {
      enabled, message, queue, pending := true, None, [], 0;
      this.active, this.blocking := active, blocking;
      states, tokens := seq(connections, _ => Done), seq(connections, _ => NoMessage);
      arrived, finished, called := [], [], [];
    }

    ghost function View(): Slot
      reads this
    {
      Slot(enabled, active, blocking, message, queue, states, tokens, pending, arrived, finished, called)
    }

    method SetTokenProcessed(c: nat)
      requires View().Wired() && c < |states| && states[c] != Unread
      modifies this
      ensures View() == Acknowledged(old(View()), c)
    {
      if states[c] != Done {
        states := states[c := Done];
        finished := finished + [Arrival(c, tokens[c])];
      }
    }

    method TryNextToken()
      requires View().Wired()
      requires forall k | 0 <= k < |queue| :: states[queue[k]] != Done
      modifies this
      ensures View() == Tried(old(View()))
    {
      if !enabled && !active {
        while queue != []
          invariant View().Wired() && Flushed(View()) == Flushed(old(View())) && !enabled && !active
          decreases |queue|
        {
          var c := queue[0];
          states := states[c := Read];
          queue := queue[1..];
          SetTokenProcessed(c);
        }
      } else if message.None? && queue != [] {
        var c := queue[0];
        states := states[c := Read];
        message := Some(tokens[c]);
        pending := pending + 1;
      }
    }

    method NotifyMessageAvailable(c: nat, t: Token)
      requires View().Wired() && c < |states| && states[c] == Done
      requires forall k | 0 <= k < |queue| :: states[queue[k]] != Done
      modifies this
      ensures View() == Arrived(old(View()), c, t)
    {
      states, tokens := states[c := Unread], tokens[c := t];
      queue := queue + [c];
      arrived := arrived + [Arrival(c, t)];
      TryNextToken();
    }

    method NotifyMessageProcessed()
      requires View().Wired() && View().FrontRead()
      requires forall k | 0 <= k < |queue| :: states[queue[k]] != Done && queue[k] !in queue[..k]
      modifies this
      ensures View() == Processed(old(View()))
    {
      if queue != [] {
        var front := queue[0];
        assert forall k | 1 <= k < |queue| :: queue[0] in queue[..k];
        queue := queue[1..];
        SetTokenProcessed(front);
      }
      TryNextToken();
    }

    method NotifyEventHandled()
      requires View().Wired() && View().FrontRead()
      requires forall k | 0 <= k < |queue| :: states[queue[k]] != Done && queue[k] !in queue[..k]
      modifies this
      ensures View() == EventHandled(old(View()))
    {
      message := None;
      NotifyMessageProcessed();
    }

    method HandleEvent()
      requires View().Wired() && View().FrontRead() && message.Some?
      requires forall k | 0 <= k < |queue| :: states[queue[k]] != Done && queue[k] !in queue[..k]
      modifies this
      ensures View() == Handled(old(View()))
    {
      if enabled || active {
        if message.value != NoMessage {
          called := called + [message.value];
        } else {
          NotifyEventHandled();
          return;
        }
      }
      if blocking {
        NotifyEventHandled();
      }
    }

    method Enable()
      requires View().Wired() && forall k | 0 <= k < |queue| :: states[queue[k]] != Done
      modifies this
      ensures View() == Enabled(old(View()))
    {
      enabled := true;
      TryNextToken();
    }

    method Disable()
      requires View().Wired() && View().FrontRead()
      requires forall k | 0 <= k < |queue| :: states[queue[k]] != Done && queue[k] !in queue[..k]
      modifies this
      ensures View() == Disabled(old(View()))
    {
      enabled := false;
      NotifyMessageProcessed();
    }
  }

  // ---------------------------------------------------------------- runs of an enabled slot

  function Waiting(queue: seq<nat>, tokens: seq<Token>, n: nat): seq<Arrival>
    requires n <= |queue| && forall k | 0 <= k < |queue| :: queue[k] < |tokens|
  {
    if n == 0 then [] else Waiting(queue, tokens, n - 1) + [Arrival(queue[n - 1], tokens[queue[n - 1]])]
  }

  /** The data that has to be passed to the callback. */
  function Values(ls: seq<Arrival>): seq<Token> {
    if ls == [] then []
    else if ls[|ls| - 1].token == NoMessage then Values(ls[..|ls| - 1])
    else Values(ls[..|ls| - 1]) + [ls[|ls| - 1].token]
  }

  /** The queue holds the connections that are not done; the first one is read, the others are unread. */
  ghost predicate Queued(queue: seq<nat>, states: seq<State>) {
    && (forall k | 0 <= k < |queue| :: queue[k] < |states|)
    && (forall i, j | 0 <= i < j < |queue| :: queue[i] != queue[j])
    && (forall c | 0 <= c < |states| && states[c] != Done :: c in queue)
    && (forall k | 0 <= k < |queue| :: states[queue[k]] == if k == 0 then Read else Unread)
  }

  /** The token of the first connection is held. */
  ghost predicate Ordered(s: Slot) {
    s.Wired() && Queued(s.queue, s.states) && s.message == if s.queue == [] then None else Some(s.tokens[s.queue[0]])
  }

  /** What has arrived has been finished in the same order, except for what waits; a blocking slot has passed on exactly
      the data that it has finished, and a task is pending exactly while it holds a token. */
  ghost predicate InOrder(s: Slot)
    requires s.Wired()
  {
    && Accounted(s)
    && (s.blocking ==> s.called == Values(s.finished) && s.pending == if s.message.Some? then 1 else 0)
  }

  datatype Step = Arrive(connection: nat, token: Token) | RunTask | Release

  /** Only a slot that does not block is released from elsewhere. */
  ghost predicate Possible(s: Slot, step: Step) {
    match step
    case Arrive(c, t) => c < |s.states| && s.states[c] == Done
    case RunTask => s.pending > 0
    case Release => !s.blocking
  }

  function Next(s: Slot, step: Step): (r: Slot)
    requires s.Wired()
    ensures Alike(s, r)
  {
    match step
    case Arrive(c, t) => if c < |s.states| then Arrived(s, c, t) else s
    case RunTask => if s.pending > 0 then TaskRun(s) else s
    case Release => EventHandled(s)
  }

  lemma {:induction false} WaitingPut(queue: seq<nat>, tokens: seq<Token>, c: nat, t: Token, n: nat)
    requires n <= |queue| && c < |tokens| && c !in queue && forall k | 0 <= k < |queue| :: queue[k] < |tokens|
    ensures Waiting(queue + [c], tokens[c := t], n) == Waiting(queue, tokens, n)
  {
    if n > 0 {
      WaitingPut(queue, tokens, c, t, n - 1);
    }
  }

  lemma {:induction false} WaitingTail(queue: seq<nat>, tokens: seq<Token>, n: nat)
    requires 0 < n <= |queue| && forall k | 0 <= k < |queue| :: queue[k] < |tokens|
    ensures Waiting(queue, tokens, n) == [Arrival(queue[0], tokens[queue[0]])] + Waiting(queue[1..], tokens, n - 1)
  {
    if n > 1 {
      WaitingTail(queue, tokens, n - 1);
    }
  }

  lemma ValuesMore(ls: seq<Arrival>, a: Arrival)
    ensures Values(ls + [a]) == if a.token == NoMessage then Values(ls) else Values(ls) + [a.token]
  {
    assert (ls + [a])[..|ls|] == ls;
  }

  lemma QueuedPut(queue: seq<nat>, states: seq<State>, c: nat)
    requires Queued(queue, states) && c < |states| && states[c] == Done
    ensures c !in queue
    ensures queue == [] ==> Queued([c], states[c := Read])
    ensures queue != [] ==> Queued(queue + [c], states[c := Unread])
  {
  }

  lemma QueuedPop(queue: seq<nat>, states: seq<State>)
    requires Queued(queue, states) && queue != []
    ensures |queue| == 1 ==> Queued([], states[queue[0] := Done])
    ensures |queue| > 1 ==> Queued(queue[1..], states[queue[0] := Done][queue[1] := Read])
  {
  }

  lemma ArrivedIs(s: Slot, c: nat, t: Token)
    requires s.On() && s.Wired() && c < |s.states| && (s.queue == [] <==> s.message == None)
    ensures var arrived := s.arrived + [Arrival(c, t)];
            if s.queue == [] then
              Arrived(s, c, t) == s.(message := Some(t), queue := [c], states := s.states[c := Read], tokens := s.tokens[c := t],
                                     pending := s.pending + 1, arrived := arrived)
            else
              Arrived(s, c, t) == s.(queue := s.queue + [c], states := s.states[c := Unread], tokens := s.tokens[c := t],
                                     arrived := arrived)
  {
    assert s.states[c := Unread][c := Read] == s.states[c := Read];
  }

  lemma ArriveKeeps(s: Slot, c: nat, t: Token)
    requires s.On() && Ordered(s) && InOrder(s) && c < |s.states| && s.states[c] == Done
    ensures Ordered(Arrived(s, c, t)) && InOrder(Arrived(s, c, t))
  {
    ArrivedIs(s, c, t);
    QueuedPut(s.queue, s.states, c);
    WaitingMore(s.queue, s.tokens, c, t);
    var waiting := Waiting(s.queue, s.tokens, |s.queue|);
    assert (s.finished + waiting) + [Arrival(c, t)] == s.finished + (waiting + [Arrival(c, t)]);
  }

  lemma WaitingMore(queue: seq<nat>, tokens: seq<Token>, c: nat, t: Token)
    requires c < |tokens| && c !in queue && forall k | 0 <= k < |queue| :: queue[k] < |tokens|
    ensures Waiting(queue + [c], tokens[c := t], |queue| + 1) == Waiting(queue, tokens, |queue|) + [Arrival(c, t)]
  {
    WaitingPut(queue, tokens, c, t, |queue|);
  }

  ghost predicate Accounted(s: Slot)
    requires s.Wired()
  {
    s.arrived == s.finished + Waiting(s.queue, s.tokens, |s.queue|)
  }

  lemma FinishedOne(s: Slot)
    requires s.Wired() && Accounted(s) && s.queue != []
    ensures s.arrived == (s.finished + [Arrival(s.queue[0], s.tokens[s.queue[0]])]) + Waiting(s.queue[1..], s.tokens, |s.queue| - 1)
  {
    WaitingTail(s.queue, s.tokens, |s.queue|);
  }

  /** The slot after the first of the queue is finished: the next one is taken. */
  function Advanced(s: Slot): Slot
    requires s.Wired() && s.queue != []
  {
    var front := s.queue[0];
    var done := s.states[front := Done];
    var r := s.(queue := s.queue[1..], finished := s.finished + [Arrival(front, s.tokens[front])]);
    if |s.queue| == 1 then r.(message := None, states := done)
    else r.(message := Some(s.tokens[s.queue[1]]), states := done[s.queue[1] := Read], pending := s.pending + 1)
  }

  lemma HandledIs(s: Slot)
    requires s.On() && s.Wired() && s.queue != [] && s.states[s.queue[0]] == Read
    ensures EventHandled(s) == Advanced(s)
  {
  }

  lemma AdvancedKeeps(s: Slot)
    requires Ordered(s) && s.queue != [] && Accounted(s)
    ensures Ordered(Advanced(s)) && Accounted(Advanced(s))
  {
    QueuedPop(s.queue, s.states);
    FinishedOne(s);
  }

  lemma HandledKeeps(s: Slot)
    requires s.On() && Ordered(s) && s.message.Some? && Accounted(s)
    ensures Ordered(EventHandled(s)) && Accounted(EventHandled(s))
    ensures var r := EventHandled(s);
            && r.finished == s.finished + [Arrival(s.queue[0], s.message.value)] && r.called == s.called
            && r.pending == s.pending + if r.message.Some? then 1 else 0
  {
    HandledIs(s);
    AdvancedKeeps(s);
  }

  lemma TaskKeeps(s: Slot)
    requires s.On() && Ordered(s) && InOrder(s) && s.pending > 0
    ensures Ordered(TaskRun(s)) && InOrder(TaskRun(s))
  {
    if s.message.Some? {
      var value := s.message.value;
      HandledKeeps(s.(pending := s.pending - 1, called := if value == NoMessage then s.called else s.called + [value]));
      ValuesMore(s.finished, Arrival(s.queue[0], value));
    }
  }

  lemma ReleaseKeeps(s: Slot)
    requires s.On() && Ordered(s) && InOrder(s) && !s.blocking
    ensures Ordered(EventHandled(s)) && InOrder(EventHandled(s))
  {
    if s.message.Some? {
      HandledKeeps(s);
    }
  }

  lemma StepKeeps(s: Slot, step: Step)
    requires s.On() && Ordered(s) && InOrder(s) && Possible(s, step)
    ensures Ordered(Next(s, step)) && InOrder(Next(s, step)) && Next(s, step).On()
  {
    match step
    case Arrive(c, t) => ArriveKeeps(s, c, t);
    case RunTask => TaskKeeps(s);
    case Release => ReleaseKeeps(s);
  }

  /** The slot after the first n steps. */
  function After(s: Slot, steps: seq<Step>, n: nat): (r: Slot)
    requires n <= |steps| && s.Wired()
    ensures Alike(s, r)
  {
    if n == 0 then s else Next(After(s, steps, n - 1), steps[n - 1])
  }

  ghost predicate Run(s: Slot, steps: seq<Step>, n: nat)
    requires n <= |steps| && s.Wired()
  {
    n == 0 || (Run(s, steps, n - 1) && Possible(After(s, steps, n - 1), steps[n - 1]))
  }

  /** In every run of an enabled slot: it holds a token if and only if connections wait, the first of them is read and the
      others are not, and every arrival is finished once, one at a time and in the order of arrival. */
  lemma {:induction false} OneAtATime(s: Slot, steps: seq<Step>, n: nat)
    requires n <= |steps| && s.On() && Ordered(s) && InOrder(s) && Run(s, steps, n)
    ensures After(s, steps, n).On() && Ordered(After(s, steps, n)) && InOrder(After(s, steps, n))
  {
    if n > 0 {
      OneAtATime(s, steps, n - 1);
      StepKeeps(After(s, steps, n - 1), steps[n - 1]);
    }
  }

  /** What an acknowledgement leaves before the next one is taken. */
  lemma PoppedIs(s: Slot)
    requires s.Wired() && s.queue != [] && s.states[s.queue[0]] == Read
    ensures Popped(s) == s.(queue := s.queue[1..], states := s.states[s.queue[0] := Done],
                            finished := s.finished + [Arrival(s.queue[0], s.tokens[s.queue[0]])])
  {
  }

  lemma TakenCommutes(s: Slot, c: nat, t: Token)
    requires s.On() && s.Wired() && s.message.None? && c < |s.states| && c !in s.queue
    ensures Tried(Arrived(s, c, t)) == Arrived(Tried(s), c, t)
  {
    if s.queue != [] {
      var next := s.queue[0];
      assert (s.queue + [c])[0] == next;
      assert s.states[c := Unread][next := Read] == s.states[next := Read][c := Unread];
    }
  }

  /** An event that arrives during an acknowledgement is treated as if it arrived after it. */
  lemma NestedArrival(s: Slot, c: nat, t: Token)
    requires s.On() && Ordered(s) && s.queue != [] && c < |s.states| && (s.states[c] == Done || c == s.queue[0])
    ensures Tried(Arrived(Popped(s.(message := None)), c, t)) == Arrived(EventHandled(s), c, t)
  {
    var popped := Popped(s.(message := None));
    PoppedIs(s.(message := None));
    assert c !in popped.queue;
    TakenCommutes(popped, c, t);
  }

  // ---------------------------------------------------------------- pausing

  /** The queue holds exactly the connections that are not done. */
  ghost predicate Outstanding(queue: seq<nat>, states: seq<State>) {
    && (forall k | 0 <= k < |queue| :: queue[k] < |states|)
    && (forall i, j | 0 <= i < j < |queue| :: queue[i] != queue[j])
    && (forall k | 0 <= k < |queue| :: states[queue[k]] != Done)
    && (forall c | 0 <= c < |states| && states[c] != Done :: c in queue)
  }

  lemma OutstandingPop(queue: seq<nat>, states: seq<State>)
    requires Outstanding(queue, states) && queue != []
    ensures Outstanding(queue[1..], states[queue[0] := Done])
  {
  }

  lemma {:induction false} FlushedAll(s: Slot)
    requires s.Wired() && Outstanding(s.queue, s.states) && Accounted(s)
    ensures var r := Flushed(s);
            && r == s.(queue := [], states := r.states, finished := s.arrived)
            && forall c | 0 <= c < |r.states| :: r.states[c] == Done
    decreases |s.queue|
  {
    if s.queue != [] {
      var c := s.queue[0];
      var read := s.(states := s.states[c := Read], queue := s.queue[1..]);
      var r := Acknowledged(read, c);
      OutstandingPop(s.queue, s.states);
      assert r.states == s.states[c := Done];
      FinishedOne(s);
      FlushedAll(r);
    }
  }

  lemma DisabledAll(s: Slot)
    requires Ordered(s) && Accounted(s) && !s.active
    ensures var r := Disabled(s);
            && r == s.(enabled := false, queue := [], states := r.states, finished := s.arrived)
            && forall c | 0 <= c < |r.states| :: r.states[c] == Done
  {
    var off := s.(enabled := false);
    var popped := Popped(off);
    if s.queue != [] {
      PoppedIs(off);
      OutstandingPop(s.queue, s.states);
      FinishedOne(s);
    }
    assert Outstanding(popped.queue, popped.states) && Accounted(popped);
    FlushedAll(popped);
  }

  /** Disabling and enabling a slot acknowledges everything, but the slot is in order again if and only if it held no
      token when it was disabled: the token stays although no connection waits for it. */
  lemma InOrderAgainExactly(s: Slot)
    requires Ordered(s) && InOrder(s) && !s.active
    ensures var r := Enabled(Disabled(s));
            && r.queue == [] && r.finished == r.arrived == s.arrived
            && (Ordered(r) && InOrder(r) <==> s.message == None)
  {
    DisabledAll(s);
    var r := Enabled(Disabled(s));
    assert r.arrived == r.finished + Waiting([], r.tokens, 0);
  }

  /** If its task has run in the meantime, a slot that does not block takes no event any more. */
  lemma {:induction false} TakesNoMore(s: Slot, steps: seq<Step>, n: nat)
    requires n <= |steps| && s.Wired() && s.On() && !s.blocking && s.message.Some? && s.pending == 0
    requires Run(s, steps, n) && forall k | 0 <= k < n :: !steps[k].Release?
    ensures var r := After(s, steps, n);
            && r.message == s.message && r.pending == 0 && r.finished == s.finished && r.called == s.called && r.On()
            && |r.queue| == |s.queue| + n
  {
    if n > 0 {
      TakesNoMore(s, steps, n - 1);
    }
  }
}

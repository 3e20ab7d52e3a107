/** What the callback of a slot gets. */
module SlotCalls {
  import opened TokenStates
  import opened Slots

  /** The data that a step passes to the callback: what is held when a task runs. */
  function Passed(s: Slot, step: Step): seq<Token> {
    if step.RunTask? && s.On() && s.message.Some? && s.message.value != NoMessage then [s.message.value] else []
  }

  lemma TriedCalls(s: Slot)
    requires s.Wired()
    ensures Tried(s).called == s.called
  {
    FlushedCalls(s);
  }

  lemma {:induction false} FlushedCalls(s: Slot)
    requires s.Wired()
    ensures Flushed(s).called == s.called
    decreases |s.queue|
  {
    if s.queue != [] {
      FlushedCalls(Acknowledged(s.(states := s.states[s.queue[0] := Read], queue := s.queue[1..]), s.queue[0]));
    }
  }

  lemma HandledCalls(s: Slot)
    requires s.Wired()
    ensures EventHandled(s).called == s.called
  {
    TriedCalls(Popped(s.(message := None)));
  }

  lemma TaskCalls(s: Slot)
    requires s.Wired() && s.pending > 0
    ensures TaskRun(s).called == s.called + Passed(s, RunTask)
  {
    var r := s.(pending := s.pending - 1);
    if s.message.Some? {
      HandledCalls(r);
      HandledCalls(r.(called := s.called + [s.message.value]));
    }
  }

  /** In every run of any slot: a task that runs while a slot that is on holds data passes exactly this data to the callback,
      whether the slot blocks or not, and nothing else does. */
  lemma CalledExactly(s: Slot, steps: seq<Step>, n: nat)
    requires n < |steps| && s.Wired() && Run(s, steps, n + 1)
    ensures After(s, steps, n + 1).called == After(s, steps, n).called + Passed(After(s, steps, n), steps[n])
  {
    var r := After(s, steps, n);
    match steps[n]
    case Arrive(c, t) => TriedCalls(Put(r, c, t));
    case Release => HandledCalls(r);
    case RunTask => TaskCalls(r);
  }

  /** A token is released only after its task has run. */
  ghost predicate Careful(s: Slot, steps: seq<Step>, n: nat)
    requires n <= |steps| && s.Wired()
  {
    n == 0 || (Careful(s, steps, n - 1) && (steps[n - 1].Release? ==> After(s, steps, n - 1).pending == 0))
  }

  /** The callback has got the data of all that is finished, and of what is held if its task has run. */
  ghost predicate Heard(s: Slot) {
    && s.pending <= (if s.message.Some? then 1 else 0)
    && (s.message.Some? && s.pending == 0 ==> s.message.value != NoMessage)
    && s.called == Values(s.finished) + if s.message.Some? && s.pending == 0 then [s.message.value] else []
  }

  lemma ArriveHeard(s: Slot, c: nat, t: Token)
    requires s.On() && Ordered(s) && Heard(s) && c < |s.states|
    ensures Heard(Arrived(s, c, t))
  {
    ArrivedIs(s, c, t);
  }

  lemma TaskHeard(s: Slot)
    requires s.On() && Ordered(s) && Accounted(s) && Heard(s) && s.pending > 0 && !s.blocking
    ensures Heard(TaskRun(s))
  {
    var value, r := s.message.value, s.(pending := s.pending - 1);
    if value == NoMessage {
      HandledKeeps(r);
      ValuesMore(s.finished, Arrival(s.queue[0], value));
    }
  }

  lemma ReleaseHeard(s: Slot)
    requires s.On() && Ordered(s) && Accounted(s) && Heard(s) && s.pending == 0
    ensures Heard(EventHandled(s))
  {
    if s.message.Some? {
      HandledKeeps(s);
      ValuesMore(s.finished, Arrival(s.queue[0], s.message.value));
    }
  }

  lemma HeardStep(s: Slot, step: Step)
    requires s.On() && Ordered(s) && Accounted(s) && Heard(s) && !s.blocking && Possible(s, step)
    requires step.Release? ==> s.pending == 0
    ensures Heard(Next(s, step))
  {
    match step
    case Arrive(c, t) => ArriveHeard(s, c, t);
    case RunTask => TaskHeard(s);
    case Release => ReleaseHeard(s);
  }

  /** In every run of an enabled slot that does not block, in which a token is released only after its task has run: the
      callback has got the data of all that is finished, in the order of arrival, and that of the token that is held once its
      task has run. */
  lemma {:induction false} HeardInOrder(s: Slot, steps: seq<Step>, n: nat)
    requires n <= |steps| && s.On() && Ordered(s) && InOrder(s) && Heard(s) && !s.blocking
    requires Run(s, steps, n) && Careful(s, steps, n)
    ensures Heard(After(s, steps, n))
  {
    if n > 0 {
      var r := After(s, steps, n - 1);
      HeardInOrder(s, steps, n - 1);
      OneAtATime(s, steps, n - 1);
      HeardStep(r, steps[n - 1]);
    }
  }

  // ---------------------------------------------------------------- slots that are off

  lemma {:induction false} FlushedEmpty(s: Slot)
    requires s.Wired()
    ensures Flushed(s).queue == [] && Flushed(s).message == s.message
    decreases |s.queue|
  {
    if s.queue != [] {
      FlushedEmpty(Acknowledged(s.(states := s.states[s.queue[0] := Read], queue := s.queue[1..]), s.queue[0]));
    }
  }

  /** If a slot is off when a task runs, the event is dropped: a slot that blocks is finished with it and all that waits, one
      that does not block keeps the token. */
  lemma OffTask(s: Slot)
    requires s.Wired() && !s.On() && s.message.Some? && s.pending > 0
    ensures TaskRun(s).called == s.called
    ensures s.blocking ==> TaskRun(s).message == None && TaskRun(s).queue == []
    ensures !s.blocking ==> TaskRun(s) == s.(pending := s.pending - 1)
  {
    TaskCalls(s);
    var r := s.(pending := s.pending - 1, message := None);
    FlushedEmpty(Popped(r));
  }

  /** A slot that is enabled again takes the first event that waits, unless it holds a token. */
  lemma EnabledTakes(s: Slot)
    requires s.Wired() && s.queue != []
    ensures var r := Enabled(s);
            && r.enabled && r.queue == s.queue
            && (s.message.Some? ==> r.message == s.message && r.pending == s.pending)
            && (s.message.None? ==> r.message == Some(s.tokens[s.queue[0]]) && r.states[s.queue[0]] == Read && r.pending == s.pending + 1)
  {
  }
}

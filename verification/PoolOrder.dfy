/** The tasks of a generator are executed in the order in which they have been added, however it is moved between groups. */
module PoolOrder {
  import opened TokenStates
  import opened ThreadPools

  function Merged(queue: seq<Task>, ts: seq<Task>): seq<Task> {
    Queued(queue, ts, |ts|)
  }

  /** The pending tasks of a generator, its own first. */
  function Listed(p: Pool, g: nat): seq<Task> {
    RunnerOf(p.runners, g).remaining
    + if g in p.assignment && p.assignment[g] in p.groups then Own(p.groups[p.assignment[g]].tasks, g) else []
  }

  /** Each of them once, in the order in which they are going to be executed. */
  function Line(p: Pool, g: nat): seq<Task> {
    Merged([], Listed(p, g))
  }

  // ---------------------------------------------------------------- lists

  lemma {:induction false} QueuedPrefix(q: seq<Task>, a: seq<Task>, b: seq<Task>, n: nat)
    requires n <= |a|
    ensures Queued(q, a + b, n) == Queued(q, a, n)
  {
    if n > 0 {
      QueuedPrefix(q, a, b, n - 1);
    }
  }

  lemma {:induction false} QueuedFrom(q: seq<Task>, a: seq<Task>, b: seq<Task>, n: nat)
    requires n <= |b|
    ensures Queued(q, a + b, |a| + n) == Queued(Merged(q, a), b, n)
  {
    if n == 0 {
      QueuedPrefix(q, a, b, |a|);
    } else {
      QueuedFrom(q, a, b, n - 1);
    }
  }

  lemma MergedConcat(q: seq<Task>, a: seq<Task>, b: seq<Task>)
    ensures Merged(q, a + b) == Merged(Merged(q, a), b)
  {
    QueuedFrom(q, a, b, |b|);
  }

  lemma OwnLast(ts: seq<Task>, t: Task, g: nat)
    ensures Own(ts + [t], g) == if t.owner == g then Own(ts, g) + [t] else Own(ts, g)
  {
    assert (ts + [t])[..|ts + [t]| - 1] == ts;
  }

  lemma {:induction false} OwnFirst(t: Task, ts: seq<Task>, g: nat)
    ensures Own([t] + ts, g) == if t.owner == g then [t] + Own(ts, g) else Own(ts, g)
    decreases |ts|
  {
    if ts == [] {
      assert [t] + ts == [] + [t];
      OwnLast([], t, g);
    } else {
      var before, last := ts[..|ts| - 1], ts[|ts| - 1];
      OwnFirst(t, before, g);
      OwnLast([t] + before, last, g);
      assert [t] + ts == ([t] + before) + [last];
      OwnLast(before, last, g);
      assert ts == before + [last];
    }
  }

  lemma {:induction false} OwnAll(ts: seq<Task>, g: nat)
    requires OwnedBy(ts, g)
    ensures Own(ts, g) == ts
    ensures forall x | x != g :: Own(ts, x) == []
    decreases |ts|
  {
    if ts != [] {
      OwnAll(ts[..|ts| - 1], g);
    }
  }

  lemma {:induction false} OwnNone(ts: seq<Task>, g: nat)
    requires forall t | t in ts :: t.owner != g
    ensures Own(ts, g) == []
    decreases |ts|
  {
    if ts != [] {
      OwnNone(ts[..|ts| - 1], g);
    }
  }

  lemma {:induction false} OwnOthers(ts: seq<Task>, g: nat, x: nat)
    ensures Own(Others(ts, g), x) == if x == g then [] else Own(ts, x)
    decreases |ts|
  {
    if ts != [] {
      var before, last := ts[..|ts| - 1], ts[|ts| - 1];
      OwnOthers(before, g, x);
      OwnLast(Others(before, g), last, x);
    }
  }

  lemma {:induction false} OwnOnce(ts: seq<Task>, g: nat)
    requires Once(ts)
    ensures Once(Own(ts, g))
    decreases |ts|
  {
    if ts != [] {
      var before, last := ts[..|ts| - 1], ts[|ts| - 1];
      OwnOnce(before, g);
      OwnHas(before, g);
      assert last !in before;
    }
  }

  lemma {:induction false} QueuedOnce(ts: seq<Task>, n: nat)
    requires n <= |ts| && Once(ts)
    ensures Queued([], ts, n) == ts[..n]
  {
    if n > 0 {
      QueuedOnce(ts, n - 1);
      assert ts[..n] == ts[..n - 1] + [ts[n - 1]];
    }
  }

  lemma MergedOnce(ts: seq<Task>)
    requires Once(ts)
    ensures Merged([], ts) == ts
  {
    QueuedOnce(ts, |ts|);
    assert ts[..|ts|] == ts;
  }

  function Added(queue: seq<Task>, t: Task): seq<Task> {
    if t in queue then queue else queue + [t]
  }

  lemma MergedLast(q: seq<Task>, a: seq<Task>, t: Task)
    ensures Merged(q, a + [t]) == Added(Merged(q, a), t)
  {
    QueuedPrefix(q, a, [t], |a|);
  }

  lemma OwnAdded(m: seq<Task>, t: Task, x: nat)
    ensures Own(Added(m, t), x) == if t.owner == x then Added(Own(m, x), t) else Own(m, x)
  {
    OwnLast(m, t, x);
    OwnHas(m, x);
  }

  lemma OwnMergedStep(m: seq<Task>, own: seq<Task>, rest: seq<Task>, t: Task, x: nat)
    requires Own(m, x) == Merged(own, Own(rest, x))
    ensures Own(Added(m, t), x) == Merged(own, Own(rest + [t], x))
  {
    OwnLast(rest, t, x);
    OwnAdded(m, t, x);
    MergedLast(own, Own(rest, x), t);
  }

  /** Merging in the tasks of many generators merges in those of each. */
  lemma {:induction false} OwnMerged(q: seq<Task>, ts: seq<Task>, n: nat, x: nat)
    requires n <= |ts|
    ensures Own(Queued(q, ts, n), x) == Merged(Own(q, x), Own(ts[..n], x))
  {
    if n == 0 {
      assert ts[..0] == [];
    } else {
      OwnMerged(q, ts, n - 1, x);
      OwnMergedStep(Queued(q, ts, n - 1), Own(q, x), ts[..n - 1], ts[n - 1], x);
      assert ts[..n] == ts[..n - 1] + [ts[n - 1]];
    }
  }

  lemma OwnOfMerged(q: seq<Task>, ts: seq<Task>, x: nat)
    ensures Own(Merged(q, ts), x) == Merged(Own(q, x), Own(ts, x))
  {
    OwnMerged(q, ts, |ts|, x);
    assert ts[..|ts|] == ts;
  }

  /** The elements of a are among those of b, in the same order. */
  predicate Subsequence(a: seq<Task>, b: seq<Task>)
    decreases |b|
  {
    || a == []
    || (b != [] && ((a[|a| - 1] == b[|b| - 1] && Subsequence(a[..|a| - 1], b[..|b| - 1])) || Subsequence(a, b[..|b| - 1])))
  }

  /** What is merged in goes to the end, in its order. */
  lemma {:induction false} AddedInOrder(q: seq<Task>, ts: seq<Task>, n: nat)
    requires n <= |ts|
    ensures q <= Queued(q, ts, n) && Subsequence(Queued(q, ts, n)[|q|..], ts[..n])
  {
    if n > 0 {
      AddedInOrder(q, ts, n - 1);
      var before, t := Queued(q, ts, n - 1), ts[n - 1];
      assert ts[..n][..n - 1] == ts[..n - 1];
      if t !in before {
        assert (before + [t])[|q|..] == before[|q|..] + [t];
        assert (before[|q|..] + [t])[..|before| - |q|] == before[|q|..];
      }
    }
  }

  lemma {:induction false} QueuedMembers(q: seq<Task>, ts: seq<Task>, n: nat)
    requires n <= |ts|
    ensures forall t :: t in Queued(q, ts, n) <==> t in q || t in ts[..n]
  {
    if n > 0 {
      QueuedMembers(q, ts, n - 1);
      assert ts[..n] == ts[..n - 1] + [ts[n - 1]];
    }
  }

  // ---------------------------------------------------------------- one operation

  /** An assigned generator has all its tasks in its group. */
  lemma LineInGroup(p: Pool, g: nat)
    requires Sound(p) && g in p.assignment
    ensures p.assignment[g] in p.groups && Line(p, g) == Own(p.groups[p.assignment[g]].tasks, g) == Listed(p, g)
  {
    assert RunnerSound(p, g) && GroupSound(p, p.assignment[g]);
    var own := Own(p.groups[p.assignment[g]].tasks, g);
    OwnOnce(p.groups[p.assignment[g]].tasks, g);
    MergedOnce(own);
    assert [] + own == own;
  }

  ghost predicate SameLine(p: Pool, q: Pool, x: nat) {
    Line(q, x) == Line(p, x)
  }

  lemma DetachedLine(p: Pool, g: nat, x: nat)
    requires Sound(p)
    ensures x == g ==> RunnerOf(Detached(p, g).runners, g).remaining == Listed(p, g)
    ensures x != g ==> Listed(Detached(p, g), x) == Listed(p, x)
  {
    assert RunnerSound(p, g) && RunnerSound(p, x);
    if g in p.assignment {
      OwnOthers(p.groups[p.assignment[g]].tasks, g, x);
    }
  }

  /** In the group that it joins there is nothing of the generator. */
  lemma NothingThere(p: Pool, g: nat, h: nat)
    requires Sound(p) && h in p.groups
    ensures Own(Detached(p, g).groups[h].tasks, g) == []
  {
    DetachedGroup(p, g, h);
    OwnNone(Detached(p, g).groups[h].tasks, g);
  }

  lemma MovedLine(p: Pool, g: nat, h: nat, extra: seq<Task>, x: nat)
    requires Sound(p) && h in p.groups && OwnedBy(extra, g)
    ensures Line(Moved(p, g, h, extra), x) == if x == g then Merged(Line(p, g), extra) else Line(p, x)
  {
    var q, r := Detached(p, g), Moved(p, g, h, extra);
    DetachedIs(p, g);
    PendingOwned(p, g);
    DetachedLine(p, g, x);
    NothingThere(p, g, h);
    var ts := RunnerOf(q.runners, g).remaining + extra;
    assert OwnedBy(ts, g);
    OwnAll(ts, g);
    OwnOfMerged(q.groups[h].tasks, ts, x);
    assert r.groups[h].tasks == Merged(q.groups[h].tasks, ts);
    if x == g {
      JoinedLine(p, g, h, extra, ts);
    } else if x in p.assignment && p.assignment[x] == h {
      assert Listed(r, x) == Listed(q, x);
    }
  }

  lemma JoinedLine(p: Pool, g: nat, h: nat, extra: seq<Task>, ts: seq<Task>)
    requires Sound(p) && h in p.groups && ts == Listed(p, g) + extra
    requires Own(Moved(p, g, h, extra).groups[h].tasks, g) == Merged([], ts)
    ensures Line(Moved(p, g, h, extra), g) == Merged(Line(p, g), extra)
  {
    var own := Merged([], ts);
    JoinedGroup(p, g, h, extra);
    OwnOnce(Moved(p, g, h, extra).groups[h].tasks, g);
    MergedOnce(own);
    assert [] + own == own;
    MergedConcat([], Listed(p, g), extra);
  }

  lemma DroppedLine(p: Pool, h: nat, x: nat)
    requires Sound(p)
    ensures Line(Dropped(p, h), x) == Line(p, x)
  {
    assert RunnerSound(p, x);
  }

  lemma AssignedLine(p: Pool, g: nat, h: nat, extra: seq<Task>, x: nat)
    requires Sound(p) && h in p.groups && OwnedBy(extra, g) && Takes(p, g, h)
    ensures Line(Assigned(p, g, h, extra), x) ==
            if x == g then Merged(Line(p, g), Gained(p, g, p.groups[h].id, extra)) else Line(p, x)
  {
    if !InGroup(p, g, p.groups[h].id) {
      MovedLine(p, g, h, extra, x);
      DetachedGroup(p, g, h);
      MovedSound(p, g, h, extra);
      if InGroup(p, g, PRIVATE) {
        DroppedLine(Moved(p, g, h, extra), p.assignment[g], x);
      }
    }
  }

  lemma CreatedLine(p: Pool, name: string, id: int, x: nat)
    requires Sound(p)
    ensures Line(Created(p, name, id), x) == Line(p, x)
  {
    assert RunnerSound(p, x);
  }

  lemma PrivateLine(p: Pool, g: nat, name: string, extra: seq<Task>, x: nat)
    requires Sound(p) && OwnedBy(extra, g)
    ensures Line(UsedPrivately(p, g, name, extra), x) ==
            if x == g then Merged(Line(p, g), Gained(p, g, PRIVATE, extra)) else Line(p, x)
  {
    if !InGroup(p, g, PRIVATE) {
      var grown := Grown(p, PRIVATE, name);
      GrownSound(p, PRIVATE, name);
      assert RunnerSound(p, x) && RunnerSound(p, g);
      assert Line(grown, x) == Line(p, x);
      AssignedLine(grown, g, p.objects, extra, x);
    }
  }

  lemma AddedLine(p: Pool, g: nat, id: int, name: string, extra: seq<Task>, x: nat)
    requires Sound(p) && OwnedBy(extra, g)
    ensures Line(AddedToGroup(p, g, id, name, extra), x) ==
            if x == g then Merged(Line(p, g), Gains(p, AddToGroup(g, id, name, extra))) else Line(p, x)
  {
    if id == PRIVATE {
      PrivateLine(p, g, name, extra, x);
    } else if id == DEFAULT {
      AssignedLine(p, g, 0, extra, x);
    } else if id >= MINIMUM && WithId(p, id, |p.order|).Some? {
      AssignedLine(p, g, WithId(p, id, |p.order|).value, extra, x);
    }
  }

  lemma CreatedForLine(p: Pool, g: nat, name: string, extra: seq<Task>, x: nat)
    requires Sound(p) && p.nextId >= MINIMUM && Fair(p, CreateFor(g, name, extra))
    ensures Line(CreatedFor(p, g, name, extra), x) ==
            if x == g then Merged(Line(p, g), Gains(p, CreateFor(g, name, extra))) else Line(p, x)
  {
    var h := WithName(p, name, |p.order|);
    if h.Some? {
      AssignedLine(p, g, h.value, extra, x);
    } else {
      var q := Created(p, name, 0);
      CreatedSound(p, name, 0);
      CreatedLine(p, name, 0, x);
      assert RunnerSound(p, g);
      assert q.groups[p.objects].id == p.nextId;
      assert Gained(q, g, p.nextId, extra) == Gained(p, g, p.nextId, extra);
      AssignedLine(q, g, p.objects, extra, x);
    }
  }

  lemma RemovedLine(p: Pool, g: nat, x: nat)
    requires Sound(p)
    ensures Line(Removed(p, g), x) == Line(p, x)
  {
    DetachedLine(p, g, x);
    if x == g {
      assert Listed(Removed(p, g), g) == Listed(p, g) + [] == Listed(p, g);
    } else {
      assert Listed(Removed(p, g), x) == Listed(Detached(p, g), x);
    }
  }

  lemma ScheduledInGroup(p: Pool, t: Task, x: nat)
    requires Sound(p) && t.owner in p.assignment && p.assignment[t.owner] in p.groups
    ensures var h := p.assignment[t.owner];
            && h in Scheduled(p, t).groups
            && Own(Scheduled(p, t).groups[h].tasks, x) ==
               if x == t.owner then Merged(Own(p.groups[h].tasks, x), [t]) else Own(p.groups[h].tasks, x)
  {
    var h := p.assignment[t.owner];
    assert RunnerSound(p, t.owner);
    assert [] + [t] == [t];
    OwnOfMerged(p.groups[h].tasks, [t], x);
    OwnLast([], t, x);
  }

  lemma ScheduledLine(p: Pool, t: Task, x: nat)
    requires Sound(p)
    ensures Line(Scheduled(p, t), x) == if x == t.owner then Merged(Line(p, x), [t]) else Line(p, x)
  {
    assert RunnerSound(p, t.owner) && RunnerSound(p, x);
    if t.owner in p.assignment {
      ScheduledInGroup(p, t, x);
      ScheduledSound(p, t);
      if x in p.assignment {
        LineInGroup(p, x);
        LineInGroup(Scheduled(p, t), x);
      }
    } else if x == t.owner {
      MergedConcat([], Listed(p, x), [t]);
      assert RunnerOf(p.runners, x).remaining + [] == RunnerOf(p.runners, x).remaining;
      assert Listed(Scheduled(p, t), x) == Listed(p, x) + [t];
    }
  }

  /** The task that is executed is the first of its generator. */
  lemma ExecutedLine(p: Pool, h: nat, x: nat)
    requires Sound(p) && h in p.groups && p.groups[h].tasks != []
    ensures var t := p.groups[h].tasks[0];
            && (x == t.owner ==> Line(p, x) == [t] + Line(Executed(p, h), x))
            && (x != t.owner ==> Line(Executed(p, h), x) == Line(p, x))
  {
    var tasks, q := p.groups[h].tasks, Executed(p, h);
    var t := tasks[0];
    assert GroupSound(p, h) && RunnerSound(p, x) && RunnerSound(p, t.owner);
    assert t in tasks;
    assert tasks == [t] + tasks[1..];
    OwnFirst(t, tasks[1..], x);
    ExecutedSound(p, h);
    if x in p.assignment {
      LineInGroup(p, x);
      LineInGroup(q, x);
    }
  }

  // ---------------------------------------------------------------- every run

  /** What is new is at the end, in the order of the gains: those of them that are of x and have not been there. */
  ghost predicate Grows(before: seq<Task>, after: seq<Task>, gains: seq<Task>, x: nat) {
    && before <= after && Subsequence(after[|before|..], gains)
    && forall t :: t in after <==> t in before || (t in gains && t.owner == x)
  }

  lemma StaysSame(line: seq<Task>, x: nat)
    ensures Grows(line, line, [], x)
  {
  }

  /** The line of generator x after a step: what the step adds to it goes to the end, and what is executed was at its front. */
  ghost predicate InLine(p: Pool, s: Step, q: Pool, x: nat) {
    && (!s.Execute? ==> Grows(Line(p, x), Line(q, x), Gains(p, s), x))
    && (s.Execute? ==> Line(q, x) == Line(p, x) || exists t :: Executes(p, s, t) && t.owner == x && Line(p, x) == [t] + Line(q, x))
    && forall t | Executes(p, s, t) && t.owner == x :: Line(p, x) == [t] + Line(q, x)
  }

  lemma ForLine(p: Pool, q: Pool, g: nat, gains: seq<Task>, x: nat)
    requires OwnedBy(gains, g) && Line(q, x) == if x == g then Merged(Line(p, g), gains) else Line(p, x)
    ensures Grows(Line(p, x), Line(q, x), gains, x)
  {
    if x == g {
      AddedInOrder(Line(p, g), gains, |gains|);
      QueuedMembers(Line(p, g), gains, |gains|);
      assert gains[..|gains|] == gains;
    }
  }

  lemma AssigningInLine(p: Pool, s: Step, x: nat)
    requires Sound(p) && p.nextId >= MINIMUM && Fair(p, s) && (s.Add? || s.AddToGroup? || s.CreateFor?)
    ensures Grows(Line(p, x), Line(Next(p, s), x), Gains(p, s), x)
  {
    match s
    case Add(g, threading, grouping, name, extra) =>
      AddedLine(p, g, if threading && !grouping then PRIVATE else DEFAULT, name, extra, x);
      ForLine(p, Next(p, s), g, Gains(p, s), x);
    case AddToGroup(g, id, name, extra) =>
      AddedLine(p, g, id, name, extra, x);
      ForLine(p, Next(p, s), g, Gains(p, s), x);
    case CreateFor(g, name, extra) =>
      CreatedForLine(p, g, name, extra, x);
      ForLine(p, Next(p, s), g, Gains(p, s), x);
  }

  lemma GroupsInLine(p: Pool, s: Step, x: nat)
    requires Sound(p) && (s.Create? || s.RemoveGroup? || s.Remove?)
    ensures Grows(Line(p, x), Line(Next(p, s), x), Gains(p, s), x)
  {
    StaysSame(Line(p, x), x);
    match s
    case Create(name, id) => CreatedLine(p, name, id, x);
    case RemoveGroup(id) =>
      if WithId(p, id, |p.order|).Some? {
        DroppedLine(p, WithId(p, id, |p.order|).value, x);
      }
    case Remove(g) => RemovedLine(p, g, x);
  }

  lemma StepInLine(p: Pool, s: Step, x: nat)
    requires Sound(p) && p.nextId >= MINIMUM && Fair(p, s)
    ensures InLine(p, s, Next(p, s), x)
  {
    if s.Schedule? {
      ScheduledLine(p, s.t, x);
      ForLine(p, Scheduled(p, s.t), s.t.owner, [s.t], x);
    } else if s.Execute? {
      if s.h in p.groups && p.groups[s.h].tasks != [] {
        ExecutedLine(p, s.h, x);
      }
    } else if s.Create? || s.RemoveGroup? || s.Remove? {
      GroupsInLine(p, s, x);
    } else {
      AssigningInLine(p, s, x);
    }
  }

  /** In every fair run: the tasks of a generator wait in the order in which they have been added, wherever it has been moved,
      and the one that is executed is the one that has waited longest. */
  lemma RunInLine(steps: seq<Step>, n: nat, x: nat)
    requires n < |steps| && FairRun(steps, n + 1)
    ensures Line(After(steps, 0), x) == []
    ensures InLine(After(steps, n), steps[n], After(steps, n + 1), x)
  {
    Partition(steps, n);
    StepInLine(After(steps, n), steps[n], x);
  }
}

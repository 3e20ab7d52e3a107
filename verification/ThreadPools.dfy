/**
 A pool of thread groups.  Every generator of tasks is assigned to one group, which holds its pending tasks; a generator
 that has no group keeps its tasks itself.
 */
module ThreadPools {
  import opened TokenStates

  const PRIVATE: int := 0
  const DEFAULT: int := 1
  const MINIMUM: int := 2

  /** A task object; it belongs to its generator. */
  datatype Task = Task(owner: nat, number: nat)

  datatype Group = Group(id: int, name: string, generators: seq<nat>, tasks: seq<Task>)

  datatype Runner = Runner(scheduler: Option<nat>, remaining: seq<Task>)

  /** The groups by the identity of their objects, and in the order of the pool's list; the default group is object 0. */
  datatype Pool = Pool(
    groups: map<nat, Group>, order: seq<nat>, assignment: map<nat, nat>, runners: map<nat, Runner>, objects: nat, nextId: int)

  function RunnerOf(runners: map<nat, Runner>, g: nat): Runner {
    if g in runners then runners[g] else Runner(None, [])
  }

  // ---------------------------------------------------------------- lists

  function Without(s: seq<nat>, g: nat): seq<nat> {
    if s == [] then []
    else if s[|s| - 1] == g then Without(s[..|s| - 1], g)
    else Without(s[..|s| - 1], g) + [s[|s| - 1]]
  }

  function Own(ts: seq<Task>, g: nat): seq<Task> {
    if ts == [] then []
    else if ts[|ts| - 1].owner == g then Own(ts[..|ts| - 1], g) + [ts[|ts| - 1]]
    else Own(ts[..|ts| - 1], g)
  }

  function Others(ts: seq<Task>, g: nat): seq<Task> {
    if ts == [] then []
    else if ts[|ts| - 1].owner == g then Others(ts[..|ts| - 1], g)
    else Others(ts[..|ts| - 1], g) + [ts[|ts| - 1]]
  }

  /** A task that is queued already is not queued again. */
  function Queued(queue: seq<Task>, ts: seq<Task>, n: nat): seq<Task>
    requires n <= |ts|
  {
    if n == 0 then queue
    else
      var before := Queued(queue, ts, n - 1);
      if ts[n - 1] in before then before else before + [ts[n - 1]]
  }

  ghost predicate Once<T>(s: seq<T>) {
    forall i, j | 0 <= i < j < |s| :: s[i] != s[j]
  }

  lemma {:induction false} WithoutHas(s: seq<nat>, g: nat)
    ensures forall x :: x in Without(s, g) <==> x in s && x != g
    ensures Once(s) ==> Once(Without(s, g))
    ensures |Without(s, g)| <= |s|
    ensures g in s ==> |Without(s, g)| < |s|
    ensures g !in s ==> Without(s, g) == s
  {
    if s != [] {
      var front := s[..|s| - 1];
      WithoutHas(front, g);
      assert s == front + [s[|s| - 1]];
      if Once(s) {
        assert Once(front) && s[|s| - 1] !in front;
      }
    }
  }

  lemma {:induction false} OwnHas(ts: seq<Task>, g: nat)
    ensures forall t :: t in Own(ts, g) <==> t in ts && t.owner == g
  {
    if ts != [] {
      OwnHas(ts[..|ts| - 1], g);
      assert ts == ts[..|ts| - 1] + [ts[|ts| - 1]];
    }
  }

  lemma {:induction false} OthersHas(ts: seq<Task>, g: nat)
    ensures forall t :: t in Others(ts, g) <==> t in ts && t.owner != g
    ensures Once(ts) ==> Once(Others(ts, g))
  {
    if ts != [] {
      OthersHas(ts[..|ts| - 1], g);
      assert ts == ts[..|ts| - 1] + [ts[|ts| - 1]];
    }
  }

  lemma {:induction false} QueuedHas(queue: seq<Task>, ts: seq<Task>, n: nat)
    requires n <= |ts|
    ensures forall t :: t in Queued(queue, ts, n) <==> t in queue || t in ts[..n]
    ensures Once(queue) ==> Once(Queued(queue, ts, n))
  {
    if n > 0 {
      QueuedHas(queue, ts, n - 1);
      assert ts[..n] == ts[..n - 1] + [ts[n - 1]];
    }
  }

  // ---------------------------------------------------------------- generators

  /** The runner takes its pending tasks out of its group. */
  function Detached(p: Pool, g: nat): Pool {
    var r := RunnerOf(p.runners, g);
    if r.scheduler.None? || r.scheduler.value !in p.groups then p
    else
      var h := r.scheduler.value;
      var group := p.groups[h];
      p.(groups := p.groups[h := group.(generators := Without(group.generators, g), tasks := Others(group.tasks, g))],
         runners := p.runners[g := Runner(None, r.remaining + Own(group.tasks, g))])
  }

  /** The runner brings its tasks along; `extra` are the tasks it schedules because it has been assigned. */
  function Joined(p: Pool, g: nat, h: nat, extra: seq<Task>): Pool
    requires h in p.groups
  {
    var group := p.groups[h];
    var ts := RunnerOf(p.runners, g).remaining + extra;
    p.(groups := p.groups[h := group.(generators := group.generators + [g], tasks := Queued(group.tasks, ts, |ts|))],
       runners := p.runners[g := Runner(Some(h), [])])
  }

  /** A group is removed only while it is empty. */
  function Dropped(p: Pool, h: nat): Pool {
    if h in p.groups && p.groups[h].generators == [] then p.(groups := p.groups - {h}, order := Without(p.order, h)) else p
  }

  function InGroup(p: Pool, g: nat, id: int): bool {
    g in p.assignment && p.assignment[g] in p.groups && p.groups[p.assignment[g]].id == id
  }

  function Moved(p: Pool, g: nat, h: nat, extra: seq<Task>): Pool
    requires h in p.groups
  {
    var q := Detached(p, g);
    var r := Joined(q, g, h, extra);
    r.(assignment := r.assignment[g := h])
  }

  function Assigned(p: Pool, g: nat, h: nat, extra: seq<Task>): Pool
    requires h in p.groups
  {
    if InGroup(p, g, p.groups[h].id) then p
    else if InGroup(p, g, PRIVATE) then Dropped(Moved(p, g, h, extra), p.assignment[g])
    else Moved(p, g, h, extra)
  }

  function Grown(p: Pool, id: int, name: string): Pool {
    p.(groups := p.groups[p.objects := Group(id, name, [], [])], order := p.order + [p.objects], objects := p.objects + 1)
  }

  function UsedPrivately(p: Pool, g: nat, name: string, extra: seq<Task>): Pool {
    if InGroup(p, g, PRIVATE) then p else Assigned(Grown(p, PRIVATE, name), g, p.objects, extra)
  }

  function UsedByDefault(p: Pool, g: nat, extra: seq<Task>): Pool
    requires 0 in p.groups
  {
    Assigned(p, g, 0, extra)
  }

  /** The first group of the list with this id. */
  function WithId(p: Pool, id: int, n: nat): Option<nat>
    requires n <= |p.order|
    ensures WithId(p, id, n).Some? ==> WithId(p, id, n).value in p.groups && p.groups[WithId(p, id, n).value].id == id
  {
    if n == 0 then None
    else
      var before := WithId(p, id, n - 1);
      var h := p.order[n - 1];
      if before.Some? then before else if h in p.groups && p.groups[h].id == id then Some(h) else None
  }

  function WithName(p: Pool, name: string, n: nat): Option<nat>
    requires n <= |p.order|
    ensures WithName(p, name, n).Some? ==> WithName(p, name, n).value in p.groups && p.groups[WithName(p, name, n).value].name == name
  {
    if n == 0 then None
    else
      var before := WithName(p, name, n - 1);
      var h := p.order[n - 1];
      if before.Some? then before else if h in p.groups && p.groups[h].name == name then Some(h) else None
  }

  function AddedToGroup(p: Pool, g: nat, id: int, name: string, extra: seq<Task>): Pool
    requires 0 in p.groups
  {
    if id == PRIVATE then UsedPrivately(p, g, name, extra)
    else if id == DEFAULT then UsedByDefault(p, g, extra)
    else if id >= MINIMUM && WithId(p, id, |p.order|).Some? then Assigned(p, g, WithId(p, id, |p.order|).value, extra)
    else p
  }

  function Created(p: Pool, name: string, id: int): Pool {
    if id > 0 then Grown(p, id, name).(nextId := if p.nextId > id + 1 then p.nextId else id + 1)
    else Grown(p, p.nextId, name).(nextId := p.nextId + 1)
  }

  function CreatedFor(p: Pool, g: nat, name: string, extra: seq<Task>): Pool {
    var h := WithName(p, name, |p.order|);
    if h.Some? then Assigned(p, g, h.value, extra) else Assigned(Created(p, name, 0), g, p.objects, extra)
  }

  function Removed(p: Pool, g: nat): Pool {
    var q := Detached(p, g);
    q.(assignment := q.assignment - {g})
  }

  function GroupRemoved(p: Pool, id: int): Pool {
    var h := WithId(p, id, |p.order|);
    if h.Some? then Dropped(p, h.value) else p
  }

  // ---------------------------------------------------------------- the partition

  /** What holds of one group. */
  ghost predicate GroupSound(p: Pool, h: nat)
    requires h in p.groups
  {
    var group := p.groups[h];
    && Once(group.generators) && Once(group.tasks)
    && (group.id == PRIVATE ==> |group.generators| <= 1)
    && (forall g | g in group.generators :: g in p.assignment && p.assignment[g] == h)
    && (forall t | t in group.tasks :: t.owner in group.generators)
  }

  /** What holds of one generator: it is in the group that it is assigned to, with all of its tasks, or in none. */
  ghost predicate RunnerSound(p: Pool, g: nat) {
    var r := RunnerOf(p.runners, g);
    && (forall t | t in r.remaining :: t.owner == g)
    && if g in p.assignment then
         p.assignment[g] in p.groups && g in p.groups[p.assignment[g]].generators && r == Runner(Some(p.assignment[g]), [])
       else r.scheduler == None
  }

  ghost predicate Sound(p: Pool) {
    && 0 in p.groups && p.groups[0].id == DEFAULT
    && (forall h | h in p.groups :: h < p.objects && GroupSound(p, h))
    && forall g :: RunnerSound(p, g)
  }

  /** The tasks of a generator that are pending, with its group or with itself. */
  ghost function Pending(p: Pool, g: nat): set<Task> {
    var own := set t | t in RunnerOf(p.runners, g).remaining;
    if g in p.assignment && p.assignment[g] in p.groups
    then own + set t | t in p.groups[p.assignment[g]].tasks && t.owner == g
    else own
  }

  ghost predicate OwnedBy(ts: seq<Task>, g: nat) {
    forall t | t in ts :: t.owner == g
  }

  /** After detaching, the generator is in no group and has its pending tasks itself. */
  lemma DetachedIs(p: Pool, g: nat)
    requires Sound(p)
    ensures var q := Detached(p, g);
            && q.groups.Keys == p.groups.Keys && q.assignment == p.assignment && q.order == p.order && q.objects == p.objects
            && RunnerOf(q.runners, g).scheduler == None
            && (forall t :: t in RunnerOf(q.runners, g).remaining <==> t in Pending(p, g))
            && (forall x | x != g :: RunnerOf(q.runners, x) == RunnerOf(p.runners, x))
  {
    assert RunnerSound(p, g);
    if g in p.assignment {
      OwnHas(p.groups[p.assignment[g]].tasks, g);
    }
  }

  lemma DetachedGroup(p: Pool, g: nat, h: nat)
    requires Sound(p) && h in p.groups
    ensures h in Detached(p, g).groups
    ensures var before, after := p.groups[h], Detached(p, g).groups[h];
            && after.id == before.id && after.name == before.name
            && (forall x :: x in after.generators <==> x in before.generators && x != g)
            && (forall t :: t in after.tasks <==> t in before.tasks && t.owner != g)
            && Once(after.generators) && Once(after.tasks) && |after.generators| <= |before.generators|
            && (if g in before.generators then |after.generators| < |before.generators| else after.generators == before.generators)
  {
    assert GroupSound(p, h) && RunnerSound(p, g);
    WithoutHas(p.groups[h].generators, g);
    OthersHas(p.groups[h].tasks, g);
  }

  /** The group after the generator has joined it. */
  lemma JoinedGroup(p: Pool, g: nat, h: nat, extra: seq<Task>)
    requires Sound(p) && h in p.groups
    ensures var q := Moved(p, g, h, extra);
            && q.groups.Keys == p.groups.Keys
            && var before, after := p.groups[h], q.groups[h];
            && after.id == before.id && after.name == before.name
            && (forall x :: x in after.generators <==> x in before.generators || x == g)
            && (forall t :: t in after.tasks <==> (t in before.tasks && t.owner != g) || t in Pending(p, g) || t in extra)
            && Once(after.generators) && Once(after.tasks)
            && |after.generators| == |Detached(p, g).groups[h].generators| + 1
  {
    DetachedIs(p, g);
    DetachedGroup(p, g, h);
    var q := Detached(p, g);
    var ts := RunnerOf(q.runners, g).remaining + extra;
    QueuedHas(q.groups[h].tasks, ts, |ts|);
    assert ts[..|ts|] == ts;
  }

  lemma PendingOwned(p: Pool, g: nat)
    requires Sound(p)
    ensures forall t | t in Pending(p, g) :: t.owner == g
  {
    assert RunnerSound(p, g);
  }

  /** Moving a generator keeps the pool sound, provided that a private group is empty before. */
  lemma MovedGroups(p: Pool, g: nat, h: nat, extra: seq<Task>, k: nat)
    requires Sound(p) && h in p.groups && OwnedBy(extra, g) && k in p.groups
    requires p.groups[h].id == PRIVATE ==> Detached(p, g).groups[h].generators == []
    ensures k in Moved(p, g, h, extra).groups && GroupSound(Moved(p, g, h, extra), k)
  {
    assert GroupSound(p, k);
    DetachedIs(p, g);
    DetachedGroup(p, g, k);
    if k == h {
      PendingOwned(p, g);
      JoinedGroup(p, g, h, extra);
    }
  }

  lemma MovedRunners(p: Pool, g: nat, h: nat, extra: seq<Task>, x: nat)
    requires Sound(p) && h in p.groups && OwnedBy(extra, g)
    ensures RunnerSound(Moved(p, g, h, extra), x)
    ensures forall t :: t in Pending(Moved(p, g, h, extra), x) <==> t in Pending(p, x) || (x == g && t in extra)
  {
    assert RunnerSound(p, x);
    DetachedIs(p, g);
    PendingOwned(p, g);
    JoinedGroup(p, g, h, extra);
    if x != g && x in p.assignment {
      DetachedGroup(p, g, p.assignment[x]);
    }
  }

  function For(x: nat, g: nat, extra: seq<Task>): seq<Task> {
    if x == g then extra else []
  }

  /** No pending task is lost or made up, except that g gets the extra ones. */
  ghost predicate Conserved(p: Pool, q: Pool, g: nat, extra: seq<Task>) {
    forall x :: Carries(p, q, x, For(x, g, extra))
  }

  ghost predicate Carries(p: Pool, q: Pool, x: nat, extra: seq<Task>) {
    forall t :: t in Pending(q, x) <==> t in Pending(p, x) || t in extra
  }

  lemma MovedSound(p: Pool, g: nat, h: nat, extra: seq<Task>)
    requires Sound(p) && h in p.groups && OwnedBy(extra, g)
    requires p.groups[h].id == PRIVATE ==> Detached(p, g).groups[h].generators == []
    ensures Sound(Moved(p, g, h, extra)) && Conserved(p, Moved(p, g, h, extra), g, extra)
  {
    var q := Moved(p, g, h, extra);
    JoinedGroup(p, g, h, extra);
    DetachedGroup(p, g, 0);
    forall k | k in q.groups ensures GroupSound(q, k) {
      MovedGroups(p, g, h, extra, k);
    }
    forall x ensures RunnerSound(q, x) && Carries(p, q, x, For(x, g, extra)) {
      MovedRunners(p, g, h, extra, x);
    }
  }

  lemma Unchanged(p: Pool, g: nat)
    ensures Conserved(p, p, g, [])
  {
    forall x ensures Carries(p, p, x, For(x, g, [])) {
    }
  }

  lemma DroppedSound(p: Pool, h: nat)
    requires Sound(p) && h != 0
    ensures Sound(Dropped(p, h)) && Conserved(p, Dropped(p, h), 0, [])
  {
    var q := Dropped(p, h);
    forall k | k in q.groups ensures GroupSound(q, k) {
      assert GroupSound(p, k);
    }
    forall x ensures RunnerSound(q, x) && Carries(p, q, x, For(x, 0, [])) {
      assert RunnerSound(p, x);
    }
  }

  lemma GrownSound(p: Pool, id: int, name: string)
    requires Sound(p)
    ensures p.objects !in p.groups
    ensures Sound(Grown(p, id, name)) && Conserved(p, Grown(p, id, name), 0, [])
  {
    var q := Grown(p, id, name);
    forall k | k in q.groups ensures GroupSound(q, k) {
      if k != p.objects {
        assert GroupSound(p, k);
      }
    }
    forall x ensures RunnerSound(q, x) && Carries(p, q, x, For(x, 0, [])) {
      assert RunnerSound(p, x);
    }
  }

  lemma ConservedTwice(p: Pool, q: Pool, r: Pool, g: nat, a: seq<Task>, b: seq<Task>)
    requires Conserved(p, q, g, a) && Conserved(q, r, g, b) && (a == [] || b == [])
    ensures Conserved(p, r, g, a + b)
  {
    forall x ensures Carries(p, r, x, For(x, g, a + b)) {
      assert Carries(p, q, x, For(x, g, a));
      assert Carries(q, r, x, For(x, g, b));
    }
  }

  /** A group that takes g: any but a private one that another generator has. */
  ghost predicate Takes(p: Pool, g: nat, h: nat)
    requires h in p.groups
  {
    p.groups[h].id == PRIVATE && !InGroup(p, g, PRIVATE) ==> p.groups[h].generators == []
  }

  /** The tasks that assigning adds: none if nothing changes. */
  function Gained(p: Pool, g: nat, id: int, extra: seq<Task>): seq<Task> {
    if InGroup(p, g, id) then [] else extra
  }

  lemma AssignedSound(p: Pool, g: nat, h: nat, extra: seq<Task>)
    requires Sound(p) && h in p.groups && OwnedBy(extra, g) && Takes(p, g, h)
    ensures Sound(Assigned(p, g, h, extra))
    ensures Conserved(p, Assigned(p, g, h, extra), g, Gained(p, g, p.groups[h].id, extra))
  {
    if !InGroup(p, g, p.groups[h].id) {
      DetachedGroup(p, g, h);
      var q := Moved(p, g, h, extra);
      MovedSound(p, g, h, extra);
      if InGroup(p, g, PRIVATE) {
        DroppedSound(q, p.assignment[g]);
        ConservedOther(q, Dropped(q, p.assignment[g]), 0, g);
        ConservedTwice(p, q, Dropped(q, p.assignment[g]), g, extra, []);
        assert extra + [] == extra;
      }
    } else {
      Unchanged(p, g);
    }
  }

  lemma ConservedOther(p: Pool, q: Pool, g: nat, k: nat)
    requires Conserved(p, q, g, [])
    ensures Conserved(p, q, k, [])
  {
    forall x ensures Carries(p, q, x, For(x, k, [])) {
      assert Carries(p, q, x, For(x, g, []));
    }
  }

  /** A group that is dropped was empty: a private group does not outlive its generator. */
  lemma PrivateGone(p: Pool, g: nat, h: nat, extra: seq<Task>)
    requires Sound(p) && h in p.groups && InGroup(p, g, PRIVATE) && p.groups[h].id != PRIVATE
    ensures p.assignment[g] !in Assigned(p, g, h, extra).groups
  {
    var left := p.assignment[g];
    assert RunnerSound(p, g) && GroupSound(p, left);
    DetachedGroup(p, g, left);
  }

  lemma GrownAssigned(p: Pool, q: Pool, g: nat, id: int, name: string, extra: seq<Task>)
    requires Sound(p) && OwnedBy(extra, g) && !InGroup(p, g, id) && q == Grown(p, id, name)
    ensures p.objects in q.groups && Sound(Assigned(q, g, p.objects, extra))
    ensures Conserved(p, Assigned(q, g, p.objects, extra), g, extra)
  {
    GrownSound(p, id, name);
    AssignedSound(q, g, p.objects, extra);
    ConservedOther(p, q, 0, g);
    assert RunnerSound(p, g);
    ConservedTwice(p, q, Assigned(q, g, p.objects, extra), g, [], extra);
    assert [] + extra == extra;
  }

  lemma UsedPrivatelySound(p: Pool, g: nat, name: string, extra: seq<Task>)
    requires Sound(p) && OwnedBy(extra, g)
    ensures Sound(UsedPrivately(p, g, name, extra))
    ensures Conserved(p, UsedPrivately(p, g, name, extra), g, Gained(p, g, PRIVATE, extra))
  {
    if InGroup(p, g, PRIVATE) {
      Unchanged(p, g);
    } else {
      GrownAssigned(p, Grown(p, PRIVATE, name), g, PRIVATE, name, extra);
    }
  }

  /** Assigning to the first group with a name, or to a new one, keeps the pool sound if and only if the group that is
      found is not the private group of another generator. */
  lemma CreatedForExactly(p: Pool, g: nat, name: string, extra: seq<Task>)
    requires Sound(p) && OwnedBy(extra, g) && p.nextId >= MINIMUM
    ensures var h := WithName(p, name, |p.order|);
            Sound(CreatedFor(p, g, name, extra)) <==> (h.Some? ==> Takes(p, g, h.value))
  {
    var h := WithName(p, name, |p.order|);
    if h.None? {
      CreatedAssigned(p, g, name, extra);
    } else if Takes(p, g, h.value) {
      AssignedSound(p, g, h.value, extra);
    } else {
      assert GroupSound(p, h.value) && RunnerSound(p, g);
      DetachedGroup(p, g, h.value);
      JoinedGroup(p, g, h.value, extra);
      assert |Moved(p, g, h.value, extra).groups[h.value].generators| >= 2;
    }
  }

  lemma CreatedSound(p: Pool, name: string, id: int)
    requires Sound(p)
    ensures Sound(Created(p, name, id)) && Conserved(p, Created(p, name, id), 0, [])
  {
    var k := if id > 0 then id else p.nextId;
    GrownSound(p, k, name);
    var q, r := Grown(p, k, name), Created(p, name, id);
    forall h | h in r.groups ensures GroupSound(r, h) {
      assert GroupSound(q, h);
    }
    forall x ensures RunnerSound(r, x) && Carries(p, r, x, For(x, 0, [])) {
      assert RunnerSound(q, x) && Carries(p, q, x, For(x, 0, []));
    }
  }

  lemma CreatedAssigned(p: Pool, g: nat, name: string, extra: seq<Task>)
    requires Sound(p) && OwnedBy(extra, g) && p.nextId >= MINIMUM
    ensures Sound(Assigned(Created(p, name, 0), g, p.objects, extra))
    ensures Conserved(p, Assigned(Created(p, name, 0), g, p.objects, extra), g, Gained(p, g, p.nextId, extra))
  {
    var q := Created(p, name, 0);
    CreatedSound(p, name, 0);
    GrownSound(p, p.nextId, name);
    AssignedSound(q, g, p.objects, extra);
    ConservedOther(p, q, 0, g);
    assert RunnerSound(p, g);
    var gained := Gained(q, g, p.nextId, extra);
    assert gained == Gained(p, g, p.nextId, extra);
    ConservedTwice(p, q, Assigned(q, g, p.objects, extra), g, [], gained);
    assert [] + gained == gained;
  }

  // ---------------------------------------------------------------- tasks

  function Scheduled(p: Pool, t: Task): Pool {
    var r := RunnerOf(p.runners, t.owner);
    var ts := r.remaining + [t];
    if r.scheduler.None? || r.scheduler.value !in p.groups then p.(runners := p.runners[t.owner := r.(remaining := ts)])
    else
      var h := r.scheduler.value;
      p.(groups := p.groups[h := p.groups[h].(tasks := Queued(p.groups[h].tasks, ts, |ts|))],
         runners := p.runners[t.owner := r.(remaining := [])])
  }

  /** The first task of a group is taken out to be executed. */
  function Executed(p: Pool, h: nat): Pool {
    if h in p.groups && p.groups[h].tasks != []
    then p.(groups := p.groups[h := p.groups[h].(tasks := p.groups[h].tasks[1..])])
    else p
  }

  /** The group's queue takes the task unless it has it. */
  lemma ScheduledIs(p: Pool, t: Task)
    requires Sound(p) && t.owner in p.assignment
    ensures var h := p.assignment[t.owner];
            && h in p.groups && Scheduled(p, t).groups.Keys == p.groups.Keys
            && (forall k | k in p.groups && k != h :: Scheduled(p, t).groups[k] == p.groups[k])
            && Scheduled(p, t).groups[h] == p.groups[h].(tasks := Scheduled(p, t).groups[h].tasks)
            && Once(Scheduled(p, t).groups[h].tasks)
            && forall u :: u in Scheduled(p, t).groups[h].tasks <==> u in p.groups[h].tasks || u == t
  {
    assert RunnerSound(p, t.owner);
    var h := p.assignment[t.owner];
    assert GroupSound(p, h);
    QueuedHas(p.groups[h].tasks, [t], 1);
    assert [] + [t] == [t] && [t][..1] == [t];
  }

  lemma ScheduledGroup(p: Pool, t: Task, h: nat)
    requires Sound(p) && h in p.groups
    ensures h in Scheduled(p, t).groups && GroupSound(Scheduled(p, t), h)
  {
    assert GroupSound(p, h) && RunnerSound(p, t.owner);
    if t.owner in p.assignment {
      ScheduledIs(p, t);
    }
  }

  lemma ScheduledRunner(p: Pool, t: Task, x: nat)
    requires Sound(p)
    ensures RunnerSound(Scheduled(p, t), x) && Carries(p, Scheduled(p, t), x, For(x, t.owner, [t]))
  {
    assert RunnerSound(p, x) && RunnerSound(p, t.owner);
    if t.owner in p.assignment {
      ScheduledIs(p, t);
    }
  }

  lemma ScheduledSound(p: Pool, t: Task)
    requires Sound(p)
    ensures Sound(Scheduled(p, t)) && Conserved(p, Scheduled(p, t), t.owner, [t])
  {
    var q := Scheduled(p, t);
    assert RunnerSound(p, t.owner);
    forall h | h in q.groups ensures GroupSound(q, h) {
      ScheduledGroup(p, t, h);
    }
    forall x ensures RunnerSound(q, x) && Carries(p, q, x, For(x, t.owner, [t])) {
      ScheduledRunner(p, t, x);
    }
    ScheduledGroup(p, t, 0);
  }

  lemma TailHas(ts: seq<Task>)
    requires ts != [] && Once(ts)
    ensures Once(ts[1..]) && forall t :: t in ts[1..] <==> t in ts && t != ts[0]
  {
    assert ts == [ts[0]] + ts[1..];
  }

  /** Exactly the task that is executed is not pending any more. */
  lemma ExecutedSound(p: Pool, h: nat)
    requires Sound(p)
    ensures Sound(Executed(p, h))
    ensures h in p.groups && p.groups[h].tasks != [] ==>
              forall x, t :: t in Pending(Executed(p, h), x) <==> t in Pending(p, x) && t != p.groups[h].tasks[0]
  {
    var q := Executed(p, h);
    if h in p.groups && p.groups[h].tasks != [] {
      assert GroupSound(p, h);
      TailHas(p.groups[h].tasks);
      forall k | k in q.groups ensures GroupSound(q, k) {
        assert GroupSound(p, k);
      }
      forall x ensures RunnerSound(q, x) {
        assert RunnerSound(p, x);
      }
      forall x, t ensures t in Pending(q, x) <==> t in Pending(p, x) && t != p.groups[h].tasks[0] {
        ExecutedTask(p, h, x, t);
      }
    }
  }

  lemma ExecutedTask(p: Pool, h: nat, x: nat, t: Task)
    requires Sound(p) && h in p.groups && p.groups[h].tasks != []
    ensures t in Pending(Executed(p, h), x) <==> t in Pending(p, x) && t != p.groups[h].tasks[0]
  {
    var first := p.groups[h].tasks[0];
    assert GroupSound(p, h) && RunnerSound(p, x) && RunnerSound(p, first.owner);
    TailHas(p.groups[h].tasks);
    if x in p.assignment {
      assert GroupSound(p, p.assignment[x]);
    }
  }

  // ---------------------------------------------------------------- runs

  datatype Step =
    | Add(g: nat, threading: bool, grouping: bool, name: string, extra: seq<Task>)
    | AddToGroup(g: nat, id: int, name: string, extra: seq<Task>)
    | CreateFor(g: nat, name: string, extra: seq<Task>)
    | Create(name: string, id: int)
    | RemoveGroup(id: int)
    | Remove(g: nat)
    | Schedule(t: Task)
    | Execute(h: nat)

  function Next(p: Pool, s: Step): Pool
    requires 0 in p.groups
  {
    match s
    case Add(g, threading, grouping, name, extra) =>
      if threading && !grouping then UsedPrivately(p, g, name, extra) else UsedByDefault(p, g, extra)
    case AddToGroup(g, id, name, extra) => AddedToGroup(p, g, id, name, extra)
    case CreateFor(g, name, extra) => CreatedFor(p, g, name, extra)
    case Create(name, id) => Created(p, name, id)
    case RemoveGroup(id) => GroupRemoved(p, id)
    case Remove(g) => Removed(p, g)
    case Schedule(t) => Scheduled(p, t)
    case Execute(h) => Executed(p, h)
  }

  /** Tasks that an assignment adds belong to the generator; the default group is not removed; and nobody is assigned by
      the name of a private group that another generator has. */
  ghost predicate Fair(p: Pool, s: Step) {
    match s
    case Add(g, _, _, _, extra) => OwnedBy(extra, g)
    case AddToGroup(g, _, _, extra) => OwnedBy(extra, g)
    case CreateFor(g, name, extra) =>
      OwnedBy(extra, g) && var h := WithName(p, name, |p.order|); h.Some? ==> Takes(p, g, h.value)
    case RemoveGroup(id) => id != DEFAULT
    case _ => true
  }

  lemma DetachedGroups(p: Pool, g: nat)
    requires Sound(p)
    ensures Sound(Removed(p, g)) && Conserved(p, Removed(p, g), g, [])
  {
    var q := Removed(p, g);
    DetachedIs(p, g);
    PendingOwned(p, g);
    DetachedGroup(p, g, 0);
    forall h | h in q.groups ensures GroupSound(q, h) {
      assert GroupSound(p, h);
      DetachedGroup(p, g, h);
    }
    forall x ensures RunnerSound(q, x) && Carries(p, q, x, For(x, g, [])) {
      assert RunnerSound(p, x);
      if x != g && x in p.assignment {
        DetachedGroup(p, g, p.assignment[x]);
      }
    }
  }

  lemma AddedSound(p: Pool, g: nat, id: int, name: string, extra: seq<Task>)
    requires Sound(p) && OwnedBy(extra, g)
    ensures Sound(AddedToGroup(p, g, id, name, extra))
  {
    if id == PRIVATE {
      UsedPrivatelySound(p, g, name, extra);
    } else if id == DEFAULT {
      AssignedSound(p, g, 0, extra);
    } else if id >= MINIMUM && WithId(p, id, |p.order|).Some? {
      AssignedSound(p, g, WithId(p, id, |p.order|).value, extra);
    }
  }

  lemma GroupRemovedSound(p: Pool, id: int)
    requires Sound(p) && id != DEFAULT
    ensures Sound(GroupRemoved(p, id)) && Conserved(p, GroupRemoved(p, id), 0, [])
  {
    var h := WithId(p, id, |p.order|);
    if h.Some? {
      DroppedSound(p, h.value);
    } else {
      Unchanged(p, 0);
    }
  }

  lemma NextIdGrows(p: Pool, s: Step)
    requires 0 in p.groups
    ensures Next(p, s).nextId >= p.nextId
  {
  }

  lemma StepSound(p: Pool, s: Step)
    requires Sound(p) && p.nextId >= MINIMUM && Fair(p, s)
    ensures Sound(Next(p, s))
  {
    match s
    case Add(g, threading, grouping, name, extra) =>
      AddedSound(p, g, if threading && !grouping then PRIVATE else DEFAULT, name, extra);
    case AddToGroup(g, id, name, extra) => AddedSound(p, g, id, name, extra);
    case CreateFor(g, name, extra) => CreatedForExactly(p, g, name, extra);
    case Create(name, id) => CreatedSound(p, name, id);
    case RemoveGroup(id) => GroupRemovedSound(p, id);
    case Remove(g) => DetachedGroups(p, g);
    case Schedule(t) => ScheduledSound(p, t);
    case Execute(h) => ExecutedSound(p, h);
  }

  function Start(): Pool {
    Pool(map[0 := Group(DEFAULT, "default", [], [])], [0], map[], map[], 1, MINIMUM)
  }

  function After(steps: seq<Step>, n: nat): Pool
    requires n <= |steps|
  {
    if n == 0 then Start()
    else if 0 in After(steps, n - 1).groups then Next(After(steps, n - 1), steps[n - 1])
    else After(steps, n - 1)
  }

  ghost predicate FairRun(steps: seq<Step>, n: nat)
    requires n <= |steps|
  {
    n == 0 || (FairRun(steps, n - 1) && Fair(After(steps, n - 1), steps[n - 1]))
  }

  /** In every fair run each assigned generator is in exactly the group it is assigned to, once and with all of its tasks,
      each of them once, and a private group has at most one generator. */
  lemma {:induction false} Partition(steps: seq<Step>, n: nat)
    requires n <= |steps| && FairRun(steps, n)
    ensures Sound(After(steps, n)) && After(steps, n).nextId >= MINIMUM
  {
    if n > 0 {
      Partition(steps, n - 1);
      StepSound(After(steps, n - 1), steps[n - 1]);
      NextIdGrows(After(steps, n - 1), steps[n - 1]);
    }
  }

  // ---------------------------------------------------------------- the tasks of a run

  /** The tasks that a step adds: an assignment adds some only if it changes the group. */
  function Gains(p: Pool, s: Step): seq<Task> {
    match s
    case Add(g, threading, grouping, _, extra) => Gained(p, g, if threading && !grouping then PRIVATE else DEFAULT, extra)
    case AddToGroup(g, id, _, extra) =>
      if id == PRIVATE || id == DEFAULT || (id >= MINIMUM && WithId(p, id, |p.order|).Some?) then Gained(p, g, id, extra) else []
    case CreateFor(g, name, extra) =>
      var h := WithName(p, name, |p.order|);
      Gained(p, g, if h.Some? then p.groups[h.value].id else p.nextId, extra)
    case Schedule(t) => [t]
    case _ => []
  }

  predicate Executes(p: Pool, s: Step, t: Task) {
    s.Execute? && s.h in p.groups && p.groups[s.h].tasks != [] && p.groups[s.h].tasks[0] == t
  }

  ghost predicate Waits(p: Pool, t: Task) {
    t in Pending(p, t.owner)
  }

  lemma WaitsAfter(p: Pool, q: Pool, g: nat, extra: seq<Task>, t: Task)
    requires Conserved(p, q, g, extra) && OwnedBy(extra, g)
    ensures Waits(q, t) <==> Waits(p, t) || t in extra
  {
    assert Carries(p, q, t.owner, For(t.owner, g, extra));
  }

  lemma AddedConserves(p: Pool, g: nat, id: int, name: string, extra: seq<Task>, t: Task)
    requires Sound(p) && OwnedBy(extra, g)
    ensures Waits(AddedToGroup(p, g, id, name, extra), t) <==> Waits(p, t) || t in Gains(p, AddToGroup(g, id, name, extra))
  {
    var gained := Gained(p, g, id, extra);
    if id == PRIVATE {
      UsedPrivatelySound(p, g, name, extra);
      WaitsAfter(p, UsedPrivately(p, g, name, extra), g, gained, t);
    } else if id == DEFAULT {
      AssignedSound(p, g, 0, extra);
      WaitsAfter(p, Assigned(p, g, 0, extra), g, gained, t);
    } else if id >= MINIMUM && WithId(p, id, |p.order|).Some? {
      var h := WithId(p, id, |p.order|).value;
      AssignedSound(p, g, h, extra);
      WaitsAfter(p, Assigned(p, g, h, extra), g, gained, t);
    }
  }

  lemma CreatedConserves(p: Pool, g: nat, name: string, extra: seq<Task>, t: Task)
    requires Sound(p) && p.nextId >= MINIMUM && Fair(p, CreateFor(g, name, extra))
    ensures Waits(CreatedFor(p, g, name, extra), t) <==> Waits(p, t) || t in Gains(p, CreateFor(g, name, extra))
  {
    var h := WithName(p, name, |p.order|);
    if h.Some? {
      AssignedSound(p, g, h.value, extra);
      WaitsAfter(p, Assigned(p, g, h.value, extra), g, Gained(p, g, p.groups[h.value].id, extra), t);
    } else {
      CreatedAssigned(p, g, name, extra);
      WaitsAfter(p, CreatedFor(p, g, name, extra), g, Gained(p, g, p.nextId, extra), t);
    }
  }

  /** A step changes nothing about the pending tasks but by those it adds and the one it executes. */
  lemma StepConserves(p: Pool, s: Step, t: Task)
    requires Sound(p) && p.nextId >= MINIMUM && Fair(p, s)
    ensures Waits(Next(p, s), t) <==> (Waits(p, t) || t in Gains(p, s)) && !Executes(p, s, t)
  {
    match s
    case Add(g, threading, grouping, name, extra) =>
      AddedConserves(p, g, if threading && !grouping then PRIVATE else DEFAULT, name, extra, t);
    case AddToGroup(g, id, name, extra) => AddedConserves(p, g, id, name, extra, t);
    case CreateFor(g, name, extra) => CreatedConserves(p, g, name, extra, t);
    case Create(name, id) =>
      CreatedSound(p, name, id);
      WaitsAfter(p, Created(p, name, id), 0, [], t);
    case RemoveGroup(id) =>
      GroupRemovedSound(p, id);
      WaitsAfter(p, GroupRemoved(p, id), 0, [], t);
    case Remove(g) =>
      DetachedGroups(p, g);
      WaitsAfter(p, Removed(p, g), g, [], t);
    case Schedule(u) =>
      ScheduledSound(p, u);
      WaitsAfter(p, Scheduled(p, u), u.owner, [u], t);
    case Execute(h) => ExecutedSound(p, h);
  }

  /** A task that is executed was pending. */
  lemma ExecutesPending(p: Pool, s: Step, t: Task)
    requires Sound(p) && Executes(p, s, t)
    ensures Waits(p, t)
  {
    assert GroupSound(p, s.h);
    assert t.owner in p.assignment && p.assignment[t.owner] == s.h;
  }

  predicate AddedAt(steps: seq<Step>, i: nat, t: Task)
    requires i < |steps|
  {
    t in Gains(After(steps, i), steps[i])
  }

  predicate ExecutedAt(steps: seq<Step>, i: nat, t: Task)
    requires i < |steps|
  {
    Executes(After(steps, i), steps[i], t)
  }

  /** The i-th step adds the task, and none of the later ones among the first n executes it. */
  ghost predicate AddedSince(steps: seq<Step>, n: nat, i: nat, t: Task)
    requires n <= |steps|
  {
    i < n && AddedAt(steps, i, t) && forall j | i < j < n :: !ExecutedAt(steps, j, t)
  }

  ghost predicate WaitsAfterSteps(steps: seq<Step>, n: nat, t: Task)
    requires n <= |steps|
  {
    Waits(After(steps, n), t)
  }

  lemma RunConserves(steps: seq<Step>, n: nat, t: Task)
    requires n < |steps| && FairRun(steps, n + 1)
    ensures WaitsAfterSteps(steps, n + 1, t) <==>
            (WaitsAfterSteps(steps, n, t) || AddedAt(steps, n, t)) && !ExecutedAt(steps, n, t)
    ensures ExecutedAt(steps, n, t) ==> WaitsAfterSteps(steps, n, t) && !AddedAt(steps, n, t)
  {
    Partition(steps, n);
    StepConserves(After(steps, n), steps[n], t);
    if ExecutedAt(steps, n, t) {
      ExecutesPending(After(steps, n), steps[n], t);
    }
  }

  /** The tasks that are pending after a run are exactly those that have been scheduled, or gained by an assignment, and not
      been executed since. */
  lemma {:induction false} PendingExactly(steps: seq<Step>, n: nat, t: Task)
    requires n <= |steps| && FairRun(steps, n)
    ensures WaitsAfterSteps(steps, n, t) <==> exists i :: AddedSince(steps, n, i, t)
  {
    if n > 0 {
      PendingExactly(steps, n - 1, t);
      RunConserves(steps, n - 1, t);
      if WaitsAfterSteps(steps, n, t) {
        if AddedAt(steps, n - 1, t) {
          assert AddedSince(steps, n, n - 1, t);
        } else {
          var i :| AddedSince(steps, n - 1, i, t);
          assert AddedSince(steps, n, i, t);
        }
      }
      if i :| AddedSince(steps, n, i, t) {
        assert i == n - 1 || AddedSince(steps, n - 1, i, t);
      }
    }
  }

  function Additions(steps: seq<Step>, n: nat, t: Task): nat
    requires n <= |steps|
  {
    if n == 0 then 0 else if AddedAt(steps, n - 1, t) then Additions(steps, n - 1, t) + 1 else Additions(steps, n - 1, t)
  }

  function Executions(steps: seq<Step>, n: nat, t: Task): nat
    requires n <= |steps|
  {
    if n == 0 then 0 else if ExecutedAt(steps, n - 1, t) then Executions(steps, n - 1, t) + 1 else Executions(steps, n - 1, t)
  }

  /** A task is executed at most as often as it has been added, and less often while it is pending. */
  lemma {:induction false} ExecutedAtMost(steps: seq<Step>, n: nat, t: Task)
    requires n <= |steps| && FairRun(steps, n)
    ensures Executions(steps, n, t) <= Additions(steps, n, t)
    ensures WaitsAfterSteps(steps, n, t) ==> Executions(steps, n, t) < Additions(steps, n, t)
  {
    if n > 0 {
      ExecutedAtMost(steps, n - 1, t);
      RunConserves(steps, n - 1, t);
    }
  }

  // ---------------------------------------------------------------- the pool

  class ThreadPool {
    var groups: map<nat, Group>
    var order: seq<nat>
    var assignment: map<nat, nat>
    var runners: map<nat, Runner>
    var objects: nat
    var nextId: int
    const threading: bool
    const grouping: bool

    constructor (threading: bool, grouping: bool)
      ensures View() == Start() && this.threading == threading && this.grouping == grouping
    {
      groups, order, assignment, runners := map[0 := Group(DEFAULT, "default", [], [])], [0], map[], map[];
      objects, nextId := 1, MINIMUM;
      this.threading, this.grouping := threading, grouping;
    }

    ghost function View(): Pool
      reads this
    {
      Pool(groups, order, assignment, runners, objects, nextId)
    }

    function IsInGroup(g: nat, id: int): (r: bool)
      reads this
      ensures r == InGroup(View(), g, id)
    {
      g in assignment && assignment[g] in groups && groups[assignment[g]].id == id
    }

    /** Takes the generator and its tasks out of a group. */
    method RemoveFromGroup(h: nat, g: nat) returns (remaining: seq<Task>)
      requires h in groups
      modifies this`groups
      ensures remaining == Own(old(groups)[h].tasks, g)
      ensures groups == old(groups)[h := old(groups)[h].(generators := Without(old(groups)[h].generators, g),
                                                        tasks := Others(old(groups)[h].tasks, g))]
    {
      var group := groups[h];
      var kept: seq<Task>;
      remaining, kept := [], [];
      for i := 0 to |group.tasks|
        invariant remaining == Own(group.tasks[..i], g) && kept == Others(group.tasks[..i], g)
      {
        assert group.tasks[..i + 1][..i] == group.tasks[..i];
        if group.tasks[i].owner == g {
          remaining := remaining + [group.tasks[i]];
        } else {
          kept := kept + [group.tasks[i]];
        }
      }
      assert group.tasks[..|group.tasks|] == group.tasks;
      var others: seq<nat> := [];
      for i := 0 to |group.generators|
        invariant others == Without(group.generators[..i], g)
      {
        assert group.generators[..i + 1][..i] == group.generators[..i];
        if group.generators[i] != g {
          others := others + [group.generators[i]];
        }
      }
      assert group.generators[..|group.generators|] == group.generators;
      groups := groups[h := group.(generators := others, tasks := kept)];
    }

    method Detach(g: nat)
      modifies this`groups, this`runners
      ensures View() == Detached(old(View()), g)
    {
      var r := RunnerOf(runners, g);
      if r.scheduler.Some? && r.scheduler.value in groups {
        var tasks := RemoveFromGroup(r.scheduler.value, g);
        runners := runners[g := Runner(None, r.remaining + tasks)];
      }
    }

    /** Queues the tasks that are not queued yet. */
    method Enqueue(h: nat, ts: seq<Task>)
      requires h in groups
      modifies this`groups
      ensures groups == old(groups)[h := old(groups)[h].(tasks := Queued(old(groups)[h].tasks, ts, |ts|))]
    {
      var group := groups[h];
      var queue := group.tasks;
      for i := 0 to |ts|
        invariant queue == Queued(group.tasks, ts, i)
      {
        if ts[i] !in queue {
          queue := queue + [ts[i]];
        }
      }
      groups := groups[h := group.(tasks := queue)];
    }

    method AssignToScheduler(g: nat, h: nat, extra: seq<Task>)
      requires h in groups && RunnerOf(runners, g).scheduler == None
      modifies this`groups, this`runners
      ensures View() == Joined(old(View()), g, h, extra)
    {
      var ts := RunnerOf(runners, g).remaining + extra;
      groups := groups[h := groups[h].(generators := groups[h].generators + [g])];
      Enqueue(h, ts);
      runners := runners[g := Runner(Some(h), [])];
    }

    method DropGroup(h: nat)
      modifies this`groups, this`order
      ensures View() == Dropped(old(View()), h)
    {
      if h in groups && groups[h].generators == [] {
        groups := groups - {h};
        order := Without(order, h);
      }
    }

    method AssignGeneratorToGroup(g: nat, h: nat, extra: seq<Task>)
      requires h in groups && Sound(View())
      modifies this
      ensures View() == Assigned(old(View()), g, h, extra)
    {
      DetachedIs(View(), g);
      if !IsInGroup(g, groups[h].id) {
        var former := if g in assignment then Some(assignment[g]) else None;
        assert RunnerSound(View(), g);
        var private := IsInGroup(g, PRIVATE);
        Detach(g);
        AssignToScheduler(g, h, extra);
        assignment := assignment[g := h];
        if private {
          DropGroup(former.value);
        }
      }
    }

    method AddGroup(id: int, name: string) returns (h: nat)
      modifies this
      ensures h == old(objects) && View() == Grown(old(View()), id, name)
    {
      h := objects;
      groups := groups[h := Group(id, name, [], [])];
      order := order + [h];
      objects := objects + 1;
    }

    method UsePrivateThreadFor(g: nat, name: string, extra: seq<Task>)
      requires Sound(View())
      modifies this
      ensures View() == UsedPrivately(old(View()), g, name, extra)
    {
      if !IsInGroup(g, PRIVATE) {
        GrownSound(View(), PRIVATE, name);
        var h := AddGroup(PRIVATE, name);
        AssignGeneratorToGroup(g, h, extra);
      }
    }

    method Add(g: nat, name: string, extra: seq<Task>)
      requires Sound(View())
      modifies this
      ensures View() == Next(old(View()), Step.Add(g, threading, grouping, name, extra))
    {
      if threading && !grouping {
        UsePrivateThreadFor(g, name, extra);
      } else {
        AssignGeneratorToGroup(g, 0, extra);
      }
    }

    method AddToGroup(g: nat, id: int, name: string, extra: seq<Task>)
      requires Sound(View())
      modifies this
      ensures View() == AddedToGroup(old(View()), g, id, name, extra)
    {
      if id == PRIVATE {
        UsePrivateThreadFor(g, name, extra);
      } else if id == DEFAULT {
        AssignGeneratorToGroup(g, 0, extra);
      } else if id >= MINIMUM {
        var h := FindGroup(id);
        if h.Some? {
          AssignGeneratorToGroup(g, h.value, extra);
        }
      }
    }

    method FindGroup(id: int) returns (h: Option<nat>)
      ensures h == WithId(View(), id, |order|)
    {
      h := None;
      for i := 0 to |order|
        invariant h == WithId(View(), id, i)
      {
        if h.None? && order[i] in groups && groups[order[i]].id == id {
          h := Some(order[i]);
        }
      }
    }

    method CreateGroup(name: string, id: int) returns (h: nat)
      modifies this
      ensures h == old(objects) && View() == Created(old(View()), name, id)
    {
      if id > 0 {
        nextId := if nextId > id + 1 then nextId else id + 1;
        h := AddGroup(id, name);
      } else {
        nextId := nextId + 1;
        h := AddGroup(nextId - 1, name);
      }
    }

    method CreateNewGroupFor(g: nat, name: string, extra: seq<Task>)
      requires Sound(View())
      modifies this
      ensures View() == CreatedFor(old(View()), g, name, extra)
    {
      var found: Option<nat> := None;
      for i := 0 to |order|
        invariant found == WithName(View(), name, i) && View() == old(View())
      {
        if found.None? && order[i] in groups && groups[order[i]].name == name {
          found := Some(order[i]);
        }
      }
      if found.Some? {
        AssignGeneratorToGroup(g, found.value, extra);
      } else {
        CreatedSound(View(), name, 0);
        var h := CreateGroup(name, 0);
        AssignGeneratorToGroup(g, h, extra);
      }
    }

    method RemoveGroup(id: int)
      modifies this
      ensures View() == GroupRemoved(old(View()), id)
    {
      var h := FindGroup(id);
      if h.Some? {
        DropGroup(h.value);
      }
    }

    method Remove(g: nat)
      modifies this
      ensures View() == Removed(old(View()), g)
    {
      Detach(g);
      assignment := assignment - {g};
    }

    method Schedule(t: Task)
      modifies this
      ensures View() == Scheduled(old(View()), t)
    {
      var r := RunnerOf(runners, t.owner);
      if r.scheduler.None? || r.scheduler.value !in groups {
        runners := runners[t.owner := r.(remaining := r.remaining + [t])];
      } else {
        Enqueue(r.scheduler.value, r.remaining + [t]);
        runners := runners[t.owner := r.(remaining := [])];
      }
    }

    method ExecuteNextTask(h: nat) returns (t: Option<Task>)
      requires h in groups
      modifies this
      ensures View() == Executed(old(View()), h)
      ensures t == if old(groups)[h].tasks == [] then None else Some(old(groups)[h].tasks[0])
    {
      t := None;
      if groups[h].tasks != [] {
        t := Some(groups[h].tasks[0]);
        groups := groups[h := groups[h].(tasks := groups[h].tasks[1..])];
      }
    }
  }
}

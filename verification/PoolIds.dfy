/** Thread groups are told apart by their ids, and a generator gets to the group that it is meant for. */
module PoolIds {
  import opened TokenStates
  import opened ThreadPools

  /** Groups that are not private have different ids, all of which have been given out, and the list is that of the groups. */
  ghost predicate Identified(p: Pool) {
    && 0 in p.groups && p.groups[0].id == DEFAULT && p.nextId >= MINIMUM
    && (forall h | h in p.groups :: h < p.objects && 0 <= p.groups[h].id < p.nextId)
    && (forall h :: h in p.order <==> h in p.groups)
    && forall h, k | h in p.groups && k in p.groups && h != k && p.groups[h].id != PRIVATE :: p.groups[h].id != p.groups[k].id
  }

  /** An id that is asked for is not in use. */
  ghost predicate Unused(p: Pool, s: Step) {
    s.Create? && s.id > 0 ==> forall h | h in p.groups :: p.groups[h].id != s.id
  }

  ghost predicate SameGroup(a: Group, b: Group) {
    a.id == b.id && a.name == b.name
  }

  /** The same groups with the same ids and names, and nothing else has changed about them. */
  ghost predicate SameGroups(p: Pool, q: Pool) {
    && q.groups.Keys == p.groups.Keys && q.order == p.order && q.objects == p.objects && q.nextId == p.nextId
    && forall h | h in p.groups :: SameGroup(q.groups[h], p.groups[h])
  }

  lemma SameIdentified(p: Pool, q: Pool)
    requires Identified(p) && SameGroups(p, q)
    ensures Identified(q)
  {
    forall h, k | h in q.groups && k in q.groups && h != k && q.groups[h].id != PRIVATE ensures q.groups[h].id != q.groups[k].id {
      assert SameGroup(q.groups[h], p.groups[h]) && SameGroup(q.groups[k], p.groups[k]);
    }
    forall h | h in q.groups ensures h < q.objects && 0 <= q.groups[h].id < q.nextId {
      assert SameGroup(q.groups[h], p.groups[h]);
    }
  }

  lemma MovedSame(p: Pool, g: nat, h: nat, extra: seq<Task>)
    requires h in p.groups
    ensures SameGroups(p, Moved(p, g, h, extra)) && Moved(p, g, h, extra).assignment == p.assignment[g := h]
  {
  }

  lemma WithoutHasOne(s: seq<nat>, g: nat, x: nat)
    ensures x in Without(s, g) <==> x in s && x != g
  {
    WithoutHas(s, g);
  }

  lemma DroppedIdentified(p: Pool, h: nat)
    requires Identified(p) && h != 0
    ensures Identified(Dropped(p, h))
    ensures forall k | k in Dropped(p, h).groups :: k in p.groups && Dropped(p, h).groups[k] == p.groups[k]
    ensures forall k | k in p.groups && k != h :: k in Dropped(p, h).groups
    ensures h in Dropped(p, h).groups <==> h in p.groups && p.groups[h].generators != []
  {
    forall k ensures k in Dropped(p, h).order <==> k in Dropped(p, h).groups {
      WithoutHasOne(p.order, h, k);
    }
  }

  /** Nothing but the group of g has changed, and perhaps groups without generators have been removed. */
  ghost predicate Lands(p: Pool, q: Pool, g: nat, h: nat) {
    && h in q.groups && q.assignment == p.assignment[g := h]
    && forall k | k in q.groups && k in p.groups :: SameGroup(q.groups[k], p.groups[k])
  }

  /** After assigning to a group, the generator is in a group with its id, and unless that is private, in this very group. */
  lemma AssignedLands(p: Pool, g: nat, h: nat, extra: seq<Task>)
    requires Sound(p) && Identified(p) && h in p.groups
    ensures var q := Assigned(p, g, h, extra);
            && Identified(q) && q.nextId == p.nextId && q.objects == p.objects
            && (p.groups[h].id != PRIVATE || !InGroup(p, g, PRIVATE) ==> Lands(p, q, g, h))
            && (p.groups[h].id == PRIVATE && InGroup(p, g, PRIVATE) ==> q == p)
  {
    if InGroup(p, g, p.groups[h].id) {
      assert p.groups[h].id != PRIVATE ==> p.assignment[g] == h;
      assert p.groups[h].id != PRIVATE ==> p.assignment[g := h] == p.assignment;
    } else {
      var q := Moved(p, g, h, extra);
      MovedSame(p, g, h, extra);
      SameIdentified(p, q);
      if InGroup(p, g, PRIVATE) {
        DroppedIdentified(q, p.assignment[g]);
      }
    }
  }

  lemma GrownIdentified(p: Pool, id: int, name: string, next: int)
    requires Identified(p) && p.nextId <= next && 0 <= id < next && (id == PRIVATE || forall h | h in p.groups :: p.groups[h].id != id)
    ensures Identified(Grown(p, id, name).(nextId := next))
  {
    var q := Grown(p, id, name).(nextId := next);
    assert q.order[|p.order|] == p.objects;
  }

  /** A new group has the id that is asked for, or one that no group has, and all others are as before. */
  lemma CreatedIs(p: Pool, name: string, id: int)
    requires Sound(p) && Identified(p) && Unused(p, Create(name, id))
    ensures var q := Created(p, name, id);
            && Identified(q) && q.groups.Keys == p.groups.Keys + {p.objects} && q.order == p.order + [p.objects]
            && q.groups[p.objects].name == name && q.groups[p.objects].generators == []
            && (forall h | h in p.groups :: q.groups[h] == p.groups[h] && q.groups[h].id != q.groups[p.objects].id)
            && (id > 0 ==> q.groups[p.objects].id == id) && (id <= 0 ==> q.groups[p.objects].id >= MINIMUM)
            && q.assignment == p.assignment && q.runners == p.runners
  {
    var given := if id > 0 then id else p.nextId;
    var next := if id > 0 then if p.nextId > id + 1 then p.nextId else id + 1 else p.nextId + 1;
    GrownIdentified(p, given, name, next);
    assert Created(p, name, id) == Grown(p, given, name).(nextId := next);
  }

  lemma {:induction false} WithIdSome(p: Pool, id: int, n: nat, k: nat)
    requires k < n <= |p.order| && p.order[k] in p.groups && p.groups[p.order[k]].id == id
    ensures WithId(p, id, n).Some?
  {
    if k < n - 1 {
      WithIdSome(p, id, n - 1, k);
    }
  }

  /** The search finds exactly the group with the id. */
  lemma FoundById(p: Pool, h: nat)
    requires Identified(p) && h in p.groups && p.groups[h].id != PRIVATE
    ensures WithId(p, p.groups[h].id, |p.order|) == Some(h)
  {
    var k :| 0 <= k < |p.order| && p.order[k] == h;
    WithIdSome(p, p.groups[h].id, |p.order|, k);
  }

  lemma {:induction false} WithNameSome(p: Pool, name: string, n: nat, k: nat)
    requires k < n <= |p.order| && p.order[k] in p.groups && p.groups[p.order[k]].name == name
    ensures WithName(p, name, n).Some?
  {
    if k < n - 1 {
      WithNameSome(p, name, n - 1, k);
    }
  }

  /** The first group of the list that has the name. */
  ghost predicate FirstNamed(p: Pool, name: string, h: nat) {
    && h in p.groups && p.groups[h].name == name
    && exists k :: 0 <= k < |p.order| && p.order[k] == h && NotBefore(p, name, k)
  }

  ghost predicate NotBefore(p: Pool, name: string, k: nat)
    requires k <= |p.order|
  {
    forall j | 0 <= j < k && p.order[j] in p.groups :: p.groups[p.order[j]].name != name
  }

  lemma {:induction false} FoundFirst(p: Pool, name: string, n: nat)
    requires n <= |p.order|
    ensures WithName(p, name, n).Some? ==> FirstNamed(p, name, WithName(p, name, n).value)
    ensures WithName(p, name, n).None? ==> NotBefore(p, name, n)
  {
    if n > 0 {
      FoundFirst(p, name, n - 1);
    }
  }

  /** Whatever the ids are, the search finds the first group of the list with the id. */
  lemma {:induction false} FoundFirstId(p: Pool, id: int, n: nat) returns (k: nat)
    requires n <= |p.order|
    ensures k <= n && IdNotBefore(p, id, k)
    ensures if k < n then WithId(p, id, n) == Some(p.order[k]) else WithId(p, id, n) == None
  {
    if n == 0 {
      k := 0;
    } else {
      k := FoundFirstId(p, id, n - 1);
      if k == n - 1 && WithId(p, id, n).None? {
        k := n;
      }
    }
  }

  ghost predicate IdNotBefore(p: Pool, id: int, k: nat)
    requires k <= |p.order|
  {
    forall j | 0 <= j < k && p.order[j] in p.groups :: p.groups[p.order[j]].id != id
  }

  // ---------------------------------------------------------------- where a generator lands

  /** Asking for a private thread. */
  lemma PrivateLands(p: Pool, g: nat, name: string, extra: seq<Task>)
    requires Sound(p) && Identified(p)
    ensures var q := UsedPrivately(p, g, name, extra);
            && Identified(q) && InGroup(q, g, PRIVATE)
            && (InGroup(p, g, PRIVATE) ==> q == p)
            && (!InGroup(p, g, PRIVATE) ==>
                  Lands(p, q, g, p.objects) && p.objects !in p.groups && q.groups[p.objects].name == name && q.groups[p.objects].id == PRIVATE)
  {
    if !InGroup(p, g, PRIVATE) {
      var grown := Grown(p, PRIVATE, name);
      GrownIdentified(p, PRIVATE, name, p.nextId);
      assert grown.(nextId := p.nextId) == grown;
      GrownSound(p, PRIVATE, name);
      AssignedLands(grown, g, p.objects, extra);
    }
  }

  /** Asking for the group with an id: a private one, or the default one, or exactly the one with that id, if there is one. */
  lemma AddedLands(p: Pool, g: nat, id: int, name: string, extra: seq<Task>)
    requires Sound(p) && Identified(p)
    ensures var q := AddedToGroup(p, g, id, name, extra);
            && Identified(q)
            && (id == PRIVATE || (exists h :: h in p.groups && p.groups[h].id == id) ==> InGroup(q, g, id))
            && (id != PRIVATE ==> forall h | h in p.groups && p.groups[h].id == id :: Lands(p, q, g, h))
            && (id != PRIVATE && (forall h | h in p.groups :: p.groups[h].id != id) ==> q == p)
  {
    var q := AddedToGroup(p, g, id, name, extra);
    if id == PRIVATE {
      PrivateLands(p, g, name, extra);
    } else if h :| h in p.groups && p.groups[h].id == id {
      FoundById(p, h);
      assert id == DEFAULT ==> h == 0;
      AssignedLands(p, g, h, extra);
      assert Lands(p, q, g, h) && SameGroup(q.groups[h], p.groups[h]);
      forall k | k in p.groups && p.groups[k].id == id ensures k == h {
      }
    }
  }

  /** Adding a generator: a private thread with threading and without grouping, the default group otherwise. */
  lemma AddLands(p: Pool, g: nat, threading: bool, grouping: bool, name: string, extra: seq<Task>)
    requires Sound(p) && Identified(p)
    ensures var q := Next(p, Add(g, threading, grouping, name, extra));
            && Identified(q)
            && InGroup(q, g, if threading && !grouping then PRIVATE else DEFAULT)
            && (!(threading && !grouping) ==> Lands(p, q, g, 0))
  {
    AddedLands(p, g, if threading && !grouping then PRIVATE else DEFAULT, name, extra);
  }

  lemma UnknownName(p: Pool, name: string)
    requires Identified(p) && WithName(p, name, |p.order|).None?
    ensures forall h | h in p.groups :: p.groups[h].name != name
  {
    forall h | h in p.groups ensures p.groups[h].name != name {
      var k :| 0 <= k < |p.order| && p.order[k] == h;
      if p.groups[h].name == name {
        WithNameSome(p, name, |p.order|, k);
      }
    }
  }

  /** Asking for the group with a name: the first one that has it, unless the generator has a private thread and so has that
      group; if there is none, a new group with an id of its own. */
  lemma CreatedForLands(p: Pool, g: nat, name: string, extra: seq<Task>) returns (h: nat)
    requires Sound(p) && Identified(p)
    ensures Identified(CreatedFor(p, g, name, extra))
    ensures (exists k :: k in p.groups && p.groups[k].name == name) ==> FirstNamed(p, name, h)
    ensures FirstNamed(p, name, h) ==>
              if p.groups[h].id == PRIVATE && InGroup(p, g, PRIVATE) then CreatedFor(p, g, name, extra) == p
              else Lands(p, CreatedFor(p, g, name, extra), g, h)
    ensures (forall k | k in p.groups :: p.groups[k].name != name) ==>
              var q := CreatedFor(p, g, name, extra);
              && h !in p.groups && Lands(p, q, g, h) && q.groups[h].name == name && q.groups[h].id >= MINIMUM
              && forall k | k in p.groups :: p.groups[k].id != q.groups[h].id
  {
    var found := WithName(p, name, |p.order|);
    if found.Some? {
      h := found.value;
      FoundFirst(p, name, |p.order|);
      AssignedLands(p, g, h, extra);
    } else {
      h := p.objects;
      UnknownName(p, name);
      CreatedIs(p, name, 0);
      CreatedSound(p, name, 0);
      AssignedLands(Created(p, name, 0), g, h, extra);
      LandsAfter(p, Created(p, name, 0), CreatedFor(p, g, name, extra), g, h);
    }
  }

  lemma LandsAfter(p: Pool, q: Pool, r: Pool, g: nat, h: nat)
    requires Lands(q, r, g, h) && q.assignment == p.assignment && h in q.groups
    requires forall k | k in p.groups :: k in q.groups && q.groups[k] == p.groups[k]
    ensures Lands(p, r, g, h) && SameGroup(r.groups[h], q.groups[h])
  {
    forall k | k in r.groups && k in p.groups ensures SameGroup(r.groups[k], p.groups[k]) {
      assert SameGroup(r.groups[k], q.groups[k]);
    }
  }

  /** A removed generator is in no group. */
  lemma RemovedIs(p: Pool, g: nat)
    requires Sound(p) && Identified(p)
    ensures var q := Removed(p, g);
            Identified(q) && SameGroups(p, q) && q.assignment == p.assignment - {g} && forall h | h in q.groups :: g !in q.groups[h].generators
  {
    var q := Removed(p, g);
    DetachedIs(p, g);
    forall h | h in p.groups ensures SameGroup(q.groups[h], p.groups[h]) && g !in q.groups[h].generators {
      DetachedGroup(p, g, h);
    }
    SameIdentified(p, q);
  }

  /** Removing a group by its id removes exactly that one, if it has no generators. */
  lemma GroupRemovedIs(p: Pool, id: int)
    requires Sound(p) && Identified(p) && id != DEFAULT
    ensures var q := GroupRemoved(p, id);
            && Identified(q) && q.assignment == p.assignment && q.runners == p.runners
            && (forall h | h in p.groups && p.groups[h].id == id && id != PRIVATE ::
                  h in q.groups <==> p.groups[h].generators != [])
            && (forall h | h in p.groups && p.groups[h].id != id :: h in q.groups)
            && forall h | h in q.groups :: h in p.groups && q.groups[h] == p.groups[h]
  {
    var found := WithId(p, id, |p.order|);
    if found.Some? {
      DroppedIdentified(p, found.value);
    }
    forall h | h in p.groups && p.groups[h].id == id && id != PRIVATE ensures found == Some(h) {
      FoundById(p, h);
    }
  }

  lemma ScheduledIdentified(p: Pool, t: Task)
    requires Identified(p)
    ensures Identified(Scheduled(p, t)) && SameGroups(p, Scheduled(p, t)) && Scheduled(p, t).assignment == p.assignment
  {
    SameIdentified(p, Scheduled(p, t));
  }

  lemma ExecutedIdentified(p: Pool, h: nat)
    requires Identified(p)
    ensures Identified(Executed(p, h)) && SameGroups(p, Executed(p, h)) && Executed(p, h).assignment == p.assignment
  {
    SameIdentified(p, Executed(p, h));
  }

  lemma StepIdentified(p: Pool, s: Step)
    requires Sound(p) && Identified(p) && Fair(p, s) && Unused(p, s)
    ensures Identified(Next(p, s))
  {
    match s
    case Add(g, threading, grouping, name, extra) => AddLands(p, g, threading, grouping, name, extra);
    case AddToGroup(g, id, name, extra) => AddedLands(p, g, id, name, extra);
    case CreateFor(g, name, extra) => var h := CreatedForLands(p, g, name, extra);
    case Create(name, id) => CreatedIs(p, name, id);
    case RemoveGroup(id) => GroupRemovedIs(p, id);
    case Remove(g) => RemovedIs(p, g);
    case Schedule(t) => ScheduledIdentified(p, t);
    case Execute(h) => ExecutedIdentified(p, h);
  }

  ghost predicate UnusedRun(steps: seq<Step>, n: nat)
    requires n <= |steps|
  {
    n == 0 || (UnusedRun(steps, n - 1) && Unused(After(steps, n - 1), steps[n - 1]))
  }

  /** In every fair run in which no id is asked for that is in use: any two groups that are not private have different ids,
      below the next one, and searching for an id finds the one group that has it. */
  lemma {:induction false} IdsDiffer(steps: seq<Step>, n: nat)
    requires n <= |steps| && FairRun(steps, n) && UnusedRun(steps, n)
    ensures var p := After(steps, n);
            && Identified(p)
            && (forall h, k | h in p.groups && k in p.groups && h != k && p.groups[h].id >= MINIMUM :: p.groups[h].id != p.groups[k].id)
            && forall h | h in p.groups && p.groups[h].id != PRIVATE :: WithId(p, p.groups[h].id, |p.order|) == Some(h)
  {
    RunIdentified(steps, n);
    var p := After(steps, n);
    forall h | h in p.groups && p.groups[h].id != PRIVATE ensures WithId(p, p.groups[h].id, |p.order|) == Some(h) {
      FoundById(p, h);
    }
  }

  lemma StartIdentified()
    ensures Identified(Start())
  {
    assert 0 in Start().order;
  }

  ghost predicate IdentifiedAfter(steps: seq<Step>, n: nat)
    requires n <= |steps|
  {
    Identified(After(steps, n))
  }

  lemma RunStep(steps: seq<Step>, n: nat)
    requires n < |steps| && Sound(After(steps, n)) && IdentifiedAfter(steps, n)
    requires Fair(After(steps, n), steps[n]) && Unused(After(steps, n), steps[n])
    ensures IdentifiedAfter(steps, n + 1)
  {
    StepIdentified(After(steps, n), steps[n]);
  }

  lemma {:induction false} RunIdentified(steps: seq<Step>, n: nat)
    requires n <= |steps| && FairRun(steps, n) && UnusedRun(steps, n)
    ensures IdentifiedAfter(steps, n)
  {
    if n == 0 {
      StartIdentified();
    } else {
      Partition(steps, n - 1);
      RunIdentified(steps, n - 1);
      RunStep(steps, n - 1);
    }
  }
}

/** Ungrouping: the nodes of a subgraph move into the graph around it, and every connection through a relay becomes
    direct.  The edges inside already carry the names that the nodes get. */
module Ungrouping {
  import opened TokenStates
  import opened Graphs

  // ---------------------------------------------------------------- what is outside of a relay

  /** Where the first n edges outside come from that end at relay r. */
  function Sources(outer: seq<Edge>, n: nat, r: nat): seq<End>
    requires n <= |outer|
  {
    if n == 0 then []
    else if outer[n - 1].to == Relay(r) then Sources(outer, n - 1, r) + [outer[n - 1].from]
    else Sources(outer, n - 1, r)
  }

  /** Where the first n edges outside lead to that start at relay r. */
  function Targets(outer: seq<Edge>, n: nat, r: nat): seq<End>
    requires n <= |outer|
  {
    if n == 0 then []
    else if outer[n - 1].from == Relay(r) then Targets(outer, n - 1, r) + [outer[n - 1].to]
    else Targets(outer, n - 1, r)
  }

  /** The edges inside between a port of the given kind and a relay. */
  predicate Crosses(i: Edge, kind: Kind) {
    (i.from.Relay? && i.to.At? && i.to.port.kind == kind) || (i.from.At? && i.to.Relay? && i.from.port.kind == kind)
  }

  /** What is on the other side of the relay of such an edge. */
  function Beyond(i: Edge, outer: seq<Edge>): seq<End> {
    if i.from.Relay? then Sources(outer, |outer|, i.from.index)
    else if i.to.Relay? then Targets(outer, |outer|, i.to.index)
    else []
  }

  /** The connection between the port of the edge i and an end beyond its relay. */
  function Connect(i: Edge, e: End): Link
    requires e.At? && (i.from.At? != i.to.At?)
  {
    if i.from.Relay? then Link(e.port, i.to.port, i.active) else Link(i.from.port, e.port, i.active)
  }

  predicate AllPorts(es: seq<End>) {
    forall k | 0 <= k < |es| :: es[k].At?
  }

  function ConnectAll(i: Edge, es: seq<End>): (ls: seq<Link>)
    requires AllPorts(es) && (i.from.At? != i.to.At?)
    ensures |ls| == |es| && forall k {:trigger ls[k]} | 0 <= k < |es| :: ls[k] == Connect(i, es[k])
  {
    seq(|es|, k requires 0 <= k < |es| => Connect(i, es[k]))
  }

  /** Ungrouping fails at an edge to a message input whose relay has no source, and at an edge whose relay leads back
      to the subgraph itself, which is deleted. */
  predicate Fails(i: Edge, outer: seq<Edge>) {
    || (i.from.Relay? && i.to.At? && i.to.port.kind == Input && Beyond(i, outer) == [])
    || !AllPorts(Beyond(i, outer))
  }

  /** The connections that the first n edges inside of a kind become. */
  function Opened(inner: seq<Edge>, n: nat, kind: Kind, outer: seq<Edge>): seq<Link>
    requires n <= |inner|
  {
    if n == 0 then []
    else if Crosses(inner[n - 1], kind) && AllPorts(Beyond(inner[n - 1], outer)) then
      Opened(inner, n - 1, kind, outer) + ConnectAll(inner[n - 1], Beyond(inner[n - 1], outer))
    else Opened(inner, n - 1, kind, outer)
  }

  /** The first n edges that connect nodes directly. */
  function Straight(es: seq<Edge>, n: nat): seq<Link>
    requires n <= |es|
  {
    if n == 0 then []
    else if IsDirect(es[n - 1]) then Straight(es, n - 1) + [LinkOf(es[n - 1])]
    else Straight(es, n - 1)
  }

  /** A message input of the subgraph has at most one connection. */
  ghost predicate SingleInputs(inner: seq<Edge>, outer: seq<Edge>) {
    forall i | i in inner :: i.from.Relay? && Crosses(i, Input) ==> |Beyond(i, outer)| <= 1
  }

  ghost predicate FailsAt(inner: seq<Edge>, k: int, kind: Kind, outer: seq<Edge>) {
    0 <= k < |inner| && Crosses(inner[k], kind) && Fails(inner[k], outer)
  }

  /** Some connection through a relay cannot be made. */
  ghost predicate Blocked(outer: seq<Edge>, inner: seq<Edge>) {
    exists k, kind: Kind :: FailsAt(inner, k, kind, outer)
  }

  function Unmapped(outer: seq<Edge>, inner: seq<Edge>): seq<Link> {
    Straight(outer, |outer|) + Straight(inner, |inner|)
    + Opened(inner, |inner|, Input, outer) + Opened(inner, |inner|, Output, outer)
    + Opened(inner, |inner|, Slot, outer) + Opened(inner, |inner|, Event, outer)
  }

  // ---------------------------------------------------------------- what the command does

  method CollectStraight(es: seq<Edge>) returns (ls: seq<Link>)
    ensures ls == Straight(es, |es|)
  {
    ls := [];
    for k := 0 to |es|
      invariant ls == Straight(es, k)
    {
      if es[k].from.At? && es[k].to.At? {
        ls := ls + [Link(es[k].from.port, es[k].to.port, es[k].active)];
      }
    }
  }

  function Lookup(m: map<nat, seq<End>>, r: nat): seq<End> {
    if r in m then m[r] else []
  }

  /** `sources` are the old connections into the relays. */
  ghost predicate OldSources(sources: map<nat, seq<End>>, outer: seq<Edge>, n: nat)
    requires n <= |outer|
  {
    forall r: nat :: Lookup(sources, r) == Sources(outer, n, r)
  }

  ghost predicate OldTargets(targets: map<nat, seq<End>>, outer: seq<Edge>, n: nat)
    requires n <= |outer|
  {
    forall r: nat :: Lookup(targets, r) == Targets(outer, n, r)
  }

  /** Remembers the connections of the subgraph before it is deleted. */
  method CollectSources(outer: seq<Edge>) returns (sources: map<nat, seq<End>>)
    ensures OldSources(sources, outer, |outer|)
  {
    sources := map[];
    for k := 0 to |outer|
      invariant OldSources(sources, outer, k)
    {
      var o := outer[k];
      ghost var before := sources;
      if o.to.Relay? {
        sources := sources[o.to.index := Lookup(sources, o.to.index) + [o.from]];
      }
      forall r: nat ensures Lookup(sources, r) == Sources(outer, k + 1, r) {
        assert Lookup(before, r) == Sources(outer, k, r);
      }
    }
  }

  method CollectTargets(outer: seq<Edge>) returns (targets: map<nat, seq<End>>)
    ensures OldTargets(targets, outer, |outer|)
  {
    targets := map[];
    for k := 0 to |outer|
      invariant OldTargets(targets, outer, k)
    {
      var o := outer[k];
      ghost var before := targets;
      if o.from.Relay? {
        targets := targets[o.from.index := Lookup(targets, o.from.index) + [o.to]];
      }
      forall r: nat ensures Lookup(targets, r) == Targets(outer, k + 1, r) {
        assert Lookup(before, r) == Targets(outer, k, r);
      }
    }
  }

  method AddConnections(i: Edge, es: seq<End>) returns (ls: Option<seq<Link>>)
    requires i.from.At? != i.to.At?
    ensures ls.Some? == AllPorts(es)
    ensures ls.Some? ==> ls.value == ConnectAll(i, es)
  {
    var found := [];
    for k := 0 to |es|
      invariant AllPorts(es[..k]) && |found| == k
      invariant forall j {:trigger found[j]} | 0 <= j < k :: found[j] == Connect(i, es[j])
    {
      if es[k].Relay? {
        return None;
      }
      found := found + [Connect(i, es[k])];
    }
    assert es[..|es|] == es;
    assert found == ConnectAll(i, es);
    return Some(found);
  }

  /** Makes the connections of one edge inside. */
  method Reconnect(i: Edge, kind: Kind, outer: seq<Edge>, sources: map<nat, seq<End>>, targets: map<nat, seq<End>>)
      returns (ls: Option<seq<Link>>)
    requires OldSources(sources, outer, |outer|) && OldTargets(targets, outer, |outer|)
    requires Crosses(i, kind) && (kind == Input && i.from.Relay? ==> |Beyond(i, outer)| <= 1)
    ensures ls.None? == Fails(i, outer)
    ensures ls.Some? ==> ls.value == ConnectAll(i, Beyond(i, outer))
  {
    var old' := if i.from.Relay? then Lookup(sources, i.from.index) else Lookup(targets, i.to.index);
    if kind == Input && i.from.Relay? {
      if old' == [] {
        return None;
      }
      assert old' == [old'[0]];
      old' := [old'[0]];
    }
    ls := AddConnections(i, old');
  }

  /** Makes the connections of the edges inside of a kind, unless one of them fails. */
  method Unmap(inner: seq<Edge>, kind: Kind, outer: seq<Edge>, sources: map<nat, seq<End>>, targets: map<nat, seq<End>>)
      returns (ls: Option<seq<Link>>)
    requires OldSources(sources, outer, |outer|) && OldTargets(targets, outer, |outer|) && SingleInputs(inner, outer)
    ensures ls.None? == exists k :: FailsAt(inner, k, kind, outer)
    ensures ls.Some? ==> ls.value == Opened(inner, |inner|, kind, outer)
  {
    var made := [];
    for k := 0 to |inner|
      invariant forall j | j < k :: !FailsAt(inner, j, kind, outer)
      invariant made == Opened(inner, k, kind, outer)
    {
      var i := inner[k];
      if Crosses(i, kind) {
        var more := Reconnect(i, kind, outer, sources, targets);
        if more.None? {
          assert FailsAt(inner, k, kind, outer);
          return None;
        }
        made := made + more.value;
      }
    }
    return Some(made);
  }

  /** The connections of the graph after the subgraph has been deleted, its nodes pasted and their connections
      made, or nothing if one of them cannot be made. */
  method UngroupNodes(outer: seq<Edge>, inner: seq<Edge>) returns (ls: Option<seq<Link>>)
    requires SingleInputs(inner, outer)
    ensures ls.None? <==> Blocked(outer, inner)
    ensures ls.Some? ==> ls.value == Unmapped(outer, inner)
  {
    var sources := CollectSources(outer);
    var targets := CollectTargets(outer);
    var kept := CollectStraight(outer);
    var pasted := CollectStraight(inner);
    var connectionsIn := Unmap(inner, Input, outer, sources, targets);
    if connectionsIn.None? {
      return None;
    }
    var connectionsOut := Unmap(inner, Output, outer, sources, targets);
    if connectionsOut.None? {
      return None;
    }
    var signalsIn := Unmap(inner, Slot, outer, sources, targets);
    if signalsIn.None? {
      return None;
    }
    var signalsOut := Unmap(inner, Event, outer, sources, targets);
    if signalsOut.None? {
      return None;
    }
    return Some(kept + pasted + connectionsIn.value + connectionsOut.value + signalsIn.value + signalsOut.value);
  }

  // ---------------------------------------------------------------- it is the contraction

  /** In how many ways the edge i meets one of the first n edges outside to be the connection x. */
  function JoinsBack(i: Edge, outer: seq<Edge>, n: nat, x: Link): nat
    requires n <= |outer|
  {
    if n == 0 then 0 else JoinsBack(i, outer, n - 1, x) + One(Join(outer[n - 1], i, false, x))
  }

  function ThroughBack(inner: seq<Edge>, n: nat, outer: seq<Edge>, x: Link): nat
    requires n <= |inner|
  {
    if n == 0 then 0 else ThroughBack(inner, n - 1, outer, x) + JoinsBack(inner[n - 1], outer, |outer|, x)
  }

  function ThroughKind(inner: seq<Edge>, n: nat, kind: Kind, outer: seq<Edge>, x: Link): nat
    requires n <= |inner|
  {
    if n == 0 then 0
    else if Crosses(inner[n - 1], kind) then ThroughKind(inner, n - 1, kind, outer, x) + JoinsBack(inner[n - 1], outer, |outer|, x)
    else ThroughKind(inner, n - 1, kind, outer, x)
  }

  lemma ConnectMore(i: Edge, es: seq<End>, e: End, x: Link)
    requires AllPorts(es) && e.At? && (i.from.At? != i.to.At?)
    ensures AllPorts(es + [e])
    ensures multiset(ConnectAll(i, es + [e]))[x] == multiset(ConnectAll(i, es))[x] + One(Connect(i, e) == x)
  {
    assert ConnectAll(i, es + [e]) == ConnectAll(i, es) + [Connect(i, e)];
  }

  lemma {:induction false} ConnectSources(i: Edge, outer: seq<Edge>, n: nat, x: Link)
    requires n <= |outer| && i.from.Relay? && i.to.At? && AllPorts(Sources(outer, n, i.from.index))
    ensures multiset(ConnectAll(i, Sources(outer, n, i.from.index)))[x] == JoinsBack(i, outer, n, x)
  {
    if n > 0 {
      var before, o := Sources(outer, n - 1, i.from.index), outer[n - 1];
      if o.to == i.from {
        assert Sources(outer, n, i.from.index)[|before|] == o.from;
        assert forall k | 0 <= k < |before| :: before[k] == Sources(outer, n, i.from.index)[k];
        ConnectSources(i, outer, n - 1, x);
        ConnectMore(i, before, o.from, x);
      } else {
        ConnectSources(i, outer, n - 1, x);
      }
    }
  }

  lemma {:induction false} ConnectTargets(i: Edge, outer: seq<Edge>, n: nat, x: Link)
    requires n <= |outer| && i.from.At? && i.to.Relay? && AllPorts(Targets(outer, n, i.to.index))
    ensures multiset(ConnectAll(i, Targets(outer, n, i.to.index)))[x] == JoinsBack(i, outer, n, x)
  {
    if n > 0 {
      var before, o := Targets(outer, n - 1, i.to.index), outer[n - 1];
      if o.from == i.to {
        assert Targets(outer, n, i.to.index)[|before|] == o.to;
        assert forall k | 0 <= k < |before| :: before[k] == Targets(outer, n, i.to.index)[k];
        ConnectTargets(i, outer, n - 1, x);
        ConnectMore(i, before, o.to, x);
      } else {
        ConnectTargets(i, outer, n - 1, x);
      }
    }
  }

  lemma {:induction false} OpenedCount(inner: seq<Edge>, n: nat, kind: Kind, outer: seq<Edge>, x: Link)
    requires n <= |inner| && forall k :: !FailsAt(inner, k, kind, outer)
    ensures multiset(Opened(inner, n, kind, outer))[x] == ThroughKind(inner, n, kind, outer, x)
  {
    if n > 0 {
      OpenedCount(inner, n - 1, kind, outer, x);
      var i := inner[n - 1];
      assert !FailsAt(inner, n - 1, kind, outer);
      if Crosses(i, kind) {
        if i.from.Relay? {
          ConnectSources(i, outer, |outer|, x);
        } else {
          ConnectTargets(i, outer, |outer|, x);
        }
      }
    }
  }

  lemma {:induction false} NoJoinBack(i: Edge, outer: seq<Edge>, n: nat, x: Link)
    requires n <= |outer| && i.from.At? == i.to.At?
    ensures JoinsBack(i, outer, n, x) == 0
  {
    if n > 0 {
      NoJoinBack(i, outer, n - 1, x);
    }
  }

  /** An edge that does not cross makes no connection, and one that crosses is of one kind. */
  lemma {:induction false} AllKinds(inner: seq<Edge>, n: nat, outer: seq<Edge>, x: Link)
    requires n <= |inner|
    ensures ThroughKind(inner, n, Input, outer, x) + ThroughKind(inner, n, Output, outer, x)
            + ThroughKind(inner, n, Slot, outer, x) + ThroughKind(inner, n, Event, outer, x) == ThroughBack(inner, n, outer, x)
  {
    if n > 0 {
      AllKinds(inner, n - 1, outer, x);
      var i := inner[n - 1];
      if i.from.At? == i.to.At? {
        NoJoinBack(i, outer, |outer|, x);
      }
    }
  }

  /** The sum over the edges outside and then inside, for the first n and m of them. */
  function Pairs(outer: seq<Edge>, n: nat, inner: seq<Edge>, m: nat, x: Link): nat
    requires n <= |outer| && m <= |inner|
  {
    if n == 0 then 0 else Pairs(outer, n - 1, inner, m, x) + Joins(outer[n - 1], inner, m, false, x)
  }

  lemma {:induction false} PairsStep(outer: seq<Edge>, n: nat, inner: seq<Edge>, m: nat, x: Link)
    requires n <= |outer| && m < |inner|
    ensures Pairs(outer, n, inner, m + 1, x) == Pairs(outer, n, inner, m, x) + JoinsBack(inner[m], outer, n, x)
  {
    if n > 0 {
      PairsStep(outer, n - 1, inner, m, x);
    }
  }

  lemma {:induction false} PairsBack(outer: seq<Edge>, inner: seq<Edge>, m: nat, x: Link)
    requires m <= |inner|
    ensures Pairs(outer, |outer|, inner, m, x) == ThroughBack(inner, m, outer, x)
  {
    if m > 0 {
      PairsBack(outer, inner, m - 1, x);
      PairsStep(outer, |outer|, inner, m - 1, x);
    } else {
      NoPairs(outer, |outer|, inner, x);
    }
  }

  lemma {:induction false} NoPairs(outer: seq<Edge>, n: nat, inner: seq<Edge>, x: Link)
    requires n <= |outer|
    ensures Pairs(outer, n, inner, 0, x) == 0
  {
    if n > 0 {
      NoPairs(outer, n - 1, inner, x);
    }
  }

  lemma {:induction false} PairsThrough(outer: seq<Edge>, n: nat, inner: seq<Edge>, x: Link)
    requires n <= |outer|
    ensures Pairs(outer, n, inner, |inner|, x) == Through(outer, n, inner, false, x)
  {
    if n > 0 {
      PairsThrough(outer, n - 1, inner, x);
    }
  }

  lemma {:induction false} StraightCount(es: seq<Edge>, n: nat, x: Link)
    requires n <= |es|
    ensures multiset(Straight(es, n))[x] == Direct(es, n, x)
  {
    if n > 0 {
      StraightCount(es, n - 1, x);
    }
  }

  /** Unless it fails, ungrouping yields exactly the connections that the two levels stand for; those through a relay
      take the flag of the edge inside. */
  lemma UngroupingFlattens(outer: seq<Edge>, inner: seq<Edge>, x: Link)
    requires !Blocked(outer, inner)
    ensures multiset(Unmapped(outer, inner))[x] == Flatten(outer, inner, false, x)
  {
    StraightCount(outer, |outer|, x);
    StraightCount(inner, |inner|, x);
    OpenedCount(inner, |inner|, Input, outer, x);
    OpenedCount(inner, |inner|, Output, outer, x);
    OpenedCount(inner, |inner|, Slot, outer, x);
    OpenedCount(inner, |inner|, Event, outer, x);
    AllKinds(inner, |inner|, outer, x);
    PairsBack(outer, inner, |inner|, x);
    PairsThrough(outer, |outer|, inner, x);
  }

  // ---------------------------------------------------------------- edges that only pass through

  predicate PassesOn(i: Edge) {
    i.from.Relay? && i.to.Relay?
  }

  /** How many of the first n edges outside lead from the port a to the end e. */
  function Arrivals(outer: seq<Edge>, n: nat, a: Port, e: End): nat
    requires n <= |outer|
  {
    if n == 0 then 0 else Arrivals(outer, n - 1, a, e) + One(outer[n - 1].from == At(a) && outer[n - 1].to == e)
  }

  function Departures(outer: seq<Edge>, n: nat, e: End, b: Port): nat
    requires n <= |outer|
  {
    if n == 0 then 0 else Departures(outer, n - 1, e, b) + One(outer[n - 1].from == e && outer[n - 1].to == At(b))
  }

  /** In how many ways an edge outside, one of the first n edges inside from relay to relay, and another edge outside make
      the connection x, with the flag of the edge inside. */
  function Passing(outer: seq<Edge>, inner: seq<Edge>, n: nat, x: Link): nat
    requires n <= |inner|
  {
    if n == 0 then 0
    else if PassesOn(inner[n - 1]) && inner[n - 1].active == x.active then
      Passing(outer, inner, n - 1, x)
      + Arrivals(outer, |outer|, x.from, inner[n - 1].from) * Departures(outer, |outer|, inner[n - 1].to, x.to)
    else Passing(outer, inner, n - 1, x)
  }

  /** The edge inside has edges outside from and to ports at both of its relays. */
  ghost predicate BothUsed(i: Edge, outer: seq<Edge>) {
    PassesOn(i) && (exists o :: o in outer && o.from.At? && o.to == i.from) && (exists o :: o in outer && o.from == i.to && o.to.At?)
  }

  lemma {:induction false} ArrivalsSome(outer: seq<Edge>, n: nat, a: Port, e: End)
    requires n <= |outer|
    ensures Arrivals(outer, n, a, e) > 0 <==> exists k :: 0 <= k < n && outer[k].from == At(a) && outer[k].to == e
  {
    if n > 0 {
      ArrivalsSome(outer, n - 1, a, e);
    }
  }

  lemma {:induction false} DeparturesSome(outer: seq<Edge>, n: nat, e: End, b: Port)
    requires n <= |outer|
    ensures Departures(outer, n, e, b) > 0 <==> exists k :: 0 <= k < n && outer[k].from == e && outer[k].to == At(b)
  {
    if n > 0 {
      DeparturesSome(outer, n - 1, e, b);
    }
  }

  lemma Positive(a: nat, b: nat)
    ensures a * b > 0 <==> a > 0 && b > 0
  {
  }

  lemma UsedAt(i: Edge, outer: seq<Edge>, x: Link)
    requires PassesOn(i) && Arrivals(outer, |outer|, x.from, i.from) > 0 && Departures(outer, |outer|, i.to, x.to) > 0
    ensures BothUsed(i, outer)
  {
    ArrivalsSome(outer, |outer|, x.from, i.from);
    DeparturesSome(outer, |outer|, i.to, x.to);
    var j :| 0 <= j < |outer| && outer[j].from == At(x.from) && outer[j].to == i.from;
    var k :| 0 <= k < |outer| && outer[k].from == i.to && outer[k].to == At(x.to);
    assert outer[j] in outer && outer[k] in outer;
  }

  lemma {:induction false} NothingPasses(outer: seq<Edge>, inner: seq<Edge>, n: nat, x: Link)
    requires n <= |inner| && forall k | 0 <= k < n :: !BothUsed(inner[k], outer)
    ensures Passing(outer, inner, n, x) == 0
  {
    if n > 0 {
      NothingPasses(outer, inner, n - 1, x);
      var i := inner[n - 1];
      if PassesOn(i) {
        Positive(Arrivals(outer, |outer|, x.from, i.from), Departures(outer, |outer|, i.to, x.to));
        if Arrivals(outer, |outer|, x.from, i.from) > 0 && Departures(outer, |outer|, i.to, x.to) > 0 {
          UsedAt(i, outer, x);
        }
      }
    }
  }

  lemma {:induction false} PassingAt(outer: seq<Edge>, inner: seq<Edge>, n: nat, k: nat, x: Link)
    requires k < n <= |inner| && PassesOn(inner[k]) && inner[k].active == x.active
    requires Arrivals(outer, |outer|, x.from, inner[k].from) > 0 && Departures(outer, |outer|, inner[k].to, x.to) > 0
    ensures Passing(outer, inner, n, x) > 0
  {
    if k < n - 1 {
      PassingAt(outer, inner, n - 1, k, x);
    } else {
      Positive(Arrivals(outer, |outer|, x.from, inner[k].from), Departures(outer, |outer|, inner[k].to, x.to));
    }
  }

  lemma SomethingPasses(outer: seq<Edge>, inner: seq<Edge>, k: nat) returns (x: Link)
    requires k < |inner| && BothUsed(inner[k], outer)
    ensures Passing(outer, inner, |inner|, x) > 0
  {
    var i := inner[k];
    var a :| a in outer && a.from.At? && a.to == i.from;
    var b :| b in outer && b.from == i.to && b.to.At?;
    x := Link(a.from.port, b.to.port, i.active);
    ArrivalsSome(outer, |outer|, x.from, i.from);
    DeparturesSome(outer, |outer|, i.to, x.to);
    PassingAt(outer, inner, |inner|, k, x);
  }

  /** Ungrouping also keeps what goes through the subgraph from relay to relay if and only if there is none: no edge inside
      between two relays is connected outside at both of them. */
  lemma PassingLostExactly(outer: seq<Edge>, inner: seq<Edge>)
    requires !Blocked(outer, inner)
    ensures (forall x :: multiset(Unmapped(outer, inner))[x] ==
                         Flatten(outer, inner, false, x) + Passing(outer, inner, |inner|, x))
            <==> forall k | 0 <= k < |inner| :: !BothUsed(inner[k], outer)
  {
    forall x ensures multiset(Unmapped(outer, inner))[x] == Flatten(outer, inner, false, x) {
      UngroupingFlattens(outer, inner, x);
    }
    if forall k | 0 <= k < |inner| :: !BothUsed(inner[k], outer) {
      forall x ensures Passing(outer, inner, |inner|, x) == 0 {
        NothingPasses(outer, inner, |inner|, x);
      }
    } else {
      var k :| 0 <= k < |inner| && BothUsed(inner[k], outer);
      var x := SomethingPasses(outer, inner, k);
      UngroupingFlattens(outer, inner, x);
    }
  }

  /** A way from port to port that changes between the levels at every relay; its first edge is outside or inside. */
  ghost predicate Way(outer: seq<Edge>, inner: seq<Edge>, outside: bool, es: seq<Edge>) {
    && es != [] && es[0].from.At? && es[|es| - 1].to.At?
    && (forall k | 0 <= k < |es| :: es[k] in if (k % 2 == 0) == outside then outer else inner)
    && forall k | 0 < k < |es| :: es[k].from.Relay? && es[k - 1].to == es[k].from
  }

  /** The edges between relays are inside. */
  lemma MiddleInside(outer: seq<Edge>, inner: seq<Edge>, outside: bool, es: seq<Edge>, k: nat)
    requires Way(outer, inner, outside, es) && 0 < k < |es| - 1 && forall o | o in outer :: !PassesOn(o)
    ensures PassesOn(es[k]) && es[k] in inner && outside == (k % 2 == 1)
  {
    assert es[k + 1].from.Relay?;
  }

  /** If no edge outside leads from the subgraph back to it, there are no ways but these: direct ones, those through one
      relay, and those that pass through. */
  lemma WaysAreShort(outer: seq<Edge>, inner: seq<Edge>, outside: bool, es: seq<Edge>)
    requires Way(outer, inner, outside, es) && forall o | o in outer :: !PassesOn(o)
    ensures |es| <= 3
    ensures |es| == 3 ==> outside && PassesOn(es[1]) && BothUsed(es[1], outer)
  {
    if |es| >= 3 {
      MiddleInside(outer, inner, outside, es, 1);
      assert outside ==> es[0] in outer && es[2] in outer;
      if |es| > 3 {
        MiddleInside(outer, inner, outside, es, 2);
      }
    }
  }
}

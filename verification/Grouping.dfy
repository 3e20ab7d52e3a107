/** Grouping: the selected nodes move into a new subgraph, and the connections that cross its border are led
    through relays. */
module Grouping {
  import opened Graphs

  // ---------------------------------------------------------------- which connections cross the border

  datatype Class = Inside | Outside | Entering(kind: Kind) | Leaving(kind: Kind)

  /** Where a connection lies, and if it crosses the border, the kind of the port inside. */
  function ClassOf(l: Link, chosen: set<nat>): Class {
    if l.to.node in chosen then if l.from.node in chosen then Inside else Entering(l.to.kind)
    else if l.from.node in chosen then Leaving(l.from.kind) else Outside
  }

  /** The port inside of a connection that crosses the border. */
  function Inner(l: Link, entering: bool): Port {
    if entering then l.to else l.from
  }

  predicate Picked(l: Link, chosen: set<nat>, c: Class, part: set<nat>) {
    ClassOf(l, chosen) == c && Inner(l, c.Entering?).node in part
  }

  /** The connections of a class whose inner node is in `part`. */
  function Pick(ls: seq<Link>, chosen: set<nat>, c: Class, part: set<nat>): seq<Link> {
    if ls == [] then []
    else
      var l, before := ls[|ls| - 1], Pick(ls[..|ls| - 1], chosen, c, part);
      if Picked(l, chosen, c, part) then before + [l] else before
  }

  function Lying(ls: seq<Link>, chosen: set<nat>, c: Class): seq<Link> {
    if ls == [] then []
    else
      var l, before := ls[|ls| - 1], Lying(ls[..|ls| - 1], chosen, c);
      if ClassOf(l, chosen) == c then before + [l] else before
  }

  lemma {:induction false} PickStep(ls: seq<Link>, chosen: set<nat>, c: Class, part: set<nat>, n: nat)
    requires n !in part
    ensures multiset(Pick(ls, chosen, c, part + {n})) == multiset(Pick(ls, chosen, c, part)) + multiset(Pick(ls, chosen, c, {n}))
  {
    if ls != [] {
      PickStep(ls[..|ls| - 1], chosen, c, part, n);
    }
  }

  lemma {:induction false} PickNone(ls: seq<Link>, chosen: set<nat>, c: Class)
    ensures Pick(ls, chosen, c, {}) == []
  {
    if ls != [] {
      PickNone(ls[..|ls| - 1], chosen, c);
    }
  }

  lemma {:induction false} PickAll(ls: seq<Link>, chosen: set<nat>, c: Class)
    requires c.Entering? || c.Leaving?
    ensures Pick(ls, chosen, c, chosen) == Lying(ls, chosen, c)
  {
    if ls != [] {
      PickAll(ls[..|ls| - 1], chosen, c);
    }
  }

  /** Inputs and slots receive, outputs and events send. */
  ghost predicate Proper(ls: seq<Link>) {
    forall l | l in ls :: l.to.kind in {Input, Slot} && l.from.kind in {Output, Event}
  }

  /** The connections that cross the border. */
  function Crossing(ls: seq<Link>, chosen: set<nat>): multiset<Link> {
    multiset(Lying(ls, chosen, Entering(Input))) + multiset(Lying(ls, chosen, Leaving(Output)))
    + multiset(Lying(ls, chosen, Entering(Slot))) + multiset(Lying(ls, chosen, Leaving(Event)))
  }

  lemma LyingMore(before: seq<Link>, l: Link, chosen: set<nat>, c: Class, x: Link)
    ensures multiset(Lying(before + [l], chosen, c))[x] ==
            multiset(Lying(before, chosen, c))[x] + One(ClassOf(l, chosen) == c && l == x)
  {
    assert (before + [l])[..|before|] == before;
  }

  lemma {:induction false} PartitionAt(ls: seq<Link>, chosen: set<nat>, x: Link)
    requires Proper(ls)
    ensures multiset(ls)[x] ==
            multiset(Lying(ls, chosen, Outside))[x] + multiset(Lying(ls, chosen, Inside))[x]
            + multiset(Lying(ls, chosen, Entering(Input)))[x] + multiset(Lying(ls, chosen, Leaving(Output)))[x]
            + multiset(Lying(ls, chosen, Entering(Slot)))[x] + multiset(Lying(ls, chosen, Leaving(Event)))[x]
  {
    if ls != [] {
      var l, before := ls[|ls| - 1], ls[..|ls| - 1];
      assert ls == before + [l] && l in ls;
      PartitionAt(before, chosen, x);
      LyingMore(before, l, chosen, Outside, x);
      LyingMore(before, l, chosen, Inside, x);
      LyingMore(before, l, chosen, Entering(Input), x);
      LyingMore(before, l, chosen, Leaving(Output), x);
      LyingMore(before, l, chosen, Entering(Slot), x);
      LyingMore(before, l, chosen, Leaving(Event), x);
    }
  }

  /** Every connection lies in exactly one of six classes. */
  lemma Partition(ls: seq<Link>, chosen: set<nat>)
    requires Proper(ls)
    ensures multiset(ls) ==
            multiset(Lying(ls, chosen, Outside)) + multiset(Lying(ls, chosen, Inside)) + Crossing(ls, chosen)
  {
    forall x ensures multiset(ls)[x] ==
            (multiset(Lying(ls, chosen, Outside)) + multiset(Lying(ls, chosen, Inside)) + Crossing(ls, chosen))[x] {
      PartitionAt(ls, chosen, x);
    }
  }

  // ---------------------------------------------------------------- relays

  /** A relay with the port inside that it is connected with, and the flag of that connection. */
  datatype RelayPort = RelayPort(entering: bool, port: Port, active: bool)

  function InnerEdge(p: RelayPort, index: nat): Edge {
    if p.entering then Edge(Relay(index), At(p.port), p.active) else Edge(At(p.port), Relay(index), p.active)
  }

  /** The edges inside of the relays, if the first of them is `base`. */
  function InnerEdges(relays: seq<RelayPort>, base: nat): (es: seq<Edge>)
    ensures |es| == |relays| && forall k | 0 <= k < |relays| :: es[k] == InnerEdge(relays[k], base + k)
  {
    seq(|relays|, k requires 0 <= k < |relays| => InnerEdge(relays[k], base + k))
  }

  /** The edge outside that leads the connection l through a relay. */
  function OuterEdge(l: Link, entering: bool, index: nat): Edge {
    if entering then Edge(At(l.from), Relay(index), l.active) else Edge(Relay(index), At(l.to), l.active)
  }

  /** Where a connection with the port p inside is among the first n of `fs`, or n. */
  function Place(fs: seq<Link>, n: nat, entering: bool, p: Port): (k: nat)
    requires n <= |fs|
    ensures k <= n && (k < n ==> Inner(fs[k], entering) == p)
  {
    if n == 0 then 0
    else
      var k := Place(fs, n - 1, entering, p);
      if k < n - 1 || Inner(fs[n - 1], entering) == p then k else n
  }

  /** The first connection of every port inside, among the first n connections. */
  function Firsts(ls: seq<Link>, n: nat, entering: bool): seq<Link>
    requires n <= |ls|
  {
    if n == 0 then []
    else
      var fs := Firsts(ls, n - 1, entering);
      if Place(fs, |fs|, entering, Inner(ls[n - 1], entering)) < |fs| then fs else fs + [ls[n - 1]]
  }

  function RelayFor(f: Link, entering: bool, names: Renaming): RelayPort {
    RelayPort(entering, RenamedPort(Inner(f, entering), names), f.active)
  }

  function RelaysFor(fs: seq<Link>, entering: bool, names: Renaming): (relays: seq<RelayPort>)
    ensures |relays| == |fs| && forall k | 0 <= k < |fs| :: relays[k] == RelayFor(fs[k], entering, names)
  {
    seq(|fs|, k requires 0 <= k < |fs| => RelayFor(fs[k], entering, names))
  }

  /** The relays of the first n connections: one for each port inside, in the order in which they occur, with the
      flag of the first connection. */
  function RelaysOf(ls: seq<Link>, n: nat, entering: bool, names: Renaming): seq<RelayPort>
    requires n <= |ls|
  {
    RelaysFor(Firsts(ls, n, entering), entering, names)
  }

  /** Through which relay connection n goes, if the first relay is `base`. */
  function RelayAt(ls: seq<Link>, n: nat, entering: bool, base: nat): nat
    requires n < |ls|
  {
    var fs := Firsts(ls, n, entering);
    base + Place(fs, |fs|, entering, Inner(ls[n], entering))
  }

  /** The edges outside of the first n connections. */
  function OuterEdges(ls: seq<Link>, n: nat, entering: bool, base: nat): (es: seq<Edge>)
    requires n <= |ls|
    ensures |es| == n && forall k {:trigger es[k]} | 0 <= k < n :: es[k] == OuterEdge(ls[k], entering, RelayAt(ls, k, entering, base))
  {
    seq(n, k requires 0 <= k < n => OuterEdge(ls[k], entering, RelayAt(ls, k, entering, base)))
  }

  lemma {:induction false} PlaceOfPrefix(fs: seq<Link>, gs: seq<Link>, n: nat, entering: bool, p: Port)
    requires n <= |fs| && fs <= gs
    ensures Place(gs, n, entering, p) == Place(fs, n, entering, p)
  {
    if n > 0 {
      PlaceOfPrefix(fs, gs, n - 1, entering, p);
    }
  }

  lemma OuterEdgesStep(ls: seq<Link>, n: nat, entering: bool, base: nat)
    requires n < |ls|
    ensures OuterEdges(ls, n + 1, entering, base) ==
            OuterEdges(ls, n, entering, base) + [OuterEdge(ls[n], entering, RelayAt(ls, n, entering, base))]
  {
  }

  /** The cache knows the relays of the ports that have occurred. */
  ghost predicate Cached(fs: seq<Link>, entering: bool, base: nat, cache: map<Port, nat>) {
    forall p ::
      && (p in cache <==> Place(fs, |fs|, entering, p) < |fs|)
      && (p in cache ==> cache[p] == base + Place(fs, |fs|, entering, p))
  }

  lemma CachedStep(fs: seq<Link>, l: Link, entering: bool, base: nat, cache: map<Port, nat>)
    requires Cached(fs, entering, base, cache) && Inner(l, entering) !in cache
    ensures Cached(fs + [l], entering, base, cache[Inner(l, entering) := base + |fs|])
  {
    forall p ensures Place(fs + [l], |fs|, entering, p) == Place(fs, |fs|, entering, p) {
      PlaceOfPrefix(fs, fs + [l], |fs|, entering, p);
    }
  }

  lemma {:induction false} FirstsDiffer(ls: seq<Link>, n: nat, entering: bool)
    requires n <= |ls|
    ensures forall k, l | 0 <= k < l < |Firsts(ls, n, entering)| ::
              Inner(Firsts(ls, n, entering)[k], entering) != Inner(Firsts(ls, n, entering)[l], entering)
  {
    if n > 0 {
      var fs := Firsts(ls, n - 1, entering);
      FirstsDiffer(ls, n - 1, entering);
      forall k | 0 <= k < |fs| ensures Place(fs, |fs|, entering, Inner(fs[k], entering)) < |fs| {
        PlaceFound(fs, |fs|, entering, k);
      }
    }
  }

  lemma {:induction false} PlaceFound(fs: seq<Link>, n: nat, entering: bool, k: nat)
    requires k < n <= |fs|
    ensures Place(fs, n, entering, Inner(fs[k], entering)) <= k
  {
    if k < n - 1 {
      PlaceFound(fs, n - 1, entering, k);
    }
  }

  // ---------------------------------------------------------------- contraction undoes it

  /** The connection that an edge outside and a relay make. */
  function LedThrough(l: Link, entering: bool, p: RelayPort): Link {
    if entering then Link(l.from, p.port, l.active) else Link(p.port, l.to, l.active)
  }

  lemma InnerEdgesConcat(a: seq<RelayPort>, b: seq<RelayPort>, base: nat)
    ensures InnerEdges(a + b, base) == InnerEdges(a, base) + InnerEdges(b, base + |a|)
  {
  }

  /** An edge outside makes one connection, through its relay. */
  lemma JoinsPasted(l: Link, entering: bool, pasted: seq<Edge>, relays: seq<RelayPort>, r: nat, x: Link)
    requires r < |relays| && relays[r].entering == entering
    requires forall k | 0 <= k < |pasted| :: IsDirect(pasted[k])
    ensures Joins(OuterEdge(l, entering, r), pasted + InnerEdges(relays, 0), |pasted| + |relays|, true, x) ==
            One(LedThrough(l, entering, relays[r]) == x)
  {
    var o, inner := OuterEdge(l, entering, r), pasted + InnerEdges(relays, 0);
    forall j | 0 <= j < |inner| && j != |pasted| + r ensures !Join(o, inner[j], true, x) {
      assert j >= |pasted| ==> inner[j] == InnerEdge(relays[j - |pasted|], j - |pasted|);
    }
    assert inner[|pasted| + r] == InnerEdge(relays[r], r);
    OneJoin(o, inner, |inner|, |pasted| + r, true, x);
  }

  /** The relays of `ls` are those from `base` on. */
  ghost predicate Placed(ls: seq<Link>, n: nat, entering: bool, names: Renaming, base: nat, relays: seq<RelayPort>)
    requires n <= |ls|
  {
    var fs := Firsts(ls, n, entering);
    base + |fs| <= |relays| && forall k | 0 <= k < |fs| :: relays[base + k] == RelayFor(fs[k], entering, names)
  }

  lemma {:induction false} FirstsPrefix(ls: seq<Link>, n: nat, m: nat, entering: bool)
    requires n <= m <= |ls|
    ensures Firsts(ls, n, entering) <= Firsts(ls, m, entering)
  {
    if n < m {
      FirstsPrefix(ls, n, m - 1, entering);
    }
  }

  lemma PlacedAt(ls: seq<Link>, n: nat, entering: bool)
    requires n < |ls|
    ensures var gs, k := Firsts(ls, |ls|, entering), RelayAt(ls, n, entering, 0);
            k < |gs| && Inner(gs[k], entering) == Inner(ls[n], entering)
  {
    var fs, gs := Firsts(ls, n + 1, entering), Firsts(ls, |ls|, entering);
    var k := RelayAt(ls, n, entering, 0);
    FirstsPrefix(ls, n + 1, |ls|, entering);
    assert k < |fs| && fs[k] == gs[k] && Inner(fs[k], entering) == Inner(ls[n], entering);
  }

  /** Every connection goes through the relay of its port inside. */
  lemma GoesThrough(ls: seq<Link>, n: nat, entering: bool, names: Renaming, base: nat, relays: seq<RelayPort>)
    requires n < |ls| && Placed(ls, |ls|, entering, names, base, relays)
    requires Inner(ls[n], !entering).node !in names
    ensures var r := RelayAt(ls, n, entering, base);
            r < |relays| && relays[r].entering == entering && LedThrough(ls[n], entering, relays[r]) == RenamedLink(ls[n], names)
  {
    PlacedAt(ls, n, entering);
    var k := RelayAt(ls, n, entering, 0);
    assert relays[base + k] == RelayFor(Firsts(ls, |ls|, entering)[k], entering, names);
  }

  lemma JoinsLed(ls: seq<Link>, n: nat, entering: bool, names: Renaming, base: nat, pasted: seq<Edge>, relays: seq<RelayPort>, x: Link)
    requires n < |ls| && Placed(ls, |ls|, entering, names, base, relays) && Inner(ls[n], !entering).node !in names
    requires forall k | 0 <= k < |pasted| :: IsDirect(pasted[k])
    ensures Joins(OuterEdge(ls[n], entering, RelayAt(ls, n, entering, base)), pasted + InnerEdges(relays, 0), |pasted| + |relays|, true, x) ==
            One(RenamedLink(ls[n], names) == x)
  {
    GoesThrough(ls, n, entering, names, base, relays);
    JoinsPasted(ls[n], entering, pasted, relays, RelayAt(ls, n, entering, base), x);
  }

  lemma ThroughRelays(ls: seq<Link>, entering: bool, names: Renaming, base: nat, pasted: seq<Edge>, relays: seq<RelayPort>, x: Link)
    requires Placed(ls, |ls|, entering, names, base, relays)
    requires forall k | 0 <= k < |ls| :: Inner(ls[k], !entering).node !in names
    requires forall k | 0 <= k < |pasted| :: IsDirect(pasted[k])
    ensures Through(OuterEdges(ls, |ls|, entering, base), |ls|, pasted + InnerEdges(relays, 0), true, x) == RenamedTo(ls, |ls|, names, x)
  {
    var outer, inner := OuterEdges(ls, |ls|, entering, base), pasted + InnerEdges(relays, 0);
    forall k | 0 <= k < |ls| ensures Joins(outer[k], inner, |inner|, true, x) == One(RenamedLink(ls[k], names) == x) {
      JoinsLed(ls, k, entering, names, base, pasted, relays, x);
    }
    ThroughRenamed(outer, |ls|, inner, ls, names, x);
  }

  lemma {:induction false} LyingClass(ls: seq<Link>, chosen: set<nat>, c: Class)
    ensures forall l | l in Lying(ls, chosen, c) :: l in ls && ClassOf(l, chosen) == c
  {
    if ls != [] {
      LyingClass(ls[..|ls| - 1], chosen, c);
    }
  }

  /** `found` are the connections of a class that crosses the border, in some order. */
  ghost predicate Finds(found: seq<Link>, ls: seq<Link>, chosen: set<nat>, c: Class) {
    (c.Entering? || c.Leaving?) && multiset(found) == multiset(Lying(ls, chosen, c))
  }

  lemma FoundOutside(found: seq<Link>, ls: seq<Link>, chosen: set<nat>, c: Class)
    requires Finds(found, ls, chosen, c)
    ensures forall k | 0 <= k < |found| :: ClassOf(found[k], chosen) == c && Inner(found[k], !c.Entering?).node !in chosen
  {
    LyingClass(ls, chosen, c);
    forall k | 0 <= k < |found| ensures ClassOf(found[k], chosen) == c {
      assert found[k] in multiset(found);
    }
  }

  lemma ThroughFound(found: seq<Link>, ls: seq<Link>, chosen: set<nat>, c: Class, names: Renaming, base: nat, pasted: seq<Edge>, relays: seq<RelayPort>, x: Link)
    requires Finds(found, ls, chosen, c) && names.Keys == chosen
    requires Placed(found, |found|, c.Entering?, names, base, relays)
    requires forall k | 0 <= k < |pasted| :: IsDirect(pasted[k])
    ensures Through(OuterEdges(found, |found|, c.Entering?, base), |found|, pasted + InnerEdges(relays, 0), true, x) ==
            multiset(Renamed(found, names))[x]
  {
    FoundOutside(found, ls, chosen, c);
    ThroughRelays(found, c.Entering?, names, base, pasted, relays, x);
    RenamedCounted(found, |found|, names, x);
    assert Renamed(found, names)[..|found|] == Renamed(found, names);
  }

  /** Connections that cross the border, the relays that are made for them, the first of which is `base`, and the
      edges outside. */
  datatype Group = Group(links: seq<Link>, entering: bool, base: nat, relays: seq<RelayPort>, edges: seq<Edge>) {
    ghost predicate Valid(names: Renaming) {
      relays == RelaysOf(links, |links|, entering, names) && edges == OuterEdges(links, |links|, entering, base)
    }

    ghost predicate Among(all: seq<RelayPort>) {
      base + |relays| <= |all| && forall k | 0 <= k < |relays| :: all[base + k] == relays[k]
    }
  }

  function GroupOf(ls: seq<Link>, entering: bool, base: nat, names: Renaming): (g: Group)
    ensures g.Valid(names) && g.links == ls && g.entering == entering && g.base == base
  {
    Group(ls, entering, base, RelaysOf(ls, |ls|, entering, names), OuterEdges(ls, |ls|, entering, base))
  }

  lemma GroupFlattens(g: Group, ls: seq<Link>, chosen: set<nat>, c: Class, names: Renaming, pasted: seq<Edge>, all: seq<RelayPort>, x: Link)
    requires Finds(g.links, ls, chosen, c) && g.entering == c.Entering? && names.Keys == chosen && g.Valid(names) && g.Among(all)
    requires forall k | 0 <= k < |pasted| :: IsDirect(pasted[k])
    ensures Through(g.edges, |g.edges|, pasted + InnerEdges(all, 0), true, x) == multiset(Renamed(g.links, names))[x]
    ensures Direct(g.edges, |g.edges|, x) == 0
  {
    ThroughFound(g.links, ls, chosen, c, names, g.base, pasted, all, x);
    NothingDirect(g.edges, |g.edges|, x);
  }

  /** All connections that cross the border, group by group. */
  datatype Border = Border(connectionsIn: Group, connectionsOut: Group, signalsIn: Group, signalsOut: Group) {
    ghost predicate Of(ls: seq<Link>, chosen: set<nat>) {
      && Finds(connectionsIn.links, ls, chosen, Entering(Input)) && connectionsIn.entering
      && Finds(connectionsOut.links, ls, chosen, Leaving(Output)) && !connectionsOut.entering
      && Finds(signalsIn.links, ls, chosen, Entering(Slot)) && signalsIn.entering
      && Finds(signalsOut.links, ls, chosen, Leaving(Event)) && !signalsOut.entering
    }

    ghost predicate Valid(names: Renaming) {
      && connectionsIn.Valid(names) && connectionsOut.Valid(names) && signalsIn.Valid(names) && signalsOut.Valid(names)
    }

    ghost predicate Among(all: seq<RelayPort>) {
      connectionsIn.Among(all) && connectionsOut.Among(all) && signalsIn.Among(all) && signalsOut.Among(all)
    }

    function Relays(): seq<RelayPort> {
      connectionsIn.relays + connectionsOut.relays + signalsIn.relays + signalsOut.relays
    }

    /** The relays are made group by group. */
    predicate Based() {
      && connectionsIn.base == 0
      && connectionsOut.base == connectionsIn.base + |connectionsIn.relays|
      && signalsIn.base == connectionsOut.base + |connectionsOut.relays|
      && signalsOut.base == signalsIn.base + |signalsIn.relays|
    }

    function Forwarding(): seq<Edge> {
      InnerEdges(connectionsIn.relays, connectionsIn.base) + InnerEdges(connectionsOut.relays, connectionsOut.base)
      + InnerEdges(signalsIn.relays, signalsIn.base) + InnerEdges(signalsOut.relays, signalsOut.base)
    }

    function Edges(): seq<Edge> {
      connectionsIn.edges + connectionsOut.edges + signalsIn.edges + signalsOut.edges
    }
  }

  /** The groups of relays, one behind the other, that these connections are led through. */
  function BorderFrom(connectionsIn: seq<Link>, connectionsOut: seq<Link>, signalsIn: seq<Link>, signalsOut: seq<Link>, names: Renaming):
      (b: Border)
    ensures b.Valid(names) && b.Based()
  {
    var first := GroupOf(connectionsIn, true, 0, names);
    var second := GroupOf(connectionsOut, false, |first.relays|, names);
    var third := GroupOf(signalsIn, true, second.base + |second.relays|, names);
    Border(first, second, third, GroupOf(signalsOut, false, third.base + |third.relays|, names))
  }

  lemma BorderIs(b: Border, connectionsIn: seq<Link>, connectionsOut: seq<Link>, signalsIn: seq<Link>, signalsOut: seq<Link>,
                 names: Renaming, second: nat, third: nat, fourth: nat)
    requires b == Border(GroupOf(connectionsIn, true, 0, names), GroupOf(connectionsOut, false, second, names),
                         GroupOf(signalsIn, true, third, names), GroupOf(signalsOut, false, fourth, names))
    requires second == |b.connectionsIn.relays| && third == second + |b.connectionsOut.relays| && fourth == third + |b.signalsIn.relays|
    ensures b == BorderFrom(connectionsIn, connectionsOut, signalsIn, signalsOut, names)
  {
  }

  lemma BorderFlattens(b: Border, ls: seq<Link>, chosen: set<nat>, names: Renaming, pasted: seq<Edge>, all: seq<RelayPort>, x: Link)
    requires b.Of(ls, chosen) && b.Valid(names) && b.Among(all) && names.Keys == chosen
    requires forall k | 0 <= k < |pasted| :: IsDirect(pasted[k])
    ensures Through(b.Edges(), |b.Edges()|, pasted + InnerEdges(all, 0), true, x) ==
            multiset(Renamed(b.connectionsIn.links, names))[x] + multiset(Renamed(b.connectionsOut.links, names))[x]
            + multiset(Renamed(b.signalsIn.links, names))[x] + multiset(Renamed(b.signalsOut.links, names))[x]
    ensures Direct(b.Edges(), |b.Edges()|, x) == 0
  {
    GroupFlattens(b.connectionsIn, ls, chosen, Entering(Input), names, pasted, all, x);
    GroupFlattens(b.connectionsOut, ls, chosen, Leaving(Output), names, pasted, all, x);
    GroupFlattens(b.signalsIn, ls, chosen, Entering(Slot), names, pasted, all, x);
    GroupFlattens(b.signalsOut, ls, chosen, Leaving(Event), names, pasted, all, x);
    FourParts(b.connectionsIn.edges, b.connectionsOut.edges, b.signalsIn.edges, b.signalsOut.edges,
              pasted + InnerEdges(all, 0), true, x);
  }

  /** Only connections with an end inside are renamed. */
  lemma OutsideKeepsNames(ls: seq<Link>, chosen: set<nat>, names: Renaming)
    requires names.Keys == chosen
    ensures Renamed(Lying(ls, chosen, Outside), names) == Lying(ls, chosen, Outside)
  {
    LyingClass(ls, chosen, Outside);
    forall k | 0 <= k < |Lying(ls, chosen, Outside)|
      ensures RenamedLink(Lying(ls, chosen, Outside)[k], names) == Lying(ls, chosen, Outside)[k]
    {
      assert Lying(ls, chosen, Outside)[k] in Lying(ls, chosen, Outside);
    }
  }

  lemma RenamedBorder(b: Border, ls: seq<Link>, chosen: set<nat>, names: Renaming, x: Link)
    requires Proper(ls) && b.Of(ls, chosen) && names.Keys == chosen
    ensures multiset(Renamed(ls, names))[x] ==
            multiset(Lying(ls, chosen, Outside))[x] + multiset(Renamed(Lying(ls, chosen, Inside), names))[x]
            + multiset(Renamed(b.connectionsIn.links, names))[x] + multiset(Renamed(b.connectionsOut.links, names))[x]
            + multiset(Renamed(b.signalsIn.links, names))[x] + multiset(Renamed(b.signalsOut.links, names))[x]
  {
    var o, i := Lying(ls, chosen, Outside), Lying(ls, chosen, Inside);
    var c1, c2, c3, c4 := b.connectionsIn.links, b.connectionsOut.links, b.signalsIn.links, b.signalsOut.links;
    Partition(ls, chosen);
    RenamedOrder(ls, o + i + c1 + c2 + c3 + c4, names);
    RenamedConcat(o, i, names);
    RenamedConcat(o + i, c1, names);
    RenamedConcat(o + i + c1, c2, names);
    RenamedConcat(o + i + c1 + c2, c3, names);
    RenamedConcat(o + i + c1 + c2 + c3, c4, names);
    OutsideKeepsNames(ls, chosen, names);
  }

  /** What the two levels stand for when kept and pasted connections and those through relays are put together. */
  lemma FlattenParts(kept: seq<Link>, crossing: seq<Edge>, pasted: seq<Link>, forwarding: seq<Edge>, x: Link)
    requires Direct(crossing, |crossing|, x) == 0 && Direct(forwarding, |forwarding|, x) == 0
    ensures Flatten(EdgesOf(kept) + crossing, EdgesOf(pasted) + forwarding, true, x) ==
            multiset(kept)[x] + multiset(pasted)[x] + Through(crossing, |crossing|, EdgesOf(pasted) + forwarding, true, x)
  {
    var inner := EdgesOf(pasted) + forwarding;
    DirectSum(EdgesOf(kept), crossing, x);
    DirectSum(EdgesOf(pasted), forwarding, x);
    ThroughSum(EdgesOf(kept), crossing, inner, true, x);
    NothingThrough(EdgesOf(kept), |kept|, inner, true, x);
    DirectOfAllLinks(kept, x);
    DirectOfAllLinks(pasted, x);
  }

  /** The edges inside of four groups of relays are those of all relays. */
  lemma Forwarded(a: seq<RelayPort>, b: seq<RelayPort>, c: seq<RelayPort>, d: seq<RelayPort>, second: nat, third: nat, fourth: nat)
    requires second == |a| && third == second + |b| && fourth == third + |c|
    ensures InnerEdges(a, 0) + InnerEdges(b, second) + InnerEdges(c, third) + InnerEdges(d, fourth) == InnerEdges(a + b + c + d, 0)
  {
    InnerEdgesConcat(a, b, 0);
    InnerEdgesConcat(a + b, c, 0);
    InnerEdgesConcat(a + b + c, d, 0);
  }

  /** The relays of the groups follow one another. */
  lemma BorderAmong(b: Border)
    requires b.Based()
    ensures b.Among(b.Relays())
  {
    var r1, r2, r3, r4 := b.connectionsIn.relays, b.connectionsOut.relays, b.signalsIn.relays, b.signalsOut.relays;
    assert b.Relays() == r1 + (r2 + r3 + r4);
    assert b.Relays() == r1 + r2 + (r3 + r4);
    assert b.Relays() == r1 + r2 + r3 + r4;
    assert b.connectionsIn.Among(b.Relays());
    assert b.connectionsOut.Among(b.Relays());
    assert b.signalsIn.Among(b.Relays());
    assert b.signalsOut.Among(b.Relays());
  }

  lemma BorderForwarding(b: Border)
    requires b.Based()
    ensures b.Forwarding() == InnerEdges(b.Relays(), 0)
  {
    Forwarded(b.connectionsIn.relays, b.connectionsOut.relays, b.signalsIn.relays, b.signalsOut.relays,
              b.connectionsOut.base, b.signalsIn.base, b.signalsOut.base);
  }

  /** The graph and its new subgraph together stand for exactly the old connections, with the names that the nodes
      have in the subgraph. */
  lemma GroupingPreserves(b: Border, ls: seq<Link>, chosen: set<nat>, names: Renaming, x: Link)
    requires Proper(ls) && b.Of(ls, chosen) && b.Valid(names) && b.Based() && names.Keys == chosen
    ensures Flatten(EdgesOf(Lying(ls, chosen, Outside)) + b.Edges(),
                    EdgesOf(Renamed(Lying(ls, chosen, Inside), names)) + b.Forwarding(), true, x) ==
            multiset(Renamed(ls, names))[x]
  {
    var kept, pasted, forwarding := Lying(ls, chosen, Outside), Renamed(Lying(ls, chosen, Inside), names), b.Forwarding();
    BorderAmong(b);
    BorderForwarding(b);
    BorderFlattens(b, ls, chosen, names, EdgesOf(pasted), b.Relays(), x);
    NothingDirect(forwarding, |forwarding|, x);
    FlattenParts(kept, b.Edges(), pasted, forwarding, x);
    RenamedBorder(b, ls, chosen, names, x);
  }

  lemma GroupingPreservesAll(b: Border, ls: seq<Link>, chosen: set<nat>, names: Renaming)
    requires Proper(ls) && b.Of(ls, chosen) && b.Valid(names) && b.Based() && names.Keys == chosen
    ensures forall x :: Flatten(EdgesOf(Lying(ls, chosen, Outside)) + b.Edges(),
                                EdgesOf(Renamed(Lying(ls, chosen, Inside), names)) + b.Forwarding(), true, x) ==
                        multiset(Renamed(ls, names))[x]
  {
    forall x ensures Flatten(EdgesOf(Lying(ls, chosen, Outside)) + b.Edges(),
                             EdgesOf(Renamed(Lying(ls, chosen, Inside), names)) + b.Forwarding(), true, x) ==
                     multiset(Renamed(ls, names))[x]
    {
      GroupingPreserves(b, ls, chosen, names, x);
    }
  }

  class GroupNodes {
    const nodes: seq<nat>
    var connectionsIn: seq<Link>
    var connectionsOut: seq<Link>
    var signalsIn: seq<Link>
    var signalsOut: seq<Link>
    /** The edges of the graph and of the new subgraph. */
    var outer: seq<Edge>
    var inner: seq<Edge>
    ghost var relays: seq<RelayPort>

    constructor (nodes: seq<nat>)
      ensures this.nodes == nodes
    {
      this.nodes := nodes;
      connectionsIn, connectionsOut, signalsIn, signalsOut := [], [], [], [];
      outer, inner, relays := [], [], [];
    }

    function Chosen(): set<nat> {
      set n | n in nodes
    }

    ghost predicate Found(ls: seq<Link>, chosen: set<nat>, part: set<nat>)
      reads this
    {
      && multiset(connectionsIn) == multiset(Pick(ls, chosen, Entering(Input), part))
      && multiset(connectionsOut) == multiset(Pick(ls, chosen, Leaving(Output), part))
      && multiset(signalsIn) == multiset(Pick(ls, chosen, Entering(Slot), part))
      && multiset(signalsOut) == multiset(Pick(ls, chosen, Leaving(Event), part))
    }

    /** Collects the connections that cross the border, node by node. */
    method AnalyzeConnections(ls: seq<Link>)
      requires forall i, j | 0 <= i < j < |nodes| :: nodes[i] != nodes[j]
      modifies this`connectionsIn, this`connectionsOut, this`signalsIn, this`signalsOut
      ensures Found(ls, Chosen(), Chosen())
    {
      connectionsIn, connectionsOut, signalsIn, signalsOut := [], [], [], [];
      var chosen := Chosen();
      PickNone(ls, chosen, Entering(Input));
      PickNone(ls, chosen, Leaving(Output));
      PickNone(ls, chosen, Entering(Slot));
      PickNone(ls, chosen, Leaving(Event));
      ghost var part: set<nat> := {};
      for i := 0 to |nodes|
        invariant Found(ls, chosen, part)
        invariant forall n :: n in part <==> n in nodes[..i]
      {
        AnalyzeNext(ls, chosen, nodes[i], part);
        part := part + {nodes[i]};
      }
      assert part == chosen;
    }

    method AnalyzeNext(ls: seq<Link>, chosen: set<nat>, n: nat, ghost part: set<nat>)
      requires n in chosen && n !in part && Found(ls, chosen, part)
      modifies this`connectionsIn, this`connectionsOut, this`signalsIn, this`signalsOut
      ensures Found(ls, chosen, part + {n})
    {
      AnalyzeNode(ls, chosen, n);
      PickStep(ls, chosen, Entering(Input), part, n);
      PickStep(ls, chosen, Leaving(Output), part, n);
      PickStep(ls, chosen, Entering(Slot), part, n);
      PickStep(ls, chosen, Leaving(Event), part, n);
    }

    /** The connections of the ports of one node. */
    method AnalyzeNode(ls: seq<Link>, chosen: set<nat>, n: nat)
      requires n in chosen
      modifies this`connectionsIn, this`connectionsOut, this`signalsIn, this`signalsOut
      ensures connectionsIn == old(connectionsIn) + Pick(ls, chosen, Entering(Input), {n})
      ensures connectionsOut == old(connectionsOut) + Pick(ls, chosen, Leaving(Output), {n})
      ensures signalsIn == old(signalsIn) + Pick(ls, chosen, Entering(Slot), {n})
      ensures signalsOut == old(signalsOut) + Pick(ls, chosen, Leaving(Event), {n})
    {
      for j := 0 to |ls|
        invariant connectionsIn == old(connectionsIn) + Pick(ls[..j], chosen, Entering(Input), {n})
        invariant connectionsOut == old(connectionsOut) + Pick(ls[..j], chosen, Leaving(Output), {n})
        invariant signalsIn == old(signalsIn) + Pick(ls[..j], chosen, Entering(Slot), {n})
        invariant signalsOut == old(signalsOut) + Pick(ls[..j], chosen, Leaving(Event), {n})
      {
        var l := ls[j];
        assert ls[..j + 1][..j] == ls[..j];
        if l.to.node == n && l.from.node !in chosen {
          if l.to.kind == Input {
            connectionsIn := connectionsIn + [l];
          } else if l.to.kind == Slot {
            signalsIn := signalsIn + [l];
          }
        }
        if l.from.node == n && l.to.node !in chosen {
          if l.from.kind == Output {
            connectionsOut := connectionsOut + [l];
          } else if l.from.kind == Event {
            signalsOut := signalsOut + [l];
          }
        }
      }
      assert ls[..|ls|] == ls;
    }
  
    /** The relay of connection i; it is made, and connected inside, if its port has none yet.  `count` relays exist. */
    method RelayIn(ls: seq<Link>, i: nat, names: Renaming, cache: map<Port, nat>, count: nat, ghost base: nat)
        returns (relay: nat, count': nat, cache': map<Port, nat>, forwarding: seq<Edge>)
      requires i < |ls| && count == base + |Firsts(ls, i, true)| && Cached(Firsts(ls, i, true), true, base, cache)
      ensures relay == RelayAt(ls, i, true, base)
      ensures count' == base + |Firsts(ls, i + 1, true)| && Cached(Firsts(ls, i + 1, true), true, base, cache')
      ensures InnerEdges(RelaysOf(ls, i + 1, true, names), base) == InnerEdges(RelaysOf(ls, i, true, names), base) + forwarding
    {
      var ci := ls[i];
      if ci.to in cache {
        relay, count', cache', forwarding := cache[ci.to], count, cache, [];
      } else {
        CachedStep(Firsts(ls, i, true), ci, true, base, cache);
        relay, count' := count, count + 1;
        cache' := cache[ci.to := relay];
        var nested := RenamedPort(ci.to, names);
        forwarding := [Edge(Relay(relay), At(nested), ci.active)];
      }
    }

    /** Leads the connections `ls` through relays, the first of which is `base`. */
    method MapGoingIn(ls: seq<Link>, names: Renaming, base: nat)
        returns (count: nat, crossing: seq<Edge>, forwarding: seq<Edge>)
      ensures var g := GroupOf(ls, true, base, names);
              count == base + |g.relays| && crossing == g.edges && forwarding == InnerEdges(g.relays, base)
    {
      var cache: map<Port, nat> := map[];
      count, crossing, forwarding := base, [], [];
      for i := 0 to |ls|
        invariant count == base + |Firsts(ls, i, true)| && Cached(Firsts(ls, i, true), true, base, cache)
        invariant crossing == OuterEdges(ls, i, true, base)
        invariant forwarding == InnerEdges(RelaysOf(ls, i, true, names), base)
      {
        var ci := ls[i];
        var relay: nat, forward: seq<Edge>;
        relay, count, cache, forward := RelayIn(ls, i, names, cache, count, base);
        OuterEdgesStep(ls, i, true, base);
        forwarding := forwarding + forward;
        crossing := crossing + [Edge(At(ci.from), Relay(relay), ci.active)];
      }
    }

    /** The relay of connection i; it is made, and connected inside, if its port has none yet.  `count` relays exist. */
    method RelayOut(ls: seq<Link>, i: nat, names: Renaming, cache: map<Port, nat>, count: nat, ghost base: nat)
        returns (relay: nat, count': nat, cache': map<Port, nat>, forwarding: seq<Edge>)
      requires i < |ls| && count == base + |Firsts(ls, i, false)| && Cached(Firsts(ls, i, false), false, base, cache)
      ensures relay == RelayAt(ls, i, false, base)
      ensures count' == base + |Firsts(ls, i + 1, false)| && Cached(Firsts(ls, i + 1, false), false, base, cache')
      ensures InnerEdges(RelaysOf(ls, i + 1, false, names), base) == InnerEdges(RelaysOf(ls, i, false, names), base) + forwarding
    {
      var ci := ls[i];
      if ci.from in cache {
        relay, count', cache', forwarding := cache[ci.from], count, cache, [];
      } else {
        CachedStep(Firsts(ls, i, false), ci, false, base, cache);
        relay, count' := count, count + 1;
        cache' := cache[ci.from := relay];
        var nested := RenamedPort(ci.from, names);
        forwarding := [Edge(At(nested), Relay(relay), ci.active)];
      }
    }

    /** Leads the connections `ls` through relays, the first of which is `base`. */
    method MapGoingOut(ls: seq<Link>, names: Renaming, base: nat)
        returns (count: nat, crossing: seq<Edge>, forwarding: seq<Edge>)
      ensures var g := GroupOf(ls, false, base, names);
              count == base + |g.relays| && crossing == g.edges && forwarding == InnerEdges(g.relays, base)
    {
      var cache: map<Port, nat> := map[];
      count, crossing, forwarding := base, [], [];
      for i := 0 to |ls|
        invariant count == base + |Firsts(ls, i, false)| && Cached(Firsts(ls, i, false), false, base, cache)
        invariant crossing == OuterEdges(ls, i, false, base)
        invariant forwarding == InnerEdges(RelaysOf(ls, i, false, names), base)
      {
        var ci := ls[i];
        var relay: nat, forward: seq<Edge>;
        relay, count, cache, forward := RelayOut(ls, i, names, cache, count, base);
        OuterEdgesStep(ls, i, false, base);
        forwarding := forwarding + forward;
        crossing := crossing + [Edge(Relay(relay), At(ci.to), ci.active)];
      }
    }

    ghost predicate Bounds(b: Border)
      reads this`connectionsIn, this`connectionsOut, this`signalsIn, this`signalsOut
    {
      && b.connectionsIn.links == connectionsIn && b.connectionsIn.entering
      && b.connectionsOut.links == connectionsOut && !b.connectionsOut.entering
      && b.signalsIn.links == signalsIn && b.signalsIn.entering
      && b.signalsOut.links == signalsOut && !b.signalsOut.entering
    }

    function BorderOf(names: Renaming): (b: Border)
      reads this`connectionsIn, this`connectionsOut, this`signalsIn, this`signalsOut
      ensures b.Valid(names) && Bounds(b) && b.Based()
    {
      BorderFrom(connectionsIn, connectionsOut, signalsIn, signalsOut, names)
    }

    /** The edges that lead all connections through relays. */
    method MapConnections(names: Renaming) returns (crossing: seq<Edge>, forwarding: seq<Edge>)
      ensures crossing == BorderOf(names).Edges() && forwarding == BorderOf(names).Forwarding()
    {
      var second, crossing1, forwarding1 := MapGoingIn(connectionsIn, names, 0);
      var third, crossing2, forwarding2 := MapGoingOut(connectionsOut, names, second);
      var fourth, crossing3, forwarding3 := MapGoingIn(signalsIn, names, third);
      var count, crossing4, forwarding4 := MapGoingOut(signalsOut, names, fourth);
      crossing := crossing1 + crossing2 + crossing3 + crossing4;
      forwarding := forwarding1 + forwarding2 + forwarding3 + forwarding4;
      ghost var b := Border(GroupOf(connectionsIn, true, 0, names), GroupOf(connectionsOut, false, second, names),
                            GroupOf(signalsIn, true, third, names), GroupOf(signalsOut, false, fourth, names));
      assert crossing == b.Edges() && forwarding == b.Forwarding();
      BorderIs(b, connectionsIn, connectionsOut, signalsIn, signalsOut, names, second, third, fourth);
    }

    lemma FoundBorder(ls: seq<Link>, b: Border)
      requires Found(ls, Chosen(), Chosen()) && Bounds(b)
      ensures b.Of(ls, Chosen())
    {
      PickAll(ls, Chosen(), Entering(Input));
      PickAll(ls, Chosen(), Leaving(Output));
      PickAll(ls, Chosen(), Entering(Slot));
      PickAll(ls, Chosen(), Leaving(Event));
    }

    /** The nodes move into the subgraph: they are deleted and pasted under the names in `names`. */
    method DoExecute(ls: seq<Link>, names: Renaming) returns (ghost b: Border)
      requires Proper(ls) && names.Keys == Chosen()
      requires forall i, j | 0 <= i < j < |nodes| :: nodes[i] != nodes[j]
      modifies this
      ensures b.Of(ls, Chosen()) && b.Valid(names) && b.Based()
      ensures outer == EdgesOf(Lying(ls, Chosen(), Outside)) + b.Edges()
      ensures inner == EdgesOf(Renamed(Lying(ls, Chosen(), Inside), names)) + b.Forwarding() && relays == b.Relays()
      ensures forall x :: Flatten(outer, inner, true, x) == multiset(Renamed(ls, names))[x]
    {
      AnalyzeConnections(ls);
      var outside, inside;
      outside, inside, b := Rebuild(ls, names);
      outer, inner, relays := outside, inside, b.Relays();
    }

    method Rebuild(ls: seq<Link>, names: Renaming) returns (outside: seq<Edge>, inside: seq<Edge>, ghost b: Border)
      requires Proper(ls) && names.Keys == Chosen() && Found(ls, Chosen(), Chosen())
      ensures b.Of(ls, Chosen()) && b.Valid(names) && b.Based()
      ensures b == BorderOf(names)
      ensures outside == EdgesOf(Lying(ls, Chosen(), Outside)) + b.Edges()
      ensures inside == EdgesOf(Renamed(Lying(ls, Chosen(), Inside), names)) + b.Forwarding()
      ensures forall x :: Flatten(outside, inside, true, x) == multiset(Renamed(ls, names))[x]
    {
      var chosen := Chosen();
      var kept, pasted := EdgesOf(Lying(ls, chosen, Outside)), EdgesOf(Renamed(Lying(ls, chosen, Inside), names));
      var crossing, forwarding := MapConnections(names);
      b := BorderOf(names);
      FoundBorder(ls, b);
      GroupingPreservesAll(b, ls, chosen, names);
      outside, inside := kept + crossing, pasted + forwarding;
    }
  }
}

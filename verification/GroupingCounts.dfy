/** Grouping makes one relay for each port inside, and gives no port more connections than it had. */
module GroupingCounts {
  import opened Graphs
  import opened Grouping

  ghost predicate Injective(names: Renaming) {
    forall a, b | a in names && b in names && names[a] == names[b] :: a == b
  }

  // ---------------------------------------------------------------- one relay per port

  lemma {:induction false} FirstsAreLinks(ls: seq<Link>, n: nat, entering: bool)
    requires n <= |ls|
    ensures forall f | f in Firsts(ls, n, entering) :: f in ls
    ensures forall k | 0 <= k < n :: exists f :: f in Firsts(ls, n, entering) && Inner(f, entering) == Inner(ls[k], entering)
  {
    if n > 0 {
      FirstsAreLinks(ls, n - 1, entering);
      var fs, gs := Firsts(ls, n - 1, entering), Firsts(ls, n, entering);
      var l := ls[n - 1];
      forall k | 0 <= k < n ensures exists f :: f in gs && Inner(f, entering) == Inner(ls[k], entering) {
        if k < n - 1 {
          var f :| f in fs && Inner(f, entering) == Inner(ls[k], entering);
          assert f in gs;
        } else if fs == gs {
          assert fs[Place(fs, |fs|, entering, Inner(l, entering))] in gs;
        } else {
          assert gs[|fs|] in gs;
        }
      }
    }
  }

  ghost predicate Differ(a: RelayPort, b: RelayPort) {
    a.entering != b.entering || a.port != b.port
  }

  lemma RelaysDiffer(fs: seq<Link>, entering: bool, names: Renaming)
    requires Injective(names) && forall f | f in fs :: Inner(f, entering).node in names
    requires forall k, l | 0 <= k < l < |fs| :: Inner(fs[k], entering) != Inner(fs[l], entering)
    ensures forall r, s | 0 <= r < s < |fs| :: Differ(RelayFor(fs[r], entering, names), RelayFor(fs[s], entering, names))
  {
    forall r, s | 0 <= r < s < |fs| ensures Differ(RelayFor(fs[r], entering, names), RelayFor(fs[s], entering, names)) {
      assert fs[r] in fs && fs[s] in fs;
    }
  }

  lemma FirstsInside(links: seq<Link>, ls: seq<Link>, chosen: set<nat>, c: Class)
    requires Finds(links, ls, chosen, c)
    ensures forall f | f in Firsts(links, |links|, c.Entering?) ::
              Inner(f, c.Entering?).node in chosen && Inner(f, c.Entering?).kind == c.kind
  {
    FirstsAreLinks(links, |links|, c.Entering?);
    FoundOutside(links, ls, chosen, c);
  }

  lemma GroupRelaysDiffer(g: Group, ls: seq<Link>, chosen: set<nat>, c: Class, names: Renaming)
    requires Finds(g.links, ls, chosen, c) && g.entering == c.Entering? && g.Valid(names) && names.Keys == chosen && Injective(names)
    ensures forall r, s | 0 <= r < s < |g.relays| :: Differ(g.relays[r], g.relays[s])
    ensures forall p | p in g.relays :: p.entering == c.Entering? && p.port.kind == c.kind
  {
    var fs := Firsts(g.links, |g.links|, g.entering);
    FirstsInside(g.links, ls, chosen, c);
    FirstsDiffer(g.links, |g.links|, g.entering);
    RelaysDiffer(fs, g.entering, names);
    forall r | 0 <= r < |fs| ensures g.relays[r] == RelayFor(fs[r], g.entering, names) {
      assert fs[r] in fs;
    }
  }

  /** No two relays lead to the same port in the same direction. */
  lemma OneRelayPerPort(b: Border, ls: seq<Link>, chosen: set<nat>, names: Renaming)
    requires b.Of(ls, chosen) && b.Valid(names) && names.Keys == chosen && Injective(names)
    ensures forall r, s | 0 <= r < s < |b.Relays()| :: Differ(b.Relays()[r], b.Relays()[s])
  {
    GroupRelaysDiffer(b.connectionsIn, ls, chosen, Entering(Input), names);
    GroupRelaysDiffer(b.connectionsOut, ls, chosen, Leaving(Output), names);
    GroupRelaysDiffer(b.signalsIn, ls, chosen, Entering(Slot), names);
    GroupRelaysDiffer(b.signalsOut, ls, chosen, Leaving(Event), names);
    var a, c := b.connectionsIn.relays + b.connectionsOut.relays, b.signalsIn.relays;
    AppendDiffer(b.connectionsIn.relays, b.connectionsOut.relays);
    AppendDiffer(a, c);
    AppendDiffer(a + c, b.signalsOut.relays);
  }

  lemma AppendDiffer(a: seq<RelayPort>, b: seq<RelayPort>)
    requires forall r, s | 0 <= r < s < |a| :: Differ(a[r], a[s])
    requires forall r, s | 0 <= r < s < |b| :: Differ(b[r], b[s])
    requires forall p, q | p in a && q in b :: Differ(p, q)
    ensures forall r, s | 0 <= r < s < |a + b| :: Differ((a + b)[r], (a + b)[s])
  {
    forall r, s | 0 <= r < s < |a + b| ensures Differ((a + b)[r], (a + b)[s]) {
      assert r < |a| <= s ==> a[r] in a && b[s - |a|] in b;
    }
  }

  // ---------------------------------------------------------------- connections per port

  /** How many of the first n connections end at port p. */
  function CountTo(ls: seq<Link>, n: nat, p: Port): nat
    requires n <= |ls|
  {
    if n == 0 then 0 else CountTo(ls, n - 1, p) + One(ls[n - 1].to == p)
  }

  /** How many of the first n edges end at e. */
  function Into(es: seq<Edge>, n: nat, e: End): nat
    requires n <= |es|
  {
    if n == 0 then 0 else Into(es, n - 1, e) + One(es[n - 1].to == e)
  }

  lemma {:induction false} CountConcat(a: seq<Link>, b: seq<Link>, n: nat, p: Port)
    requires n <= |b|
    ensures CountTo(a + b, |a| + n, p) == CountTo(a, |a|, p) + CountTo(b, n, p)
  {
    if n == 0 {
      CountPrefix(a, b, |a|, p);
    } else {
      CountConcat(a, b, n - 1, p);
    }
  }

  lemma {:induction false} CountPrefix(a: seq<Link>, b: seq<Link>, n: nat, p: Port)
    requires n <= |a|
    ensures CountTo(a + b, n, p) == CountTo(a, n, p)
  {
    if n > 0 {
      CountPrefix(a, b, n - 1, p);
    }
  }

  lemma CountSum(a: seq<Link>, b: seq<Link>, p: Port)
    ensures CountTo(a + b, |a + b|, p) == CountTo(a, |a|, p) + CountTo(b, |b|, p)
  {
    CountConcat(a, b, |b|, p);
  }

  lemma {:induction false} IntoConcat(a: seq<Edge>, b: seq<Edge>, n: nat, e: End)
    requires n <= |b|
    ensures Into(a + b, |a| + n, e) == Into(a, |a|, e) + Into(b, n, e)
  {
    if n == 0 {
      IntoPrefix(a, b, |a|, e);
    } else {
      IntoConcat(a, b, n - 1, e);
    }
  }

  lemma {:induction false} IntoPrefix(a: seq<Edge>, b: seq<Edge>, n: nat, e: End)
    requires n <= |a|
    ensures Into(a + b, n, e) == Into(a, n, e)
  {
    if n > 0 {
      IntoPrefix(a, b, n - 1, e);
    }
  }

  lemma IntoFive(a: seq<Edge>, b: seq<Edge>, c: seq<Edge>, d: seq<Edge>, f: seq<Edge>, e: End)
    ensures var es := a + (b + c + d + f);
            Into(es, |es|, e) == Into(a, |a|, e) + Into(b, |b|, e) + Into(c, |c|, e) + Into(d, |d|, e) + Into(f, |f|, e)
  {
    IntoConcat(b, c, |c|, e);
    IntoConcat(b + c, d, |d|, e);
    IntoConcat(b + c + d, f, |f|, e);
    IntoConcat(a, b + c + d + f, |b + c + d + f|, e);
  }

  lemma CountWithout(ls: seq<Link>, x: Link, p: Port) returns (rest: seq<Link>)
    requires x in ls
    ensures |rest| == |ls| - 1 && multiset(ls) == multiset(rest) + multiset{x}
    ensures CountTo(ls, |ls|, p) == CountTo(rest, |rest|, p) + One(x.to == p)
  {
    var k :| 0 <= k < |ls| && ls[k] == x;
    rest := ls[..k] + ls[k + 1..];
    Without(ls, k);
    assert ls == ls[..k] + [x] + ls[k + 1..];
    CountSum(ls[..k] + [x], ls[k + 1..], p);
    CountSum(ls[..k], [x], p);
    CountSum(ls[..k], ls[k + 1..], p);
    assert CountTo([x], 1, p) == One(x.to == p);
  }

  lemma {:induction false} CountOrder(a: seq<Link>, b: seq<Link>, p: Port)
    requires multiset(a) == multiset(b)
    ensures CountTo(a, |a|, p) == CountTo(b, |b|, p)
    decreases |a|
  {
    if a == [] {
      assert |multiset(b)| == 0;
    } else {
      var x := a[0];
      assert x in multiset(b);
      var c := CountWithout(a, x, p);
      var d := CountWithout(b, x, p);
      assert multiset(c) == multiset(a) - multiset{x};
      assert multiset(d) == multiset(b) - multiset{x};
      CountOrder(c, d, p);
    }
  }

  /** The connections of a port, class by class. */
  lemma CountParts(b: Border, ls: seq<Link>, chosen: set<nat>, p: Port)
    requires Proper(ls) && b.Of(ls, chosen)
    ensures CountTo(ls, |ls|, p) ==
            CountTo(Lying(ls, chosen, Outside), |Lying(ls, chosen, Outside)|, p)
            + CountTo(Lying(ls, chosen, Inside), |Lying(ls, chosen, Inside)|, p)
            + CountTo(b.connectionsIn.links, |b.connectionsIn.links|, p) + CountTo(b.connectionsOut.links, |b.connectionsOut.links|, p)
            + CountTo(b.signalsIn.links, |b.signalsIn.links|, p) + CountTo(b.signalsOut.links, |b.signalsOut.links|, p)
  {
    var o, i := Lying(ls, chosen, Outside), Lying(ls, chosen, Inside);
    var c1, c2, c3, c4 := b.connectionsIn.links, b.connectionsOut.links, b.signalsIn.links, b.signalsOut.links;
    Partition(ls, chosen);
    CountOrder(ls, o + i + c1 + c2 + c3 + c4, p);
    CountSum(o, i, p);
    CountSum(o + i, c1, p);
    CountSum(o + i + c1, c2, p);
    CountSum(o + i + c1 + c2, c3, p);
    CountSum(o + i + c1 + c2 + c3, c4, p);
  }

  /** If edges end at e only where the connections end at p, there are no more of them. */
  lemma {:induction false} IntoBounded(es: seq<Edge>, ls: seq<Link>, n: nat, e: End, p: Port)
    requires n <= |es| == |ls|
    requires forall k | 0 <= k < |es| :: es[k].to == e ==> ls[k].to == p
    ensures Into(es, n, e) <= CountTo(ls, n, p)
  {
    if n > 0 {
      IntoBounded(es, ls, n - 1, e, p);
    }
  }

  lemma IntoLinks(ls: seq<Link>, p: Port)
    ensures Into(EdgesOf(ls), |ls|, At(p)) <= CountTo(ls, |ls|, p)
  {
    IntoBounded(EdgesOf(ls), ls, |ls|, At(p), p);
  }

  lemma IntoOuter(g: Group, names: Renaming, p: Port)
    requires g.Valid(names)
    ensures Into(g.edges, |g.edges|, At(p)) <= CountTo(g.links, |g.links|, p)
  {
    forall k | 0 <= k < |g.edges| ensures g.edges[k].to == At(p) ==> g.links[k].to == p {
      assert g.edges[k] == OuterEdge(g.links[k], g.entering, RelayAt(g.links, k, g.entering, g.base));
    }
    IntoBounded(g.edges, g.links, |g.edges|, At(p), p);
  }

  /** No port outside has more connections than before. */
  lemma OuterDegrees(b: Border, ls: seq<Link>, chosen: set<nat>, names: Renaming, p: Port)
    requires Proper(ls) && b.Of(ls, chosen) && b.Valid(names)
    ensures var outer := EdgesOf(Lying(ls, chosen, Outside)) + b.Edges();
            Into(outer, |outer|, At(p)) <= CountTo(ls, |ls|, p)
  {
    var o := Lying(ls, chosen, Outside);
    IntoLinks(o, p);
    IntoOuter(b.connectionsIn, names, p);
    IntoOuter(b.connectionsOut, names, p);
    IntoOuter(b.signalsIn, names, p);
    IntoOuter(b.signalsOut, names, p);
    IntoFive(EdgesOf(o), b.connectionsIn.edges, b.connectionsOut.edges, b.signalsIn.edges, b.signalsOut.edges, At(p));
    CountParts(b, ls, chosen, p);
  }

  lemma OuterTo(ls: seq<Link>, k: nat, base: nat, r: nat)
    requires k < |ls| && RelayAt(ls, k, true, base) == base + r
    ensures r < |Firsts(ls, |ls|, true)| && Firsts(ls, |ls|, true)[r].to == ls[k].to
  {
    PlacedAt(ls, k, true);
  }

  /** Within its group, a relay has no more connections outside than the port that it leads to had. */
  lemma GroupRelayDegree(ls: seq<Link>, base: nat, k: nat, f: Link)
    requires base <= k < base + |Firsts(ls, |ls|, true)| && f == Firsts(ls, |ls|, true)[k - base]
    ensures AllInto(OuterEdges(ls, |ls|, true, base), Relay(k)) <= CountTo(ls, |ls|, f.to)
  {
    var es := OuterEdges(ls, |ls|, true, base);
    forall i | 0 <= i < |es| ensures es[i].to == Relay(k) ==> ls[i].to == f.to {
      if RelayAt(ls, i, true, base) == k {
        OuterTo(ls, i, base, k - base);
      }
    }
    IntoBounded(es, ls, |ls|, Relay(k), f.to);
  }

  lemma {:induction false} IntoNone(es: seq<Edge>, n: nat, e: End)
    requires n <= |es| && forall k | 0 <= k < |es| :: es[k].to != e
    ensures Into(es, n, e) == 0
  {
    if n > 0 {
      IntoNone(es, n - 1, e);
    }
  }

  lemma {:induction false} IntoOnce(es: seq<Edge>, n: nat, e: End)
    requires n <= |es| && forall j, k | 0 <= j < k < |es| && es[j].to == e :: es[k].to != e
    ensures Into(es, n, e) <= 1 && (Into(es, n, e) == 1 ==> exists k :: 0 <= k < n && es[k].to == e)
  {
    if n > 0 {
      IntoOnce(es, n - 1, e);
    }
  }

  lemma InnerElsewhere(g: Group, r: nat)
    requires !(!g.entering && g.base <= r < g.base + |g.relays|) && forall p | p in g.relays :: p.entering == g.entering
    ensures Into(InnerEdges(g.relays, g.base), |g.relays|, Relay(r)) == 0
  {
    forall k | 0 <= k < |g.relays| ensures InnerEdges(g.relays, g.base)[k].to != Relay(r) {
      assert g.relays[k] in g.relays;
    }
    IntoNone(InnerEdges(g.relays, g.base), |g.relays|, Relay(r));
  }

  /** Inside, a relay that leads out has the one connection that it was made for. */
  lemma InnerOnce(g: Group, r: nat)
    requires forall p | p in g.relays :: p.entering == g.entering
    ensures Into(InnerEdges(g.relays, g.base), |g.relays|, Relay(r)) <= 1
  {
    forall j, k | 0 <= j < k < |g.relays| && InnerEdges(g.relays, g.base)[j].to == Relay(r)
      ensures InnerEdges(g.relays, g.base)[k].to != Relay(r)
    {
      assert g.relays[j] in g.relays && g.relays[k] in g.relays;
    }
    IntoOnce(InnerEdges(g.relays, g.base), |g.relays|, Relay(r));
  }

  function OuterLevel(b: Border, ls: seq<Link>, chosen: set<nat>): seq<Edge> {
    EdgesOf(Lying(ls, chosen, Outside)) + b.Edges()
  }

  function InnerLevel(b: Border, ls: seq<Link>, chosen: set<nat>, names: Renaming): seq<Edge>
    requires names.Keys == chosen
  {
    EdgesOf(Renamed(Lying(ls, chosen, Inside), names)) + b.Forwarding()
  }

  /** All edges that end at e. */
  function AllInto(es: seq<Edge>, e: End): nat {
    Into(es, |es|, e)
  }

  lemma OuterSum(b: Border, ls: seq<Link>, chosen: set<nat>, r: nat)
    ensures AllInto(OuterLevel(b, ls, chosen), Relay(r)) ==
            AllInto(b.connectionsIn.edges, Relay(r)) + AllInto(b.connectionsOut.edges, Relay(r))
            + AllInto(b.signalsIn.edges, Relay(r)) + AllInto(b.signalsOut.edges, Relay(r))
  {
    var o := EdgesOf(Lying(ls, chosen, Outside));
    IntoNone(o, |o|, Relay(r));
    IntoFive(o, b.connectionsIn.edges, b.connectionsOut.edges, b.signalsIn.edges, b.signalsOut.edges, Relay(r));
  }

  /** The edges outside of a group meet none of the relays of another group. */
  lemma OuterElsewhere(g: Group, names: Renaming, r: nat)
    requires g.Valid(names) && !(g.entering && g.base <= r < g.base + |g.relays|)
    ensures AllInto(g.edges, Relay(r)) == 0
  {
    forall k | 0 <= k < |g.edges| ensures g.edges[k].to != Relay(r) {
      assert g.edges[k] == OuterEdge(g.links[k], g.entering, RelayAt(g.links, k, g.entering, g.base));
      PlacedAt(g.links, k, g.entering);
    }
    IntoNone(g.edges, |g.edges|, Relay(r));
  }

  /** The relay is not one of the group's. */
  ghost predicate Elsewhere(g: Group, r: nat) {
    !(g.entering && g.base <= r < g.base + |g.relays|)
  }

  lemma BorderElsewhere(b: Border, r: nat)
    requires b.Based() && b.connectionsIn.entering && !b.connectionsOut.entering && b.signalsIn.entering && !b.signalsOut.entering
    ensures r < |b.connectionsIn.relays| ==> Elsewhere(b.signalsIn, r)
    ensures r >= b.signalsIn.base ==> Elsewhere(b.connectionsIn, r)
    ensures forall k :: Elsewhere(b.connectionsOut, k) && Elsewhere(b.signalsOut, k)
  {
  }

  /** Only the edges of its own group end at a relay. */
  lemma OwnConnectionRelay(b: Border, ls: seq<Link>, chosen: set<nat>, names: Renaming, r: nat)
    requires b.Based() && b.connectionsIn.entering && !b.connectionsOut.entering && b.signalsIn.entering && !b.signalsOut.entering
    requires b.connectionsOut.Valid(names) && b.signalsIn.Valid(names) && b.signalsOut.Valid(names)
    requires r < |b.connectionsIn.relays|
    ensures AllInto(OuterLevel(b, ls, chosen), Relay(r)) == AllInto(b.connectionsIn.edges, Relay(r))
  {
    BorderElsewhere(b, r);
    OuterSum(b, ls, chosen, r);
    OuterElsewhere(b.connectionsOut, names, r);
    OuterElsewhere(b.signalsIn, names, r);
    OuterElsewhere(b.signalsOut, names, r);
  }

  lemma OwnSignalRelay(b: Border, ls: seq<Link>, chosen: set<nat>, names: Renaming, k: nat)
    requires b.Based() && b.connectionsIn.entering && !b.connectionsOut.entering && b.signalsIn.entering && !b.signalsOut.entering
    requires b.connectionsIn.Valid(names) && b.connectionsOut.Valid(names) && b.signalsOut.Valid(names)
    requires k >= b.signalsIn.base
    ensures AllInto(OuterLevel(b, ls, chosen), Relay(k)) == AllInto(b.signalsIn.edges, Relay(k))
  {
    BorderElsewhere(b, k);
    OuterSum(b, ls, chosen, k);
    OuterElsewhere(b.connectionsIn, names, k);
    OuterElsewhere(b.connectionsOut, names, k);
    OuterElsewhere(b.signalsOut, names, k);
  }

  /** The port that relay k leads to. */
  function LeadsTo(g: Group, k: nat): Port
    requires g.base <= k < g.base + |g.relays|
  {
    g.relays[k - g.base].port
  }

  /** The connection f that a relay was made for. */
  lemma MadeFor(g: Group, ls: seq<Link>, chosen: set<nat>, kind: Kind, names: Renaming, k: nat) returns (f: Link)
    requires Finds(g.links, ls, chosen, Entering(kind)) && g.entering && g.Valid(names) && g.base <= k < g.base + |g.relays|
    ensures f.to.kind == kind && LeadsTo(g, k) == RenamedPort(f.to, names)
    ensures k < g.base + |Firsts(g.links, |g.links|, true)| && f == Firsts(g.links, |g.links|, true)[k - g.base]
  {
    var fs := Firsts(g.links, |g.links|, true);
    assert g.relays[k - g.base] == RelayFor(fs[k - g.base], true, names);
    f := fs[k - g.base];
    assert f in fs;
    FirstsInside(g.links, ls, chosen, Entering(kind));
  }

  lemma GroupDegree(g: Group, names: Renaming, k: nat, f: Link)
    requires g.entering && g.Valid(names)
    requires g.base <= k < g.base + |Firsts(g.links, |g.links|, true)| && f == Firsts(g.links, |g.links|, true)[k - g.base]
    ensures AllInto(g.edges, Relay(k)) <= CountTo(g.links, |g.links|, f.to)
  {
    GroupRelayDegree(g.links, g.base, k, f);
  }

  /** A group has no more edges to a relay than connections to the port p that it leads to. */
  lemma OwnDegree(g: Group, ls: seq<Link>, chosen: set<nat>, kind: Kind, names: Renaming, k: nat) returns (p: Port)
    requires Finds(g.links, ls, chosen, Entering(kind)) && g.entering && g.Valid(names) && g.base <= k < g.base + |g.relays|
    ensures p.kind == kind && LeadsTo(g, k) == RenamedPort(p, names)
    ensures AllInto(g.edges, Relay(k)) <= CountTo(g.links, |g.links|, p)
  {
    var f := MadeFor(g, ls, chosen, kind, names, k);
    GroupDegree(g, names, k, f);
    p := f.to;
  }

  lemma CountOfGroups(b: Border, ls: seq<Link>, chosen: set<nat>, p: Port)
    requires Proper(ls) && b.Of(ls, chosen)
    ensures CountTo(b.connectionsIn.links, |b.connectionsIn.links|, p) <= CountTo(ls, |ls|, p)
    ensures CountTo(b.signalsIn.links, |b.signalsIn.links|, p) <= CountTo(ls, |ls|, p)
  {
    CountParts(b, ls, chosen, p);
  }

  /** In the whole graph, a relay that leads to a message input has no more connections than that input had. */
  lemma ConnectionRelayDegree(b: Border, ls: seq<Link>, chosen: set<nat>, names: Renaming, k: nat) returns (p: Port)
    requires Proper(ls) && b.Of(ls, chosen) && b.Valid(names) && b.Based() && k < |b.connectionsIn.relays|
    ensures p.kind == Input && LeadsTo(b.connectionsIn, k) == RenamedPort(p, names)
    ensures AllInto(OuterLevel(b, ls, chosen), Relay(k)) <= CountTo(ls, |ls|, p)
  {
    p := OwnDegree(b.connectionsIn, ls, chosen, Input, names, k);
    CountOfGroups(b, ls, chosen, p);
    OwnConnectionRelay(b, ls, chosen, names, k);
  }

  /** And one that leads to a slot has no more than that slot had. */
  lemma SignalRelayDegree(b: Border, ls: seq<Link>, chosen: set<nat>, names: Renaming, k: nat) returns (p: Port)
    requires Proper(ls) && b.Of(ls, chosen) && b.Valid(names) && b.Based()
    requires b.signalsIn.base <= k < b.signalsIn.base + |b.signalsIn.relays|
    ensures p.kind == Slot && LeadsTo(b.signalsIn, k) == RenamedPort(p, names)
    ensures AllInto(OuterLevel(b, ls, chosen), Relay(k)) <= CountTo(ls, |ls|, p)
  {
    p := OwnDegree(b.signalsIn, ls, chosen, Slot, names, k);
    CountOfGroups(b, ls, chosen, p);
    OwnSignalRelay(b, ls, chosen, names, k);
  }

  /** In the whole subgraph, a relay that leads out has at most one connection. */
  lemma LeavingDegrees(b: Border, ls: seq<Link>, chosen: set<nat>, names: Renaming, r: nat)
    requires b.Of(ls, chosen) && b.Valid(names) && b.Based() && names.Keys == chosen && Injective(names)
    ensures AllInto(InnerLevel(b, ls, chosen, names), Relay(r)) <= 1
  {
    var i := Renamed(Lying(ls, chosen, Inside), names);
    GroupRelaysDiffer(b.connectionsIn, ls, chosen, Entering(Input), names);
    GroupRelaysDiffer(b.connectionsOut, ls, chosen, Leaving(Output), names);
    GroupRelaysDiffer(b.signalsIn, ls, chosen, Entering(Slot), names);
    GroupRelaysDiffer(b.signalsOut, ls, chosen, Leaving(Event), names);
    IntoNone(EdgesOf(i), |i|, Relay(r));
    InnerElsewhere(b.connectionsIn, r);
    InnerElsewhere(b.signalsIn, r);
    InnerOnce(b.connectionsOut, r);
    InnerOnce(b.signalsOut, r);
    if r < b.signalsOut.base {
      InnerElsewhere(b.signalsOut, r);
    } else {
      InnerElsewhere(b.connectionsOut, r);
    }
    IntoFive(EdgesOf(i), InnerEdges(b.connectionsIn.relays, b.connectionsIn.base), InnerEdges(b.connectionsOut.relays, b.connectionsOut.base),
             InnerEdges(b.signalsIn.relays, b.signalsIn.base), InnerEdges(b.signalsOut.relays, b.signalsOut.base), Relay(r));
  }

  lemma {:induction false} CountFirsts(ls: seq<Link>, n: nat, entering: bool, p: Port)
    requires n <= |ls|
    ensures CountTo(Firsts(ls, n, entering), |Firsts(ls, n, entering)|, p) <= CountTo(ls, n, p)
  {
    if n > 0 {
      CountFirsts(ls, n - 1, entering, p);
      CountPrefix(Firsts(ls, n - 1, entering), [ls[n - 1]], |Firsts(ls, n - 1, entering)|, p);
    }
  }

  /** The relays of a group add no more edges to a port inside than there have been connections. */
  lemma IntoInner(g: Group, ls: seq<Link>, chosen: set<nat>, c: Class, names: Renaming, p: Port)
    requires Finds(g.links, ls, chosen, c) && g.entering == c.Entering? && g.Valid(names) && names.Keys == chosen
    requires Injective(names) && p.node in names
    ensures Into(InnerEdges(g.relays, g.base), |g.relays|, At(RenamedPort(p, names))) <= CountTo(g.links, |g.links|, p)
  {
    var fs, es := Firsts(g.links, |g.links|, g.entering), InnerEdges(g.relays, g.base);
    FirstsInside(g.links, ls, chosen, c);
    forall k | 0 <= k < |es| ensures es[k].to == At(RenamedPort(p, names)) ==> fs[k].to == p {
      assert fs[k] in fs;
      assert g.relays[k] == RelayFor(fs[k], g.entering, names);
    }
    IntoBounded(es, fs, |es|, At(RenamedPort(p, names)), p);
    CountFirsts(g.links, |g.links|, g.entering, p);
  }

  /** No port inside has more connections than before. */
  lemma InnerDegrees(b: Border, ls: seq<Link>, chosen: set<nat>, names: Renaming, p: Port)
    requires Proper(ls) && b.Of(ls, chosen) && b.Valid(names) && names.Keys == chosen && Injective(names) && p.node in chosen
    ensures var inner := EdgesOf(Renamed(Lying(ls, chosen, Inside), names)) + b.Forwarding();
            Into(inner, |inner|, At(RenamedPort(p, names))) <= CountTo(ls, |ls|, p)
  {
    var i := Lying(ls, chosen, Inside);
    var pasted, q := EdgesOf(Renamed(i, names)), At(RenamedPort(p, names));
    LyingClass(ls, chosen, Inside);
    forall k | 0 <= k < |pasted| ensures pasted[k].to == q ==> i[k].to == p {
      assert i[k] in i;
    }
    IntoBounded(pasted, i, |i|, q, p);
    IntoInner(b.connectionsIn, ls, chosen, Entering(Input), names, p);
    IntoInner(b.connectionsOut, ls, chosen, Leaving(Output), names, p);
    IntoInner(b.signalsIn, ls, chosen, Entering(Slot), names, p);
    IntoInner(b.signalsOut, ls, chosen, Leaving(Event), names, p);
    IntoFive(pasted, InnerEdges(b.connectionsIn.relays, b.connectionsIn.base), InnerEdges(b.connectionsOut.relays, b.connectionsOut.base),
             InnerEdges(b.signalsIn.relays, b.signalsIn.base), InnerEdges(b.signalsOut.relays, b.signalsOut.base), q);
    CountParts(b, ls, chosen, p);
  }

  /** Every message input had at most one connection. */
  ghost predicate Single(ls: seq<Link>) {
    forall p: Port | p.kind == Input :: CountTo(ls, |ls|, p) <= 1
  }

  /** The new message inputs, too: those of the relays that lead in, on the outside, and of all relays, on the inside. */
  lemma RelaysAreSingle(b: Border, ls: seq<Link>, chosen: set<nat>, names: Renaming, r: nat)
    requires Proper(ls) && b.Of(ls, chosen) && b.Valid(names) && b.Based() && names.Keys == chosen && Injective(names) && Single(ls)
    ensures r < |b.connectionsIn.relays| ==> AllInto(OuterLevel(b, ls, chosen), Relay(r)) <= 1
    ensures AllInto(InnerLevel(b, ls, chosen, names), Relay(r)) <= 1
  {
    if r < |b.connectionsIn.relays| {
      var p := ConnectionRelayDegree(b, ls, chosen, names, r);
      assert CountTo(ls, |ls|, p) <= 1;
    }
    LeavingDegrees(b, ls, chosen, names, r);
  }

  /** After grouping, every message input of the graph and of the subgraph still has at most one connection. */
  lemma InputsStaySingle(b: Border, ls: seq<Link>, chosen: set<nat>, names: Renaming, p: Port)
    requires Proper(ls) && b.Of(ls, chosen) && b.Valid(names) && names.Keys == chosen && Injective(names)
    requires Single(ls) && p.kind == Input
    ensures var outer := EdgesOf(Lying(ls, chosen, Outside)) + b.Edges();
            Into(outer, |outer|, At(p)) <= 1
    ensures p.node in chosen ==>
              var inner := EdgesOf(Renamed(Lying(ls, chosen, Inside), names)) + b.Forwarding();
              Into(inner, |inner|, At(RenamedPort(p, names))) <= 1
  {
    OuterDegrees(b, ls, chosen, names, p);
    if p.node in chosen {
      InnerDegrees(b, ls, chosen, names, p);
    }
  }
}

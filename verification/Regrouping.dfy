/** Ungrouping a freshly made group gives back the graph, up to the names of the nodes and the flags. */
module Regrouping {
  import opened Graphs
  import opened Grouping
  import opened GroupingCounts
  import opened Ungrouping

  // ---------------------------------------------------------------- ungrouping does not fail

  /** An edge outside that touches a relay has its other end at a port. */
  ghost predicate OneSided(es: seq<Edge>) {
    forall k | 0 <= k < |es| :: es[k].from.At? || es[k].to.At?
  }

  lemma {:induction false} PortsBeyond(outer: seq<Edge>, n: nat, r: nat)
    requires n <= |outer| && OneSided(outer)
    ensures AllPorts(Sources(outer, n, r)) && AllPorts(Targets(outer, n, r))
  {
    if n > 0 {
      PortsBeyond(outer, n - 1, r);
    }
  }

  lemma {:induction false} SourceFound(outer: seq<Edge>, n: nat, r: nat, k: nat)
    requires k < n <= |outer| && outer[k].to == Relay(r)
    ensures Sources(outer, n, r) != []
  {
    if k < n - 1 {
      SourceFound(outer, n - 1, r, k);
    }
  }

  /** Every relay that leads in is used outside. */
  lemma RelayUsed(ls: seq<Link>, r: nat) returns (k: nat)
    requires r < |Firsts(ls, |ls|, true)|
    ensures k < |ls| && RelayAt(ls, k, true, 0) == r
  {
    var fs := Firsts(ls, |ls|, true);
    FirstsAreLinks(ls, |ls|, true);
    assert fs[r] in fs && fs[r] in ls;
    k :| 0 <= k < |ls| && ls[k] == fs[r];
    PlacedAt(ls, k, true);
    FirstsDiffer(ls, |ls|, true);
  }

  lemma SourceInPart(outer: seq<Edge>, a: seq<Edge>, part: seq<Edge>, c: seq<Edge>, k: nat, r: nat)
    requires outer == a + part + c && k < |part| && part[k].to == Relay(r)
    ensures Sources(outer, |outer|, r) != []
  {
    assert outer[|a| + k] == part[k];
    SourceFound(outer, |outer|, r, |a| + k);
  }

  /** An edge inside that comes from a relay of the group has a source outside. */
  lemma ForwardingUsed(ls: seq<Link>, entering: bool, names: Renaming, base: nat, k: nat) returns (j: nat)
    requires k < |RelaysOf(ls, |ls|, entering, names)| && entering
    ensures j < |ls| && OuterEdges(ls, |ls|, entering, base)[j].to == InnerEdges(RelaysOf(ls, |ls|, entering, names), base)[k].from
  {
    j := RelayUsed(ls, k);
  }

  ghost predicate HasSource(i: Edge, outer: seq<Edge>) {
    i.from.Relay? ==> Sources(outer, |outer|, i.from.index) != []
  }

  ghost predicate AllHaveSources(es: seq<Edge>, outer: seq<Edge>) {
    forall k | 0 <= k < |es| :: HasSource(es[k], outer)
  }

  lemma GroupHasSources(g: Group, names: Renaming, outer: seq<Edge>, a: seq<Edge>, c: seq<Edge>)
    requires g.Valid(names) && outer == a + g.edges + c
    ensures AllHaveSources(InnerEdges(g.relays, g.base), outer)
  {
    forall k | 0 <= k < |g.relays| ensures HasSource(InnerEdges(g.relays, g.base)[k], outer) {
      if g.entering {
        var j := ForwardingUsed(g.links, true, names, g.base, k);
        SourceInPart(outer, a, g.edges, c, j, g.base + k);
      } else {
        assert InnerEdges(g.relays, g.base)[k] == InnerEdge(g.relays[k], g.base + k);
      }
    }
  }

  lemma SidesOfGroup(g: Group, names: Renaming)
    requires g.Valid(names)
    ensures OneSided(g.edges)
  {
    forall k | 0 <= k < |g.edges| ensures g.edges[k].from.At? || g.edges[k].to.At? {
      assert g.edges[k] == OuterEdge(g.links[k], g.entering, RelayAt(g.links, k, g.entering, g.base));
    }
  }

  lemma Split(o: seq<Edge>, a: seq<Edge>, b: seq<Edge>, c: seq<Edge>, d: seq<Edge>)
    ensures o + (a + b + c + d) == o + a + (b + c + d)
    ensures o + (a + b + c + d) == (o + a) + b + (c + d)
    ensures o + (a + b + c + d) == (o + a + b) + c + d
    ensures o + (a + b + c + d) == (o + a + b + c) + d + []
  {
  }

  lemma FiveOneSided(o: seq<Edge>, a: seq<Edge>, b: seq<Edge>, c: seq<Edge>, d: seq<Edge>)
    requires OneSided(o) && OneSided(a) && OneSided(b) && OneSided(c) && OneSided(d)
    ensures OneSided(o + (a + b + c + d))
  {
    assert OneSided(a + b);
    assert OneSided(a + b + c);
    assert OneSided(a + b + c + d);
  }

  lemma FiveHaveSources(o: seq<Edge>, a: seq<Edge>, b: seq<Edge>, c: seq<Edge>, d: seq<Edge>, outer: seq<Edge>)
    requires AllHaveSources(o, outer) && AllHaveSources(a, outer) && AllHaveSources(b, outer)
    requires AllHaveSources(c, outer) && AllHaveSources(d, outer)
    ensures AllHaveSources(o + (a + b + c + d), outer)
  {
    assert AllHaveSources(a + b, outer);
    assert AllHaveSources(a + b + c, outer);
    assert AllHaveSources(a + b + c + d, outer);
  }

  lemma GroupedHasSources(kept: seq<Edge>, pasted: seq<Edge>, b: Border, names: Renaming)
    requires b.Valid(names) && (forall k | 0 <= k < |pasted| :: IsDirect(pasted[k])) && forall k | 0 <= k < |kept| :: IsDirect(kept[k])
    ensures OneSided(kept + b.Edges()) && AllHaveSources(pasted + b.Forwarding(), kept + b.Edges())
  {
    var outer := kept + b.Edges();
    var e1, e2, e3, e4 := b.connectionsIn.edges, b.connectionsOut.edges, b.signalsIn.edges, b.signalsOut.edges;
    SidesOfGroup(b.connectionsIn, names);
    SidesOfGroup(b.connectionsOut, names);
    SidesOfGroup(b.signalsIn, names);
    SidesOfGroup(b.signalsOut, names);
    FiveOneSided(kept, e1, e2, e3, e4);
    Split(kept, e1, e2, e3, e4);
    GroupHasSources(b.connectionsIn, names, outer, kept, e2 + e3 + e4);
    GroupHasSources(b.connectionsOut, names, outer, kept + e1, e3 + e4);
    GroupHasSources(b.signalsIn, names, outer, kept + e1 + e2, e4);
    GroupHasSources(b.signalsOut, names, outer, kept + e1 + e2 + e3, []);
    assert AllHaveSources(pasted, outer);
    FiveHaveSources(pasted, InnerEdges(b.connectionsIn.relays, b.connectionsIn.base), InnerEdges(b.connectionsOut.relays, b.connectionsOut.base),
                    InnerEdges(b.signalsIn.relays, b.signalsIn.base), InnerEdges(b.signalsOut.relays, b.signalsOut.base), outer);
  }

  /** Ungrouping cannot fail if every relay that leads in has a source and none leads back to the subgraph. */
  lemma NotBlocked(outer: seq<Edge>, inner: seq<Edge>)
    requires OneSided(outer) && AllHaveSources(inner, outer)
    ensures !Blocked(outer, inner)
  {
    forall k, kind: Kind ensures !FailsAt(inner, k, kind, outer) {
      if 0 <= k < |inner| {
        var i := inner[k];
        assert HasSource(i, outer);
        if i.from.Relay? {
          PortsBeyond(outer, |outer|, i.from.index);
        } else if i.to.Relay? {
          PortsBeyond(outer, |outer|, i.to.index);
        }
      }
    }
  }

  // ---------------------------------------------------------------- flags aside

  /** How often a connection occurs, with either flag. */
  function Times(ls: seq<Link>, x: Link): nat {
    multiset(ls)[x.(active := true)] + multiset(ls)[x.(active := false)]
  }

  lemma {:induction false} JoinsEither(o: Edge, inner: seq<Edge>, n: nat, x: Link)
    requires n <= |inner|
    ensures Joins(o, inner, n, true, x.(active := true)) + Joins(o, inner, n, true, x.(active := false)) ==
            Joins(o, inner, n, false, x.(active := true)) + Joins(o, inner, n, false, x.(active := false))
  {
    if n > 0 {
      JoinsEither(o, inner, n - 1, x);
    }
  }

  lemma {:induction false} ThroughEither(outer: seq<Edge>, n: nat, inner: seq<Edge>, x: Link)
    requires n <= |outer|
    ensures Through(outer, n, inner, true, x.(active := true)) + Through(outer, n, inner, true, x.(active := false)) ==
            Through(outer, n, inner, false, x.(active := true)) + Through(outer, n, inner, false, x.(active := false))
  {
    if n > 0 {
      ThroughEither(outer, n - 1, inner, x);
      JoinsEither(outer[n - 1], inner, |inner|, x);
    }
  }

  /** Grouping and ungrouping: nothing fails, and flags aside the result is the old graph with the new names. */
  lemma GroupThenUngroup(b: Border, ls: seq<Link>, chosen: set<nat>, names: Renaming)
    requires Proper(ls) && b.Of(ls, chosen) && b.Valid(names) && b.Based() && names.Keys == chosen
    ensures var outer, inner := EdgesOf(Lying(ls, chosen, Outside)) + b.Edges(),
                                EdgesOf(Renamed(Lying(ls, chosen, Inside), names)) + b.Forwarding();
            !Blocked(outer, inner) && forall x :: Times(Unmapped(outer, inner), x) == Times(Renamed(ls, names), x)
  {
    var kept, pasted := EdgesOf(Lying(ls, chosen, Outside)), EdgesOf(Renamed(Lying(ls, chosen, Inside), names));
    var outer, inner := kept + b.Edges(), pasted + b.Forwarding();
    GroupedHasSources(kept, pasted, b, names);
    NotBlocked(outer, inner);
    forall x ensures Times(Unmapped(outer, inner), x) == Times(Renamed(ls, names), x) {
      UngroupingFlattens(outer, inner, x.(active := true));
      UngroupingFlattens(outer, inner, x.(active := false));
      ThroughEither(outer, |outer|, inner, x);
      GroupingPreserves(b, ls, chosen, names, x.(active := true));
      GroupingPreserves(b, ls, chosen, names, x.(active := false));
    }
  }
}

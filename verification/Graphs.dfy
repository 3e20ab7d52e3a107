/** Graphs of nodes with ports, and graphs with a subgraph whose relays are pairs of an external and an internal port. */
module Graphs {
  datatype Kind = Input | Slot | Output | Event

  datatype Port = Port(node: nat, kind: Kind, number: nat)

  datatype Link = Link(from: Port, to: Port, active: bool)

  /** A port of a node, or the side of a relay that belongs to the level. */
  datatype End = At(port: Port) | Relay(index: nat)

  datatype Edge = Edge(from: End, to: End, active: bool)

  predicate IsDirect(e: Edge) {
    e.from.At? && e.to.At?
  }

  function LinkOf(e: Edge): Link
    requires IsDirect(e)
  {
    Link(e.from.port, e.to.port, e.active)
  }

  function EdgeOf(l: Link): Edge {
    Edge(At(l.from), At(l.to), l.active)
  }

  function EdgesOf(ls: seq<Link>): (es: seq<Edge>)
    ensures |es| == |ls| && forall k | 0 <= k < |ls| :: es[k] == EdgeOf(ls[k])
  {
    seq(|ls|, k requires 0 <= k < |ls| => EdgeOf(ls[k]))
  }

  // ---------------------------------------------------------------- contraction of the relays

  function One(holds: bool): nat {
    if holds then 1 else 0
  }

  /** How many of the first n edges of one level are the connection x between two nodes. */
  function Direct(es: seq<Edge>, n: nat, x: Link): nat
    requires n <= |es|
  {
    if n == 0 then 0 else Direct(es, n - 1, x) + One(es[n - 1] == EdgeOf(x))
  }

  /** An edge outside and an edge inside that meet in a relay are the connection x; it takes its flag from the edge
      outside or from the one inside. */
  predicate Join(o: Edge, i: Edge, outside: bool, x: Link) {
    && x.active == (if outside then o.active else i.active)
    && ((o.from == At(x.from) && o.to.Relay? && i.from == o.to && i.to == At(x.to))
        || (i.from == At(x.from) && i.to.Relay? && o.from == i.to && o.to == At(x.to)))
  }

  function Joins(o: Edge, inner: seq<Edge>, n: nat, outside: bool, x: Link): nat
    requires n <= |inner|
  {
    if n == 0 then 0 else Joins(o, inner, n - 1, outside, x) + One(Join(o, inner[n - 1], outside, x))
  }

  function Through(outer: seq<Edge>, n: nat, inner: seq<Edge>, outside: bool, x: Link): nat
    requires n <= |outer|
  {
    if n == 0 then 0 else Through(outer, n - 1, inner, outside, x) + Joins(outer[n - 1], inner, |inner|, outside, x)
  }

  /** How often both levels together stand for the connection x. */
  function Flatten(outer: seq<Edge>, inner: seq<Edge>, outside: bool, x: Link): nat {
    Direct(outer, |outer|, x) + Direct(inner, |inner|, x) + Through(outer, |outer|, inner, outside, x)
  }

  lemma {:induction false} DirectPrefix(a: seq<Edge>, b: seq<Edge>, n: nat, x: Link)
    requires n <= |a|
    ensures Direct(a + b, n, x) == Direct(a, n, x)
  {
    if n > 0 {
      DirectPrefix(a, b, n - 1, x);
    }
  }

  lemma {:induction false} DirectConcat(a: seq<Edge>, b: seq<Edge>, n: nat, x: Link)
    requires n <= |b|
    ensures Direct(a + b, |a| + n, x) == Direct(a, |a|, x) + Direct(b, n, x)
  {
    if n == 0 {
      DirectPrefix(a, b, |a|, x);
    } else {
      DirectConcat(a, b, n - 1, x);
    }
  }

  lemma DirectSum(a: seq<Edge>, b: seq<Edge>, x: Link)
    ensures Direct(a + b, |a + b|, x) == Direct(a, |a|, x) + Direct(b, |b|, x)
  {
    DirectConcat(a, b, |b|, x);
  }

  lemma {:induction false} ThroughPrefix(a: seq<Edge>, b: seq<Edge>, n: nat, inner: seq<Edge>, outside: bool, x: Link)
    requires n <= |a|
    ensures Through(a + b, n, inner, outside, x) == Through(a, n, inner, outside, x)
  {
    if n > 0 {
      ThroughPrefix(a, b, n - 1, inner, outside, x);
    }
  }

  lemma {:induction false} ThroughConcat(a: seq<Edge>, b: seq<Edge>, n: nat, inner: seq<Edge>, outside: bool, x: Link)
    requires n <= |b|
    ensures Through(a + b, |a| + n, inner, outside, x) == Through(a, |a|, inner, outside, x) + Through(b, n, inner, outside, x)
  {
    if n == 0 {
      ThroughPrefix(a, b, |a|, inner, outside, x);
    } else {
      ThroughConcat(a, b, n - 1, inner, outside, x);
    }
  }

  lemma ThroughSum(a: seq<Edge>, b: seq<Edge>, inner: seq<Edge>, outside: bool, x: Link)
    ensures Through(a + b, |a + b|, inner, outside, x) == Through(a, |a|, inner, outside, x) + Through(b, |b|, inner, outside, x)
  {
    ThroughConcat(a, b, |b|, inner, outside, x);
  }

  lemma FourParts(a: seq<Edge>, b: seq<Edge>, c: seq<Edge>, d: seq<Edge>, inner: seq<Edge>, outside: bool, x: Link)
    ensures var es := a + b + c + d;
            && Direct(es, |es|, x) == Direct(a, |a|, x) + Direct(b, |b|, x) + Direct(c, |c|, x) + Direct(d, |d|, x)
            && Through(es, |es|, inner, outside, x) ==
               Through(a, |a|, inner, outside, x) + Through(b, |b|, inner, outside, x)
               + Through(c, |c|, inner, outside, x) + Through(d, |d|, inner, outside, x)
  {
    DirectSum(a, b, x);
    DirectSum(a + b, c, x);
    DirectSum(a + b + c, d, x);
    ThroughSum(a, b, inner, outside, x);
    ThroughSum(a + b, c, inner, outside, x);
    ThroughSum(a + b + c, d, inner, outside, x);
  }

  /** At most one edge inside meets o. */
  lemma {:induction false} OneJoin(o: Edge, inner: seq<Edge>, n: nat, k: nat, outside: bool, x: Link)
    requires n <= |inner| && forall j | 0 <= j < |inner| && j != k :: !Join(o, inner[j], outside, x)
    ensures Joins(o, inner, n, outside, x) == if k < n then One(Join(o, inner[k], outside, x)) else 0
  {
    if n > 0 {
      OneJoin(o, inner, n - 1, k, outside, x);
    }
  }

  lemma {:induction false} NothingThrough(outer: seq<Edge>, n: nat, inner: seq<Edge>, outside: bool, x: Link)
    requires n <= |outer| && forall k | 0 <= k < |outer| :: IsDirect(outer[k])
    ensures Through(outer, n, inner, outside, x) == 0
  {
    if n > 0 {
      NothingThrough(outer, n - 1, inner, outside, x);
      OneJoin(outer[n - 1], inner, |inner|, |inner|, outside, x);
    }
  }

  lemma {:induction false} NothingDirect(es: seq<Edge>, n: nat, x: Link)
    requires n <= |es| && forall k | 0 <= k < |es| :: !IsDirect(es[k])
    ensures Direct(es, n, x) == 0
  {
    if n > 0 {
      NothingDirect(es, n - 1, x);
    }
  }

  lemma {:induction false} DirectOfLinks(ls: seq<Link>, n: nat, x: Link)
    requires n <= |ls|
    ensures Direct(EdgesOf(ls), n, x) == multiset(ls[..n])[x]
  {
    if n > 0 {
      DirectOfLinks(ls, n - 1, x);
      assert ls[..n] == ls[..n - 1] + [ls[n - 1]];
    }
  }

  lemma DirectOfAllLinks(ls: seq<Link>, x: Link)
    ensures Direct(EdgesOf(ls), |ls|, x) == multiset(ls)[x]
  {
    DirectOfLinks(ls, |ls|, x);
    assert ls[..|ls|] == ls;
  }

  // ---------------------------------------------------------------- renaming

  type Renaming = map<nat, nat>

  function RenamedPort(p: Port, names: Renaming): Port {
    if p.node in names then p.(node := names[p.node]) else p
  }

  function RenamedLink(l: Link, names: Renaming): Link {
    Link(RenamedPort(l.from, names), RenamedPort(l.to, names), l.active)
  }

  function Renamed(ls: seq<Link>, names: Renaming): (r: seq<Link>)
    ensures |r| == |ls| && forall k | 0 <= k < |ls| :: r[k] == RenamedLink(ls[k], names)
  {
    seq(|ls|, k requires 0 <= k < |ls| => RenamedLink(ls[k], names))
  }

  lemma RenamedConcat(a: seq<Link>, b: seq<Link>, names: Renaming)
    ensures Renamed(a + b, names) == Renamed(a, names) + Renamed(b, names)
  {
  }

  /** How many of the first n connections are x when they are renamed. */
  function RenamedTo(ls: seq<Link>, n: nat, names: Renaming, x: Link): nat
    requires n <= |ls|
  {
    if n == 0 then 0 else RenamedTo(ls, n - 1, names, x) + One(RenamedLink(ls[n - 1], names) == x)
  }

  /** If every edge outside makes one of the connections, all of them together make all. */
  lemma {:induction false} ThroughRenamed(outer: seq<Edge>, n: nat, inner: seq<Edge>, ls: seq<Link>, names: Renaming, x: Link)
    requires n <= |outer| == |ls|
    requires forall k | 0 <= k < |ls| :: Joins(outer[k], inner, |inner|, true, x) == One(RenamedLink(ls[k], names) == x)
    ensures Through(outer, n, inner, true, x) == RenamedTo(ls, n, names, x)
  {
    if n > 0 {
      ThroughRenamed(outer, n - 1, inner, ls, names, x);
    }
  }

  lemma {:induction false} RenamedCounted(ls: seq<Link>, n: nat, names: Renaming, x: Link)
    requires n <= |ls|
    ensures RenamedTo(ls, n, names, x) == multiset(Renamed(ls, names)[..n])[x]
  {
    if n > 0 {
      RenamedCounted(ls, n - 1, names, x);
      assert Renamed(ls, names)[..n] == Renamed(ls, names)[..n - 1] + [RenamedLink(ls[n - 1], names)];
    }
  }

  lemma Without(ls: seq<Link>, k: nat)
    requires k < |ls|
    ensures multiset(ls) == multiset(ls[..k] + ls[k + 1..]) + multiset{ls[k]}
  {
    assert ls == ls[..k] + [ls[k]] + ls[k + 1..];
  }

  /** Taking one link out commutes with renaming. */
  lemma RenamedWithout(a: seq<Link>, x: Link, names: Renaming) returns (rest: seq<Link>)
    requires x in a
    ensures |rest| == |a| - 1
    ensures multiset(a) == multiset(rest) + multiset{x}
    ensures multiset(Renamed(a, names)) == multiset(Renamed(rest, names)) + multiset{RenamedLink(x, names)}
  {
    var k :| 0 <= k < |a| && a[k] == x;
    rest := a[..k] + a[k + 1..];
    Without(a, k);
    Without(Renamed(a, names), k);
    assert Renamed(rest, names) == Renamed(a, names)[..k] + Renamed(a, names)[k + 1..];
  }

  /** Renaming does not depend on the order. */
  lemma {:induction false} RenamedOrder(a: seq<Link>, b: seq<Link>, names: Renaming)
    requires multiset(a) == multiset(b)
    ensures multiset(Renamed(a, names)) == multiset(Renamed(b, names))
    decreases |a|
  {
    if a == [] {
      assert |multiset(b)| == 0;
    } else {
      var x := a[0];
      assert x in multiset(b);
      var c := RenamedWithout(a, x, names);
      var d := RenamedWithout(b, x, names);
      assert multiset(c) == multiset(a) - multiset{x};
      assert multiset(d) == multiset(b) - multiset{x};
      RenamedOrder(c, d, names);
    }
  }
}

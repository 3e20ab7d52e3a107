/** The edges inside of the relays that grouping makes. */
module GroupingFlags {
  import opened Graphs
  import opened Grouping

  /** The first of the connections with the port p inside is at place m. */
  ghost predicate FirstWith(ls: seq<Link>, entering: bool, p: Port, m: nat) {
    m < |ls| && Inner(ls[m], entering) == p && forall j | 0 <= j < m :: Inner(ls[j], entering) != p
  }

  lemma KnownPort(ls: seq<Link>, n: nat, j: nat, entering: bool)
    requires j < n <= |ls|
    ensures var fs := Firsts(ls, n, entering); Place(fs, |fs|, entering, Inner(ls[j], entering)) < |fs|
  {
    var gs, fs := Firsts(ls, j + 1, entering), Firsts(ls, n, entering);
    var k := RelayAt(ls, j, entering, 0);
    FirstsPrefix(ls, j + 1, n, entering);
    assert k < |gs| && gs[k] == fs[k] && Inner(gs[k], entering) == Inner(ls[j], entering);
    PlaceFound(fs, |fs|, entering, k);
  }

  lemma {:induction false} FirstAt(ls: seq<Link>, n: nat, k: nat, entering: bool) returns (m: nat)
    requires n <= |ls| && k < |Firsts(ls, n, entering)|
    ensures m < n && Firsts(ls, n, entering)[k] == ls[m] && FirstWith(ls, entering, Inner(ls[m], entering), m)
  {
    var fs := Firsts(ls, n - 1, entering);
    if k < |fs| {
      m := FirstAt(ls, n - 1, k, entering);
    } else {
      m := n - 1;
      forall j | 0 <= j < m ensures Inner(ls[j], entering) != Inner(ls[m], entering) {
        KnownPort(ls, n - 1, j, entering);
      }
    }
  }

  function EdgeInside(entering: bool, r: nat, p: Port, active: bool): Edge {
    if entering then Edge(Relay(r), At(p), active) else Edge(At(p), Relay(r), active)
  }

  lemma EdgeOfFirst(fs: seq<Link>, k: nat, entering: bool, names: Renaming, base: nat)
    requires k < |fs|
    ensures InnerEdges(RelaysFor(fs, entering, names), base)[k]
            == EdgeInside(entering, base + k, RenamedPort(Inner(fs[k], entering), names), fs[k].active)
  {
  }

  lemma RelayShift(ls: seq<Link>, n: nat, entering: bool, base: nat)
    requires n < |ls|
    ensures RelayAt(ls, n, entering, base) == base + RelayAt(ls, n, entering, 0)
  {
  }

  /** The edge inside of the relay that connection n goes through leads to the port of connection n under its new name, and has
      the flag of the first connection of this port. */
  lemma RelayEdge(ls: seq<Link>, n: nat, entering: bool, names: Renaming, base: nat) returns (m: nat, k: nat)
    requires n < |ls|
    ensures m < |ls| && FirstWith(ls, entering, Inner(ls[n], entering), m)
    ensures RelayAt(ls, n, entering, base) == base + k && k < |RelaysOf(ls, |ls|, entering, names)|
    ensures InnerEdges(RelaysOf(ls, |ls|, entering, names), base)[k]
            == EdgeInside(entering, base + k, RenamedPort(Inner(ls[n], entering), names), ls[m].active)
  {
    k := RelayAt(ls, n, entering, 0);
    RelayShift(ls, n, entering, base);
    PlacedAt(ls, n, entering);
    m := FirstAt(ls, |ls|, k, entering);
    EdgeOfFirst(Firsts(ls, |ls|, entering), k, entering, names, base);
  }
}
